/**
 The desktop settings object and the two packaging options the build routine
 forces on its `builderOptions` entry before handing it to the packaging engine.
 */
module BuilderSettings {

  /**
   A value of the settings object, as read from settings.json. Numbers are
   kept as integers: the build routine never looks at them.
   */
  datatype Value =
    | Null
    | Bool(b: bool)
    | Num(n: int)
    | Str(s: string)
    | Obj(fields: map<string, Value>)

  const BuilderOptionsKey: string := "builderOptions"
  /** Disables asar packing by the packaging engine (the app is already packed). */
  const AsarKey: string := "asar"
  /** Asks the packaging engine to rebuild native dependencies. */
  const NpmRebuildKey: string := "npmRebuild"

  /** `builderOptions` with `asar` forced off and `npmRebuild` forced on. */
  function WithForcedOverrides(opts: map<string, Value>): (r: map<string, Value>)
    ensures r.Keys == opts.Keys + {AsarKey, NpmRebuildKey}
    ensures AsarKey in r && r[AsarKey] == Bool(false)
    ensures NpmRebuildKey in r && r[NpmRebuildKey] == Bool(true)
    ensures forall k :: k in opts && k != AsarKey && k != NpmRebuildKey ==> k in r && r[k] == opts[k]
  {
    opts[AsarKey := Bool(false)][NpmRebuildKey := Bool(true)]
  }

  /** Whether the two property assignments can be made: only on an object. */
  predicate AcceptsOverrides(values: map<string, Value>)
  {
    BuilderOptionsKey in values && values[BuilderOptionsKey].Obj?
  }

  /**
   The settings object returned to the build routine. It is updated in place:
   the overrides are visible to anyone else holding the same object.
   */
  class Settings {
    var values: map<string, Value>

    constructor (values: map<string, Value>)
      ensures this.values == values
    {
      this.values := values;
    }

    /**
     The assignments `builderOptions.asar = false` and
     `builderOptions.npmRebuild = true`. In strict-mode code assigning a
     property of a missing, null or primitive value throws a TypeError; `ok`
     is false exactly then, and nothing has changed.
     */
    method ForceOverrides() returns (ok: bool)
      modifies this
      ensures ok <==> AcceptsOverrides(old(values))
      ensures ok ==> values == old(values)[BuilderOptionsKey := Obj(WithForcedOverrides(old(values)[BuilderOptionsKey].fields))]
      ensures !ok ==> values == old(values)
    {
      ok := AcceptsOverrides(values);
      if ok {
        var opts := values[BuilderOptionsKey].fields;
        opts := opts[AsarKey := Bool(false)];
        opts := opts[NpmRebuildKey := Bool(true)];
        values := values[BuilderOptionsKey := Obj(opts)];
      }
    }
  }
}
