/**
 The build routine of the installer builder: move `node_modules` out of the
 way, read and patch the settings, resolve the targets, call the packaging
 engine once and move `node_modules` back, whatever the engine did.

 The file system is reduced to where the `node_modules` directory is; the
 packaging engine to the result it reports; `process.exit` to a terminal state.
 */
module InstallerBuilder {
  import opened Targets
  import opened BuilderSettings

  /** Where the `node_modules` directory of the desktop app currently is. */
  datatype Location = Original | Temporary

  /** What the packaging engine's `build` call does: resolve, or throw an error. */
  datatype EngineResult = Succeeded | Failed(error: string)

  /** The engine's target list: platforms paired with one architecture (createTargets, left uninterpreted). */
  datatype TargetMatrix = TargetMatrix(platforms: seq<Platform>, arch: Arch)

  /** What the routine hands to the packaging engine. */
  datatype Request = Request(targets: TargetMatrix, options: map<string, Value>)

  /** The observable effects of the routine, in order. */
  datatype Step =
    | Stage              // node_modules moved to the temporary location
    | Exit(code: int)    // process.exit
    | Invoke(request: Request)
    | Restore            // node_modules moved back

  /** How a run of the routine ended. */
  datatype Outcome =
    | Running
    | Aborted(exitCode: int)      // no builderOptions: the process exits
    | OverrideThrew               // builderOptions is not an object: a TypeError leaves the routine
    | BuiltOk
    | BuildFailed(error: string)  // the engine threw; the error was caught and logged

  /** The routine returns to its caller (it neither exits the process nor throws). */
  predicate ReturnsNormally(out: Outcome)
  {
    out.BuiltOk? || out.BuildFailed?
  }

  /** Where the directory is after one step. */
  function Apply(step: Step, at: Location): Location
  {
    match step
    case Stage => Temporary
    case Restore => Original
    case _ => at
  }

  /** Where the directory ends after a sequence of steps, started at `at`. */
  function Replay(steps: seq<Step>, at: Location): Location
  {
    if steps == [] then at else Replay(steps[1..], Apply(steps[0], at))
  }

  lemma {:induction false} ReplayAppend(a: seq<Step>, b: seq<Step>, at: Location)
    ensures Replay(a + b, at) == Replay(b, Replay(a, at))
  {
    if a != [] {
      assert (a + b)[1..] == a[1..] + b;
      ReplayAppend(a[1..], b, Apply(a[0], at));
    } else {
      assert a + b == b;
    }
  }

  /** How many times a sequence of steps calls the packaging engine. */
  function Invocations(steps: seq<Step>): nat
  {
    if steps == [] then 0 else (if steps[0].Invoke? then 1 else 0) + Invocations(steps[1..])
  }

  lemma {:induction false} InvocationsAppend(a: seq<Step>, b: seq<Step>)
    ensures Invocations(a + b) == Invocations(a) + Invocations(b)
  {
    if a != [] {
      assert (a + b)[1..] == a[1..] + b;
      InvocationsAppend(a[1..], b);
    } else {
      assert a + b == b;
    }
  }

  /** What one run of the routine does. */
  datatype RunRecord = RunRecord(steps: seq<Step>, location: Location, outcome: Outcome, values: map<string, Value>)

  /** The request for the engine, once the settings are patched. */
  function RequestFor(o: Options, host: HostOs, opts: map<string, Value>): Request
  {
    Request(TargetMatrix(PlatformsFor(o, host), ArchFor(o)), WithForcedOverrides(opts))
  }

  /**
   One run of the routine on the settings `values`, with the engine reporting
   `engine`. Staging comes first, before the settings are even read.
   */
  function Run(values: map<string, Value>, o: Options, host: HostOs, engine: EngineResult): (r: RunRecord)
    // staging happens on every path, before the builderOptions check
    ensures |r.steps| >= 1 && r.steps[0] == Stage
    // no builderOptions: the process exits with status 1, never builds, and leaves the directory staged
    ensures r.outcome.Aborted? <==> BuilderOptionsKey !in values
    ensures r.outcome.Aborted? ==> r.outcome.exitCode == 1 && r.location == Temporary && r.values == values
    ensures BuilderOptionsKey !in values ==> r.steps == [Stage, Exit(1)]
    // builderOptions not an object: the TypeError leaves the routine after staging, settings untouched
    ensures BuilderOptionsKey in values && !AcceptsOverrides(values) ==>
              r.outcome == OverrideThrew && r.values == values && r.steps == [Stage]
    // the directory is back exactly when the engine was called, whatever it reported
    ensures r.location == Original <==> AcceptsOverrides(values)
    // the engine's error is caught: the routine returns normally whenever the engine was called
    ensures ReturnsNormally(r.outcome) <==> AcceptsOverrides(values)
    ensures AcceptsOverrides(values) ==> (r.outcome == BuiltOk <==> engine == Succeeded)
    // stage, one engine call with the patched options and the resolved targets, restore
    ensures AcceptsOverrides(values) ==>
              r.steps == [Stage, Invoke(RequestFor(o, host, values[BuilderOptionsKey].fields)), Restore]
              && r.values == values[BuilderOptionsKey := Obj(WithForcedOverrides(values[BuilderOptionsKey].fields))]
  {
    if BuilderOptionsKey !in values then
      var steps := [Stage, Exit(1)];
      RunRecord(steps, Temporary, Aborted(1), values)
    else if !values[BuilderOptionsKey].Obj? then
      var steps := [Stage];
      RunRecord(steps, Temporary, OverrideThrew, values)
    else
      var opts := values[BuilderOptionsKey].fields;
      var steps := [Stage, Invoke(RequestFor(o, host, opts)), Restore];
      RunRecord(
        steps,
        Original,
        if engine.Succeeded? then BuiltOk else BuildFailed(engine.error),
        values[BuilderOptionsKey := Obj(WithForcedOverrides(opts))])
  }

  /**
   The trace of a run agrees with what the run reports: replaying its moves
   from wherever the directory started gives the reported location, and the
   engine is called exactly once when the overrides could be applied, never
   otherwise.
   */
  lemma RunTraceAgrees(values: map<string, Value>, o: Options, host: HostOs, engine: EngineResult)
    ensures var r := Run(values, o, host, engine);
            && (forall at :: Replay(r.steps, at) == r.location)
            && Invocations(r.steps) == if AcceptsOverrides(values) then 1 else 0
  {
    var r := Run(values, o, host, engine);
    if BuilderOptionsKey !in values {
      assert r.steps[1..] == [Exit(1)] && r.steps[1..][1..] == [];
      assert Replay(r.steps[1..], Temporary) == Temporary;
    } else if AcceptsOverrides(values) {
      var rest := r.steps[1..];
      assert rest[1..] == [Restore] && rest[1..][1..] == [];
      assert Replay(rest[1..], Temporary) == Original;
      assert Replay(rest, Temporary) == Original;
      assert Invocations(rest[1..]) == 0;
    } else {
      assert r.steps[1..] == [];
    }
  }

  /**
   A builder bound to one desktop environment: its option flags and host OS are
   fixed, the location of `node_modules`, the engine calls made so far and the
   outcome of the last run change as it runs.
   */
  class Builder {
    const options: Options
    const host: HostOs
    var location: Location
    var invocations: nat
    var outcome: Outcome
    /** Every effect so far, oldest first. */
    ghost var trace: seq<Step>

    /** The fields agree with the effects recorded so far. */
    ghost predicate Valid()
      reads this
    {
      location == Replay(trace, Original) && invocations == Invocations(trace)
    }

    constructor (options: Options, host: HostOs)
      ensures Valid()
      ensures this.options == options && this.host == host
      ensures location == Original && invocations == 0 && outcome == Running && trace == []
    {
      this.options := options;
      this.host := host;
      location := Original;
      invocations := 0;
      outcome := Running;
      trace := [];
    }

    /** `shell.mv` of node_modules to its temporary name. */
    method StageNodeModules()
      requires Valid()
      modifies this
      ensures Valid()
      ensures location == Temporary && trace == old(trace) + [Stage]
      ensures invocations == old(invocations) && outcome == old(outcome)
    {
      ReplayAppend(trace, [Stage], Original);
      InvocationsAppend(trace, [Stage]);
      location := Temporary;
      trace := trace + [Stage];
    }

    /** `shell.mv` of node_modules back to its own name. */
    method RestoreNodeModules()
      requires Valid()
      modifies this
      ensures Valid()
      ensures location == Original && trace == old(trace) + [Restore]
      ensures invocations == old(invocations) && outcome == old(outcome)
    {
      ReplayAppend(trace, [Restore], Original);
      InvocationsAppend(trace, [Restore]);
      location := Original;
      trace := trace + [Restore];
    }

    /** The awaited engine call inside `try`, with its `catch`. */
    method CallEngine(request: Request, engine: EngineResult)
      requires Valid()
      modifies this
      ensures Valid()
      ensures invocations == old(invocations) + 1 && trace == old(trace) + [Invoke(request)]
      ensures outcome == if engine.Succeeded? then BuiltOk else BuildFailed(engine.error)
      ensures location == old(location)
    {
      ReplayAppend(trace, [Invoke(request)], Original);
      InvocationsAppend(trace, [Invoke(request)]);
      invocations := invocations + 1;
      trace := trace + [Invoke(request)];
      if engine.Succeeded? {
        outcome := BuiltOk;
      } else {
        outcome := BuildFailed(engine.error);
      }
    }

    /** `process.exit(code)`: recorded, and the run ends aborted. */
    method ExitProcess(code: int)
      requires Valid()
      modifies this
      ensures Valid()
      ensures outcome == Aborted(code) && trace == old(trace) + [Exit(code)]
      ensures location == old(location) && invocations == old(invocations)
    {
      ReplayAppend(trace, [Exit(code)], Original);
      InvocationsAppend(trace, [Exit(code)]);
      trace := trace + [Exit(code)];
      outcome := Aborted(code);
    }

    /**
     From the architecture onwards: resolve the targets, then the engine call
     in `try`, its `catch`, and the move back in `finally`. `opts` is the
     patched `builderOptions`.
     */
    method PackageAndRestore(opts: map<string, Value>, engine: EngineResult)
      requires Valid()
      modifies this
      ensures Valid()
      ensures trace == old(trace) + [Invoke(Request(TargetMatrix(PlatformsFor(options, host), ArchFor(options)), opts)), Restore]
      ensures location == Original && invocations == old(invocations) + 1
      ensures outcome == if engine.Succeeded? then BuiltOk else BuildFailed(engine.error)
    {
      var arch := ResolveArch(options);
      var platforms := ResolvePlatforms(options, host);
      var request := Request(TargetMatrix(platforms, arch), opts);
      CallEngine(request, engine);
      RestoreNodeModules();
    }

    /**
     The build routine. `settings` is what the desktop's settings lookup returns;
     `engine` is what the packaging engine will do, so the contract holds for
     either engine result.
     */
    method Build(settings: Settings, engine: EngineResult)
      requires Valid()
      requires !outcome.Aborted?  // an exited process runs nothing more
      modifies this, settings
      ensures Valid()
      ensures var r := Run(old(settings.values), options, host, engine);
              && trace == old(trace) + r.steps
              && location == r.location
              && outcome == r.outcome
              && invocations == old(invocations) + Invocations(r.steps)
              && settings.values == r.values
    {
      RunTraceAgrees(settings.values, options, host, engine);
      outcome := Running;
      StageNodeModules();

      if BuilderOptionsKey !in settings.values {  // the `'builderOptions' in settings` test
        ExitProcess(1);
        return;
      }

      var ok := settings.ForceOverrides();
      if !ok {
        outcome := OverrideThrew;
        return;
      }

      PackageAndRestore(settings.values[BuilderOptionsKey].fields, engine);
    }
  }
}
