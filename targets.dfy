/**
 Target resolution of the installer build: the option flags of the desktop
 environment and the host operating system decide one architecture and an
 ordered, non-empty list of platforms for the packaging engine.
 */
module Targets {

  datatype Arch = Ia32 | X64 | All

  datatype Platform = Windows | Linux | Mac

  /** The command-line flags that select what to package. */
  datatype Options = Options(ia32: bool, allArchs: bool, win: bool, linux: bool, mac: bool)

  /** What the environment knows about the machine the build runs on. */
  datatype HostOs = HostOs(isWindows: bool, isLinux: bool)

  // ---------------------------------------------------------------------------
  // Architecture

  /** The architecture a run packages for: `allArchs` overrides `ia32`. */
  function ArchFor(o: Options): (a: Arch)
    ensures a == All <==> o.allArchs
    ensures a == Ia32 <==> !o.allArchs && o.ia32
    ensures a == X64 <==> !o.allArchs && !o.ia32
  {
    if o.allArchs then All else if o.ia32 then Ia32 else X64
  }

  /** With `allArchs` set, the value of `ia32` makes no difference. */
  lemma AllArchsIgnoresIa32(o: Options)
    requires o.allArchs
    ensures ArchFor(o.(ia32 := true)) == ArchFor(o.(ia32 := false)) == All
  {
  }

  /** The two successive assignments to `arch` in the build routine. */
  method ResolveArch(o: Options) returns (arch: Arch)
    ensures arch == ArchFor(o)
  {
    arch := if o.ia32 then Ia32 else X64;
    arch := if o.allArchs then All else arch;
  }

  // ---------------------------------------------------------------------------
  // Platforms

  /** The fixed order in which the platform flags are consulted. */
  const PlatformOrder: seq<Platform> := [Windows, Linux, Mac]

  /** Position of a platform in PlatformOrder. */
  function Rank(p: Platform): (k: nat)
    ensures k < |PlatformOrder| && PlatformOrder[k] == p
  {
    match p
    case Windows => 0
    case Linux => 1
    case Mac => 2
  }

  /** Whether the flags ask for platform `p`. */
  predicate Flagged(o: Options, p: Platform)
  {
    match p
    case Windows => o.win
    case Linux => o.linux
    case Mac => o.mac
  }

  predicate AnyFlag(o: Options)
  {
    o.win || o.linux || o.mac
  }

  /** Each platform strictly after the previous one in PlatformOrder (so no platform twice). */
  predicate StrictlyOrdered(ps: seq<Platform>)
  {
    forall i, j :: 0 <= i < j < |ps| ==> Rank(ps[i]) < Rank(ps[j])
  }

  predicate NoDuplicates(ps: seq<Platform>)
  {
    forall i, j :: 0 <= i < j < |ps| ==> ps[i] != ps[j]
  }

  /** The flagged platforms of `ps`, in the order of `ps`. */
  function Keep(ps: seq<Platform>, o: Options): (r: seq<Platform>)
    ensures forall p :: p in r <==> p in ps && Flagged(o, p)
    ensures StrictlyOrdered(ps) ==> StrictlyOrdered(r)
  {
    if ps == [] then []
    else
      var rest := Keep(ps[1..], o);
      if Flagged(o, ps[0]) then
        assert StrictlyOrdered(ps) ==> forall k :: 0 <= k < |rest| ==> Rank(ps[0]) < Rank(rest[k]) by {
          if StrictlyOrdered(ps) {
            forall k | 0 <= k < |rest|
              ensures Rank(ps[0]) < Rank(rest[k])
            {
              assert rest[k] in ps[1..];
              var m :| 0 <= m < |ps[1..]| && ps[1..][m] == rest[k];
              assert ps[m + 1] == rest[k];
            }
          }
        }
        [ps[0]] + rest
      else rest
  }

  /** The platforms the flags ask for, windows first, then linux, then mac. */
  function Requested(o: Options): (r: seq<Platform>)
    ensures forall p :: p in r <==> Flagged(o, p)
    ensures StrictlyOrdered(r)
    ensures r == [] <==> !AnyFlag(o)
  {
    var r := Keep(PlatformOrder, o);
    assert Windows in PlatformOrder && Linux in PlatformOrder && Mac in PlatformOrder;
    assert r != [] ==> r[0] in r && Flagged(o, r[0]);
    assert AnyFlag(o) ==> Windows in r || Linux in r || Mac in r;
    r
  }

  /** The single platform chosen from the host when no flag is set. */
  function Fallback(host: HostOs): (p: Platform)
    ensures p == Windows <==> host.isWindows
    ensures p == Linux <==> !host.isWindows && host.isLinux
    ensures p == Mac <==> !host.isWindows && !host.isLinux
  {
    if host.isWindows then Windows else if host.isLinux then Linux else Mac
  }

  /** The platform list handed to the packaging engine. */
  function PlatformsFor(o: Options, host: HostOs): (r: seq<Platform>)
    ensures |r| >= 1
    ensures StrictlyOrdered(r) && NoDuplicates(r)
    ensures AnyFlag(o) ==> forall p :: p in r <==> Flagged(o, p)
    ensures !AnyFlag(o) ==> r == [Fallback(host)]
  {
    var requested := Requested(o);
    if requested == [] then [Fallback(host)] else requested
  }

  /** When a platform flag is set, the host is not consulted. */
  lemma HostIgnoredWhenFlagged(o: Options, h1: HostOs, h2: HostOs)
    requires AnyFlag(o)
    ensures PlatformsFor(o, h1) == PlatformsFor(o, h2)
  {
  }

  /** The head of a strictly ordered list has the least rank of all its members. */
  lemma HeadHasLeastRank(a: seq<Platform>, p: Platform)
    requires StrictlyOrdered(a) && p in a
    ensures Rank(a[0]) <= Rank(p)
  {
    var k :| 0 <= k < |a| && a[k] == p;
    assert k == 0 || Rank(a[0]) < Rank(a[k]);
  }

  /**
   Membership and order pin a platform list down: two strictly ordered lists
   with the same members are equal. Together with PlatformsFor's contract this
   says the list is exactly the flagged platforms in the order windows, linux, mac.
   */
  lemma {:induction false} OrderedListsWithSameMembersAreEqual(a: seq<Platform>, b: seq<Platform>)
    requires StrictlyOrdered(a) && StrictlyOrdered(b)
    requires forall p :: p in a <==> p in b
    ensures a == b
  {
    assert a != [] ==> a[0] in b;
    assert b != [] ==> b[0] in a;
    if a != [] && b != [] {
      HeadHasLeastRank(a, b[0]);
      HeadHasLeastRank(b, a[0]);
      assert a[0] == b[0] by {
        assert PlatformOrder[Rank(a[0])] == a[0] && PlatformOrder[Rank(b[0])] == b[0];
      }
      forall p
        ensures p in a[1..] <==> p in b[1..]
      {
        if p in a[1..] {
          var k :| 1 <= k < |a| && a[k] == p;
          assert Rank(a[0]) < Rank(a[k]) && p in a && p in b;
          var m :| 0 <= m < |b| && b[m] == p;
          assert m != 0 && b[m] == b[1..][m - 1];
        }
        if p in b[1..] {
          var k :| 1 <= k < |b| && b[k] == p;
          assert Rank(b[0]) < Rank(b[k]) && p in b && p in a;
          var m :| 0 <= m < |a| && a[m] == p;
          assert m != 0 && a[m] == a[1..][m - 1];
        }
      }
      OrderedListsWithSameMembersAreEqual(a[1..], b[1..]);
      assert a == [a[0]] + a[1..] && b == [b[0]] + b[1..];
    }
  }

  /** The flagged platforms, exactly, in the fixed order: the only list with those members and that order. */
  lemma FlaggedPlatformsExactly(o: Options, host: HostOs, ps: seq<Platform>)
    requires AnyFlag(o)
    requires StrictlyOrdered(ps) && forall p :: p in ps <==> Flagged(o, p)
    ensures PlatformsFor(o, host) == ps
  {
    OrderedListsWithSameMembersAreEqual(PlatformsFor(o, host), ps);
  }

  /** The pushes onto `targets`, first from the flags, then the host fallback. */
  method ResolvePlatforms(o: Options, host: HostOs) returns (targets: seq<Platform>)
    ensures targets == PlatformsFor(o, host)
  {
    targets := [];
    if o.win {
      targets := targets + [Windows];
    }
    if o.linux {
      targets := targets + [Linux];
    }
    if o.mac {
      targets := targets + [Mac];
    }
    assert forall p :: p in targets <==> Flagged(o, p);
    assert StrictlyOrdered(targets);
    if |targets| == 0 {
      if host.isWindows {
        targets := targets + [Windows];
      } else if host.isLinux {
        targets := targets + [Linux];
      } else {
        targets := targets + [Mac];
      }
    } else {
      OrderedListsWithSameMembersAreEqual(targets, Requested(o));
    }
  }
}
