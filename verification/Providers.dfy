/** The provider registry and the timeouts that it feeds to the sweep
    (modules/runtime/provider.go, `runSweeper` in modules/runtime/api.go). */
module Providers {
  import opened Wrappers
  import U = UpgradeTasks

  const ACTIVE := "active"
  const DISABLED := "disabled"
  const DEFAULT_TIMEOUT := 600

  datatype Def = Def(name: string, timeoutSec: int, status: string)

  /** Built once, then only read or replaced as a whole. */
  datatype Snapshot = Snapshot(byName: map<string, Def>, activeNames: seq<string>) {
    predicate IsActiveKind(name: string) {
      name in byName && byName[name].status == ACTIVE
    }

    function TimeoutSec(name: string): (seconds: int)
      ensures seconds > 0
    {
      if name in byName && byName[name].timeoutSec > 0 then byName[name].timeoutSec else DEFAULT_TIMEOUT
    }
  }

  /** Of several rows with one name the last one counts. */
  predicate IsLast(defs: seq<Def>, i: nat) {
    i < |defs| && forall j | i < j < |defs| :: defs[j].name != defs[i].name
  }

  ghost predicate Describes(s: Snapshot, defs: seq<Def>) {
    && (forall i | 0 <= i < |defs| :: defs[i].name in s.byName)
    && (forall i | 0 <= i < |defs| && IsLast(defs, i) :: s.byName[defs[i].name] == defs[i])
    && (forall n | n in s.byName :: exists i :: 0 <= i < |defs| && defs[i].name == n && s.byName[n] == defs[i])
    && (forall n :: n in s.activeNames <==>
        exists i :: 0 <= i < |defs| && defs[i].name == n && defs[i].status == ACTIVE)
  }

  method NewProviderSnapshot(defs: seq<Def>) returns (s: Snapshot)
    ensures Describes(s, defs)
  {
    var byName: map<string, Def>, activeNames: seq<string> := map[], [];
    for k := 0 to |defs|
      invariant forall i | 0 <= i < k :: defs[i].name in byName
      invariant forall i | 0 <= i < k && (forall j | i < j < k :: defs[j].name != defs[i].name) ::
                byName[defs[i].name] == defs[i]
      invariant forall n | n in byName :: exists i :: 0 <= i < k && defs[i].name == n && byName[n] == defs[i]
      invariant forall n :: n in activeNames <==>
                exists i :: 0 <= i < k && defs[i].name == n && defs[i].status == ACTIVE
    {
      var d := defs[k];
      byName := byName[d.name := d];
      if d.status == ACTIVE {
        activeNames := activeNames + [d.name];
      }
    }
    s := Snapshot(byName, activeNames);
  }

  predicate UniqueNames(defs: seq<Def>) {
    forall i, j | 0 <= i < j < |defs| :: defs[i].name != defs[j].name
  }

  /** The list of active names and the test for one name agree exactly if no name has an
      active row that a later row overrides; with unique names they always do. */
  lemma ActiveNamesAgree(defs: seq<Def>, s: Snapshot)
    requires Describes(s, defs)
    ensures (forall n :: n in s.activeNames <==> s.IsActiveKind(n)) <==>
            (forall i | 0 <= i < |defs| && defs[i].status == ACTIVE :: s.byName[defs[i].name].status == ACTIVE)
    ensures UniqueNames(defs) ==> forall n :: n in s.activeNames <==> s.IsActiveKind(n)
  {
    forall i | 0 <= i < |defs| && UniqueNames(defs) ensures IsLast(defs, i) && s.byName[defs[i].name] == defs[i] {
    }
    forall i | 0 <= i < |defs| && defs[i].status == ACTIVE ensures defs[i].name in s.activeNames {
    }
  }

  /** What the sweeper passes to `TimeoutStaleUpgrades`. */
  method ActiveTimeouts(s: Snapshot) returns (active: map<string, int>)
    ensures forall n :: n in active <==> n in s.activeNames
    ensures forall n | n in active :: active[n] == s.TimeoutSec(n)
  {
    active := map[];
    for i := 0 to |s.activeNames|
      invariant forall n :: n in active <==> n in s.activeNames[..i]
      invariant forall n | n in active :: active[n] == s.TimeoutSec(n)
    {
      active := active[s.activeNames[i] := s.TimeoutSec(s.activeNames[i])];
    }
  }

  /** So every component, known or not, has a positive timeout. */
  lemma TimeoutsArePositive(s: Snapshot, active: map<string, int>, component: string)
    requires forall n | n in active :: active[n] == s.TimeoutSec(n)
    ensures U.TimeoutOf(active, component) > 0
  {
    if component in active {
      assert active[component] == s.TimeoutSec(component);
    }
  }

  /** End to end: a component some row of which is active gets the timeout in the last row of
      its name, or 600 seconds if that has none; any other component gets 1800 seconds. */
  lemma SweepTimeoutIs(defs: seq<Def>, s: Snapshot, active: map<string, int>, i: nat)
    requires Describes(s, defs) && IsLast(defs, i) && defs[i].name !in {"octo-daemon", "octo", "cc-octo"}
    requires forall n :: n in active <==> n in s.activeNames
    requires forall n | n in active :: active[n] == s.TimeoutSec(n)
    ensures U.TimeoutOf(active, defs[i].name) ==
            if exists j :: 0 <= j < |defs| && defs[j].name == defs[i].name && defs[j].status == "active"
            then if defs[i].timeoutSec > 0 then defs[i].timeoutSec else 600
            else 1800
  {
    assert s.byName[defs[i].name] == defs[i];
  }

  function Fallback(): seq<Def> {
    [Def("claude", 600, ACTIVE), Def("openclaw", 720, ACTIVE), Def("codex", 600, DISABLED),
        Def("hermes", 1200, DISABLED)]
  }

  /** Without a single successful load: claude and openclaw are active, with their own
      timeouts, and nothing else is. */
  lemma FallbackIs(s: Snapshot, name: string)
    requires Describes(s, Fallback())
    ensures s.IsActiveKind(name) <==> name in {"claude", "openclaw"}
    ensures s.TimeoutSec("claude") == 600 && s.TimeoutSec("openclaw") == 720
  {
    var defs := Fallback();
    FallbackNames();
    assert IsLast(defs, 0) && IsLast(defs, 1) && IsLast(defs, 2) && IsLast(defs, 3);
    assert defs[0].name == "claude" && defs[1].name == "openclaw";
    assert s.byName["claude"] == defs[0] && s.byName["openclaw"] == defs[1];
    assert s.byName["codex"] == defs[2] && s.byName["hermes"] == defs[3];
  }

  lemma FallbackNames()
    ensures UniqueNames(Fallback()) && ACTIVE != DISABLED
  {
    var defs := Fallback();
    assert |"claude"| == 6 && |"openclaw"| == 8 && |"codex"| == 5 && |"hermes"| == 6 && "claude"[0] != "hermes"[0];
    assert ACTIVE[0] != DISABLED[0];
  }

  class Registry {
    var snap: Snapshot
    ghost var source: seq<Def>

    ghost predicate Valid()
      reads this
    {
      Describes(snap, source) && source != []
    }

    /** Starts from the built-in table and tries one load. */
    constructor (loaded: Option<seq<Def>>)
      ensures Valid()
      ensures source == if loaded.Some? && loaded.value != [] then loaded.value else Fallback()
    {
      var first := NewProviderSnapshot(Fallback());
      snap, source := first, Fallback();
      new;
      Reload(loaded);
    }

    /** `loaded` is None if reading the table failed; then, and if it is empty, the last
        snapshot stays. */
    method Reload(loaded: Option<seq<Def>>)
      requires Valid()
      modifies this
      ensures Valid()
      ensures if loaded.Some? && loaded.value != [] then source == loaded.value
              else snap == old(snap) && source == old(source)
    {
      if loaded.None? {
        return;
      }
      if |loaded.value| == 0 {
        return;
      }
      snap := NewProviderSnapshot(loaded.value);
      source := loaded.value;
    }
  }
}
