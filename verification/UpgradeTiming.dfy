/** How long an upgrade request can hold its slot: every run of UpgradeRuns against the
    sweeps in it (the timeout sweep of modules/runtime/upgrade.go). */
module UpgradeTiming {
  import opened Wrappers
  import opened VersionGates
  import opened UpgradeTasks
  import opened UpgradeRuns

  // ----- sweeps of one component -----

  /** A sweep waits for the locks of uncommitted rows that it would have to look at. */
  predicate NoneUncommitted(s: State, component: string) {
    forall t | t in s.txns && HasRow(s.txns[t]) :: s.txns[t].task.component != component
  }

  /** When the component's own bucket was last swept; 0, the start of the run, if never. */
  ghost function LastSweep(steps: seq<Step>, active: map<string, int>, component: string): int
    requires After(steps).Some?
  {
    if steps == [] then START.now
    else
      var rest := steps[..|steps| - 1];
      if steps[|steps| - 1] == SweepTasks(BucketOf(active, component)) && NoneUncommitted(After(rest).value, component)
      then After(rest).value.now
      else LastSweep(rest, active, component)
  }

  /** No row of the component, committed or not, is more than `timeout` behind the sweep at `last`. */
  predicate SweptInv(s: State, component: string, timeout: int, last: int) {
    && last <= s.now
    && (forall id | id in s.tasks && s.tasks[id].component == component && Open(s.tasks[id]) ::
        last - s.tasks[id].updatedAt <= timeout)
    && (forall t | t in s.txns && HasRow(s.txns[t]) && s.txns[t].task.component == component ::
        last <= s.txns[t].task.updatedAt)
  }

  lemma SweepReaches(s: State, active: map<string, int>, component: string)
    requires AllShaped(s.tasks) && NoneUncommitted(s, component)
    ensures SweptInv(Apply(s, SweepTasks(BucketOf(active, component))), component, TimeoutOf(active, component), s.now)
  {
    hide InProgress, BucketOf, TimeoutOf, Hits, TimedOut, Shaped;
    var s' := Apply(s, SweepTasks(BucketOf(active, component)));
    forall id | id in s'.tasks && s'.tasks[id].component == component && Open(s'.tasks[id])
      ensures s.now - s'.tasks[id].updatedAt <= TimeoutOf(active, component)
    {
      SurvivorIsRecent(s.tasks[id], active, component, s.now);
    }
  }

  lemma SurvivorIsRecent(t: Task, active: map<string, int>, component: string, now: int)
    requires Shaped(t)
    ensures var t' := SweptTask(BucketOf(active, component), t, now);
            t'.component == t.component && (t.component == component && Open(t') ==>
                now - t'.updatedAt <= TimeoutOf(active, component))
  {
    if t.component == component && Open(t) && !Hits(BucketOf(active, component), t, now) {
      BucketIsComplete(t, active, now);
    }
  }

  lemma StepKeepsSwept(s: State, step: Step, component: string, timeout: int, last: int)
    requires RowsInv(s) && SweptInv(s, component, timeout, last) && timeout >= 0 && Enabled(s, step)
    ensures SweptInv(Apply(s, step), component, timeout, last)
  {
    hide Apply, Enabled, RowsInv, SweptInv;
    Frame(s, step);
    if MovesTasks(step) {
      MovedKeepsSwept(s, step, component, timeout, last);
    } else if step.Insert? {
      InsertKeepsSwept(s, step.t, step.id, component, timeout, last);
    } else if step.Commit? {
      CommitKeepsSwept(s, step.t, component, timeout, last);
    } else {
      if MovesTxn(step) {
        TxnFrame(s, step);
      }
      SameRowsKeepSwept(s, Apply(s, step), component, timeout, last);
    }
  }

  lemma MovedKeepsSwept(s: State, step: Step, component: string, timeout: int, last: int)
    requires SweptInv(s, component, timeout, last) && timeout >= 0 && Enabled(s, step) && MovesTasks(step)
    ensures SweptInv(Apply(s, step), component, timeout, last)
  {
    hide Apply, Enabled, InProgress;
    Frame(s, step);
    StepAdvances(s, step);
    assert forall id | id in s.tasks :: Advances(s.tasks[id], Apply(s, step).tasks[id], s.now);
  }

  lemma InsertKeepsSwept(s: State, t: nat, id: string, component: string, timeout: int, last: int)
    requires SweptInv(s, component, timeout, last) && Enabled(s, Insert(t, id))
    ensures SweptInv(Apply(s, Insert(t, id)), component, timeout, last)
  {
  }

  lemma CommitKeepsSwept(s: State, t: nat, component: string, timeout: int, last: int)
    requires SweptInv(s, component, timeout, last) && timeout >= 0 && Enabled(s, Commit(t))
    ensures SweptInv(Apply(s, Commit(t)), component, timeout, last)
  {
  }

  lemma SameRowsKeepSwept(s: State, s': State, component: string, timeout: int, last: int)
    requires SweptInv(s, component, timeout, last) && s'.tasks == s.tasks && s'.now >= s.now
    requires forall t | t in s'.txns && HasRow(s'.txns[t]) ::
               t in s.txns && HasRow(s.txns[t]) && s'.txns[t].task == s.txns[t].task
    ensures SweptInv(s', component, timeout, last)
  {
    hide HasRow;
  }

  lemma {:induction false} RunsKeepSwept(steps: seq<Step>, active: map<string, int>, component: string)
    requires After(steps).Some? && TimeoutOf(active, component) >= 0
    ensures SweptInv(After(steps).value, component, TimeoutOf(active, component), LastSweep(steps, active, component))
  {
    hide RowsInv, LockInv, AllShaped, SweptInv, Apply, Enabled, BucketOf, TimeoutOf, NoneUncommitted;
    if steps == [] {
      StartIsSwept(component, TimeoutOf(active, component));
    } else {
      var rest, step := steps[..|steps| - 1], steps[|steps| - 1];
      var s := After(rest).value;
      RunsKeepLocks(rest);
      RunsKeepSwept(rest, active, component);
      if step == SweepTasks(BucketOf(active, component)) && NoneUncommitted(s, component) {
        SweepReaches(s, active, component);
      } else {
        StepKeepsSwept(s, step, component, TimeoutOf(active, component), LastSweep(rest, active, component));
      }
    }
  }

  lemma StartIsSwept(component: string, timeout: int)
    ensures SweptInv(START, component, timeout, START.now)
  {
  }

  /** Sweep completeness, on every run and for every component, known or not: a task in
      progress was touched at most its bucket's timeout before the bucket's last sweep. */
  lemma SweepsAreComplete(steps: seq<Step>, active: map<string, int>, id: string)
    requires After(steps).Some? && id in After(steps).value.tasks && Open(After(steps).value.tasks[id])
    requires TimeoutOf(active, After(steps).value.tasks[id].component) >= 0
    ensures var t := After(steps).value.tasks[id];
            LastSweep(steps, active, t.component) - t.updatedAt <= TimeoutOf(active, t.component)
  {
    RunsKeepSwept(steps, active, After(steps).value.tasks[id].component);
  }

  // ----- how long a slot is held -----

  /** How many statuses a task in progress can still have come from. */
  function Level(t: Task): nat
    requires Shaped(t) && Open(t)
  {
    if t.component == DAEMON || t.status.Pending? || t.status.Dispatched? then Rank(t.status) else 2
  }

  /** A task may be `window` seconds older for each status that it has left. */
  predicate AgeInv(s: State, component: string, window: int) {
    && (forall id | id in s.tasks && s.tasks[id].component == component && Shaped(s.tasks[id]) && Open(s.tasks[id]) ::
          s.tasks[id].updatedAt - s.tasks[id].createdAt <= Level(s.tasks[id]) * window)
    && (forall t | t in s.txns && HasRow(s.txns[t]) :: s.txns[t].task.updatedAt == s.txns[t].task.createdAt)
  }

  lemma LevelsAddUp(lower: nat, higher: nat, window: int)
    requires lower < higher && window >= 0
    ensures (lower + 1) * window <= higher * window
  {
  }

  lemma NextLevel(t: Task, t': Task, now: int, window: int)
    requires Advances(t, t', now) && Shaped(t) && Open(t') && window >= 0
    requires now - t.createdAt <= (Level(t) + 1) * window && t.updatedAt - t.createdAt <= Level(t) * window
    ensures Shaped(t') && t'.updatedAt - t'.createdAt <= Level(t') * window
  {
    if t' != t {
      assert Level(t) < Level(t');
      LevelsAddUp(Level(t), Level(t'), window);
    }
  }

  lemma AgeNow(t: Task, now: int, timeout: int, gap: int, last: int)
    requires Shaped(t) && Open(t) && t.updatedAt - t.createdAt <= Level(t) * (timeout + gap)
    requires last - t.updatedAt <= timeout && now - last <= gap
    ensures now - t.createdAt <= (Level(t) + 1) * (timeout + gap)
  {
  }

  lemma MovedKeepsAge(s: State, step: Step, component: string, timeout: int, gap: int, last: int)
    requires AllShaped(s.tasks) && SweptInv(s, component, timeout, last) && s.now - last <= gap && timeout >= 0
             && gap >= 0
    requires AgeInv(s, component, timeout + gap) && Enabled(s, step) && MovesTasks(step)
    ensures AgeInv(Apply(s, step), component, timeout + gap)
  {
    hide Apply, Enabled, InProgress, Level, Shaped, Advances;
    Frame(s, step);
    StepAdvances(s, step);
    var s' := Apply(s, step);
    forall id | id in s'.tasks && s'.tasks[id].component == component && Shaped(s'.tasks[id]) && Open(s'.tasks[id])
      ensures s'.tasks[id].updatedAt - s'.tasks[id].createdAt <= Level(s'.tasks[id]) * (timeout + gap)
    {
      assert Advances(s.tasks[id], s'.tasks[id], s.now);
      StaysOpen(s.tasks[id], s'.tasks[id], s.now);
      AgeNow(s.tasks[id], s.now, timeout, gap, last);
      NextLevel(s.tasks[id], s'.tasks[id], s.now, timeout + gap);
    }
  }

  lemma StaysOpen(t: Task, t': Task, now: int)
    requires Advances(t, t', now) && Open(t')
    ensures Open(t) && t.component == t'.component
  {
  }

  lemma CommitKeepsAge(s: State, t: nat, component: string, window: int)
    requires RowsInv(s) && AgeInv(s, component, window) && window >= 0 && Enabled(s, Commit(t))
    ensures AgeInv(Apply(s, Commit(t)), component, window)
  {
    hide RowsInv, Apply, Enabled;
    Frame(s, Commit(t));
    TxnFrame(s, Commit(t));
    CommittedRow(s, t);
  }

  lemma InsertKeepsAge(s: State, t: nat, id: string, component: string, window: int)
    requires AgeInv(s, component, window) && Enabled(s, Insert(t, id))
    ensures AgeInv(Apply(s, Insert(t, id)), component, window)
  {
  }

  lemma StepKeepsAge(s: State, step: Step, component: string, timeout: int, gap: int, last: int)
    requires RowsInv(s) && AllShaped(s.tasks) && SweptInv(s, component, timeout, last) && s.now - last <= gap
             && timeout >= 0 && gap >= 0
    requires AgeInv(s, component, timeout + gap) && Enabled(s, step)
    ensures AgeInv(Apply(s, step), component, timeout + gap)
  {
    hide Apply, Enabled, RowsInv, AllShaped, SweptInv, AgeInv;
    if MovesTasks(step) {
      MovedKeepsAge(s, step, component, timeout, gap, last);
    } else if step.Commit? {
      CommitKeepsAge(s, step.t, component, timeout + gap);
    } else if step.Insert? {
      InsertKeepsAge(s, step.t, step.id, component, timeout + gap);
    } else {
      Frame(s, step);
      if MovesTxn(step) {
        TxnFrame(s, step);
      }
      SameRowsKeepAge(s, Apply(s, step), component, timeout + gap);
    }
  }

  lemma SameRowsKeepAge(s: State, s': State, component: string, window: int)
    requires AgeInv(s, component, window) && s'.tasks == s.tasks
    requires forall t | t in s'.txns && HasRow(s'.txns[t]) ::
               t in s.txns && HasRow(s.txns[t]) && s'.txns[t].task == s.txns[t].task
    ensures AgeInv(s', component, window)
  {
    hide HasRow, Level, Shaped, InProgress;
  }

  /** At every moment of the run the bucket of the component was swept at most `gap` seconds ago. */
  ghost predicate SweptEvery(steps: seq<Step>, active: map<string, int>, component: string, gap: int)
    requires After(steps).Some?
  {
    && After(steps).value.now - LastSweep(steps, active, component) <= gap
    && (steps != [] ==> SweptEvery(steps[..|steps| - 1], active, component, gap))
  }

  lemma {:induction false} RunsKeepAge(steps: seq<Step>, active: map<string, int>, component: string, gap: int)
    requires After(steps).Some? && TimeoutOf(active, component) >= 0 && gap >= 0
             && SweptEvery(steps, active, component, gap)
    ensures AgeInv(After(steps).value, component, TimeoutOf(active, component) + gap)
  {
    hide RowsInv, LockInv, AllShaped, SweptInv, AgeInv, Apply, Enabled, BucketOf, TimeoutOf, LastSweep;
    if steps == [] {
      StartIsYoung(component, TimeoutOf(active, component) + gap);
    } else {
      var rest, step := steps[..|steps| - 1], steps[|steps| - 1];
      RunsKeepLocks(rest);
      RunsKeepSwept(rest, active, component);
      RunsKeepAge(rest, active, component, gap);
      StepKeepsAge(After(rest).value, step, component, TimeoutOf(active, component), gap,
          LastSweep(rest, active, component));
    }
  }

  lemma StartIsYoung(component: string, window: int)
    ensures AgeInv(START, component, window)
  {
  }

  /** The slot bound: on every run that sweeps the component's bucket at least every `gap`
      seconds, no task in progress is older than 5 * (120 + gap) seconds for the daemon
      and 3 * (timeout + gap) for anything else. */
  lemma SlotIsReleased(steps: seq<Step>, active: map<string, int>, gap: int, id: string)
    requires After(steps).Some? && id in After(steps).value.tasks && Open(After(steps).value.tasks[id])
    requires var c := After(steps).value.tasks[id].component;
             TimeoutOf(active, c) >= 0 && gap >= 0 && SweptEvery(steps, active, c, gap)
    ensures var s, t := After(steps).value, After(steps).value.tasks[id];
            && (t.component == DAEMON ==> s.now - t.createdAt <= 5 * (120 + gap))
            && (t.component != DAEMON ==> s.now - t.createdAt <= 3 * (TimeoutOf(active, t.component) + gap))
            && TimeoutOf(active, t.component) == if t.component == "octo-daemon" then 120
                  else if t.component in {"octo", "cc-octo"} then 600
                  else if t.component in active then active[t.component] else 1800
  {
    hide BucketOf, Shaped, InProgress, Level, TimeoutOf;
    var s, t := After(steps).value, After(steps).value.tasks[id];
    var timeout, last := TimeoutOf(active, t.component), LastSweep(steps, active, t.component);
    Timeouts(active, t.component);
    RunsKeepLocks(steps);
    RunsKeepSwept(steps, active, t.component);
    RunsKeepAge(steps, active, t.component, gap);
    hide After, LastSweep, RowsInv, LockInv;
    AgeBound(t, s.now, timeout, gap, last);
  }

  lemma AgeBound(t: Task, now: int, timeout: int, gap: int, last: int)
    requires Shaped(t) && Open(t) && t.updatedAt - t.createdAt <= Level(t) * (timeout + gap)
    requires last - t.updatedAt <= timeout && now - last <= gap && timeout >= 0 && gap >= 0
    ensures now - t.createdAt <= (if t.component == DAEMON then 5 * (timeout + gap) else 3 * (timeout + gap))
  {
    AgeNow(t, now, timeout, gap, last);
    LevelsAddUp(Level(t), if t.component == DAEMON then 5 else 3, timeout + gap);
  }

  lemma Timeouts(active: map<string, int>, component: string)
    ensures TimeoutOf(active, component) ==
            if component == "octo-daemon" then 120 else if component in {"octo", "cc-octo"} then 600
            else if component in active then active[component] else 1800
  {
  }
}
