/** All runs of concurrent upgrade requests: transactions that lock, count, insert and
    commit (`insertUpgradeTask`), interleaved at single statements with claims, reports,
    close-outs, sweeps, the install-secret store and changes of the runtime table
    (modules/runtime/upgrade.go). */
module UpgradeRuns {
  import opened Wrappers
  import opened VersionGates
  import opened UpgradeTasks
  import TtlStores
  import Versions

  // ----- state -----

  /** How far a transaction is: it has begun; it has run its locking select; it has
      counted no task in progress; its row is inserted but not committed; its secret
      is stored as well; it is over. */
  datatype Phase = Begun | Locked | Counted | Inserted | Stored | Over

  /** `lock` is the runtime row the transaction holds; the locking select finds none if
      the owner's last runtime of that daemon has just been deleted. */
  datatype Txn = Txn(task: Task, secret: Option<TtlStores.Secret>, phase: Phase, lock: Option<nat>, id: string)

  datatype State = State(
    now: int,
    tasks: Tasks,                            // committed rows
    runtimes: map<nat, Key>, nextRuntime: nat,
    txns: map<nat, Txn>,
    usedIds: set<string>,
    secrets: map<string, TtlStores.Entry>,
    puts: map<string, TtlStores.Held>,       // history: the put of each task id
    closing: set<string>,                    // selected by a close-out, update outstanding
    evicting: set<string>)                   // an evict call is outstanding

  datatype Step =
    | Tick(seconds: nat)
    | AddRuntime(key: Key)
    | DropRuntime(row: nat)
    | Begin(t: nat, task: Task, secret: Option<TtlStores.Secret>)
    | Lock(t: nat, row: nat)
    | LockMiss(t: nat)
    | Count(t: nat)
    | Insert(t: nat, id: string)
    | PutSecret(t: nat)
    | Commit(t: nat)
    | CommitFails(t: nat)
    | Claim(id: string)
    | Report(id: string, target: Status, errorMsg: string)
    | CloseDaemon(key: Key, component: string, version: string)
    | CloseSelect(key: Key, component: string, actual: string, runtimeId: int)
    | CloseWrite(id: string)
    | Evict(id: string)
    | SweepTasks(sweep: Sweep)
    | SweepSecrets
    | FetchSecret(id: string)

  const START := State(0, map[], map[], 1, map[], {}, map[], map[], {}, {})

  // ----- steps -----

  predicate Holds(txn: Txn) {
    txn.phase.Locked? || txn.phase.Counted? || txn.phase.Inserted? || txn.phase.Stored?
  }

  predicate LockedBy(s: State, t: nat, row: nat) {
    t in s.txns && Holds(s.txns[t]) && s.txns[t].lock == Some(row)
  }

  predicate Free(s: State, row: nat) {
    forall t | t in s.txns :: !LockedBy(s, t, row)
  }

  /** The lowest row of a key, which the locking select takes. */
  predicate Lowest(s: State, key: Key, row: nat) {
    row in s.runtimes && s.runtimes[row] == key && forall r | r in s.runtimes && s.runtimes[r] == key :: row <= r
  }

  predicate InPhase(s: State, t: nat, phase: Phase) {
    t in s.txns && s.txns[t].phase == phase
  }

  predicate Ready(s: State, t: nat) {
    InPhase(s, t, Stored) || (InPhase(s, t, Inserted) && s.txns[t].secret.None?)
  }

  /** Requests carry a secret exactly for an install of the cc-octo plugin. */
  predicate Proper(task: Task, secret: Option<TtlStores.Secret>) {
    secret.Some? <==> task.component == CC_OCTO && task.fromVersion == ""
  }

  predicate Enabled(s: State, step: Step) {
    match step
    case Tick(_) => true
    case AddRuntime(_) => true
    case DropRuntime(row) => row in s.runtimes && Free(s, row)
    case Begin(t, task, secret) => t !in s.txns && Proper(task, secret)
    case Lock(t, row) => InPhase(s, t, Begun) && Lowest(s, s.txns[t].task.key, row) && Free(s, row)
    case LockMiss(t) => InPhase(s, t, Begun) && forall r | r in s.runtimes :: s.runtimes[r] != s.txns[t].task.key
    case Count(t) => InPhase(s, t, Locked)
    case Insert(t, id) => InPhase(s, t, Counted) && id !in s.usedIds
    case PutSecret(t) => InPhase(s, t, Inserted) && s.txns[t].secret.Some?
    case Commit(t) => Ready(s, t)
    case CommitFails(t) => Ready(s, t)
    case Claim(id) => id in s.tasks && NewestPending(s.tasks, s.tasks[id].key, id)
    case Report(id, _, _) => id in s.tasks
    case CloseDaemon(_, component, _) => component == DAEMON
    case CloseSelect(_, _, _, _) => true
    case CloseWrite(id) => id in s.closing && id in s.tasks
    case Evict(id) => id in s.evicting
    case SweepTasks(_) => true
    case SweepSecrets => true
    case FetchSecret(_) => true
  }

  function InPhaseNow(s: State, t: nat, txn: Txn): State {
    s.(txns := s.txns[t := txn])
  }

  ghost function Apply(s: State, step: Step): State
    requires Enabled(s, step)
  {
    match step
    case Tick(seconds) => s.(now := s.now + seconds)
    case AddRuntime(key) => s.(runtimes := s.runtimes[s.nextRuntime := key], nextRuntime := s.nextRuntime + 1)
    case DropRuntime(row) => s.(runtimes := s.runtimes - {row})
    case Begin(t, task, secret) => InPhaseNow(s, t, Txn(task, secret, Begun, None, ""))
    case Lock(t, row) => InPhaseNow(s, t, s.txns[t].(phase := Locked, lock := Some(row)))
    case LockMiss(t) => InPhaseNow(s, t, s.txns[t].(phase := Locked))
    case Count(t) =>
      InPhaseNow(s, t, s.txns[t].(phase := if Busy(s.tasks, s.txns[t].task.key) then Over else Counted))
    case Insert(t, id) =>
      InPhaseNow(s, t, s.txns[t].(phase := Inserted, id := id, task := NewRow(s.txns[t].task, s.now))).(
        usedIds := s.usedIds + {id})
    case PutSecret(t) =>
      var txn := s.txns[t];
      var entry := TtlStores.Entry(txn.secret.value, s.now + TtlStores.SECRET_TTL);
      InPhaseNow(s, t, txn.(phase := Stored)).(
        secrets := TtlStores.Unexpired(s.secrets, s.now)[txn.id := entry],
        puts := s.puts[txn.id := TtlStores.Held(txn.secret.value, s.now)])
    case Commit(t) =>
      InPhaseNow(s, t, s.txns[t].(phase := Over)).(tasks := s.tasks[s.txns[t].id := s.txns[t].task])
    case CommitFails(t) =>
      InPhaseNow(s, t, s.txns[t].(phase := Over)).(
        evicting := if s.txns[t].secret.Some? then s.evicting + {s.txns[t].id} else s.evicting)
    case Claim(id) => s.(tasks := Claimed(s.tasks, id, s.now))
    case Report(id, target, errorMsg) =>
      s.(tasks := Reported(s.tasks, id, target, errorMsg, s.now),
         evicting := if s.tasks[id].component == CC_OCTO && target == Failed
                        && s.tasks[id].status in ValidTransitionsFrom(s.tasks[id].component, Some(target))
                     then s.evicting + {id} else s.evicting)
    case CloseDaemon(key, component, version) => s.(tasks := DaemonClosed(s.tasks, key, component, version, s.now))
    case CloseSelect(key, component, actual, runtimeId) =>
      s.(closing := s.closing + set id | id in s.tasks
          && ClosedByRuntime(s.tasks[id], key, component, actual, runtimeId))
    case CloseWrite(id) =>
      s.(tasks := CompletedById(s.tasks, id, s.now),
         evicting := if s.tasks[id].component == CC_OCTO then s.evicting + {id} else s.evicting)
    case Evict(id) => s.(secrets := s.secrets - {id})
    case SweepTasks(sweep) => s.(tasks := Swept(s.tasks, sweep, s.now))
    case SweepSecrets => s.(secrets := TtlStores.Unexpired(s.secrets, s.now))
    case FetchSecret(id) =>
      if id in s.secrets && s.now > s.secrets[id].expireAt then s.(secrets := s.secrets - {id}) else s
  }

  ghost function After(steps: seq<Step>): Option<State> {
    if steps == [] then Some(START)
    else
      match After(steps[..|steps| - 1])
      case Some(s) => if Enabled(s, steps[|steps| - 1]) then Some(Apply(s, steps[|steps| - 1])) else None
      case None => None
  }

  // ----- which step touches what -----

  predicate HasRow(txn: Txn) {
    txn.phase.Inserted? || txn.phase.Stored?
  }

  predicate MovesTasks(step: Step) {
    step.Claim? || step.Report? || step.CloseDaemon? || step.CloseWrite? || step.SweepTasks?
  }

  predicate MovesTxn(step: Step) {
    step.Begin? || step.Lock? || step.LockMiss? || step.Count? || step.Insert? || step.PutSecret? || step.Commit?
        || step.CommitFails?
  }

  lemma Frame(s: State, step: Step)
    requires Enabled(s, step)
    ensures var s' := Apply(s, step);
            && s'.now >= s.now && (!step.Tick? ==> s'.now == s.now)
            && (!MovesTasks(step) && !step.Commit? ==> s'.tasks == s.tasks)
            && (!MovesTxn(step) ==> s'.txns == s.txns && s'.usedIds == s.usedIds)
            && (!step.AddRuntime? && !step.DropRuntime? ==>
                s'.runtimes == s.runtimes && s'.nextRuntime == s.nextRuntime)
            && (!step.PutSecret? ==> s'.puts == s.puts)
            && (!step.CloseSelect? ==> s'.closing == s.closing)
            && (MovesTxn(step) ==> step.t in s'.txns && s'.txns == s.txns[step.t := s'.txns[step.t]])
  {
  }

  /** What the steps of one transaction do to it. */
  lemma TxnFrame(s: State, step: Step)
    requires Enabled(s, step) && MovesTxn(step)
    ensures var s', t := Apply(s, step), step.t;
            && (step.Begin? ==> t !in s.txns && !Holds(s'.txns[t]) && s'.txns[t].lock.None?)
            && (!step.Begin? ==>
                  t in s.txns && s'.txns[t].secret == s.txns[t].secret && s'.txns[t].task.key == s.txns[t].task.key)
            && (!step.Begin? && !step.Lock? ==> s'.txns[t].lock == s.txns[t].lock)
            && (!step.Insert? && HasRow(s'.txns[t]) ==>
                HasRow(s.txns[t]) && s'.txns[t].id == s.txns[t].id && s'.txns[t].task == s.txns[t].task)
            && (!step.Insert? ==> s'.usedIds == s.usedIds)
            && (!step.Lock? && !step.LockMiss? && Holds(s'.txns[t]) ==> Holds(s.txns[t]))
            && (step.Commit? || step.CommitFails? ==> s'.txns[t].phase == Over)
            && (s'.txns[t].phase == Begun ==> step.Begin?)
            && (step.LockMiss? ==> s.txns[t].phase == Begun && !Holds(s.txns[t]))
  {
  }

  // ----- tasks only move forwards -----

  lemma StepAdvances(s: State, step: Step)
    requires Enabled(s, step) && MovesTasks(step)
    ensures TasksAdvance(s.tasks, Apply(s, step).tasks, s.now)
    ensures Apply(s, step).tasks.Keys == s.tasks.Keys
  {
    hide TasksAdvance, Advances;
    match step
    case Claim(id) => ClaimAdvances(s.tasks, id, s.now);
    case Report(id, target, errorMsg) => ReportAdvances(s.tasks, id, target, errorMsg, s.now);
    case CloseDaemon(key, component, version) => CloseAdvances(s.tasks, key, component, version, s.now);
    case CloseWrite(id) => CompleteAdvances(s.tasks, id, s.now);
    case SweepTasks(sweep) => SweepAdvances(s.tasks, sweep, s.now);
  }

  /** Inserted rows have ids of their own, used by nobody else. */
  predicate RowsInv(s: State) {
    && s.tasks.Keys <= s.usedIds
    && (forall t | t in s.txns && HasRow(s.txns[t]) ::
          s.txns[t].id in s.usedIds && s.txns[t].id !in s.tasks && s.txns[t].task.status == Pending)
    && (forall t, u | t in s.txns && u in s.txns && HasRow(s.txns[t]) && HasRow(s.txns[u])
        && s.txns[t].id == s.txns[u].id :: t == u)
  }

  lemma StepKeepsRows(s: State, step: Step)
    requires RowsInv(s) && Enabled(s, step)
    ensures RowsInv(Apply(s, step))
  {
    hide Apply, Enabled;
    Frame(s, step);
    if MovesTasks(step) {
      StepAdvances(s, step);
    } else if step.Insert? {
      InsertKeepsRows(s, step.t, step.id);
    } else if step.Commit? {
      CommitKeepsRows(s, step.t);
    } else if MovesTxn(step) {
      TxnFrame(s, step);
    }
  }

  lemma InsertKeepsRows(s: State, t: nat, id: string)
    requires RowsInv(s) && Enabled(s, Insert(t, id))
    ensures RowsInv(Apply(s, Insert(t, id)))
  {
  }

  lemma CommitKeepsRows(s: State, t: nat)
    requires RowsInv(s) && Enabled(s, Commit(t))
    ensures RowsInv(Apply(s, Commit(t)))
  {
  }

  // ----- the states a task can be in -----

  predicate AllShaped(tasks: Tasks) {
    forall id | id in tasks :: Shaped(tasks[id])
  }

  lemma CommittedRow(s: State, t: nat)
    requires RowsInv(s) && Enabled(s, Commit(t))
    ensures t in s.txns && HasRow(s.txns[t]) && s.txns[t].id !in s.tasks && s.txns[t].task.status == Pending
    ensures Apply(s, Commit(t)).tasks == s.tasks[s.txns[t].id := s.txns[t].task]
  {
  }

  lemma StepKeepsShape(s: State, step: Step)
    requires RowsInv(s) && AllShaped(s.tasks) && Enabled(s, step)
    ensures AllShaped(Apply(s, step).tasks)
  {
    hide Apply, Enabled;
    Frame(s, step);
    if MovesTasks(step) {
      StepAdvances(s, step);
      assert forall id | id in s.tasks :: Advances(s.tasks[id], Apply(s, step).tasks[id], s.now);
    } else if step.Commit? {
      CommittedRow(s, step.t);
    }
  }

  /** The columns of a task that say what was asked for. */
  predicate SameRequest(t: Task, t': Task) {
    && t'.key == t.key && t'.component == t.component && t'.runtimeId == t.runtimeId
    && t'.fromVersion == t.fromVersion && t'.toVersion == t.toVersion
  }

  /** What is left of a task later: it is still there, what was asked for and its creation
      time are the same, and if it has ended it stays ended. */
  predicate Continues(t: Task, t': Task) {
    && SameRequest(t, t') && t'.createdAt == t.createdAt
    && (Open(t') ==> Open(t) && Rank(t.status) <= Rank(t'.status))
  }

  lemma Unchanged(t: Task)
    ensures Continues(t, t)
  {
  }

  lemma AdvancedContinues(t: Task, t': Task, now: int)
    requires Advances(t, t', now)
    ensures Continues(t, t')
  {
  }

  lemma StepContinues(s: State, step: Step, id: string)
    requires RowsInv(s) && Enabled(s, step) && id in s.tasks
    ensures id in Apply(s, step).tasks && Continues(s.tasks[id], Apply(s, step).tasks[id])
  {
    hide Apply, Enabled, RowsInv, Continues, Advances;
    Unchanged(s.tasks[id]);
    Frame(s, step);
    if MovesTasks(step) {
      StepAdvances(s, step);
      AdvancedContinues(s.tasks[id], Apply(s, step).tasks[id], s.now);
    } else if step.Commit? {
      CommittedRow(s, step.t);
    }
  }

  /** On every run a task that has left the in-progress states never re-enters them. */
  lemma {:induction false} EndedForGood(s: State, steps: seq<Step>, id: string)
    requires RowsInv(s) && id in s.tasks && From(s, steps).Some?
    ensures id in From(s, steps).value.tasks && Continues(s.tasks[id], From(s, steps).value.tasks[id])
    decreases |steps|
  {
    if steps == [] {
    } else {
      hide Apply, Enabled, RowsInv;
      StepContinues(s, steps[0], id);
      StepKeepsRows(s, steps[0]);
      EndedForGood(Apply(s, steps[0]), steps[1..], id);
    }
  }

  // ----- where tasks come from and why they are completed -----

  lemma TxnKeepsItsRequest(s: State, step: Step, t: nat)
    requires Enabled(s, step) && t in Apply(s, step).txns
    ensures (t in s.txns && SameRequest(s.txns[t].task, Apply(s, step).txns[t].task))
            || (step.Begin? && step.t == t && SameRequest(step.task, Apply(s, step).txns[t].task))
  {
  }

  lemma {:induction false} TxnWasBegun(steps: seq<Step>, t: nat)
    requires After(steps).Some? && t in After(steps).value.txns
    ensures exists i :: 0 <= i < |steps| && steps[i].Begin?
                && SameRequest(steps[i].task, After(steps).value.txns[t].task)
  {
    hide Apply, Enabled;
    if steps != [] {
      var rest, step := steps[..|steps| - 1], steps[|steps| - 1];
      TxnKeepsItsRequest(After(rest).value, step, t);
      if step.Begin? && SameRequest(step.task, After(steps).value.txns[t].task) {
        assert steps[|steps| - 1].Begin?;
      } else {
        TxnWasBegun(rest, t);
        var i :| 0 <= i < |rest| && rest[i].Begin? && SameRequest(rest[i].task, After(rest).value.txns[t].task);
        assert steps[i] == rest[i];
      }
    }
  }

  /** Every task that was ever committed is one that was requested: a request with the same
      owner's daemon, component, runtime and versions has begun. */
  lemma {:induction false} EveryTaskWasRequested(steps: seq<Step>, id: string)
    requires After(steps).Some? && id in After(steps).value.tasks
    ensures exists i :: 0 <= i < |steps| && steps[i].Begin? && SameRequest(steps[i].task, After(steps).value.tasks[id])
  {
    hide Apply, Enabled, RowsInv, Continues;
    if steps != [] {
      var rest, step := steps[..|steps| - 1], steps[|steps| - 1];
      var s := After(rest).value;
      RunsKeepRows(rest);
      ghost var i: int;
      if id in s.tasks {
        EveryTaskWasRequested(rest, id);
        StepContinues(s, step, id);
        SameAsBefore(s.tasks[id], After(steps).value.tasks[id]);
        i :| 0 <= i < |rest| && rest[i].Begin? && SameRequest(rest[i].task, s.tasks[id]);
      } else {
        var t := NewTaskIsCommitted(s, step, id);
        TxnWasBegun(rest, t);
        i :| 0 <= i < |rest| && rest[i].Begin? && SameRequest(rest[i].task, s.txns[t].task);
      }
      assert steps[i] == rest[i];
    }
  }

  lemma SameAsBefore(t: Task, t': Task)
    requires Continues(t, t')
    ensures SameRequest(t, t')
  {
  }

  lemma NewTaskIsCommitted(s: State, step: Step, id: string) returns (t: nat)
    requires RowsInv(s) && Enabled(s, step) && id !in s.tasks && id in Apply(s, step).tasks
    ensures step.Commit? && t == step.t && t in s.txns && Apply(s, step).tasks[id] == s.txns[t].task
    ensures s.txns[t].task.status == Pending
  {
    hide RowsInv, Apply, Enabled;
    Frame(s, step);
    if MovesTasks(step) {
      StepAdvances(s, step);
    }
    t := step.t;
    assert step == Commit(t);
    CommittedRow(s, t);
  }

  lemma {:induction false} RunsKeepRows(steps: seq<Step>)
    requires After(steps).Some?
    ensures RowsInv(After(steps).value)
  {
    hide Apply, Enabled;
    if steps == [] {
    } else {
      hide RowsInv;
      RunsKeepRows(steps[..|steps| - 1]);
      StepKeepsRows(After(steps[..|steps| - 1]).value, steps[|steps| - 1]);
    }
  }

  /** A report of a version that reaches the task's target: for the daemon the very same
      version, for a runtime the same or a newer one of that runtime. */
  ghost predicate Reaches(step: Step, t: Task) {
    match step
    case CloseDaemon(key, component, version) =>
      key == t.key && component == t.component && version == t.toVersion
    case CloseSelect(key, component, actual, runtimeId) =>
      && key == t.key && component == t.component && runtimeId == t.runtimeId
      && (actual == t.toVersion || Versions.Older(t.toVersion, actual))
    case _ => false
  }

  /** And such a report does complete what it reaches, and nothing else: the daemon's in
      one statement, a runtime's by selecting it for an update of its own. */
  lemma ReportCompletes(s: State, step: Step, id: string)
    requires Enabled(s, step) && (step.CloseDaemon? || step.CloseSelect?) && id in s.tasks
    ensures var s', t := Apply(s, step), s.tasks[id];
            var reached := Reaches(step, t) && t.status !in {Completed, Failed, Timeout};
            && id in s'.tasks
            && (step.CloseDaemon? ==>
                  s'.tasks[id] == if reached then t.(status := Completed, updatedAt := s.now) else t)
            && (step.CloseSelect? ==> s'.tasks == s.tasks && (id in s'.closing <==> id in s.closing || reached))
            && (step.CloseSelect? && reached ==>
                  && Enabled(s', CloseWrite(id))
                  && Apply(s', CloseWrite(id)).tasks == s.tasks[id := t.(status := Completed, updatedAt := s.now)])
  {
    hide Versions.Older, ClosedByDaemon;
    if step.CloseDaemon? {
      DaemonClosesIff(s.tasks[id], step.key, step.component, step.version);
    }
  }

  lemma ReachesTheSame(step: Step, t: Task, t': Task)
    requires Reaches(step, t) && SameRequest(t, t')
    ensures Reaches(step, t')
  {
  }

  /** How a task comes to be completed, or selected for it. */
  lemma CompletingStep(s: State, step: Step, id: string)
    requires RowsInv(s) && Enabled(s, step) && id in s.tasks && id in Apply(s, step).tasks
    requires Apply(s, step).tasks[id].status == Completed || id in Apply(s, step).closing
    ensures s.tasks[id].status == Completed || id in s.closing || Reaches(step, s.tasks[id])
  {
    hide RowsInv, Versions.Older, ClosedByDaemon;
    if step.Commit? {
      CommittedRow(s, step.t);
    } else if step.Report? {
      var r, target := s.tasks[step.id], step.target;
      if r.status in ValidTransitionsFrom(r.component, Some(target)) {
        AcceptedReportMovesForwards(r.component, r.status, target);
      }
    } else if step.CloseDaemon? {
      DaemonClosesIff(s.tasks[id], step.key, step.component, step.version);
    } else if !MovesTasks(step) && !step.CloseSelect? {
      Frame(s, step);
      hide Apply;
    }
  }

  lemma ClosingIsThere(s: State, step: Step)
    requires RowsInv(s) && Enabled(s, step) && s.closing <= s.tasks.Keys
    ensures Apply(s, step).closing <= Apply(s, step).tasks.Keys
  {
    hide RowsInv, ClosedByRuntime, DaemonClosed, Swept, Claimed, Reported, CompletedById;
    if MovesTasks(step) {
      StepAdvances(s, step);
    }
  }

  /** No task is completed unless its target was reported: whenever a task is completed on
      any run, the run has a report that reaches its target. */
  lemma {:induction false} CompletedMeansReported(steps: seq<Step>, id: string)
    requires After(steps).Some? && id in After(steps).value.tasks
    requires After(steps).value.tasks[id].status == Completed || id in After(steps).value.closing
    ensures exists i :: 0 <= i < |steps| && Reaches(steps[i], After(steps).value.tasks[id])
  {
    hide Apply, Enabled, RowsInv, Continues, Reaches;
    if steps != [] {
      var rest, step := steps[..|steps| - 1], steps[|steps| - 1];
      var s := After(rest).value;
      RunsKeepRows(rest);
      RunsKeepClosing(rest);
      if id !in s.tasks {
        var t := NewTaskIsCommitted(s, step, id);
        Frame(s, step);
      }
      StepContinues(s, step, id);
      SameAsBefore(s.tasks[id], After(steps).value.tasks[id]);
      CompletingStep(s, step, id);
      ghost var i: int;
      if Reaches(step, s.tasks[id]) {
        i := |steps| - 1;
      } else {
        CompletedMeansReported(rest, id);
        i :| 0 <= i < |rest| && Reaches(rest[i], s.tasks[id]);
      }
      ReachesTheSame(steps[i], s.tasks[id], After(steps).value.tasks[id]);
    }
  }

  lemma {:induction false} RunsKeepClosing(steps: seq<Step>)
    requires After(steps).Some?
    ensures After(steps).value.closing <= After(steps).value.tasks.Keys
  {
    hide Apply, Enabled, RowsInv;
    if steps != [] {
      RunsKeepRows(steps[..|steps| - 1]);
      RunsKeepClosing(steps[..|steps| - 1]);
      ClosingIsThere(After(steps[..|steps| - 1]).value, steps[|steps| - 1]);
    }
  }

  // ----- one task in progress per (space, daemon, owner) -----

  predicate AtMostOne(tasks: Tasks) {
    forall i, j | i in tasks && j in tasks && Open(tasks[i]) && Open(tasks[j]) && tasks[i].key == tasks[j].key :: i == j
  }

  /** A held row is the lowest of its key and held once. */
  predicate LockInv(s: State) {
    && (forall r | r in s.runtimes :: r < s.nextRuntime)
    && (forall t | t in s.txns && s.txns[t].phase == Begun :: s.txns[t].lock.None?)
    && (forall t | t in s.txns && Holds(s.txns[t]) && s.txns[t].lock.Some? ::
        Lowest(s, s.txns[t].task.key, s.txns[t].lock.value))
    && (forall t, u | t in s.txns && u in s.txns && Holds(s.txns[t]) && Holds(s.txns[u]) &&
          s.txns[t].lock.Some? && s.txns[t].lock == s.txns[u].lock :: t == u)
  }

  /** Every transaction past its locking select found a row. */
  predicate AllLocked(s: State) {
    forall t | t in s.txns && Holds(s.txns[t]) :: s.txns[t].lock.Some?
  }

  predicate PastCount(txn: Txn) {
    txn.phase.Counted? || HasRow(txn)
  }

  predicate SlotInv(s: State) {
    && AtMostOne(s.tasks)
    && forall t | t in s.txns && PastCount(s.txns[t]) :: !Busy(s.tasks, s.txns[t].task.key)
  }

  lemma OneHolderPerKey(s: State, t: nat, u: nat)
    requires LockInv(s) && AllLocked(s) && t in s.txns && u in s.txns
    requires Holds(s.txns[t]) && Holds(s.txns[u]) && s.txns[t].task.key == s.txns[u].task.key
    ensures t == u
  {
    var r, q := s.txns[t].lock.value, s.txns[u].lock.value;
    assert Lowest(s, s.txns[t].task.key, r) && Lowest(s, s.txns[u].task.key, q);
    assert r <= q <= r;
  }

  lemma AddRuntimeKeepsLock(s: State, key: Key)
    requires LockInv(s)
    ensures LockInv(Apply(s, AddRuntime(key)))
  {
  }

  lemma DropRuntimeKeepsLock(s: State, row: nat)
    requires LockInv(s) && Enabled(s, DropRuntime(row))
    ensures LockInv(Apply(s, DropRuntime(row)))
  {
    assert forall t | t in s.txns && Holds(s.txns[t]) && s.txns[t].lock.Some? :: !LockedBy(s, t, row);
  }

  lemma LockKeepsLock(s: State, t: nat, row: nat)
    requires LockInv(s) && Enabled(s, Lock(t, row))
    ensures LockInv(Apply(s, Lock(t, row)))
  {
    assert forall u | u in s.txns && Holds(s.txns[u]) && s.txns[u].lock == Some(row) :: LockedBy(s, u, row);
  }

  lemma TxnKeepsLock(s: State, s': State, t: nat)
    requires LockInv(s) && s'.runtimes == s.runtimes && s'.nextRuntime == s.nextRuntime
    requires t in s'.txns && s'.txns == s.txns[t := s'.txns[t]]
    requires s'.txns[t].phase == Begun ==> s'.txns[t].lock.None?
    requires Holds(s'.txns[t]) && s'.txns[t].lock.Some? ==>
               t in s.txns && Holds(s.txns[t]) && s'.txns[t].lock == s.txns[t].lock
                   && s'.txns[t].task.key == s.txns[t].task.key
    ensures LockInv(s')
  {
  }

  lemma StepKeepsLock(s: State, step: Step)
    requires LockInv(s) && Enabled(s, step)
    ensures LockInv(Apply(s, step))
  {
    if step.AddRuntime? {
      AddRuntimeKeepsLock(s, step.key);
    } else if step.DropRuntime? {
      DropRuntimeKeepsLock(s, step.row);
    } else if step.Lock? {
      LockKeepsLock(s, step.t, step.row);
    } else {
      hide Apply, Enabled, Lowest;
      Frame(s, step);
      if MovesTxn(step) {
        TxnFrame(s, step);
        TxnKeepsLock(s, Apply(s, step), step.t);
      }
    }
  }

  lemma AdvancingKeepsSlot(before: Tasks, after: Tasks, now: int)
    requires TasksAdvance(before, after, now) && after.Keys == before.Keys
    ensures AtMostOne(before) ==> AtMostOne(after)
    ensures forall key | Busy(after, key) :: Busy(before, key)
  {
    forall i | i in after && Open(after[i]) ensures Open(before[i]) && before[i].key == after[i].key {
      assert Advances(before[i], after[i], now);
    }
  }

  lemma AddedTaskOccupiesItsKey(tasks: Tasks, id: string, task: Task, key: Key)
    requires task.key != key
    ensures Busy(tasks[id := task], key) ==> Busy(tasks, key)
  {
    if Busy(tasks[id := task], key) {
      var j :| j in tasks[id := task] && tasks[id := task][j].key == key && Open(tasks[id := task][j]);
      assert j in tasks && tasks[j].key == key && Open(tasks[j]);
    }
  }

  lemma StepKeepsAllLocked(s: State, step: Step)
    requires AllLocked(s) && Enabled(s, step) && !step.LockMiss?
    ensures AllLocked(Apply(s, step))
  {
    Frame(s, step);
    if MovesTxn(step) {
      TxnFrame(s, step);
    }
  }

  lemma CommitKeepsSlot(s: State, t: nat)
    requires RowsInv(s) && LockInv(s) && AllLocked(s) && SlotInv(s) && Enabled(s, Commit(t))
    ensures SlotInv(Apply(s, Commit(t)))
  {
    hide LockInv, AllLocked, RowsInv;
    var s' := Apply(s, Commit(t));
    var id, task := s.txns[t].id, s.txns[t].task;
    forall u | u in s'.txns && PastCount(s'.txns[u]) ensures !Busy(s'.tasks, s'.txns[u].task.key) {
      assert u != t && s'.txns[u] == s.txns[u];
      if s.txns[u].task.key == task.key {
        OneHolderPerKey(s, t, u);
      }
      AddedTaskOccupiesItsKey(s.tasks, id, task, s.txns[u].task.key);
    }
    assert forall j | j in s.tasks && Open(s.tasks[j]) :: s.tasks[j].key != task.key;
  }

  lemma CountKeepsSlot(s: State, t: nat)
    requires SlotInv(s) && Enabled(s, Count(t))
    ensures SlotInv(Apply(s, Count(t)))
  {
  }

  lemma InsertKeepsSlot(s: State, t: nat, id: string)
    requires SlotInv(s) && Enabled(s, Insert(t, id))
    ensures SlotInv(Apply(s, Insert(t, id)))
  {
  }

  lemma StepKeepsSlot(s: State, step: Step)
    requires RowsInv(s) && LockInv(s) && AllLocked(s) && SlotInv(s) && Enabled(s, step)
    ensures SlotInv(Apply(s, step))
  {
    hide Apply, Enabled, RowsInv, LockInv, AllLocked, Busy, AtMostOne, TasksAdvance;
    if step.Commit? {
      CommitKeepsSlot(s, step.t);
    } else if step.Count? {
      CountKeepsSlot(s, step.t);
    } else if step.Insert? {
      InsertKeepsSlot(s, step.t, step.id);
    } else {
      Frame(s, step);
      if MovesTasks(step) {
        StepAdvances(s, step);
        AdvancingKeepsSlot(s.tasks, Apply(s, step).tasks, s.now);
      } else if MovesTxn(step) {
        TxnFrame(s, step);
        PastCountStays(s, step);
      }
    }
  }

  lemma PastCountStays(s: State, step: Step)
    requires Enabled(s, step) && MovesTxn(step) && !step.Count?
    ensures PastCount(Apply(s, step).txns[step.t]) ==> step.t in s.txns && PastCount(s.txns[step.t])
  {
  }

  predicate NeverMisses(steps: seq<Step>) {
    forall i | 0 <= i < |steps| :: !steps[i].LockMiss?
  }

  lemma {:induction false} RunsKeepLocks(steps: seq<Step>)
    requires After(steps).Some?
    ensures var s := After(steps).value; RowsInv(s) && LockInv(s) && AllShaped(s.tasks)
  {
    hide RowsInv, LockInv, AllShaped, Apply, Enabled;
    if steps == [] {
      StartIsFine();
    } else {
      var s, step := After(steps[..|steps| - 1]).value, steps[|steps| - 1];
      RunsKeepLocks(steps[..|steps| - 1]);
      StepKeepsRows(s, step);
      StepKeepsLock(s, step);
      StepKeepsShape(s, step);
    }
  }

  lemma StartIsFine()
    ensures RowsInv(START) && LockInv(START) && AllShaped(START.tasks) && AllLocked(START) && SlotInv(START)
  {
  }

  lemma {:induction false} RunsKeepSlot(steps: seq<Step>)
    requires After(steps).Some? && NeverMisses(steps)
    ensures AllLocked(After(steps).value) && SlotInv(After(steps).value)
  {
    hide RowsInv, LockInv, AllShaped, AllLocked, SlotInv, Apply, Enabled;
    if steps == [] {
      StartIsFine();
    } else {
      var rest := steps[..|steps| - 1];
      var s, step := After(rest).value, steps[|steps| - 1];
      assert forall i | 0 <= i < |rest| :: rest[i] == steps[i];
      RunsKeepLocks(rest);
      RunsKeepSlot(rest);
      StepKeepsAllLocked(s, step);
      StepKeepsSlot(s, step);
    }
  }

  /** On every run in which each transaction's locking select found a row, no two
      committed tasks of one (space, daemon, owner) are in progress. */
  lemma {:induction false} AtMostOneInProgress(steps: seq<Step>)
    requires After(steps).Some? && NeverMisses(steps)
    ensures AtMostOne(After(steps).value.tasks)
  {
    RunsKeepSlot(steps);
  }

  // ----- without a row to lock -----

  /** The state after `steps` from `s`, if each is possible when it runs. */
  ghost function From(s: State, steps: seq<Step>): Option<State>
    decreases |steps|
  {
    if steps == [] then Some(s)
    else if Enabled(s, steps[0]) then From(Apply(s, steps[0]), steps[1..])
    else None
  }

  lemma FromStep(s: State, step: Step, rest: seq<Step>)
    requires Enabled(s, step)
    ensures From(s, [step] + rest) == From(Apply(s, step), rest)
  {
    assert ([step] + rest)[1..] == rest;
  }

  ghost function Then(s: Option<State>, steps: seq<Step>): Option<State> {
    if s.Some? then From(s.value, steps) else None
  }

  lemma {:induction false} FromConcat(s: State, first: seq<Step>, rest: seq<Step>)
    ensures From(s, first + rest) == Then(From(s, first), rest)
    decreases |first|
  {
    hide Apply, Enabled;
    if first == [] {
      assert first + rest == rest;
    } else {
      assert first + rest == [first[0]] + (first[1..] + rest);
      if Enabled(s, first[0]) {
        FromConcat(Apply(s, first[0]), first[1..], rest);
        FromStep(s, first[0], first[1..] + rest);
      }
    }
  }

  lemma {:induction false} AfterIsFrom(steps: seq<Step>)
    ensures After(steps) == From(START, steps)
  {
    hide Apply, Enabled;
    if steps == [] {
    } else {
      var rest, last := steps[..|steps| - 1], steps[|steps| - 1];
      AfterIsFrom(rest);
      assert steps == rest + [last];
      FromConcat(START, rest, [last]);
      if After(rest).Some? && Enabled(After(rest).value, last) {
        FromStep(After(rest).value, last, []);
        NoSteps(Apply(After(rest).value, last));
        assert [last] + [] == [last];
      }
    }
  }

  lemma FourSteps(s: State, a: Step, b: Step, c: Step, d: Step)
    requires Enabled(s, a)
    requires Enabled(Apply(s, a), b)
    requires Enabled(Apply(Apply(s, a), b), c)
    requires Enabled(Apply(Apply(Apply(s, a), b), c), d)
    ensures From(s, [a, b, c, d]) == Some(Apply(Apply(Apply(Apply(s, a), b), c), d))
  {
    hide Apply, Enabled, From;
    var s1, s2, s3, s4 := Apply(s, a), Apply(Apply(s, a), b), Apply(Apply(Apply(s, a), b), c),
        Apply(Apply(Apply(Apply(s, a), b), c), d);
    NoSteps(s4);
    FromStep(s3, d, []);
    FromStep(s2, c, [d] + []);
    FromStep(s1, b, [c] + ([d] + []));
    FromStep(s, a, [b] + ([c] + ([d] + [])));
    assert [a, b, c, d] == [a] + ([b] + ([c] + ([d] + [])));
  }

  lemma NoSteps(s: State)
    ensures From(s, []) == Some(s)
  {
  }

  // ----- one unlocked request is enough -----

  /** How many statements a transaction still has before its commit. */
  function Remaining(txn: Txn): nat {
    match txn.phase
    case Begun => 4
    case Locked => 3
    case Counted => 2
    case Inserted => 1
    case _ => 0
  }

  /** `s'` differs from `s` in transaction `t`, which is about to commit, in the ids it
      has used and in the secrets. */
  predicate MadeReady(s: State, s': State, t: nat) {
    && Ready(s', t) && t in s.txns && s'.txns[t].task.key == s.txns[t].task.key
    && s'.tasks == s.tasks && s.usedIds <= s'.usedIds
    && s'.txns.Keys == s.txns.Keys && forall x | x in s.txns && x != t :: s'.txns[x] == s.txns[x]
  }

  /** A transaction past its locking select can run on alone up to its commit, unless
      its count finds the key busy. */
  lemma {:induction false} RunsUpToCommit(s: State, t: nat, id: string) returns (steps: seq<Step>, s': State)
    requires RowsInv(s) && t in s.txns && Holds(s.txns[t]) && id !in s.usedIds
    requires s.txns[t].phase == Locked ==> !Busy(s.tasks, s.txns[t].task.key)
    ensures NeverMisses(steps)
    ensures From(s, steps) == Some(s') && RowsInv(s') && MadeReady(s, s', t) && s'.usedIds <= s.usedIds + {id}
    decreases Remaining(s.txns[t])
  {
    hide From, RowsInv, Busy, TtlStores.Unexpired;
    if Ready(s, t) {
      NoSteps(s);
      return [], s;
    }
    var step :=
      if s.txns[t].phase == Locked then Count(t)
      else if s.txns[t].phase == Counted then Insert(t, id)
      else PutSecret(t);
    var next := Apply(s, step);
    StepKeepsRows(s, step);
    if step.Insert? {
      assert Remaining(next.txns[t]) == 1;
      steps, s' := LastStatement(next, t);
    } else {
      steps, s' := RunsUpToCommit(next, t, id);
    }
    FromStep(s, step, steps);
    NeverMissesBoth([step], steps);
    steps := [step] + steps;
  }

  /** The secret, if there is one. */
  lemma LastStatement(s: State, t: nat) returns (steps: seq<Step>, s': State)
    requires RowsInv(s) && InPhase(s, t, Inserted)
    ensures NeverMisses(steps)
    ensures From(s, steps) == Some(s') && RowsInv(s') && MadeReady(s, s', t) && s'.usedIds == s.usedIds
  {
    hide From, RowsInv, TtlStores.Unexpired;
    if Ready(s, t) {
      NoSteps(s);
      return [], s;
    }
    s' := Apply(s, PutSecret(t));
    StepKeepsRows(s, PutSecret(t));
    NoSteps(s');
    FromStep(s, PutSecret(t), []);
    steps := [PutSecret(t)] + [];
  }

  lemma TwoSteps(s: State, a: Step, b: Step)
    requires Enabled(s, a) && Enabled(Apply(s, a), b)
    ensures From(s, [a, b]) == Some(Apply(Apply(s, a), b))
  {
    hide Apply, Enabled, From;
    NoSteps(Apply(Apply(s, a), b));
    FromStep(Apply(s, a), b, []);
    FromStep(s, a, [b] + []);
    assert [a, b] == [a] + ([b] + []);
  }

  lemma TwoCommits(s: State, t: nat, u: nat)
    requires RowsInv(s) && t != u && Ready(s, t) && Ready(s, u) && s.txns[t].task.key == s.txns[u].task.key
    ensures var end := From(s, [Commit(t), Commit(u)]); end.Some? && !AtMostOne(end.value.tasks)
  {
    hide From;
    TwoSteps(s, Commit(t), Commit(u));
    var i, j, end := s.txns[t].id, s.txns[u].id, From(s, [Commit(t), Commit(u)]).value;
    assert i != j && end.tasks[i] == s.txns[t].task && end.tasks[j] == s.txns[u].task;
    assert Open(end.tasks[i]) && Open(end.tasks[j]);
  }

  /** Two requests of a key past their locking selects, at whatever point each is, end in
      two tasks in progress. */
  lemma TwoHoldersBreakTheSlot(s: State, t: nat, u: nat, id: string, id': string) returns (steps: seq<Step>)
    requires RowsInv(s) && t != u && t in s.txns && u in s.txns && Holds(s.txns[t]) && Holds(s.txns[u])
    requires s.txns[t].task.key == s.txns[u].task.key && !Busy(s.tasks, s.txns[t].task.key)
    requires id !in s.usedIds && id' !in s.usedIds && id != id'
    ensures NeverMisses(steps) && From(s, steps).Some? && !AtMostOne(From(s, steps).value.tasks)
  {
    hide From, RowsInv, Busy, AtMostOne, Apply, Enabled;
    var first, s1 := RunsUpToCommit(s, t, id);
    var second, s2 := RunsUpToCommit(s1, u, id');
    TwoCommits(s2, t, u);
    FromConcat(s1, second, [Commit(t), Commit(u)]);
    FromConcat(s, first, second + [Commit(t), Commit(u)]);
    NeverMissesBoth(second, [Commit(t), Commit(u)]);
    NeverMissesBoth(first, second + [Commit(t), Commit(u)]);
    steps := first + (second + [Commit(t), Commit(u)]);
  }

  // ----- where the second request comes from -----

  lemma UnusedNumber(used: set<nat>) returns (u: nat)
    ensures u !in used
  {
    u := 0;
    var left := used;
    while left != {}
      invariant left <= used && forall x: nat :: x in used && x !in left ==> x < u
      decreases left
    {
      var x :| x in left;
      left := left - {x};
      u := if x < u then u else x + 1;
    }
  }

  lemma UnusedIds(used: set<string>) returns (id: string, id': string)
    ensures id !in used && id' !in used && id != id'
  {
    var length: nat := 0;
    var left := used;
    while left != {}
      invariant left <= used && forall x | x in used - left :: |x| < length
      decreases left
    {
      var x :| x in left;
      left := left - {x};
      length := if |x| < length then length else |x| + 1;
    }
    id, id' := seq(length, _ => 'a'), seq(length + 1, _ => 'a');
    assert |id| != |id'|;
  }

  predicate Misses(s: State, t: nat) {
    t in s.txns && Holds(s.txns[t]) && s.txns[t].lock.None?
  }

  /** If the key is busy, its task fails. */
  lemma FreeTheKey(s: State, t: nat) returns (steps: seq<Step>, s': State)
    requires RowsInv(s) && LockInv(s) && AllShaped(s.tasks) && AtMostOne(s.tasks) && Misses(s, t)
    ensures NeverMisses(steps)
    ensures From(s, steps) == Some(s') && RowsInv(s') && LockInv(s') && Misses(s', t)
            && !Busy(s'.tasks, s.txns[t].task.key)
    ensures s'.txns == s.txns && s'.runtimes == s.runtimes && s'.nextRuntime == s.nextRuntime && s'.usedIds == s.usedIds
  {
    hide From, RowsInv, LockInv, ClosedByRuntime;
    var key := s.txns[t].task.key;
    if !Busy(s.tasks, key) {
      NoSteps(s);
      return [], s;
    }
    var id :| id in s.tasks && s.tasks[id].key == key && Open(s.tasks[id]);
    var step := Report(id, Failed, "");
    TransitionsAreOneStep(s.tasks[id], Some(Failed));
    s' := Apply(s, step);
    StepKeepsRows(s, step);
    StepKeepsLock(s, step);
    OnlyOneIsOpen(s.tasks, id, key, s'.tasks[id]);
    NoSteps(s');
    FromStep(s, step, []);
    steps := [step] + [];
  }

  lemma OnlyOneIsOpen(tasks: Tasks, id: string, key: Key, closed: Task)
    requires AtMostOne(tasks) && id in tasks && tasks[id].key == key && Open(tasks[id]) && !Open(closed)
    ensures !Busy(tasks[id := closed], key)
  {
    hide InProgress;
  }

  /** The lowest row of a key that has one. */
  lemma LowestExists(s: State, key: Key, row: nat) returns (lowest: nat)
    requires row in s.runtimes && s.runtimes[row] == key
    ensures Lowest(s, key, lowest)
    decreases row
  {
    if r :| r in s.runtimes && s.runtimes[r] == key && r < row {
      lowest := LowestExists(s, key, r);
    } else {
      lowest := row;
    }
  }

  /** Another request of the key past its locking select: the one that holds the lowest
      row, or a new one that locks it. A key without a row gets one first. */
  lemma SecondHolder(s: State, t: nat, u: nat) returns (steps: seq<Step>, s': State, v: nat)
    requires RowsInv(s) && LockInv(s) && Misses(s, t) && u !in s.txns
    ensures NeverMisses(steps)
    ensures From(s, steps) == Some(s') && RowsInv(s') && s'.tasks == s.tasks && s'.usedIds == s.usedIds
    ensures t in s'.txns && s'.txns[t] == s.txns[t]
    ensures v != t && v in s'.txns && Holds(s'.txns[v]) && s'.txns[v].task.key == s.txns[t].task.key
  {
    hide From, RowsInv, Lowest, Free;
    var key := s.txns[t].task.key;
    if row :| row in s.runtimes && s.runtimes[row] == key {
      var lowest := LowestExists(s, key, row);
      steps, s', v := HolderOfRow(s, t, u, lowest);
    } else {
      var s1 := Apply(s, AddRuntime(key));
      StepKeepsRows(s, AddRuntime(key));
      AddRuntimeKeepsLock(s, key);
      var lowest := LowestExists(s1, key, s.nextRuntime);
      steps, s', v := HolderOfRow(s1, t, u, lowest);
      FromStep(s, AddRuntime(key), steps);
      NeverMissesBoth([AddRuntime(key)], steps);
      steps := [AddRuntime(key)] + steps;
    }
  }

  lemma HolderOfRow(s: State, t: nat, u: nat, row: nat) returns (steps: seq<Step>, s': State, v: nat)
    requires RowsInv(s) && LockInv(s) && Misses(s, t) && u !in s.txns && Lowest(s, s.txns[t].task.key, row)
    ensures NeverMisses(steps)
    ensures From(s, steps) == Some(s') && RowsInv(s') && s'.tasks == s.tasks && s'.usedIds == s.usedIds
    ensures t in s'.txns && s'.txns[t] == s.txns[t]
    ensures v != t && v in s'.txns && Holds(s'.txns[v]) && s'.txns[v].task.key == s.txns[t].task.key
  {
    hide From, RowsInv;
    if holder: nat :| LockedBy(s, holder, row) {
      NoSteps(s);
      assert Lowest(s, s.txns[holder].task.key, row);
      return [], s, holder;
    }
    var task := Task(s.txns[t].task.key, DAEMON, "", "", 0, Pending, "", 0, 0);
    assert Proper(task, None) by {
      assert DAEMON[0] != CC_OCTO[0];
    }
    var s1 := Apply(s, Begin(u, task, None));
    hide LockInv;
    StepKeepsRows(s, Begin(u, task, None));
    BeginLeavesFree(s, u, task, row);
    hide Lowest, Free;
    s' := Apply(s1, Lock(u, row));
    StepKeepsRows(s1, Lock(u, row));
    TwoSteps(s, Begin(u, task, None), Lock(u, row));
    steps, v := [Begin(u, task, None), Lock(u, row)], u;
  }

  lemma BeginLeavesFree(s: State, u: nat, task: Task, row: nat)
    requires u !in s.txns && Proper(task, None) && Lowest(s, task.key, row) && forall x: nat :: !LockedBy(s, x, row)
    ensures var s' := Apply(s, Begin(u, task, None)); Free(s', row) && Lowest(s', task.key, row)
  {
    var s' := Apply(s, Begin(u, task, None));
    forall x | x in s'.txns ensures !LockedBy(s', x, row) {
      if x != u {
        assert !LockedBy(s, x, row);
      }
    }
  }

  lemma NeverMissesBoth(a: seq<Step>, b: seq<Step>)
    requires NeverMisses(a) && NeverMisses(b)
    ensures NeverMisses(a + b)
  {
  }

  /** A continuation in which every later select finds its row, and yet two tasks of a
      key are in progress at the end. */
  ghost predicate Breaks(steps: seq<Step>, more: seq<Step>) {
    NeverMisses(more) && After(steps + more).Some? && !AtMostOne(After(steps + more).value.tasks)
  }

  /** The guard is needed on every run: whenever a request has gone past its locking
      select without a row, however far it is, whether or not it carries a secret and
      whatever else is under way, the run has a continuation, without another miss, in
      which two tasks of its key are in progress. */
  lemma {:induction false} MissedLockBreaksTheSlot(steps: seq<Step>, t: nat)
    requires After(steps).Some? && Misses(After(steps).value, t)
    ensures exists more: seq<Step> :: Breaks(steps, more)
  {
    assert NeverMisses([]);
    hide From, After, Apply, Enabled, RowsInv, LockInv, AllShaped, AtMostOne, Busy, Misses, NeverMisses;
    var s := After(steps).value;
    RunsKeepLocks(steps);
    AfterIsFrom(steps);
    if !AtMostOne(s.tasks) {
      assert steps + [] == steps;
      assert Breaks(steps, []);
    } else {
      var u := UnusedNumber(s.txns.Keys);
      var id, id' := UnusedIds(s.usedIds);
      var first, s1 := FreeTheKey(s, t);
      var second, s2, v := SecondHolder(s1, t, u);
      assert Misses(s1, t);
      StillMisses(s1, s2, t);
      var third := TwoHoldersBreakTheSlot(s2, t, v, id, id');
      var more := first + (second + third);
      FromConcat(s1, second, third);
      FromConcat(s, first, second + third);
      FromConcat(START, steps, more);
      AfterIsFrom(steps + more);
      NeverMissesBoth(second, third);
      NeverMissesBoth(first, second + third);
      assert Breaks(steps, more);
    }
  }

  lemma StillMisses(s: State, s': State, t: nat)
    requires Misses(s, t) && t in s'.txns && s'.txns[t] == s.txns[t]
    ensures t in s.txns && Holds(s'.txns[t])
  {
  }

  // ----- exactly when the law is safe -----

  lemma {:induction false} ContinuationKeepsSlot(s: State, more: seq<Step>)
    requires RowsInv(s) && LockInv(s) && AllLocked(s) && SlotInv(s) && NeverMisses(more) && From(s, more).Some?
    ensures AtMostOne(From(s, more).value.tasks)
    decreases |more|
  {
    if more == [] {
    } else {
      assert !more[0].LockMiss? && forall i | 0 <= i < |more[1..]| :: more[1..][i] == more[i + 1];
      hide RowsInv, LockInv, AllLocked, SlotInv, AtMostOne, Apply, Enabled;
      StepKeepsRows(s, more[0]);
      StepKeepsLock(s, more[0]);
      StepKeepsAllLocked(s, more[0]);
      StepKeepsSlot(s, more[0]);
      ContinuationKeepsSlot(Apply(s, more[0]), more[1..]);
    }
  }

  lemma BusyHolderBreaksTheSlot(s: State, t: nat, id: string) returns (steps: seq<Step>)
    requires RowsInv(s) && t in s.txns && PastCount(s.txns[t]) && Busy(s.tasks, s.txns[t].task.key) && id !in s.usedIds
    ensures NeverMisses(steps) && From(s, steps).Some? && !AtMostOne(From(s, steps).value.tasks)
  {
    var first, s' := RunsUpToCommit(s, t, id);
    CommitOntoBusyKey(s', t);
    hide From, RowsInv, Busy, AtMostOne, Apply, Enabled;
    FromConcat(s, first, [Commit(t)]);
    NeverMissesBoth(first, [Commit(t)]);
    steps := first + [Commit(t)];
  }

  lemma CommitOntoBusyKey(s: State, t: nat)
    requires RowsInv(s) && Ready(s, t) && Busy(s.tasks, s.txns[t].task.key)
    ensures From(s, [Commit(t)]).Some? && !AtMostOne(From(s, [Commit(t)]).value.tasks)
  {
    hide From;
    var end := Apply(s, Commit(t));
    NoSteps(end);
    FromStep(s, Commit(t), []);
    assert [Commit(t)] + [] == [Commit(t)];
    var j :| j in s.tasks && s.tasks[j].key == s.txns[t].task.key && Open(s.tasks[j]);
    assert j != s.txns[t].id && end.tasks[j] == s.tasks[j] && Open(end.tasks[s.txns[t].id]);
  }

  /** Exactly when no continuation in which the selects find their rows can break the law:
      every request past its select holds its row, no key has two tasks in progress, and
      the key of every request past its count is free. */
  lemma {:induction false} SafeExactlyIf(steps: seq<Step>)
    requires After(steps).Some?
    ensures (forall more: seq<Step> :: !Breaks(steps, more)) <==>
            AllLocked(After(steps).value) && SlotInv(After(steps).value)
  {
    var s := After(steps).value;
    assert NeverMisses([]) && steps + [] == steps;
    if !AllLocked(s) {
      var t :| t in s.txns && Holds(s.txns[t]) && s.txns[t].lock.None?;
      MissedLockBreaksTheSlot(steps, t);
    } else if !AtMostOne(s.tasks) {
      assert Breaks(steps, []);
    } else if t: nat :| t in s.txns && PastCount(s.txns[t]) && Busy(s.tasks, s.txns[t].task.key) {
      BusyHolderBreaks(steps, t);
    } else {
      LockedStaysSafe(steps);
    }
  }

  lemma {:induction false} BusyHolderBreaks(steps: seq<Step>, t: nat)
    requires After(steps).Some?
    requires var s := After(steps).value; t in s.txns && PastCount(s.txns[t]) && Busy(s.tasks, s.txns[t].task.key)
    ensures exists more: seq<Step> :: Breaks(steps, more)
  {
    hide From, After, Apply, Enabled, LockInv, AllShaped, RowsInv, AtMostOne, Busy;
    RunsKeepLocks(steps);
    AfterIsFrom(steps);
    var id, _ := UnusedIds(After(steps).value.usedIds);
    var more := BusyHolderBreaksTheSlot(After(steps).value, t, id);
    FromConcat(START, steps, more);
    AfterIsFrom(steps + more);
    assert Breaks(steps, more);
  }

  lemma {:induction false} LockedStaysSafe(steps: seq<Step>)
    requires After(steps).Some? && AllLocked(After(steps).value) && SlotInv(After(steps).value)
    ensures forall more: seq<Step> :: !Breaks(steps, more)
  {
    hide From, After, Apply, Enabled, RowsInv, LockInv, AllShaped, AllLocked, SlotInv, AtMostOne, NeverMisses;
    RunsKeepLocks(steps);
    AfterIsFrom(steps);
    forall more: seq<Step> ensures !Breaks(steps, more) {
      if Breaks(steps, more) {
        FromConcat(START, steps, more);
        AfterIsFrom(steps + more);
        ContinuationKeepsSlot(After(steps).value, more);
        assert false;
      }
    }
  }

  /** Such a state is reached: the request passes its checks, then the last runtime of
      the daemon is deleted. */
  lemma MissIsReached(task: Task)
    requires Proper(task, None)
    ensures var s := From(START, [AddRuntime(task.key), Begin(0, task, None), DropRuntime(1), LockMiss(0)]);
            && s.Some? && Misses(s.value, 0) && s.value.txns[0].task == task
  {
    hide From;
    FourSteps(START, AddRuntime(task.key), Begin(0, task, None), DropRuntime(1), LockMiss(0));
  }

  /** So without the guard the law fails, for every key. */
  lemma {:induction false} SlotCanBreak(task: Task)
    requires Proper(task, None)
    ensures var first := [AddRuntime(task.key), Begin(0, task, None), DropRuntime(1), LockMiss(0)];
            exists more: seq<Step> :: Breaks(first, more)
  {
    hide From, After, Apply, Enabled, AtMostOne;
    var first := [AddRuntime(task.key), Begin(0, task, None), DropRuntime(1), LockMiss(0)];
    MissIsReached(task);
    AfterIsFrom(first);
    MissedLockBreaksTheSlot(first, 0);
  }

  /** A request whose statements nothing comes between is the handler's: it is over if the
      key has a task in progress ... */
  lemma RequestAlone(s: State, t: nat, row: nat, task: Task, secret: Option<TtlStores.Secret>)
    requires Enabled(s, Begin(t, task, secret)) && Lowest(s, task.key, row) && Free(s, row)
    ensures Enabled(Apply(s, Begin(t, task, secret)), Lock(t, row))
    ensures Enabled(Apply(Apply(s, Begin(t, task, secret)), Lock(t, row)), Count(t))
    ensures var s' := Apply(Apply(Apply(s, Begin(t, task, secret)), Lock(t, row)), Count(t));
            var busy := exists j ::
                j in s.tasks && s.tasks[j].key == task.key && s.tasks[j].status !in {Completed, Failed, Timeout};
            s' == s.(txns := s.txns[t := Txn(task, secret, if busy then Over else Counted, Some(row), "")])
  {
    hide Proper, Lowest, Free, TtlStores.Unexpired;
    var begun := Apply(s, Begin(t, task, secret));
    assert Lowest(begun, task.key, row) && Free(begun, row) by {
      BeginLeavesRows(s, t, task, secret, row);
    }
    var locked := Apply(begun, Lock(t, row));
    assert locked == s.(txns := s.txns[t := Txn(task, secret, Locked, Some(row), "")]);
  }

  lemma BeginLeavesRows(s: State, t: nat, task: Task, secret: Option<TtlStores.Secret>, row: nat)
    requires Enabled(s, Begin(t, task, secret)) && Lowest(s, task.key, row) && Free(s, row)
    ensures var begun := Apply(s, Begin(t, task, secret)); Lowest(begun, task.key, row) && Free(begun, row)
  {
    var begun := Apply(s, Begin(t, task, secret));
    forall u | u in begun.txns ensures !LockedBy(begun, u, row) {
      assert u != t ==> !LockedBy(s, u, row);
    }
  }

  /** ... and otherwise commits its row, pending and as requested, and its secret before. */
  lemma CountedRequestAlone(s: State, t: nat, id: string)
    requires InPhase(s, t, Counted) && id !in s.usedIds
    ensures Enabled(s, Insert(t, id))
    ensures var s1, task, secret := Apply(s, Insert(t, id)), s.txns[t].task, s.txns[t].secret;
            && (secret.Some? ==> Enabled(s1, PutSecret(t)))
            && var s2 := if secret.Some? then Apply(s1, PutSecret(t)) else s1;
               && Enabled(s2, Commit(t))
               && var s3 := Apply(s2, Commit(t));
                  && s3.tasks == s.tasks[id :=
                       task.(status := Pending, errorMsg := "", createdAt := s.now, updatedAt := s.now)]
                  && (if secret.None? then s3.secrets == s.secrets
                      else id in s3.secrets && s3.secrets[id] == TtlStores.Entry(secret.value, s.now + 600))
  {
    hide TtlStores.Unexpired;
  }
}
