/** The life of a one-click install secret, on every run of upgrade requests, and the
    endpoint that hands it out (modules/runtime/cc_octo_fetch.go). */
module InstallSecrets {
  import opened Wrappers
  import opened UpgradeTasks
  import opened UpgradeRuns
  import opened TtlStores
  import VersionGates

  predicate IsInstall(t: Task) {
    t.component == CC_OCTO && t.fromVersion == ""
  }

  // ----- what every run keeps -----

  /** Requests stay proper; a row has a put exactly once its secret is stored. */
  predicate PutsInv(s: State) {
    && s.puts.Keys <= s.usedIds
    && (forall t | t in s.txns ::
          Proper(s.txns[t].task, s.txns[t].secret) && (s.txns[t].phase == Phase.Stored ==> s.txns[t].secret.Some?))
    && (forall t | t in s.txns && HasRow(s.txns[t]) :: s.txns[t].id in s.puts <==> s.txns[t].phase == Phase.Stored)
    && (forall id | id in s.tasks :: id in s.puts <==> IsInstall(s.tasks[id]))
  }

  /** An evict call that is still to run names a task that has ended or was never committed. */
  predicate EvictInv(s: State) {
    forall id | id in s.evicting ::
      && id in s.usedIds && (id in s.tasks ==> !Open(s.tasks[id]))
      && (forall t | t in s.txns && HasRow(s.txns[t]) :: s.txns[t].id != id)
  }

  predicate InTime(s: State, id: string) {
    id in s.puts && s.now - s.puts[id].at <= SECRET_TTL
  }

  /** Entries are puts with their expiry; a stored row and a task in progress have theirs. */
  predicate StoreInv(s: State) {
    && (forall id | id in s.secrets ::
          id in s.puts && s.secrets[id] == Entry(s.puts[id].secret, s.puts[id].at + SECRET_TTL))
    && (forall id | id in s.tasks && Open(s.tasks[id]) && InTime(s, id) :: id in s.secrets)
    && (forall t | t in s.txns && s.txns[t].phase == Phase.Stored && InTime(s, s.txns[t].id) ::
        s.txns[t].id in s.secrets)
  }

  lemma AdvancingKeeps(s: State, step: Step)
    requires Enabled(s, step) && MovesTasks(step)
    ensures var s' := Apply(s, step);
            && s'.tasks.Keys == s.tasks.Keys
            && (forall id | id in s'.tasks :: IsInstall(s'.tasks[id]) == IsInstall(s.tasks[id]))
            && (forall id | id in s'.tasks && Open(s'.tasks[id]) :: Open(s.tasks[id]))
  {
    hide Apply, Enabled;
    StepAdvances(s, step);
    assert forall id | id in s.tasks :: Advances(s.tasks[id], Apply(s, step).tasks[id], s.now);
  }

  /** What becomes of the store, the clock and the outstanding evictions. */
  lemma StoreFrame(s: State, step: Step)
    requires Enabled(s, step)
    ensures var s' := Apply(s, step);
            && (!step.PutSecret? && !step.Evict? && !step.SweepSecrets? && !step.FetchSecret? ==>
                s'.secrets == s.secrets)
            && (step.SweepSecrets? || step.FetchSecret? ==>
                  (forall id | id in s'.secrets :: id in s.secrets && s'.secrets[id] == s.secrets[id]) &&
                  (forall id | id in s.secrets && s.now <= s.secrets[id].expireAt :: id in s'.secrets))
            && (step.Evict? ==> step.id in s.evicting && s'.secrets == s.secrets - {step.id})
            && (!step.CommitFails? && !step.Report? && !step.CloseWrite? ==> s'.evicting == s.evicting)
            && (step.Report? || step.CloseWrite? ==>
                  forall id | id in s'.evicting && id !in s.evicting :: id in s'.tasks && !Open(s'.tasks[id]))
  {
  }

  // ----- puts -----

  lemma StepKeepsPuts(s: State, step: Step)
    requires RowsInv(s) && PutsInv(s) && Enabled(s, step)
    ensures PutsInv(Apply(s, step))
  {
    hide Apply, Enabled, RowsInv, PutsInv;
    if step.Begin? {
      BeginKeepsPuts(s, step.t, step.task, step.secret);
    } else if step.Insert? {
      InsertKeepsPuts(s, step.t, step.id);
    } else if step.PutSecret? {
      PutKeepsPuts(s, step.t);
    } else if step.Commit? {
      CommitKeepsPuts(s, step.t);
    } else if MovesTxn(step) {
      OtherTxnKeepsPuts(s, step);
    } else {
      RestKeepsPuts(s, step);
    }
  }

  lemma RestKeepsPuts(s: State, step: Step)
    requires PutsInv(s) && Enabled(s, step) && !MovesTxn(step)
    ensures PutsInv(Apply(s, step))
  {
    hide Apply, Enabled, PutsInv, IsInstall;
    Frame(s, step);
    if MovesTasks(step) {
      AdvancingKeeps(s, step);
    }
    SameRowsKeepPuts(s, Apply(s, step));
  }

  lemma SameRowsKeepPuts(s: State, s': State)
    requires PutsInv(s) && s'.txns == s.txns && s'.usedIds == s.usedIds && s'.puts == s.puts
             && s'.tasks.Keys == s.tasks.Keys
    requires forall id | id in s'.tasks :: IsInstall(s'.tasks[id]) == IsInstall(s.tasks[id])
    ensures PutsInv(s')
  {
    hide IsInstall, Proper;
  }

  lemma BeginKeepsPuts(s: State, t: nat, task: Task, secret: Option<Secret>)
    requires PutsInv(s) && Enabled(s, Begin(t, task, secret))
    ensures PutsInv(Apply(s, Begin(t, task, secret)))
  {
    hide IsInstall;
  }

  lemma InsertKeepsPuts(s: State, t: nat, id: string)
    requires PutsInv(s) && Enabled(s, Insert(t, id))
    ensures PutsInv(Apply(s, Insert(t, id)))
  {
    hide IsInstall;
  }

  lemma PutKeepsPuts(s: State, t: nat)
    requires RowsInv(s) && PutsInv(s) && Enabled(s, PutSecret(t))
    ensures PutsInv(Apply(s, PutSecret(t)))
  {
    hide IsInstall, Unexpired, Proper;
  }

  lemma CommitKeepsPuts(s: State, t: nat)
    requires RowsInv(s) && PutsInv(s) && Enabled(s, Commit(t))
    ensures PutsInv(Apply(s, Commit(t)))
  {
  }

  lemma OtherTxnKeepsPuts(s: State, step: Step)
    requires PutsInv(s) && Enabled(s, step) && MovesTxn(step)
    requires !step.Begin? && !step.Insert? && !step.PutSecret? && !step.Commit?
    ensures PutsInv(Apply(s, step))
  {
    hide Proper, IsInstall, Busy;
  }

  // ----- evictions -----

  lemma StepKeepsEvictions(s: State, step: Step)
    requires RowsInv(s) && EvictInv(s) && Enabled(s, step)
    ensures EvictInv(Apply(s, step))
  {
    hide Apply, Enabled, RowsInv, EvictInv;
    if step.CommitFails? {
      FailedCommitKeepsEvictions(s, step.t);
    } else if step.Insert? {
      InsertKeepsEvictions(s, step.t, step.id);
    } else if step.Commit? {
      CommitKeepsEvictions(s, step.t);
    } else if MovesTasks(step) {
      NewEvictionsEnded(s, step);
    } else {
      RestKeepsEvictions(s, step);
    }
  }

  lemma RestKeepsEvictions(s: State, step: Step)
    requires EvictInv(s) && Enabled(s, step) && !MovesTasks(step)
    requires !step.CommitFails? && !step.Insert? && !step.Commit?
    ensures EvictInv(Apply(s, step))
  {
    hide Apply, Enabled, EvictInv;
    Frame(s, step);
    StoreFrame(s, step);
    if MovesTxn(step) {
      TxnFrame(s, step);
    }
    SameEvictions(s, Apply(s, step));
  }

  lemma NewEvictionsEnded(s: State, step: Step)
    requires RowsInv(s) && EvictInv(s) && Enabled(s, step) && MovesTasks(step)
    ensures EvictInv(Apply(s, step))
  {
    hide Apply, Enabled, InProgress;
    Frame(s, step);
    StoreFrame(s, step);
    AdvancingKeeps(s, step);
  }

  lemma SameEvictions(s: State, s': State)
    requires EvictInv(s) && s'.evicting == s.evicting && s'.usedIds == s.usedIds && s'.tasks == s.tasks
    requires forall t | t in s'.txns && HasRow(s'.txns[t]) ::
               t in s.txns && HasRow(s.txns[t]) && s'.txns[t].id == s.txns[t].id
    ensures EvictInv(s')
  {
    hide InProgress, HasRow;
  }

  lemma FailedCommitKeepsEvictions(s: State, t: nat)
    requires RowsInv(s) && EvictInv(s) && Enabled(s, CommitFails(t))
    ensures EvictInv(Apply(s, CommitFails(t)))
  {
  }

  lemma InsertKeepsEvictions(s: State, t: nat, id: string)
    requires RowsInv(s) && EvictInv(s) && Enabled(s, Insert(t, id))
    ensures EvictInv(Apply(s, Insert(t, id)))
  {
  }

  lemma CommitKeepsEvictions(s: State, t: nat)
    requires RowsInv(s) && EvictInv(s) && Enabled(s, Commit(t))
    ensures EvictInv(Apply(s, Commit(t)))
  {
  }

  // ----- the store -----

  lemma StepKeepsStore(s: State, step: Step)
    requires RowsInv(s) && PutsInv(s) && EvictInv(s) && StoreInv(s) && Enabled(s, step)
    ensures StoreInv(Apply(s, step))
  {
    hide Apply, Enabled, RowsInv, PutsInv, EvictInv, StoreInv;
    if step.PutSecret? {
      PutKeepsStore(s, step.t);
    } else if step.Commit? {
      CommitKeepsStore(s, step.t);
    } else if step.Evict? {
      EvictKeepsStore(s, step.id);
    } else {
      RestKeepsStore(s, step);
    }
  }

  lemma RestKeepsStore(s: State, step: Step)
    requires StoreInv(s) && Enabled(s, step) && !step.PutSecret? && !step.Commit? && !step.Evict?
    ensures StoreInv(Apply(s, step))
  {
    hide Apply, Enabled, StoreInv, InProgress, IsInstall;
    Frame(s, step);
    StoreFrame(s, step);
    if MovesTasks(step) {
      AdvancingKeeps(s, step);
    } else if MovesTxn(step) {
      StoredStays(s, step);
    }
    FewerNeeds(s, Apply(s, step));
  }

  /** Fewer rows need their secret and no unexpired entry is lost. */
  lemma FewerNeeds(s: State, s': State)
    requires StoreInv(s) && s'.puts == s.puts && s'.now >= s.now
    requires forall id | id in s'.secrets :: id in s.secrets && s'.secrets[id] == s.secrets[id]
    requires forall id | id in s.secrets && s.now <= s.secrets[id].expireAt :: id in s'.secrets
    requires forall id | id in s'.tasks && Open(s'.tasks[id]) :: id in s.tasks && Open(s.tasks[id])
    requires forall t | t in s'.txns && s'.txns[t].phase == Phase.Stored ::
               t in s.txns && s.txns[t].phase == Phase.Stored && s'.txns[t].id == s.txns[t].id
    ensures StoreInv(s')
  {
    hide InProgress;
  }

  lemma StoredStays(s: State, step: Step)
    requires Enabled(s, step) && MovesTxn(step) && !step.PutSecret?
    ensures Apply(s, step).txns[step.t].phase == Phase.Stored ==>
              step.t in s.txns && s.txns[step.t].phase == Phase.Stored
                  && s.txns[step.t].id == Apply(s, step).txns[step.t].id
  {
  }

  lemma PutKeepsStore(s: State, t: nat)
    requires RowsInv(s) && PutsInv(s) && StoreInv(s) && Enabled(s, PutSecret(t))
    ensures StoreInv(Apply(s, PutSecret(t)))
  {
    hide Proper, IsInstall, Open;
  }

  lemma CommitKeepsStore(s: State, t: nat)
    requires RowsInv(s) && PutsInv(s) && StoreInv(s) && Enabled(s, Commit(t))
    ensures StoreInv(Apply(s, Commit(t)))
  {
    hide Proper;
  }

  lemma EvictKeepsStore(s: State, id: string)
    requires PutsInv(s) && EvictInv(s) && StoreInv(s) && Enabled(s, Evict(id))
    ensures StoreInv(Apply(s, Evict(id)))
  {
  }

  // ----- no secret is forgotten -----

  /** A request that has stored its secret but not committed its row. */
  predicate Uncommitted(s: State, id: string) {
    exists t :: t in s.txns && s.txns[t].phase == Phase.Stored && s.txns[t].id == id
  }

  /** Every secret that was put is still needed, belongs to a task that was swept, which
      leaves it to its expiry, or has an eviction on the way. */
  ghost predicate ForgottenNone(s: State) {
    forall id | id in s.puts ::
      || Uncommitted(s, id)
      || (id in s.tasks && (Open(s.tasks[id]) || s.tasks[id].status == Timeout))
      || id in s.evicting
  }

  lemma PutForgetsNone(s: State, t: nat)
    requires RowsInv(s) && ForgottenNone(s) && Enabled(s, PutSecret(t))
    ensures ForgottenNone(Apply(s, PutSecret(t)))
  {
    hide Proper, InProgress, Unexpired;
    var s' := Apply(s, PutSecret(t));
    assert s'.txns[t].phase == Phase.Stored && s'.txns[t].id == s.txns[t].id;
    forall id | id in s.puts && Uncommitted(s, id) ensures Uncommitted(s', id) {
      var u :| u in s.txns && s.txns[u].phase == Phase.Stored && s.txns[u].id == id;
      assert s'.txns[u] == s.txns[u];
    }
  }

  lemma CommitForgetsNone(s: State, step: Step)
    requires RowsInv(s) && PutsInv(s) && ForgottenNone(s) && Enabled(s, step) && (step.Commit? || step.CommitFails?)
    ensures ForgottenNone(Apply(s, step))
  {
    hide Proper, IsInstall;
    var s', t := Apply(s, step), step.t;
    forall id | id in s.puts && Uncommitted(s, id) && id != s.txns[t].id ensures Uncommitted(s', id) {
      var u :| u in s.txns && s.txns[u].phase == Phase.Stored && s.txns[u].id == id;
      assert s'.txns[u] == s.txns[u];
    }
  }

  /** Steps that neither put nor end a secret's task. */
  lemma OtherForgetsNone(s: State, step: Step)
    requires ForgottenNone(s) && Enabled(s, step) && !MovesTasks(step)
    requires !step.PutSecret? && !step.Commit? && !step.CommitFails?
    ensures ForgottenNone(Apply(s, step))
  {
    hide Apply, Enabled, InProgress;
    Frame(s, step);
    StoreFrame(s, step);
    var s' := Apply(s, step);
    forall id | id in s.puts && Uncommitted(s, id) ensures Uncommitted(s', id) {
      var u :| u in s.txns && s.txns[u].phase == Phase.Stored && s.txns[u].id == id;
      if MovesTxn(step) {
        StoredIsOver(s, step);
      }
      assert s'.txns[u] == s.txns[u];
    }
  }

  lemma StoredIsOver(s: State, step: Step)
    requires Enabled(s, step) && MovesTxn(step) && !step.Commit? && !step.CommitFails?
    ensures step.t in s.txns ==> s.txns[step.t].phase != Phase.Stored
  {
  }

  /** How a step can end a task with a secret: a failure or a close-out of its own asks for
      the eviction, a sweep leaves it timed out. */
  lemma EndingForgetsNone(s: State, step: Step, id: string)
    requires Enabled(s, step) && MovesTasks(step) && id in s.tasks && s.tasks[id].component == CC_OCTO
    requires Open(s.tasks[id]) || s.tasks[id].status == Timeout || id in s.evicting
    ensures var s' := Apply(s, step);
            && id in s'.tasks && s.evicting <= s'.evicting
            && (Open(s'.tasks[id]) || s'.tasks[id].status == Timeout || id in s'.evicting)
  {
    hide VersionGates.ClosesRuntimeTask, Hits;
    if step.CloseDaemon? {
      assert CC_OCTO[0] != VersionGates.DAEMON[0];
    }
  }

  lemma StepForgetsNone(s: State, step: Step)
    requires RowsInv(s) && PutsInv(s) && ForgottenNone(s) && Enabled(s, step)
    ensures ForgottenNone(Apply(s, step))
  {
    hide Apply, Enabled, RowsInv, InProgress, Uncommitted;
    if step.PutSecret? {
      PutForgetsNone(s, step.t);
    } else if step.Commit? || step.CommitFails? {
      CommitForgetsNone(s, step);
    } else if !MovesTasks(step) {
      OtherForgetsNone(s, step);
    } else {
      Frame(s, step);
      MovingForgetsNone(s, step);
    }
  }

  lemma MovingForgetsNone(s: State, step: Step)
    requires PutsInv(s) && ForgottenNone(s) && Enabled(s, step) && MovesTasks(step)
    ensures ForgottenNone(Apply(s, step))
  {
    hide Apply, Enabled, InProgress, Uncommitted;
    Frame(s, step);
    EvictingStays(s, step);
    var s' := Apply(s, step);
    assert forall id | id in s.tasks && id in s.puts :: IsInstall(s.tasks[id]);
    hide PutsInv;
    forall id | id in s.puts && id !in s'.evicting && !Uncommitted(s', id)
      ensures id in s'.tasks && (Open(s'.tasks[id]) || s'.tasks[id].status == Timeout)
    {
      assert Uncommitted(s, id) ==> Uncommitted(s', id) by {
        SameTxns(s, s', id);
      }
      EndingForgetsNone(s, step, id);
    }
  }

  lemma SameTxns(s: State, s': State, id: string)
    requires s'.txns == s.txns
    ensures Uncommitted(s', id) <==> Uncommitted(s, id)
  {
  }

  lemma EvictingStays(s: State, step: Step)
    requires Enabled(s, step)
    ensures s.evicting <= Apply(s, step).evicting
  {
  }

  /** On every run no secret is forgotten: one that was put is still needed, was left to its
      expiry by a sweep, or has an eviction on the way. */
  lemma {:induction false} NoSecretIsForgotten(steps: seq<Step>)
    requires After(steps).Some?
    ensures ForgottenNone(After(steps).value)
  {
    hide RowsInv, LockInv, AllShaped, PutsInv, EvictInv, StoreInv, Apply, Enabled;
    if steps == [] {
    } else {
      hide ForgottenNone;
      var s, step := After(steps[..|steps| - 1]).value, steps[|steps| - 1];
      RunsKeepLocks(steps[..|steps| - 1]);
      RunsKeepSecrets(steps[..|steps| - 1]);
      NoSecretIsForgotten(steps[..|steps| - 1]);
      StepForgetsNone(s, step);
    }
  }

  /** And an eviction is for good: after it the secret is out of the store on every
      continuation of the run. */
  lemma {:induction false} EvictedForGood(s: State, steps: seq<Step>, id: string)
    requires RowsInv(s) && EvictInv(s) && id in s.evicting && id !in s.secrets && From(s, steps).Some?
    ensures id !in From(s, steps).value.secrets
    decreases |steps|
  {
    if steps != [] {
      hide Apply, Enabled, RowsInv, EvictInv;
      var s1 := Apply(s, steps[0]);
      StepKeepsRows(s, steps[0]);
      StepKeepsEvictions(s, steps[0]);
      EvictingStays(s, steps[0]);
      StaysOut(s, steps[0], id);
      EvictedForGood(s1, steps[1..], id);
    }
  }

  lemma StaysOut(s: State, step: Step, id: string)
    requires EvictInv(s) && id in s.evicting && id !in s.secrets && Enabled(s, step)
    ensures id !in Apply(s, step).secrets
  {
    if step.PutSecret? {
      assert HasRow(s.txns[step.t]);
    }
  }

  // ----- every run -----

  lemma {:induction false} RunsKeepSecrets(steps: seq<Step>)
    requires After(steps).Some?
    ensures var s := After(steps).value; PutsInv(s) && EvictInv(s) && StoreInv(s)
  {
    hide RowsInv, LockInv, AllShaped, PutsInv, EvictInv, StoreInv, Apply, Enabled;
    if steps == [] {
      StartHasNoSecrets();
    } else {
      var s, step := After(steps[..|steps| - 1]).value, steps[|steps| - 1];
      RunsKeepLocks(steps[..|steps| - 1]);
      RunsKeepSecrets(steps[..|steps| - 1]);
      StepKeepsPuts(s, step);
      StepKeepsEvictions(s, step);
      StepKeepsStore(s, step);
    }
  }

  lemma StartHasNoSecrets()
    ensures PutsInv(START) && EvictInv(START) && StoreInv(START)
  {
  }

  /** On every run, whatever the interleaving: a committed install task in progress has
      had its secret put, and for 600 seconds from then the store holds exactly it. */
  lemma InstallSecretAvailable(steps: seq<Step>, id: string)
    requires After(steps).Some?
    requires var s := After(steps).value; id in s.tasks && IsInstall(s.tasks[id]) && Open(s.tasks[id])
    ensures var s := After(steps).value;
            && id in s.puts
            && (s.now - s.puts[id].at <= 600 ==>
                  id in s.secrets && s.secrets[id] == Entry(s.puts[id].secret, s.puts[id].at + SECRET_TTL))
  {
    RunsKeepSecrets(steps);
    assert id in After(steps).value.puts;
  }

  /** A task that is not an install never has a secret. */
  lemma NoSecretForUpgrades(steps: seq<Step>, id: string)
    requires After(steps).Some? && id in After(steps).value.tasks && !IsInstall(After(steps).value.tasks[id])
    ensures id !in After(steps).value.secrets
  {
    RunsKeepSecrets(steps);
    hide RowsInv, EvictInv, Apply, Enabled, After;
  }

  // ----- the endpoint -----

  /** What a reader of the store sees at `s`. */
  function Seen(s: State, id: string): Option<Secret> {
    if id in s.secrets && s.now <= s.secrets[id].expireAt then Some(s.secrets[id].secret) else None
  }

  datatype Fetched = Config(secret: Secret) | Denied(reply: Reply) | Invalid

  /** The part of the endpoint that follows its ownership checks. */
  function Decision(t: Task, seen: Option<Secret>): Fetched {
    if !ShortState(t.status) then Denied(Conflict)
    else if seen.Some? then Config(seen.value)
    else if IsInstall(t) then Denied(Conflict)
    else Denied(NotFound)
  }

  predicate MayFetch(t: Task, owner: string, space: string, runtimeId: int) {
    t.key.owner == owner && t.key.space == space && t.component == CC_OCTO && t.runtimeId == runtimeId
  }

  /** The endpoint: a secret leaves only to the owner, for the runtime the task names,
      while the task is in progress. */
  method FetchCcOctoConfig(tasks: Tasks, runtimes: map<int, Key>, store: SecretStore,
                           owner: string, space: string, taskId: string, runtimeId: int, now: int)
      returns (answer: Fetched)
    requires store.Valid() && now >= store.clock
    modifies store
    ensures store.Valid() && store.history == old(store.history)
    ensures var own :=
              runtimeId in runtimes && runtimes[runtimeId].owner == owner && runtimes[runtimeId].space == space;
            && (answer == Invalid <==> taskId == "" || runtimeId <= 0)
            && (answer.Config? ==>
                  && own && taskId in tasks && tasks[taskId].status in {Pending, Dispatched, Installing}
                  && tasks[taskId].key.owner == owner && tasks[taskId].key.space == space
                  && tasks[taskId].component == "cc-octo" && tasks[taskId].runtimeId == runtimeId
                  && Visible(store.history, taskId, now) == Some(answer.secret))
            && (answer != Invalid && !own ==> answer == Denied(Forbidden))
            && (answer != Invalid && own && taskId !in tasks ==> answer == Denied(NotFound))
            && (answer != Invalid && own && taskId in tasks ==>
                  answer == if MayFetch(tasks[taskId], owner, space, runtimeId)
                            then Decision(tasks[taskId], Visible(store.history, taskId, now)) else Denied(Forbidden))
  {
    if taskId == "" || runtimeId <= 0 {
      return Invalid;
    }
    if runtimeId !in runtimes || runtimes[runtimeId].owner != owner || runtimes[runtimeId].space != space {
      return Denied(Forbidden);
    }
    if taskId !in tasks {
      return Denied(NotFound);
    }
    var t := tasks[taskId];
    if t.key.owner != owner || t.key.space != space || t.component != CC_OCTO {
      return Denied(Forbidden);
    }
    if t.runtimeId != runtimeId {
      return Denied(Forbidden);
    }
    match t.status {
      case Pending | Dispatched | Installing =>
      case _ => return Denied(Conflict);
    }
    var isInstall := t.fromVersion == "";
    var secret := store.Get(taskId, now);
    if secret.None? {
      return Denied(if isInstall then Conflict else NotFound);
    }
    answer := Config(secret.value);
  }

  /** The answers on every run, for any cc-octo task and at any moment: an install in
      progress gets the secret put for it during the 600 seconds after the put and a
      conflict later, an upgrade in progress is told to go on without, and a task that
      has ended gets a conflict. */
  lemma AnswersOnEveryRun(steps: seq<Step>, id: string)
    requires After(steps).Some? && id in After(steps).value.tasks && After(steps).value.tasks[id].component == CC_OCTO
    ensures var s := After(steps).value;
            var answer := Decision(s.tasks[id], Seen(s, id));
            && (Open(s.tasks[id]) && IsInstall(s.tasks[id]) ==>
                  && id in s.puts
                  && answer == if s.now - s.puts[id].at <= 600 then Config(s.puts[id].secret)
                      else Denied(Conflict))
            && (Open(s.tasks[id]) && !IsInstall(s.tasks[id]) ==> answer == Denied(NotFound))
            && (!Open(s.tasks[id]) ==> answer == Denied(Conflict))
  {
    RunsKeepSecrets(steps);
    RunsKeepLocks(steps);
    hide After, Enabled, Apply, RowsInv, LockInv, EvictInv;
    var s := After(steps).value;
    AcceptedIsInProgress(s.tasks[id]);
    assert id in s.puts <==> IsInstall(s.tasks[id]);
  }

  /** The statuses that the endpoint accepts are those a cc-octo task can be in before
      it ends ... */
  lemma AcceptedIsInProgress(t: Task)
    requires Shaped(t) && t.component == CC_OCTO
    ensures ShortState(t.status) <==> Open(t)
    ensures Open(t) ==> t.status in {Pending, Dispatched, Installing}
  {
    assert CC_OCTO[0] != VersionGates.DAEMON[0];
  }

  function Requested(key: Key, task: Task, secret: Secret, id: string): seq<Step> {
    [AddRuntime(key), Begin(0, task, Some(secret)), Lock(0, 1), Count(0)] +
    [Insert(0, id), PutSecret(0), Commit(0), Tick(0)]
  }

  lemma RequestRuns(task: Task, secret: Secret, id: string)
    requires IsInstall(task)
    ensures var s := From(START, Requested(task.key, task, secret, id));
            s.Some? && id in s.value.tasks && s.value.tasks == map[id := NewRow(task, 0)]
  {
    var first := [AddRuntime(task.key), Begin(0, task, Some(secret)), Lock(0, 1), Count(0)];
    var last := [Insert(0, id), PutSecret(0), Commit(0), Tick(0)];
    FirstHalf(task, secret, id);
    SecondHalf(task, secret, id, From(START, first).value);
    hide From, Apply, Enabled;
    FromConcat(START, first, last);
  }

  lemma FirstHalf(task: Task, secret: Secret, id: string)
    requires IsInstall(task)
    ensures var s := From(START, [AddRuntime(task.key), Begin(0, task, Some(secret)), Lock(0, 1), Count(0)]);
            s.Some? && s.value.tasks == map[] && s.value.usedIds == {} && s.value.now == 0
            && InPhase(s.value, 0, Counted) && s.value.txns[0].task == task && s.value.txns[0].secret == Some(secret)
  {
    hide From;
    assert !Busy(map[], task.key);
    FourSteps(START, AddRuntime(task.key), Begin(0, task, Some(secret)), Lock(0, 1), Count(0));
  }

  lemma SecondHalf(task: Task, secret: Secret, id: string, s: State)
    requires s.tasks == map[] && s.usedIds == {} && s.now == 0
    requires InPhase(s, 0, Counted) && s.txns[0].task == task && s.txns[0].secret == Some(secret)
    ensures var end := From(s, [Insert(0, id), PutSecret(0), Commit(0), Tick(0)]);
            end.Some? && end.value.tasks == map[id := NewRow(task, 0)]
  {
    hide From;
    FourSteps(s, Insert(0, id), PutSecret(0), Commit(0), Tick(0));
  }

  lemma OneMore(steps: seq<Step>, step: Step)
    requires After(steps).Some? && Enabled(After(steps).value, step)
    ensures After(steps + [step]) == Some(Apply(After(steps).value, step))
  {
    hide Apply, Enabled;
    assert (steps + [step])[..|steps + [step]| - 1] == steps;
  }

  /** ... and each of them is one that an install task reaches. */
  lemma EachAcceptedStatusIsReached(task: Task, secret: Secret, id: string)
    requires IsInstall(task)
    ensures var pending := Requested(task.key, task, secret, id);
            var dispatched := pending + [Claim(id)];
            var installing := dispatched + [Report(id, Installing, "")];
            && After(pending).Some? && id in After(pending).value.tasks
                && After(pending).value.tasks[id].status == Pending
            && After(dispatched).Some? && id in After(dispatched).value.tasks
                && After(dispatched).value.tasks[id].status == Dispatched
            && After(installing).Some? && id in After(installing).value.tasks
                && After(installing).value.tasks[id].status == Installing
  {
    hide From, After;
    var pending := Requested(task.key, task, secret, id);
    RequestRuns(task, secret, id);
    AfterIsFrom(pending);
    OneMore(pending, Claim(id));
    assert CC_OCTO[0] != VersionGates.DAEMON[0];
    OneMore(pending + [Claim(id)], Report(id, Installing, ""));
  }
}
