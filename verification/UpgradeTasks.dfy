/** Upgrade tasks and the statements that move them: claim, report, close-out and the
    timeout sweep (modules/runtime/upgrade.go). */
module UpgradeTasks {
  import opened Wrappers
  import opened VersionGates
  import Versions

  // ----- tasks -----

  const PLUGIN := "octo"
  const CC_OCTO := "cc-octo"

  datatype Status = Pending | Dispatched | Downloading | Installing | Restarting | Completed | Failed | Timeout

  datatype Key = Key(space: string, daemon: string, owner: string)

  /** `runtimeId` is what the task's metadata records, 0 if it records none. */
  datatype Task = Task(key: Key, component: string, fromVersion: string, toVersion: string, runtimeId: int,
                       status: Status, errorMsg: string, createdAt: int, updatedAt: int)

  type Tasks = map<string, Task>

  predicate InProgress(s: Status) {
    !s.Completed? && !s.Failed? && !s.Timeout?
  }

  predicate Open(t: Task) {
    InProgress(t.status)
  }

  function Rank(s: Status): nat {
    match s
    case Pending => 0
    case Dispatched => 1
    case Downloading => 2
    case Installing => 3
    case Restarting => 4
    case _ => 5
  }

  predicate IsPlugin(component: string) {
    component == PLUGIN || component == CC_OCTO
  }

  /** Only the daemon's own upgrade downloads and restarts. */
  predicate Shaped(t: Task) {
    t.component != DAEMON ==> !t.status.Downloading? && !t.status.Restarting?
  }

  /** From which states a daemon may report `target`; empty means that the target is
      not allowed at all. `None` is any status name outside the list. */
  function ValidTransitionsFrom(component: string, target: Option<Status>): set<Status> {
    if component == DAEMON then
      match target
      case Some(Downloading) => {Pending, Dispatched}
      case Some(Installing) => {Downloading}
      case Some(Restarting) => {Installing}
      case Some(Failed) => {Pending, Dispatched, Downloading, Installing, Restarting}
      case _ => {}
    else
      match target
      case Some(Installing) => {Pending, Dispatched}
      case Some(Failed) => {Pending, Dispatched, Installing}
      case _ => {}
  }

  /** The slot of the key is taken. */
  predicate Busy(tasks: Tasks, key: Key) {
    exists id :: id in tasks && tasks[id].key == key && Open(tasks[id])
  }

  // ----- what the statements do -----

  function NewRow(task: Task, now: int): Task {
    task.(status := Pending, errorMsg := "", createdAt := now, updatedAt := now)
  }

  function Moved(t: Task, status: Status, now: int): Task {
    t.(status := status, updatedAt := now)
  }

  predicate NewestPending(tasks: Tasks, key: Key, id: string) {
    && id in tasks && tasks[id].key == key && tasks[id].status == Pending
    && forall j | j in tasks && tasks[j].key == key && tasks[j].status == Pending ::
        tasks[j].createdAt <= tasks[id].createdAt
  }

  function Claimed(tasks: Tasks, id: string, now: int): Tasks
    requires id in tasks
  {
    tasks[id := Moved(tasks[id], Dispatched, now)]
  }

  /** The conditional UPDATE of a report; it has no effect outside the allowed states. */
  function Reported(tasks: Tasks, id: string, target: Status, errorMsg: string, now: int): Tasks
    requires id in tasks
  {
    if tasks[id].status in ValidTransitionsFrom(tasks[id].component, Some(target)) then
      tasks[id := Moved(tasks[id], target, now).(errorMsg := errorMsg)]
    else tasks
  }

  predicate ClosedByDaemon(t: Task, key: Key, component: string, version: string) {
    t.key == key && t.component == component && t.toVersion == version && Open(t)
  }

  function DaemonClosed(tasks: Tasks, key: Key, component: string, version: string, now: int): Tasks {
    map id | id in tasks ::
      if ClosedByDaemon(tasks[id], key, component, version) then Moved(tasks[id], Completed, now) else tasks[id]
  }

  /** Selected by the close-out of one runtime and its reported version. */
  ghost predicate ClosedByRuntime(t: Task, key: Key, component: string, actual: string, runtimeId: int) {
    t.key == key && t.component == component && Open(t) && t.runtimeId == runtimeId
        && ClosesRuntimeTask(actual, t.toVersion)
  }

  /** The close-out's UPDATE has no status guard. */
  function CompletedById(tasks: Tasks, id: string, now: int): Tasks
    requires id in tasks
  {
    tasks[id := Moved(tasks[id], Completed, now)]
  }

  // ----- the sweep -----

  const DAEMON_TIMEOUT := 120
  const PLUGIN_TIMEOUT := 600
  const FALLBACK_TIMEOUT := 1800

  /** The UPDATE statements of one sweep. */
  datatype Sweep =
    | DaemonBucket
    | PluginBucket
    | ProviderBucket(name: string, seconds: int)
    | FallbackBucket(known: set<string>)

  predicate ShortState(s: Status) {
    s.Pending? || s.Dispatched? || s.Installing?
  }

  predicate Hits(sweep: Sweep, t: Task, now: int) {
    match sweep
    case DaemonBucket => t.component == DAEMON && Open(t) && t.updatedAt < now - DAEMON_TIMEOUT
    case PluginBucket => IsPlugin(t.component) && ShortState(t.status) && t.updatedAt < now - PLUGIN_TIMEOUT
    case ProviderBucket(name, seconds) => t.component == name && ShortState(t.status) && t.updatedAt < now - seconds
    case FallbackBucket(known) => t.component !in known && Open(t) && t.updatedAt < now - FALLBACK_TIMEOUT
  }

  function TimedOut(sweep: Sweep, t: Task, now: int): Task {
    var errorMsg := if sweep.FallbackBucket? then "upgrade timed out (fallback)" else "upgrade timed out";
    Moved(t, Timeout, now).(errorMsg := errorMsg)
  }

  function SweptTask(sweep: Sweep, t: Task, now: int): Task {
    if Hits(sweep, t, now) then TimedOut(sweep, t, now) else t
  }

  function Swept(tasks: Tasks, sweep: Sweep, now: int): Tasks {
    map id | id in tasks :: SweptTask(sweep, tasks[id], now)
  }

  function Known(active: set<string>): set<string> {
    {DAEMON, PLUGIN, CC_OCTO} + active
  }

  /** The bucket that a component belongs to. */
  function BucketOf(active: map<string, int>, component: string): Sweep {
    if component == DAEMON then DaemonBucket
    else if IsPlugin(component) then PluginBucket
    else if component in active then ProviderBucket(component, active[component])
    else FallbackBucket(Known(active.Keys))
  }

  function TimeoutOf(active: map<string, int>, component: string): int {
    match BucketOf(active, component)
    case DaemonBucket => DAEMON_TIMEOUT
    case PluginBucket => PLUGIN_TIMEOUT
    case ProviderBucket(_, seconds) => seconds
    case FallbackBucket(_) => FALLBACK_TIMEOUT
  }

  /** What a whole pass does to a task: its bucket may hit it, and so may the bucket of a
      provider that carries a built-in component's name. */
  function AfterPass(t: Task, active: map<string, int>, now: int): Task {
    if Hits(BucketOf(active, t.component), t, now) then TimedOut(BucketOf(active, t.component), t, now)
    else if t.component in active && Hits(ProviderBucket(t.component, active[t.component]), t, now) then
      TimedOut(ProviderBucket(t.component, active[t.component]), t, now)
    else t
  }

  // ----- the code -----

  datatype Reply = Ok | NotFound | Forbidden | Conflict

  class TaskTable {
    var tasks: Tasks

    constructor ()
      ensures tasks == map[]
    {
      tasks := map[];
    }

    /** Claims the newest pending task of the key, if there is one. */
    method ClaimPendingUpgrade(key: Key, now: int) returns (id: Option<string>)
      modifies this
      ensures id.None? ==> tasks == old(tasks) && forall j | j in tasks && tasks[j].key == key ::
              tasks[j].status != Pending
      ensures id.Some? ==> NewestPending(old(tasks), key, id.value) && tasks == Claimed(old(tasks), id.value, now)
      ensures id.Some? ==>
                && old(tasks)[id.value].key == key && old(tasks)[id.value].status == Pending
                && (forall j | j in old(tasks) && old(tasks)[j].key == key && old(tasks)[j].status == Pending ::
                      old(tasks)[j].createdAt <= old(tasks)[id.value].createdAt)
                && tasks == old(tasks)[id.value := old(tasks)[id.value].(status := Dispatched, updatedAt := now)]
    {
      id := None;
      var left := tasks.Keys;
      while left != {}
        invariant left <= tasks.Keys && tasks == old(tasks)
        invariant id.None? ==> forall j | j in tasks && j !in left && tasks[j].key == key :: tasks[j].status != Pending
        invariant id.Some? ==> id.value in tasks && tasks[id.value].key == key && tasks[id.value].status == Pending &&
                               forall j | j in tasks && j !in left && tasks[j].key == key
                                   && tasks[j].status == Pending ::
                                 tasks[j].createdAt <= tasks[id.value].createdAt
        decreases left
      {
        var j :| j in left;
        left := left - {j};
        if tasks[j].key == key && tasks[j].status == Pending {
          if id.None? || tasks[j].createdAt > tasks[id.value].createdAt {
            id := Some(j);
          }
        }
      }
      if id.Some? {
        tasks := tasks[id.value := tasks[id.value].(status := Dispatched, updatedAt := now)];
      }
    }

    /** A daemon's progress report. `evict` tells the caller to drop the install secret. */
    method UpgradeReport(owner: string, space: string, id: string, target: Option<Status>, errorMsg: string, now: int)
        returns (reply: Reply, evict: bool)
      modifies this
      ensures reply ==
                if id !in old(tasks) then NotFound
                else if old(tasks)[id].key.space != space || old(tasks)[id].key.owner != owner then Forbidden
                else if old(tasks)[id].status in ValidTransitionsFrom(old(tasks)[id].component, target) then Ok
                else Conflict
      ensures reply == Ok ==>
                && target.Some? && tasks == Reported(old(tasks), id, target.value, errorMsg, now)
                && tasks[id].status == target.value
      ensures reply == Ok ==>
                tasks[id] == old(tasks)[id].(status := target.value, errorMsg := errorMsg, updatedAt := now)
      ensures reply != Ok ==> tasks == old(tasks)
      ensures evict <==> reply == Ok && old(tasks)[id].component == CC_OCTO && target == Some(Failed)
    {
      evict := false;
      if id !in tasks {
        return NotFound, false;
      }
      var t := tasks[id];
      if t.key.space != space || t.key.owner != owner {
        return Forbidden, false;
      }
      var allowed := ValidTransitionsFrom(t.component, target);
      if allowed == {} || t.status !in allowed {
        return Conflict, false;
      }
      tasks := tasks[id := t.(status := target.value, errorMsg := errorMsg, updatedAt := now)];
      return Ok, t.component == CC_OCTO && target == Some(Failed);
    }

    method CompleteUpgradeIfMatched(key: Key, component: string, version: string, now: int)
      modifies this
      ensures tasks == DaemonClosed(old(tasks), key, component, version, now)
      ensures tasks.Keys == old(tasks).Keys
      ensures forall id | id in old(tasks) ::
                var t := old(tasks)[id];
                if t.key == key && t.component == component && ClosesDaemonTask(version, t.toVersion)
                   && t.status !in {Completed, Failed, Timeout}
                then tasks[id] == t.(status := Completed, updatedAt := now) else tasks[id] == t
    {
      tasks := map id | id in tasks ::
        if tasks[id].key == key && tasks[id].component == component && tasks[id].toVersion == version
           && tasks[id].status in {Pending, Dispatched, Downloading, Installing, Restarting}
        then tasks[id].(status := Completed, updatedAt := now) else tasks[id];
      forall t: Task { DaemonClosesIff(t, key, component, version); }
      hide ClosedByDaemon, ClosesDaemonTask;
    }

    /** Completes the selected candidates one by one and returns their ids. */
    method CompleteUpgradeIfMatchedWithRuntime(key: Key, component: string, actual: string, runtimeId: int, now: int)
        returns (completed: set<string>)
      modifies this
      ensures tasks.Keys == old(tasks).Keys
      ensures forall id :: id in completed <==>
              id in old(tasks) && ClosedByRuntime(old(tasks)[id], key, component, actual, runtimeId)
      ensures forall id | id in tasks :: tasks[id] == if id in completed then Moved(old(tasks)[id], Completed, now)
              else old(tasks)[id]
      ensures forall id | id in completed ::
                var t := old(tasks)[id];
                && t.key == key && t.component == component && t.runtimeId == runtimeId
                && t.status !in {Completed, Failed, Timeout}
                && tasks[id] == t.(status := Completed, updatedAt := now)
    {
      var candidates := set id | id in tasks && tasks[id].key == key && tasks[id].component == component
          && Open(tasks[id]);
      completed := {};
      var left := candidates;
      while left != {}
        invariant left <= candidates && completed <= candidates - left && tasks.Keys == old(tasks).Keys
        invariant forall id | id in candidates - left ::
                    id in completed <==> ClosedByRuntime(old(tasks)[id], key, component, actual, runtimeId)
        invariant forall id | id in tasks :: tasks[id] == if id in completed then Moved(old(tasks)[id], Completed, now)
                  else old(tasks)[id]
        decreases left
      {
        var id :| id in left;
        left := left - {id};
        var t := tasks[id];
        if t.runtimeId == runtimeId {
          var older := Versions.IsVersionOlder(t.toVersion, actual);
          if actual == t.toVersion || older {
            tasks := tasks[id := t.(status := Completed, updatedAt := now)];
            completed := completed + {id};
          }
        }
      }
    }

    /** One pass over all buckets: `active` are the active providers and their timeouts. */
    method TimeoutStaleUpgrades(active: map<string, int>, now: int)
      modifies this
      ensures tasks == map id | id in old(tasks) :: AfterPass(old(tasks)[id], active, now)
    {
      hide SweptTask, BeforeFallback, AfterPass;
      tasks := Swept(tasks, DaemonBucket, now);
      tasks := Swept(tasks, PluginBucket, now);
      var known := {DAEMON, PLUGIN, CC_OCTO};
      var left := active.Keys;
      ghost var done: set<string> := {};
      forall t: Task { BuiltInBuckets(t, active, now); }
      while left != {}
        invariant left + done == active.Keys && known == Known(done)
        invariant tasks.Keys == old(tasks).Keys
        invariant forall id | id in tasks :: tasks[id] == BeforeFallback(old(tasks)[id], active, done, now)
        decreases left
      {
        var component :| component in left;
        forall t: Task { OneMoreProvider(t, active, done, component, now); }
        known := known + {component};
        done := done + {component};
        left := left - {component};
        tasks := Swept(tasks, ProviderBucket(component, active[component]), now);
      }
      assert done == active.Keys;
      forall t: Task { FallbackLast(t, active, now); }
      tasks := Swept(tasks, FallbackBucket(known), now);
    }
  }

  lemma DaemonClosesIff(t: Task, key: Key, component: string, version: string)
    ensures ClosedByDaemon(t, key, component, version) <==>
            && t.key == key && t.component == component && ClosesDaemonTask(version, t.toVersion)
            && t.status !in {Completed, Failed, Timeout}
    ensures Open(t) <==> t.status in {Pending, Dispatched, Downloading, Installing, Restarting}
    ensures ClosedByDaemon(t, key, component, version) <==>
            t.key == key && t.component == component && t.toVersion == version && Open(t)
  {
  }

  /** A task after the built-in buckets and those of the providers in `done`. */
  function BeforeFallback(t: Task, active: map<string, int>, done: set<string>, now: int): Task {
    if Hits(DaemonBucket, t, now) || Hits(PluginBucket, t, now) then TimedOut(DaemonBucket, t, now)
    else if t.component in active && t.component in done
        && Hits(ProviderBucket(t.component, active[t.component]), t, now) then
      TimedOut(DaemonBucket, t, now)
    else t
  }

  lemma BuiltInBuckets(t: Task, active: map<string, int>, now: int)
    ensures SweptTask(PluginBucket, SweptTask(DaemonBucket, t, now), now) == BeforeFallback(t, active, {}, now)
  {
  }

  lemma OneMoreProvider(t: Task, active: map<string, int>, done: set<string>, name: string, now: int)
    requires name in active
    ensures SweptTask(ProviderBucket(name, active[name]), BeforeFallback(t, active, done, now), now) ==
            BeforeFallback(t, active, done + {name}, now)
  {
  }

  lemma FallbackLast(t: Task, active: map<string, int>, now: int)
    ensures SweptTask(FallbackBucket(Known(active.Keys)), BeforeFallback(t, active, active.Keys, now), now) ==
            AfterPass(t, active, now)
  {
  }

  // ----- laws of single statements -----

  /** How any statement may change a task: nothing but its status, message and time, and
      only forwards; a task that has ended does not come back. */
  predicate Advances(t: Task, t': Task, now: int) {
    && t' == t.(status := t'.status, errorMsg := t'.errorMsg, updatedAt := t'.updatedAt)
    && (t' == t || t'.updatedAt == now)
    && (Open(t') && t' != t ==> Open(t) && Rank(t.status) < Rank(t'.status))
    && (Shaped(t) ==> Shaped(t'))
  }

  predicate TasksAdvance(before: Tasks, after: Tasks, now: int) {
    forall id | id in before :: id in after && Advances(before[id], after[id], now)
  }

  lemma ClaimAdvances(tasks: Tasks, id: string, now: int)
    requires id in tasks && tasks[id].status == Pending
    ensures TasksAdvance(tasks, Claimed(tasks, id, now), now)
  {
  }

  lemma ReportAdvances(tasks: Tasks, id: string, target: Status, errorMsg: string, now: int)
    requires id in tasks
    ensures TasksAdvance(tasks, Reported(tasks, id, target, errorMsg, now), now)
  {
  }

  lemma CloseAdvances(tasks: Tasks, key: Key, component: string, version: string, now: int)
    ensures TasksAdvance(tasks, DaemonClosed(tasks, key, component, version, now), now)
  {
  }

  lemma CompleteAdvances(tasks: Tasks, id: string, now: int)
    requires id in tasks
    ensures TasksAdvance(tasks, CompletedById(tasks, id, now), now)
  {
  }

  lemma SweepAdvances(tasks: Tasks, sweep: Sweep, now: int)
    ensures TasksAdvance(tasks, Swept(tasks, sweep, now), now)
  {
  }

  /** The state that follows when a daemon goes on with its work, if one is left. */
  function Successor(component: string, from: Status): Option<Status> {
    match from
    case Pending | Dispatched => Some(if component == DAEMON then Downloading else Installing)
    case Downloading => if component == DAEMON then Some(Installing) else None
    case Installing => if component == DAEMON then Some(Restarting) else None
    case _ => None
  }

  /** The table read from the other side: a task in progress may always be failed and
      may go on to its successor, and to no other state; nothing else can be reported. */
  lemma TransitionsAreOneStep(t: Task, target: Option<Status>)
    requires Shaped(t)
    ensures t.status in ValidTransitionsFrom(t.component, target) <==>
              target.Some? && Open(t) && (target.value == Failed || target == Successor(t.component, t.status))
  {
  }

  /** A report can only name a state that the task can be in, and an accepted one moves
      the task strictly forwards. */
  lemma AcceptedReportMovesForwards(component: string, from: Status, target: Status)
    requires from in ValidTransitionsFrom(component, Some(target))
    ensures InProgress(from) && Rank(from) < Rank(target) && target != Pending && target != Dispatched
            && target != Completed && target != Timeout
    ensures component != DAEMON ==> target == Installing || target == Failed
  {
  }

  /** After a pass no in-progress task of any component, known or not, is older than the
      timeout of its bucket. */
  lemma PassIsComplete(t: Task, active: map<string, int>, now: int)
    requires Shaped(t) && Open(AfterPass(t, active, now))
    ensures AfterPass(t, active, now) == t && now - t.updatedAt <= TimeoutOf(active, t.component)
  {
  }

  /** The bucket's own statement is enough for that. */
  lemma BucketIsComplete(t: Task, active: map<string, int>, now: int)
    requires Shaped(t) && Open(t) && !Hits(BucketOf(active, t.component), t, now)
    ensures now - t.updatedAt <= TimeoutOf(active, t.component)
  {
  }

  /** What a pass does, in seconds: 120 for the daemon, 600 for the plugins, the
      provider's own limit, 1800 for anything else; older tasks in progress end as timed
      out and nothing else of them changes. A provider with a built-in component's name
      adds its own limit for the states that all components have. */
  lemma TimedOutIff(t: Task, active: map<string, int>, now: int)
    requires Shaped(t)
    ensures var limit := if t.component == "octo-daemon" then 120
                         else if t.component in {"octo", "cc-octo"} then 600
                         else if t.component in active then active[t.component] else 1800;
            var t' := AfterPass(t, active, now);
            var late := now - t.updatedAt > limit
                || (t.component in active && now - t.updatedAt > active[t.component]
                    && t.status in {Pending, Dispatched, Installing});
            if t.status !in {Completed, Failed, Timeout} && late then
              var known := t.component in {"octo-daemon", "octo", "cc-octo"} || t.component in active;
              var message := if known then "upgrade timed out" else "upgrade timed out (fallback)";
              t' == t.(status := Timeout, errorMsg := message, updatedAt := now)
            else t' == t
  {
  }

  /** No task that has ended is touched by a pass, and no task younger than every
      timeout of its component. */
  lemma PassSparesOthers(t: Task, active: map<string, int>, now: int)
    ensures !Open(t) ==> AfterPass(t, active, now) == t
    ensures now - t.updatedAt <= TimeoutOf(active, t.component)
            && (t.component in active ==> now - t.updatedAt <= active[t.component])
            ==> AfterPass(t, active, now) == t
  {
  }
}
