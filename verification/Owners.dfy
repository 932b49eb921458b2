/** What one owner can do to another: every call of a daemon or a user against the three
    tables that they share (modules/runtime/api.go, upgrade.go, bot.go,
    bot_provision_fetch.go), each handler as one step. */
module Owners {
  import opened Wrappers
  import opened VersionGates
  import opened Runtimes
  import Versions
  import B = Bots
  import U = UpgradeTasks

  datatype Tables = Tables(now: int, runtimes: Rows, tasks: U.Tasks, bots: B.Table)

  /** One runtime in a registration. `id` is the id that its row has or gets. */
  datatype Report = Report(id: int, kind: string, name: string, status: string, version: string, intervalMs: int,
                           plugins: seq<(string, string)>)

  datatype Call =
    // of a daemon or a user
    | Register(owner: string, space: string, daemon: string, reports: seq<Report>, daemonVersion: string)
    | Heartbeat(owner: string, space: string, runtimeId: int, task: Option<string>, bot: Option<int>, token: string)
    | Deregister(owner: string, space: string, ids: set<int>)
    | DeleteRuntime(owner: string, runtimeId: int)
    | RequestUpgrade(owner: string, taskId: string, request: U.Task)
    | ReportUpgrade(owner: string, space: string, taskId: string, target: U.Status, errorMsg: string)
    | CreateBot(owner: string, botId: int, runtimeId: int, name: string, workspace: string)
    | MintBot(owner: string, botId: int, uid: string)
    | FetchBot(owner: string, space: string, botId: int, runtimeId: int, token: string)
    | AckBot(owner: string, space: string, botId: int, verdict: B.Status, errorMsg: string, token: string)
    | ArchiveBot(owner: string, botId: int)
    // of the server itself
    | Tick(seconds: nat)
    | SweepTasks(sweep: U.Sweep)
    | SweepRuntimes(defaultMs: int, gcSeconds: int)

  predicate Internal(call: Call) {
    call.Tick? || call.SweepTasks? || call.SweepRuntimes?
  }

  // ----- registration -----

  function RuntimeOf(owner: string, space: string, daemon: string, r: Report): Runtime {
    Runtime(Route(space, daemon, r.kind, owner), r.name, r.status, r.version, r.intervalMs, 0)
  }

  /** The row of a key is refreshed; a key without a row gets one under an unused id. */
  ghost predicate CanUpsert(rows: Rows, m: Runtime, id: int) {
    if id in rows then rows[id].route == m.route else forall i | i in rows :: rows[i].route != m.route
  }

  function Upserted(rows: Rows, m: Runtime, id: int, now: int): Rows {
    rows[id := if id in rows then Refreshed(rows[id], m, now) else m.(lastSeen := now)]
  }

  ghost function Closed(tasks: U.Tasks, key: U.Key, component: string, actual: string, runtimeId: int,
      now: int): U.Tasks {
    map id | id in tasks ::
      if U.ClosedByRuntime(tasks[id], key, component, actual, runtimeId) then U.Moved(tasks[id], U.Completed, now)
          else tasks[id]
  }

  ghost function PluginsClosed(tasks: U.Tasks, key: U.Key, plugins: seq<(string, string)>, runtimeId: int,
      now: int): U.Tasks
    decreases |plugins|
  {
    if plugins == [] then tasks
    else
      var p := plugins[|plugins| - 1];
      var before := PluginsClosed(tasks, key, plugins[..|plugins| - 1], runtimeId, now);
      if p.0 != "" && p.1 != "" then Closed(before, key, p.0, p.1, runtimeId, now) else before
  }

  ghost function ReportClosed(tasks: U.Tasks, key: U.Key, r: Report, now: int): U.Tasks {
    var afterPlugins := PluginsClosed(tasks, key, r.plugins, r.id, now);
    if r.version != "" then Closed(afterPlugins, key, r.kind, r.version, r.id, now) else afterPlugins
  }

  ghost function RegisteredOne(s: Tables, owner: string, space: string, daemon: string, r: Report): Tables {
    s.(runtimes := Upserted(s.runtimes, RuntimeOf(owner, space, daemon, r), r.id, s.now),
       tasks := ReportClosed(s.tasks, U.Key(space, daemon, owner), r, s.now))
  }

  ghost predicate CanRegister(s: Tables, owner: string, space: string, daemon: string, reports: seq<Report>) {
    reports != [] ==>
      var before := reports[..|reports| - 1];
      && CanRegister(s, owner, space, daemon, before)
      && CanUpsert(Registered(s, owner, space, daemon, before).runtimes,
          RuntimeOf(owner, space, daemon, reports[|reports| - 1]),
                   reports[|reports| - 1].id)
  }

  ghost function Registered(s: Tables, owner: string, space: string, daemon: string, reports: seq<Report>): Tables {
    if reports == [] then s
    else RegisteredOne(Registered(s, owner, space, daemon, reports[..|reports| - 1]), owner, space, daemon,
        reports[|reports| - 1])
  }

  // ----- all calls -----

  predicate Mine(rows: Rows, id: int, owner: string, space: string) {
    id in rows && rows[id].route.owner == owner && rows[id].route.space == space
  }

  function KeyOf(route: Route): U.Key {
    U.Key(route.space, route.daemon, route.owner)
  }

  /** The row that the heartbeat's two claims pick, if there is one to pick. */
  predicate PicksTask(tasks: U.Tasks, key: U.Key, pick: Option<string>) {
    match pick
    case Some(id) => U.NewestPending(tasks, key, id)
    case None => forall id | id in tasks :: !(tasks[id].key == key && tasks[id].status == U.Pending)
  }

  predicate PicksBot(bots: B.Table, route: Route, pick: Option<int>) {
    match pick
    case Some(id) => B.FirstWaiting(bots, route, id)
    case None => forall id | id in bots :: !B.Waiting(bots, route, id)
  }

  ghost predicate Enabled(s: Tables, call: Call) {
    match call
    case Register(owner, space, daemon, reports, _) => CanRegister(s, owner, space, daemon, reports)
    case Heartbeat(owner, space, runtimeId, task, bot, _) =>
      Mine(s.runtimes, runtimeId, owner, space) ==>
        PicksTask(s.tasks, KeyOf(s.runtimes[runtimeId].route), task)
            && PicksBot(s.bots, s.runtimes[runtimeId].route, bot)
    case RequestUpgrade(owner, taskId, request) => request.key.owner == owner && taskId !in s.tasks
    case CreateBot(_, botId, _, _, _) => botId !in s.bots
    case _ => true
  }

  predicate FetchClaims(s: Tables, owner: string, space: string, botId: int, runtimeId: int) {
    && Mine(s.runtimes, runtimeId, owner, space) && B.MayFetch(s.bots, botId, runtimeId)
    && s.bots[botId].route.owner == owner && s.bots[botId].route.space == space && s.bots[botId].status == B.Minted
  }

  ghost function Apply(s: Tables, call: Call): Tables
    requires Enabled(s, call)
  {
    match call
    case Register(owner, space, daemon, reports, daemonVersion) =>
      var s' := Registered(s, owner, space, daemon, reports);
      var key := U.Key(space, daemon, owner);
      if daemonVersion != "" then s'.(tasks := U.DaemonClosed(s'.tasks, key, DAEMON, daemonVersion, s.now)) else s'
    case Heartbeat(owner, space, runtimeId, task, bot, token) =>
      if Mine(s.runtimes, runtimeId, owner, space) then
        s.(runtimes := s.runtimes[runtimeId := s.runtimes[runtimeId].(status := ONLINE, lastSeen := s.now)],
           tasks := if task.Some? then U.Claimed(s.tasks, task.value, s.now) else s.tasks,
           bots := if bot.Some? then s.bots[bot.value := B.ClaimedWith(s.bots[bot.value], token)] else s.bots)
      else s
    case Deregister(owner, space, ids) =>
      if forall id | id in ids && id in s.runtimes ::
          Mine(s.runtimes, id, owner, space) then s.(runtimes := TurnedOff(s.runtimes, ids)) else s
    case DeleteRuntime(owner, runtimeId) =>
      if runtimeId in s.runtimes && s.runtimes[runtimeId].route.owner == owner then
          s.(runtimes := s.runtimes - {runtimeId}) else s
    case RequestUpgrade(owner, taskId, request) =>
      if U.Busy(s.tasks, request.key) then s else s.(tasks := s.tasks[taskId := U.NewRow(request, s.now)])
    case ReportUpgrade(owner, space, taskId, target, errorMsg) =>
      if taskId in s.tasks && s.tasks[taskId].key.owner == owner && s.tasks[taskId].key.space == space then
        s.(tasks := U.Reported(s.tasks, taskId, target, errorMsg, s.now))
      else s
    case CreateBot(owner, botId, runtimeId, name, workspace) =>
      if runtimeId in s.runtimes && s.runtimes[runtimeId].route.owner == owner then
        s.(bots := s.bots[botId := B.NewBot(s.runtimes[runtimeId], runtimeId, name, workspace)])
      else s
    case MintBot(owner, botId, uid) =>
      if B.MayMint(s.bots, botId, owner) then s.(bots := s.bots[botId := B.MintedAs(s.bots[botId], uid)]) else s
    case FetchBot(owner, space, botId, runtimeId, token) =>
      if FetchClaims(s, owner, space, botId, runtimeId) then
          s.(bots := s.bots[botId := B.ClaimedWith(s.bots[botId], token)]) else s
    case AckBot(owner, space, botId, verdict, errorMsg, token) =>
      if (verdict == B.Active || verdict == B.Failed) && B.AckLands(s.bots, botId, space, owner, token) then
        s.(bots := s.bots[botId := B.AckedAs(s.bots[botId], verdict, errorMsg)])
      else s
    case ArchiveBot(owner, botId) =>
      if botId in s.bots && s.bots[botId].route.owner == owner then
          s.(bots := s.bots[botId := B.ArchivedNow(s.bots[botId])]) else s
    case Tick(seconds) => s.(now := s.now + seconds)
    case SweepTasks(sweep) => s.(tasks := U.Swept(s.tasks, sweep, s.now))
    case SweepRuntimes(defaultMs, gcSeconds) => s.(runtimes := SweptRows(s.runtimes, defaultMs, gcSeconds, s.now))
  }

  // ----- what a registration leaves -----

  /** The row of each report is there under its key, refreshed by the last report with its
      id, and rows without a report are as before. */
  lemma {:induction false} RegisteredRows(s: Tables, owner: string, space: string, daemon: string,
      reports: seq<Report>, id: int)
    requires CanRegister(s, owner, space, daemon, reports)
    ensures var rows := Registered(s, owner, space, daemon, reports).runtimes;
            && (id !in s.runtimes && id in rows ==> exists i :: 0 <= i < |reports| && reports[i].id == id)
            && (id in s.runtimes ==> id in rows)
            && ((forall i | 0 <= i < |reports| :: reports[i].id != id) && id in rows ==> rows[id] == s.runtimes[id])
            && forall i | 0 <= i < |reports| && reports[i].id == id ::
                && id in rows && rows[id].route == Route(space, daemon, reports[i].kind, owner)
                && rows[id].lastSeen == s.now
                && ((forall j | i < j < |reports| :: reports[j].id != id) ==>
                      && rows[id].status == reports[i].status && rows[id].version == reports[i].version
                      && rows[id].name == reports[i].name
                      && (reports[i].intervalMs > 0 ==> rows[id].intervalMs == reports[i].intervalMs))
    decreases |reports|
  {
    if reports != [] {
      hide Registered, RegisteredOne, CanUpsert;
      var n := |reports| - 1;
      var before, r := reports[..n], reports[n];
      RegisteredRows(s, owner, space, daemon, before, id);
      RegisteredClock(s, owner, space, daemon, before);
      assert forall i | 0 <= i < n :: before[i] == reports[i];
      var mid := Registered(s, owner, space, daemon, before);
      RegisteredLast(s, owner, space, daemon, reports);
      RegisteredRow(mid, owner, space, daemon, r, id);
    }
  }

  lemma RegisteredRow(s: Tables, owner: string, space: string, daemon: string, r: Report, id: int)
    requires CanUpsert(s.runtimes, RuntimeOf(owner, space, daemon, r), r.id)
    ensures var rows := RegisteredOne(s, owner, space, daemon, r).runtimes;
            && rows.Keys == s.runtimes.Keys + {r.id}
            && (id != r.id && id in rows ==> rows[id] == s.runtimes[id])
            && rows[r.id].route == Route(space, daemon, r.kind, owner) && rows[r.id].lastSeen == s.now
            && rows[r.id].status == r.status && rows[r.id].version == r.version && rows[r.id].name == r.name
            && (r.intervalMs > 0 ==> rows[r.id].intervalMs == r.intervalMs)
            && (id == r.id && id in s.runtimes ==> rows[id].route == s.runtimes[id].route)
  {
  }

  lemma RegisteredLast(s: Tables, owner: string, space: string, daemon: string, reports: seq<Report>)
    requires reports != []
    ensures Registered(s, owner, space, daemon, reports) ==
            RegisteredOne(Registered(s, owner, space, daemon, reports[..|reports| - 1]), owner, space, daemon,
                          reports[|reports| - 1])
  {
  }

  lemma {:induction false} RegisteredClock(s: Tables, owner: string, space: string, daemon: string,
      reports: seq<Report>)
    ensures Registered(s, owner, space, daemon, reports).now == s.now
    ensures Registered(s, owner, space, daemon, reports).bots == s.bots
    decreases |reports|
  {
    if reports != [] {
      RegisteredClock(s, owner, space, daemon, reports[..|reports| - 1]);
    }
  }

  /** The reported version is the task's target or a newer one. */
  ghost predicate Reached(actual: string, t: U.Task) {
    actual == t.toVersion || Versions.Older(t.toVersion, actual)
  }

  ghost predicate PluginReaches(key: U.Key, plugins: seq<(string, string)>, runtimeId: int, t: U.Task) {
    && t.key == key && t.runtimeId == runtimeId
    && exists i :: 0 <= i < |plugins| && plugins[i].0 == t.component && plugins[i].0 != "" && plugins[i].1 != ""
         && Reached(plugins[i].1, t)
  }

  /** The report says that the task's target is installed: a plugin's, or the runtime's own. */
  ghost predicate ReportReaches(key: U.Key, r: Report, t: U.Task) {
    || PluginReaches(key, r.plugins, r.id, t)
    || (t.key == key && t.runtimeId == r.id && r.kind == t.component && r.version != "" && Reached(r.version, t))
  }

  ghost function DoneIf(done: bool, t: U.Task, now: int): U.Task {
    if done && t.status !in {U.Completed, U.Failed, U.Timeout} then t.(status := U.Completed, updatedAt := now) else t
  }

  lemma ClosedTask(tasks: U.Tasks, key: U.Key, component: string, actual: string, runtimeId: int, now: int, id: string)
    requires id in tasks
    ensures var t, after := tasks[id], Closed(tasks, key, component, actual, runtimeId, now);
            id in after && after[id] == DoneIf(t.key == key && t.runtimeId == runtimeId && t.component == component
                                               && Reached(actual, t), t, now)
  {
    hide Versions.Older;
  }

  lemma DoneTwice(a: bool, b: bool, t: U.Task, now: int)
    ensures DoneIf(b, DoneIf(a, t, now), now) == DoneIf(a || b, t, now)
  {
  }

  lemma DoneIsSame(key: U.Key, done: bool, t: U.Task, now: int)
    ensures var t' := DoneIf(done, t, now);
            t'.key == t.key && t'.component == t.component && t'.runtimeId == t.runtimeId && t'.toVersion == t.toVersion
  {
  }

  lemma {:induction false} PluginsClose(tasks: U.Tasks, key: U.Key, plugins: seq<(string, string)>, runtimeId: int,
      now: int, id: string)
    requires id in tasks
    ensures id in PluginsClosed(tasks, key, plugins, runtimeId, now)
    ensures PluginsClosed(tasks, key, plugins, runtimeId, now)[id] ==
            DoneIf(PluginReaches(key, plugins, runtimeId, tasks[id]), tasks[id], now)
    decreases |plugins|
  {
    if plugins != [] {
      hide Closed, DoneIf, Reached;
      var n := |plugins| - 1;
      var p, before, t := plugins[n], plugins[..n], tasks[id];
      PluginsClose(tasks, key, before, runtimeId, now, id);
      var mid := PluginsClosed(tasks, key, before, runtimeId, now);
      ClosedTask(mid, key, p.0, p.1, runtimeId, now, id);
      DoneIsSame(key, PluginReaches(key, before, runtimeId, t), t, now);
      assert Reached(p.1, mid[id]) <==> Reached(p.1, t) by {
        SameTarget(p.1, mid[id], t);
      }
      var last := t.key == key && t.runtimeId == runtimeId && t.component == p.0 && Reached(p.1, t);
      DoneTwice(PluginReaches(key, before, runtimeId, t), last, t, now);
      assert forall i | 0 <= i < n :: before[i] == plugins[i];
      assert PluginReaches(key, plugins, runtimeId, t) <==>
             PluginReaches(key, before, runtimeId, t) || (last && p.0 != "" && p.1 != "");
    }
  }

  lemma SameTarget(actual: string, t: U.Task, t': U.Task)
    requires t.toVersion == t'.toVersion
    ensures Reached(actual, t) <==> Reached(actual, t')
  {
  }

  lemma ReportCloses(tasks: U.Tasks, key: U.Key, r: Report, now: int, id: string)
    requires id in tasks
    ensures id in ReportClosed(tasks, key, r, now)
    ensures ReportClosed(tasks, key, r, now)[id] == DoneIf(ReportReaches(key, r, tasks[id]), tasks[id], now)
  {
    hide Closed, PluginsClosed, DoneIf, Reached, PluginReaches;
    var t, mid := tasks[id], PluginsClosed(tasks, key, r.plugins, r.id, now);
    PluginsClose(tasks, key, r.plugins, r.id, now, id);
    DoneIsSame(key, PluginReaches(key, r.plugins, r.id, t), t, now);
    SameTarget(r.version, mid[id], t);
    ClosedTask(mid, key, r.kind, r.version, r.id, now, id);
    var own := t.key == key && t.runtimeId == r.id && t.component == r.kind && Reached(r.version, t);
    DoneTwice(PluginReaches(key, r.plugins, r.id, t), own, t, now);
  }

  ghost predicate SomeReportReaches(key: U.Key, reports: seq<Report>, t: U.Task) {
    exists i :: 0 <= i < |reports| && ReportReaches(key, reports[i], t)
  }

  lemma SameReach(key: U.Key, r: Report, t: U.Task, t': U.Task)
    requires t'.key == t.key && t'.component == t.component
    requires t'.runtimeId == t.runtimeId && t'.toVersion == t.toVersion
    ensures ReportReaches(key, r, t) <==> ReportReaches(key, r, t')
  {
    hide Versions.Older;
  }

  lemma {:induction false} ReportsClose(s: Tables, owner: string, space: string, daemon: string,
      reports: seq<Report>, id: string)
    requires id in s.tasks
    ensures var after := Registered(s, owner, space, daemon, reports).tasks;
            id in after && after[id] ==
              DoneIf(SomeReportReaches(U.Key(space, daemon, owner), reports, s.tasks[id]), s.tasks[id], s.now)
    decreases |reports|
  {
    if reports != [] {
      hide ReportClosed, DoneIf, ReportReaches;
      var n := |reports| - 1;
      var r, before, t, key := reports[n], reports[..n], s.tasks[id], U.Key(space, daemon, owner);
      ReportsClose(s, owner, space, daemon, before, id);
      RegisteredClock(s, owner, space, daemon, before);
      var mid := Registered(s, owner, space, daemon, before).tasks;
      ReportCloses(mid, key, r, s.now, id);
      DoneIsSame(key, SomeReportReaches(key, before, t), t, s.now);
      SameReach(key, r, t, mid[id]);
      DoneTwice(SomeReportReaches(key, before, t), ReportReaches(key, r, t), t, s.now);
      assert forall i | 0 <= i < n :: before[i] == reports[i];
      assert SomeReportReaches(key, reports, t) <==> SomeReportReaches(key, before, t) || ReportReaches(key, r, t);
    }
  }

  /** What a registration completes: exactly the owner's tasks of this daemon in progress
      whose target it reports to be installed, in a plugin, a runtime or the daemon. */
  lemma RegistrationCloses(s: Tables, call: Call, id: string)
    requires call.Register? && Enabled(s, call) && id in s.tasks
    ensures var t, after, key := s.tasks[id], Apply(s, call).tasks, U.Key(call.space, call.daemon, call.owner);
            var daemons := t.key == key && t.component == "octo-daemon" && call.daemonVersion != ""
                && t.toVersion == call.daemonVersion;
            && id in after
            && after[id] == DoneIf(SomeReportReaches(key, call.reports, t) || daemons, t, s.now)
  {
    hide Registered, SomeReportReaches;
    var t, key := s.tasks[id], U.Key(call.space, call.daemon, call.owner);
    ReportsClose(s, call.owner, call.space, call.daemon, call.reports, id);
    var mid := Registered(s, call.owner, call.space, call.daemon, call.reports).tasks;
    U.DaemonClosesIff(mid[id], key, DAEMON, call.daemonVersion);
  }

  // ----- what belongs to one owner -----

  function OwnRows(rows: Rows, o: string): Rows {
    map id | id in rows && rows[id].route.owner == o :: rows[id]
  }

  function OwnTasks(tasks: U.Tasks, o: string): U.Tasks {
    map id | id in tasks && tasks[id].key.owner == o :: tasks[id]
  }

  function OwnBots(bots: B.Table, o: string): B.Table {
    map id | id in bots && bots[id].route.owner == o :: bots[id]
  }

  /** The tables as the owner could see them. */
  function Own(s: Tables, o: string): Tables {
    Tables(s.now, OwnRows(s.runtimes, o), OwnTasks(s.tasks, o), OwnBots(s.bots, o))
  }

  lemma PutRow(rows: Rows, id: int, row: Runtime, o: string)
    requires id in rows ==> rows[id].route.owner == row.route.owner
    ensures OwnRows(rows[id := row], o) == if row.route.owner == o then OwnRows(rows, o)[id := row]
            else OwnRows(rows, o)
  {
  }

  lemma PutTask(tasks: U.Tasks, id: string, t: U.Task, o: string)
    requires id in tasks ==> tasks[id].key.owner == t.key.owner
    ensures OwnTasks(tasks[id := t], o) == if t.key.owner == o then OwnTasks(tasks, o)[id := t] else OwnTasks(tasks, o)
  {
  }

  lemma PutBot(bots: B.Table, id: int, b: B.Bot, o: string)
    requires id in bots ==> bots[id].route.owner == b.route.owner
    ensures OwnBots(bots[id := b], o) == if b.route.owner == o then OwnBots(bots, o)[id := b] else OwnBots(bots, o)
  {
  }

  // ----- registration, owner by owner -----

  lemma OwnClosed(tasks: U.Tasks, key: U.Key, component: string, actual: string, runtimeId: int, now: int, o: string)
    ensures OwnTasks(Closed(tasks, key, component, actual, runtimeId, now), o) ==
            if key.owner == o then Closed(OwnTasks(tasks, o), key, component, actual, runtimeId, now)
                else OwnTasks(tasks, o)
  {
    hide ClosesRuntimeTask, U.InProgress;
  }

  lemma {:induction false} OwnPlugins(tasks: U.Tasks, key: U.Key, plugins: seq<(string, string)>, runtimeId: int,
      now: int, o: string)
    ensures OwnTasks(PluginsClosed(tasks, key, plugins, runtimeId, now), o) ==
            if key.owner == o then PluginsClosed(OwnTasks(tasks, o), key, plugins, runtimeId, now)
                else OwnTasks(tasks, o)
    decreases |plugins|
  {
    hide Closed, OwnTasks;
    if plugins != [] {
      var p, before := plugins[|plugins| - 1], plugins[..|plugins| - 1];
      OwnPlugins(tasks, key, before, runtimeId, now, o);
      OwnClosed(PluginsClosed(tasks, key, before, runtimeId, now), key, p.0, p.1, runtimeId, now, o);
    }
  }

  lemma OwnReport(tasks: U.Tasks, key: U.Key, r: Report, now: int, o: string)
    ensures OwnTasks(ReportClosed(tasks, key, r, now), o) ==
            if key.owner == o then ReportClosed(OwnTasks(tasks, o), key, r, now) else OwnTasks(tasks, o)
  {
    hide Closed, PluginsClosed, OwnTasks;
    OwnPlugins(tasks, key, r.plugins, r.id, now, o);
    OwnClosed(PluginsClosed(tasks, key, r.plugins, r.id, now), key, r.kind, r.version, r.id, now, o);
  }

  lemma OwnUpsert(rows: Rows, m: Runtime, id: int, now: int, o: string)
    requires CanUpsert(rows, m, id)
    ensures OwnRows(Upserted(rows, m, id, now), o) == if m.route.owner == o then Upserted(OwnRows(rows, o), m, id, now)
            else OwnRows(rows, o)
    ensures m.route.owner == o ==> CanUpsert(OwnRows(rows, o), m, id)
  {
    PutRow(rows, id, if id in rows then Refreshed(rows[id], m, now) else m.(lastSeen := now), o);
  }

  lemma {:induction false} OwnRegistered(s: Tables, owner: string, space: string, daemon: string, reports: seq<Report>,
      o: string)
    requires CanRegister(s, owner, space, daemon, reports)
    ensures owner == o ==> CanRegister(Own(s, o), owner, space, daemon, reports)
    ensures Registered(s, owner, space, daemon, reports).now == s.now
    ensures Own(Registered(s, owner, space, daemon, reports), o) ==
            if owner == o then Registered(Own(s, o), owner, space, daemon, reports) else Own(s, o)
    decreases |reports|
  {
    hide CanUpsert, Upserted, ReportClosed, OwnRows, OwnTasks, OwnBots;
    if reports != [] {
      var before, r := reports[..|reports| - 1], reports[|reports| - 1];
      var mid := Registered(s, owner, space, daemon, before);
      OwnRegistered(s, owner, space, daemon, before, o);
      OwnUpsert(mid.runtimes, RuntimeOf(owner, space, daemon, r), r.id, s.now, o);
      OwnReport(mid.tasks, U.Key(space, daemon, owner), r, s.now, o);
    }
  }

  lemma OwnDaemonClosed(tasks: U.Tasks, key: U.Key, version: string, now: int, o: string)
    ensures OwnTasks(U.DaemonClosed(tasks, key, DAEMON, version, now), o) ==
            if key.owner == o then U.DaemonClosed(OwnTasks(tasks, o), key, DAEMON, version, now) else OwnTasks(tasks, o)
  {
    hide U.InProgress;
  }

  // ----- every call, owner by owner -----

  /** A deregistration is refused as a whole if it lists a runtime of somebody else,
      while ids without a row are skipped: the one call whose effect depends on the rows
      of others. */
  predicate Foreign(s: Tables, call: Call) {
    call.Deregister? && exists id :: id in call.ids && id in s.runtimes && s.runtimes[id].route.owner != call.owner
  }

  /** What the owner sees after a call: its own calls and the server's act on what it
      sees as if nobody else were there, those of others do not show. */
  ghost predicate Separate(s: Tables, call: Call, o: string)
    requires Enabled(s, call)
  {
    if Foreign(s, call) then Apply(s, call) == s
    else if Internal(call) || call.owner == o
    then Enabled(Own(s, o), call) && Own(Apply(s, call), o) == Apply(Own(s, o), call)
    else Own(Apply(s, call), o) == Own(s, o)
  }

  lemma RegisterIsSeparate(s: Tables, call: Call, o: string)
    requires call.Register? && Enabled(s, call)
    ensures Separate(s, call, o)
  {
    hide Registered, CanRegister, U.DaemonClosed, OwnRows, OwnTasks, OwnBots;
    var s' := Registered(s, call.owner, call.space, call.daemon, call.reports);
    OwnRegistered(s, call.owner, call.space, call.daemon, call.reports, o);
    OwnDaemonClosed(s'.tasks, U.Key(call.space, call.daemon, call.owner), call.daemonVersion, s.now, o);
  }

  lemma HeartbeatIsSeparate(s: Tables, call: Call, o: string)
    requires call.Heartbeat? && Enabled(s, call)
    ensures Separate(s, call, o)
  {
    if Mine(s.runtimes, call.runtimeId, call.owner, call.space) {
      var row := s.runtimes[call.runtimeId];
      PutRow(s.runtimes, call.runtimeId, row.(status := ONLINE, lastSeen := s.now), o);
      PickedTaskIsOwn(s, KeyOf(row.route), call.task, o);
      PickedBotIsOwn(s, row.route, call.bot, call.token, o);
      hide PicksTask, PicksBot, OwnTasks, OwnBots;
      assert row.route.owner == o ==> OwnRows(s.runtimes, o)[call.runtimeId] == row;
    }
  }

  lemma PickedTaskIsOwn(s: Tables, key: U.Key, pick: Option<string>, o: string)
    requires PicksTask(s.tasks, key, pick)
    ensures key.owner == o ==> PicksTask(OwnTasks(s.tasks, o), key, pick)
    ensures pick.Some? ==>
              OwnTasks(U.Claimed(s.tasks, pick.value, s.now), o) ==
              if key.owner == o then U.Claimed(OwnTasks(s.tasks, o), pick.value, s.now) else OwnTasks(s.tasks, o)
  {
    if pick.Some? {
      PutTask(s.tasks, pick.value, U.Moved(s.tasks[pick.value], U.Dispatched, s.now), o);
    }
  }

  lemma PickedBotIsOwn(s: Tables, route: Route, pick: Option<int>, token: string, o: string)
    requires PicksBot(s.bots, route, pick)
    ensures route.owner == o ==> PicksBot(OwnBots(s.bots, o), route, pick)
    ensures pick.Some? ==>
              OwnBots(s.bots[pick.value := B.ClaimedWith(s.bots[pick.value], token)], o) ==
              var own := OwnBots(s.bots, o);
              if route.owner == o then own[pick.value := B.ClaimedWith(own[pick.value], token)] else own
  {
    if pick.Some? {
      PutBot(s.bots, pick.value, B.ClaimedWith(s.bots[pick.value], token), o);
    }
  }

  lemma OwnTurnedOff(rows: Rows, ids: set<int>, owner: string, o: string)
    requires forall id | id in ids && id in rows :: rows[id].route.owner == owner
    ensures OwnRows(TurnedOff(rows, ids), o) == if owner == o then TurnedOff(OwnRows(rows, o), ids)
            else OwnRows(rows, o)
  {
    var own := OwnRows(TurnedOff(rows, ids), o);
    assert forall id :: id in own <==> id in OwnRows(rows, o);
    assert forall id | id in own && owner != o :: id !in ids && own[id] == OwnRows(rows, o)[id];
    assert owner != o ==> own == OwnRows(rows, o);
    assert owner == o ==> own == TurnedOff(OwnRows(rows, o), ids);
  }

  lemma DeregisterIsSeparate(s: Tables, call: Call, o: string)
    requires call.Deregister? && Enabled(s, call)
    ensures Separate(s, call, o)
  {
    var allowed := forall id | id in call.ids && id in s.runtimes :: Mine(s.runtimes, id, call.owner, call.space);
    var own := OwnRows(s.runtimes, call.owner);
    if Foreign(s, call) {
      var id :| id in call.ids && id in s.runtimes && s.runtimes[id].route.owner != call.owner;
      assert !Mine(s.runtimes, id, call.owner, call.space);
    } else {
      OwnTurnedOff(s.runtimes, call.ids, call.owner, o);
      assert forall id | id in call.ids :: id in s.runtimes <==> id in own;
      assert allowed <==> forall id | id in call.ids && id in own :: Mine(own, id, call.owner, call.space);
    }
  }

  /** That exception is real: if such a call also lists a runtime of the caller that is
      not offline, it leaves online what it would have turned off with nobody else there. */
  lemma ForeignIdsShow(s: Tables, owner: string, space: string, ids: set<int>, id: int)
    requires Foreign(s, Deregister(owner, space, ids)) && id in ids && Mine(s.runtimes, id, owner, space)
             && s.runtimes[id].status != OFFLINE
    requires forall i | i in ids && i in s.runtimes && s.runtimes[i].route.owner == owner ::
             s.runtimes[i].route.space == space
    ensures Own(Apply(s, Deregister(owner, space, ids)), owner) != Apply(Own(s, owner), Deregister(owner, space, ids))
  {
    var call := Deregister(owner, space, ids);
    var other :| other in ids && other in s.runtimes && s.runtimes[other].route.owner != owner;
    assert !Mine(s.runtimes, other, owner, space);
    assert Apply(s, call) == s;
    assert Apply(Own(s, owner), call).runtimes == TurnedOff(OwnRows(s.runtimes, owner), ids);
    assert Own(s, owner).runtimes[id].status != TurnedOff(OwnRows(s.runtimes, owner), ids)[id].status;
  }

  lemma RequestIsSeparate(s: Tables, call: Call, o: string)
    requires call.RequestUpgrade? && Enabled(s, call)
    ensures Separate(s, call, o)
  {
    AcceptanceIsOwn(s.tasks, call.request.key);
    PutTask(s.tasks, call.taskId, U.NewRow(call.request, s.now), o);
    hide U.InProgress, U.Busy;
  }

  /** Whether a request is accepted depends on the owner's own tasks only. */
  lemma AcceptanceIsOwn(tasks: U.Tasks, key: U.Key)
    ensures U.Busy(tasks, key) <==> U.Busy(OwnTasks(tasks, key.owner), key)
  {
    if U.Busy(tasks, key) {
      var id :| id in tasks && tasks[id].key == key && U.Open(tasks[id]);
      assert id in OwnTasks(tasks, key.owner);
    }
  }

  lemma ReportIsSeparate(s: Tables, call: Call, o: string)
    requires call.ReportUpgrade? && Enabled(s, call)
    ensures Separate(s, call, o)
  {
    if call.taskId in s.tasks {
      PutTask(s.tasks, call.taskId, U.Moved(s.tasks[call.taskId], call.target, s.now).(errorMsg := call.errorMsg), o);
    }
  }

  lemma CreateBotIsSeparate(s: Tables, call: Call, o: string)
    requires call.CreateBot? && Enabled(s, call)
    ensures Separate(s, call, o)
  {
    hide OwnTasks;
    if call.runtimeId in s.runtimes {
      PutBot(s.bots, call.botId, B.NewBot(s.runtimes[call.runtimeId], call.runtimeId, call.name, call.workspace), o);
    }
  }

  lemma UserBotCallIsSeparate(s: Tables, call: Call, o: string)
    requires (call.MintBot? || call.ArchiveBot?) && Enabled(s, call)
    ensures Separate(s, call, o)
  {
    hide OwnTasks, OwnRows;
    if call.botId in s.bots {
      PutBot(s.bots, call.botId, Apply(s, call).bots[call.botId], o);
    }
  }

  lemma FetchIsSeparate(s: Tables, call: Call, o: string)
    requires call.FetchBot? && Enabled(s, call)
    ensures Separate(s, call, o)
  {
    hide OwnTasks;
    if call.botId in s.bots {
      PutBot(s.bots, call.botId, B.ClaimedWith(s.bots[call.botId], call.token), o);
    }
  }

  lemma AckIsSeparate(s: Tables, call: Call, o: string)
    requires call.AckBot? && Enabled(s, call)
    ensures Separate(s, call, o)
  {
    hide OwnTasks, OwnRows;
    if call.botId in s.bots {
      PutBot(s.bots, call.botId, B.AckedAs(s.bots[call.botId], call.verdict, call.errorMsg), o);
    }
  }

  lemma DeleteIsSeparate(s: Tables, call: Call, o: string)
    requires call.DeleteRuntime? && Enabled(s, call)
    ensures Separate(s, call, o)
  {
  }

  lemma OwnSweptTasks(tasks: U.Tasks, sweep: U.Sweep, now: int, o: string)
    ensures OwnTasks(U.Swept(tasks, sweep, now), o) == U.Swept(OwnTasks(tasks, o), sweep, now)
  {
    hide U.Hits;
  }

  lemma OwnSweptRows(rows: Rows, defaultMs: int, gcSeconds: int, now: int, o: string)
    ensures OwnRows(SweptRows(rows, defaultMs, gcSeconds, now), o) ==
            SweptRows(OwnRows(rows, o), defaultMs, gcSeconds, now)
  {
    hide Stale, Expired;
    var before, after := OwnRows(rows, o), OwnRows(SweptRows(rows, defaultMs, gcSeconds, now), o);
    assert forall id :: id in after <==> id in before && !Expired(Marked(before[id], defaultMs, now), now - gcSeconds);
    assert after == SweptRows(before, defaultMs, gcSeconds, now);
  }

  lemma InternalIsSeparate(s: Tables, call: Call, o: string)
    requires Internal(call) && Enabled(s, call)
    ensures Separate(s, call, o)
  {
    hide U.Swept, SweptRows, OwnRows, OwnTasks, OwnBots;
    match call
    case SweepTasks(sweep) => OwnSweptTasks(s.tasks, sweep, s.now, o);
    case SweepRuntimes(defaultMs, gcSeconds) => OwnSweptRows(s.runtimes, defaultMs, gcSeconds, s.now, o);
    case Tick(_) =>
  }

  lemma CallIsSeparate(s: Tables, call: Call, o: string)
    requires Enabled(s, call)
    ensures Separate(s, call, o)
  {
    hide Enabled, Separate;
    match call
    case Register(_, _, _, _, _) => RegisterIsSeparate(s, call, o);
    case Heartbeat(_, _, _, _, _, _) => HeartbeatIsSeparate(s, call, o);
    case Deregister(_, _, _) => DeregisterIsSeparate(s, call, o);
    case DeleteRuntime(_, _) => DeleteIsSeparate(s, call, o);
    case RequestUpgrade(_, _, _) => RequestIsSeparate(s, call, o);
    case ReportUpgrade(_, _, _, _, _) => ReportIsSeparate(s, call, o);
    case CreateBot(_, _, _, _, _) => CreateBotIsSeparate(s, call, o);
    case MintBot(_, _, _) => UserBotCallIsSeparate(s, call, o);
    case FetchBot(_, _, _, _, _) => FetchIsSeparate(s, call, o);
    case AckBot(_, _, _, _, _, _) => AckIsSeparate(s, call, o);
    case ArchiveBot(_, _) => UserBotCallIsSeparate(s, call, o);
    case _ => InternalIsSeparate(s, call, o);
  }

  // ----- the bot calls are the bot handlers -----

  lemma BotCallsAreHandlers(s: Tables, w: B.World, call: Call)
    requires Enabled(s, call) && w.bots == s.bots
    ensures var s' := Apply(s, call);
            match call
            case MintBot(owner, id, uid) => s' == s.(bots := B.Handled(w, B.Mint(id, owner, uid)).bots)
            case ArchiveBot(owner, id) => s' == s.(bots := B.Handled(w, B.Archive(id, owner)).bots)
            case AckBot(owner, space, id, verdict, errorMsg, token) =>
              s' == s.(bots := B.Handled(w, B.Ack(id, space, owner, verdict, errorMsg, token)).bots)
            case FetchBot(owner, space, id, runtimeId, token) =>
              s' == s.(bots := if B.Entitled(s.runtimes, s.bots, id, runtimeId, owner, space)
                               then B.Handled(w, B.Fetch(id, runtimeId, token)).bots else s.bots)
            case CreateBot(owner, id, runtimeId, name, workspace) =>
              s' == if runtimeId in s.runtimes && s.runtimes[runtimeId].route.owner == owner && id == w.nextId
                    then s.(bots := B.Handled(w, B.Create(
                                      B.NewBot(s.runtimes[runtimeId], runtimeId, name, workspace))).bots)
                    else s'
            case Heartbeat(owner, space, runtimeId, _, _, token) =>
              s'.bots == if Mine(s.runtimes, runtimeId, owner, space)
                         then B.Handled(w, B.HeartbeatClaim(s.runtimes[runtimeId].route, token)).bots else s.bots
            case _ => s'.bots == s.bots
  {
    hide Registered, U.Swept, SweptRows;
    if call.Register? {
      RegisteredClock(s, call.owner, call.space, call.daemon, call.reports);
    } else if call.Heartbeat? && Mine(s.runtimes, call.runtimeId, call.owner, call.space) {
      var route := s.runtimes[call.runtimeId].route;
      if call.bot.None? {
        assert forall id :: !B.FirstWaiting(s.bots, route, id);
      } else {
        assert forall id | B.FirstWaiting(s.bots, route, id) :: id == call.bot.value;
      }
    }
  }

  /** A report does what its statement does, to the owner's own task only. */
  lemma ReportIsTheStatement(s: Tables, call: Call)
    requires call.ReportUpgrade?
    ensures var t := if call.taskId in s.tasks then Some(s.tasks[call.taskId]) else None;
            Apply(s, call) ==
            if t.Some? && t.value.key.owner == call.owner && t.value.key.space == call.space
               && t.value.status in U.ValidTransitionsFrom(t.value.component, Some(call.target))
            then s.(tasks := s.tasks[call.taskId :=
                      t.value.(status := call.target, errorMsg := call.errorMsg, updatedAt := s.now)])
            else s
  {
  }

  // ----- every run -----

  const START := Tables(0, map[], map[], map[])

  ghost function After(calls: seq<Call>): Option<Tables> {
    if calls == [] then Some(START)
    else
      match After(calls[..|calls| - 1])
      case Some(s) => if Enabled(s, calls[|calls| - 1]) then Some(Apply(s, calls[|calls| - 1])) else None
      case None => None
  }

  /** The run without the calls of all other owners, and without refused deregistrations
      that name a runtime of somebody else. */
  ghost function Alone(calls: seq<Call>, o: string): seq<Call>
    requires After(calls).Some?
  {
    if calls == [] then []
    else
      var rest, call := calls[..|calls| - 1], calls[|calls| - 1];
      if (Internal(call) || call.owner == o) && !Foreign(After(rest).value, call) then Alone(rest, o) + [call]
          else Alone(rest, o)
  }

  /** The owner frame over whole runs: at the end an owner's runtimes, tasks and bots are
      exactly what they would be if nobody else had ever called. */
  lemma {:induction false} OthersDoNotShow(calls: seq<Call>, o: string)
    requires After(calls).Some?
    ensures After(Alone(calls, o)) == Some(Own(After(calls).value, o))
  {
    hide Enabled, Apply, Own, Foreign;
    if calls == [] {
      OwnStart(o);
    } else {
      var rest, call := calls[..|calls| - 1], calls[|calls| - 1];
      OthersDoNotShow(rest, o);
      CallIsSeparate(After(rest).value, call, o);
      assert (Alone(rest, o) + [call])[..|Alone(rest, o)|] == Alone(rest, o);
    }
  }

  lemma OwnStart(o: string)
    ensures Own(START, o) == START
  {
  }

  /** No call of one owner adds, changes or removes a row of another. */
  lemma OthersRowsAreUntouched(s: Tables, call: Call, o: string)
    requires Enabled(s, call) && !Internal(call) && call.owner != o
    ensures Own(Apply(s, call), o) == Own(s, o)
  {
    hide Enabled, Apply, Foreign;
    CallIsSeparate(s, call, o);
  }

  /** So after any run a request is accepted exactly if it would be without the others. */
  lemma AcceptedAsIfAlone(calls: seq<Call>, key: U.Key)
    requires After(calls).Some?
    ensures After(Alone(calls, key.owner)).Some?
    ensures U.Busy(After(calls).value.tasks, key) <==> U.Busy(After(Alone(calls, key.owner)).value.tasks, key)
  {
    OthersDoNotShow(calls, key.owner);
    AcceptanceIsOwn(After(calls).value.tasks, key);
  }
}
