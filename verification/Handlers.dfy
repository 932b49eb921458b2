/** The handlers of modules/runtime/api.go that touch several tables, and the request
    for an upgrade (modules/runtime/upgrade.go), as imperative code over the tables. Each
    is proved to be the call of `Owners` that the owner frame speaks about. */
module Handlers {
  import opened Wrappers
  import opened VersionGates
  import opened Runtimes
  import B = Bots
  import O = Owners
  import S = TtlStores
  import U = UpgradeTasks

  datatype Reply = Ok | Validation | NotFound | Forbidden | Conflict | InternalError

  ghost function Tables(runtimes: RuntimeTable, tasks: U.TaskTable, bots: B.BotTable, now: int): O.Tables
    reads runtimes, tasks, bots
  {
    O.Tables(now, runtimes.rows, tasks.tasks, bots.bots)
  }

  // ----- deregister, delete -----

  /** All or nothing: one runtime of somebody else and none is turned off. */
  method Deregister(runtimes: RuntimeTable, tasks: U.TaskTable, bots: B.BotTable, owner: string, space: string,
      ids: seq<int>, now: int)
      returns (reply: Reply)
    requires runtimes.Valid()
    modifies runtimes
    ensures runtimes.Valid()
    ensures reply == Ok || reply == Forbidden
    ensures reply == Ok <==> forall id | id in ids && id in old(runtimes.rows) ::
            O.Mine(old(runtimes.rows), id, owner, space)
    ensures Tables(runtimes, tasks, bots, now) ==
            O.Apply(old(Tables(runtimes, tasks, bots, now)), O.Deregister(owner, space, set id | id in ids))
    ensures reply == Ok ==>
              forall id | id in ids && id in old(runtimes.rows) ::
                && (owner, space) == (old(runtimes.rows)[id].route.owner, old(runtimes.rows)[id].route.space)
                && id in runtimes.rows && runtimes.rows[id] == old(runtimes.rows)[id].(status := "offline")
  {
    for i := 0 to |ids|
      invariant forall j | 0 <= j < i && ids[j] in runtimes.rows :: O.Mine(runtimes.rows, ids[j], owner, space)
    {
      var id := ids[i];
      if id !in runtimes.rows {
        continue;
      }
      var existing := runtimes.rows[id];
      if existing.route.owner != owner || existing.route.space != space {
        return Forbidden;
      }
    }
    runtimes.SetOffline(set id | id in ids);
    reply := Ok;
  }

  method DeleteRuntime(runtimes: RuntimeTable, tasks: U.TaskTable, bots: B.BotTable, login: string, id: int, now: int)
      returns (reply: Reply)
    requires runtimes.Valid()
    modifies runtimes
    ensures runtimes.Valid()
    ensures reply == if id !in old(runtimes.rows) then NotFound
            else if old(runtimes.rows)[id].route.owner != login then Forbidden else Ok
    ensures Tables(runtimes, tasks, bots, now) ==
            O.Apply(old(Tables(runtimes, tasks, bots, now)), O.DeleteRuntime(login, id))
    ensures runtimes.rows == if reply == Ok then old(runtimes.rows) - {id} else old(runtimes.rows)
  {
    if id !in runtimes.rows {
      return NotFound;
    }
    if runtimes.rows[id].route.owner != login {
      return Forbidden;
    }
    runtimes.DeleteById(id);
    reply := Ok;
  }

  // ----- heartbeat -----

  function IdOf(payload: Option<B.Payload>): Option<int> {
    if payload.Some? then Some(payload.value.id) else None
  }

  /** Keeps the runtime alive and hands over at most one upgrade and one bot. */
  method Heartbeat(runtimes: RuntimeTable, tasks: U.TaskTable, bots: B.BotTable, owner: string, space: string,
      runtimeId: int, token: string, now: int)
      returns (reply: Reply, upgrade: Option<string>, bot: Option<B.Payload>)
    requires runtimes.Valid() && bots.Valid()
    modifies runtimes, tasks, bots
    ensures runtimes.Valid() && bots.Valid()
    ensures reply == if runtimeId <= 0 then Validation
                     else if runtimeId !in old(runtimes.rows) then NotFound
                     else if !O.Mine(old(runtimes.rows), runtimeId, owner, space) then Forbidden else Ok
    ensures reply != Ok ==>
              && Tables(runtimes, tasks, bots, now) == old(Tables(runtimes, tasks, bots, now))
              && upgrade.None? && bot.None?
    ensures var call := O.Heartbeat(owner, space, runtimeId, upgrade, IdOf(bot), token);
            && O.Enabled(old(Tables(runtimes, tasks, bots, now)), call)
            && Tables(runtimes, tasks, bots, now) == O.Apply(old(Tables(runtimes, tasks, bots, now)), call)
    ensures bot.Some? ==> bot.value == B.PayloadOf(bot.value.id, bots.bots[bot.value.id])
    ensures reply == Ok ==>
              (owner, space) == (old(runtimes.rows)[runtimeId].route.owner, old(runtimes.rows)[runtimeId].route.space)
    ensures reply == Forbidden ==>
              (owner, space) != (old(runtimes.rows)[runtimeId].route.owner, old(runtimes.rows)[runtimeId].route.space)
    ensures reply == Ok ==>
              runtimes.rows == old(runtimes.rows)[runtimeId :=
                old(runtimes.rows)[runtimeId].(status := "online", lastSeen := now)]
    ensures reply == Ok && upgrade.Some? ==>
              var t := old(tasks.tasks)[upgrade.value];
              && t.key == U.Key(space, old(runtimes.rows)[runtimeId].route.daemon, owner) && t.status == U.Pending
              && tasks.tasks == old(tasks.tasks)[upgrade.value := t.(status := U.Dispatched, updatedAt := now)]
    ensures reply == Ok && upgrade.None? ==>
              && tasks.tasks == old(tasks.tasks)
              && forall id | id in tasks.tasks && tasks.tasks[id].status == U.Pending ::
                  tasks.tasks[id].key != U.Key(space, old(runtimes.rows)[runtimeId].route.daemon, owner)
    ensures reply == Ok && bot.Some? ==>
              var b := old(bots.bots)[bot.value.id];
              && b.route == old(runtimes.rows)[runtimeId].route && b.status == B.Minted
              && bots.bots == old(bots.bots)[bot.value.id := b.(status := B.Dispatched, token := token)]
    ensures reply == Ok && bot.None? ==>
              && bots.bots == old(bots.bots)
              && forall id | id in bots.bots && bots.bots[id].status == B.Minted ::
                  bots.bots[id].route != old(runtimes.rows)[runtimeId].route
  {
    upgrade, bot := None, None;
    if runtimeId <= 0 {
      return Validation, None, None;
    }
    if runtimeId !in runtimes.rows {
      return NotFound, None, None;
    }
    var existing := runtimes.rows[runtimeId];
    if existing.route.owner != owner || existing.route.space != space {
      return Forbidden, None, None;
    }
    runtimes.UpdateHeartbeat(runtimeId, now);
    upgrade := tasks.ClaimPendingUpgrade(U.Key(space, existing.route.daemon, owner), now);
    bot := bots.ClaimPendingBotProvision(existing.route, token);
    reply := Ok;
  }

  // ----- registration -----

  /** Drops the secrets of the given tasks and no others. */
  method EvictAll(secrets: S.SecretStore, ids: set<string>)
    requires secrets.Valid()
    modifies secrets
    ensures secrets.Valid() && secrets.clock == old(secrets.clock)
    ensures Evicted(ids, old(secrets.history), secrets.history)
  {
    var left := ids;
    while left != {}
      invariant left <= ids && secrets.Valid() && secrets.clock == old(secrets.clock)
      invariant forall k :: S.InForce(secrets.history, k) == if k in ids && k !in left then None
                else S.InForce(old(secrets.history), k)
      decreases left
    {
      var id :| id in left;
      left := left - {id};
      ghost var before := secrets.history;
      secrets.Evict(id);
      assert secrets.history[..|secrets.history| - 1] == before;
    }
  }

  /** What a close-out with runtime leaves is what `Owners.Closed` says. */
  lemma ClosedIs(before: U.Tasks, after: U.Tasks, completed: set<string>, key: U.Key, component: string, actual: string,
      runtimeId: int, now: int)
    requires after.Keys == before.Keys
    requires forall id :: id in completed <==>
             id in before && U.ClosedByRuntime(before[id], key, component, actual, runtimeId)
    requires forall id | id in after :: after[id] == if id in completed then U.Moved(before[id], U.Completed, now)
             else before[id]
    ensures after == O.Closed(before, key, component, actual, runtimeId, now)
  {
    hide U.ClosedByRuntime;
  }

  /** Tasks that differ were in progress and are now completed. */
  ghost predicate OnlyCompletes(before: U.Tasks, after: U.Tasks) {
    && after.Keys == before.Keys
    && forall id | id in before :: after[id].component == before[id].component &&
         (after[id] == before[id] || (U.Open(before[id]) && after[id].status == U.Completed))
  }

  /** The cc-octo tasks that have ended in between. */
  function EndedInstalls(before: U.Tasks, after: U.Tasks): set<string> {
    set id | id in before && id in after && before[id].component == U.CC_OCTO
             && U.Open(before[id]) && !U.Open(after[id])
  }

  /** Exactly the secrets of the given tasks are gone. */
  ghost predicate Evicted(ids: set<string>, history: seq<S.Write>, history': seq<S.Write>) {
    forall k :: S.InForce(history', k) == if k in ids then None else S.InForce(history, k)
  }

  lemma ClosedOnlyCompletes(tasks: U.Tasks, key: U.Key, component: string, actual: string, runtimeId: int, now: int)
    ensures OnlyCompletes(tasks, O.Closed(tasks, key, component, actual, runtimeId, now))
  {
    hide ClosesRuntimeTask;
  }

  lemma CompletesTwice(a: U.Tasks, b: U.Tasks, c: U.Tasks)
    requires OnlyCompletes(a, b) && OnlyCompletes(b, c)
    ensures OnlyCompletes(a, c)
  {
  }

  lemma EndedTwice(a: U.Tasks, b: U.Tasks, c: U.Tasks)
    requires OnlyCompletes(a, b) && OnlyCompletes(b, c)
    ensures EndedInstalls(a, c) == EndedInstalls(a, b) + EndedInstalls(b, c)
  {
  }

  lemma EvictedTwice(a: set<string>, b: set<string>, h: seq<S.Write>, h': seq<S.Write>, h'': seq<S.Write>)
    requires Evicted(a, h, h') && Evicted(b, h', h'')
    ensures Evicted(a + b, h, h'')
  {
    hide S.InForce;
  }

  /** One plugin of a registered runtime: close its tasks, then drop their secrets. */
  method CloseOutPlugin(tasks: U.TaskTable, secrets: S.SecretStore, key: U.Key, name: string, version: string,
      runtimeId: int, now: int)
    requires secrets.Valid()
    modifies tasks, secrets
    ensures secrets.Valid() && secrets.clock == old(secrets.clock)
    ensures tasks.tasks == O.Closed(old(tasks.tasks), key, name, version, runtimeId, now)
    ensures OnlyCompletes(old(tasks.tasks), tasks.tasks)
    ensures Evicted(EndedInstalls(old(tasks.tasks), tasks.tasks), old(secrets.history), secrets.history)
  {
    hide S.InForce, S.SecretStore.Valid;
    ghost var before, history := tasks.tasks, secrets.history;
    var completed := tasks.CompleteUpgradeIfMatchedWithRuntime(key, name, version, runtimeId, now);
    ClosedIs(before, tasks.tasks, completed, key, name, version, runtimeId, now);
    ClosedOnlyCompletes(before, key, name, version, runtimeId, now);
    hide O.Closed, ClosesRuntimeTask;
    assert EndedInstalls(before, tasks.tasks) == if name == U.CC_OCTO then completed else {} by {
      CompletedInstalls(before, tasks.tasks, completed, key, name, version, runtimeId, now);
    }
    if name == U.CC_OCTO {
      EvictAll(secrets, completed);
    }
  }

  lemma CompletedInstalls(before: U.Tasks, after: U.Tasks, completed: set<string>, key: U.Key, component: string,
      actual: string, runtimeId: int, now: int)
    requires after.Keys == before.Keys
    requires forall id :: id in completed <==>
               id in before && U.ClosedByRuntime(before[id], key, component, actual, runtimeId)
    requires forall id | id in after ::
               after[id] == if id in completed then U.Moved(before[id], U.Completed, now) else before[id]
    ensures EndedInstalls(before, after) == if component == U.CC_OCTO then completed else {}
  {
    hide ClosesRuntimeTask;
  }

  lemma NothingClosed(tasks: U.Tasks, history: seq<S.Write>)
    ensures OnlyCompletes(tasks, tasks) && EndedInstalls(tasks, tasks) == {} && Evicted({}, history, history)
  {
  }

  method CloseOutPlugins(tasks: U.TaskTable, secrets: S.SecretStore, key: U.Key, plugins: seq<(string, string)>,
      runtimeId: int, now: int)
    requires secrets.Valid()
    modifies tasks, secrets
    ensures secrets.Valid() && secrets.clock == old(secrets.clock)
    ensures tasks.tasks == O.PluginsClosed(old(tasks.tasks), key, plugins, runtimeId, now)
    ensures OnlyCompletes(old(tasks.tasks), tasks.tasks)
    ensures Evicted(EndedInstalls(old(tasks.tasks), tasks.tasks), old(secrets.history), secrets.history)
  {
    hide S.InForce, S.SecretStore.Valid, O.Closed, OnlyCompletes, Evicted, EndedInstalls;
    NothingClosed(tasks.tasks, secrets.history);
    for i := 0 to |plugins|
      invariant secrets.Valid() && secrets.clock == old(secrets.clock)
      invariant tasks.tasks == O.PluginsClosed(old(tasks.tasks), key, plugins[..i], runtimeId, now)
      invariant OnlyCompletes(old(tasks.tasks), tasks.tasks)
      invariant Evicted(EndedInstalls(old(tasks.tasks), tasks.tasks), old(secrets.history), secrets.history)
    {
      ghost var before, history := tasks.tasks, secrets.history;
      var p := plugins[i];
      assert plugins[..i + 1][..i] == plugins[..i];
      if p.0 != "" && p.1 != "" {
        CloseOutPlugin(tasks, secrets, key, p.0, p.1, runtimeId, now);
        CompletesTwice(old(tasks.tasks), before, tasks.tasks);
        EndedTwice(old(tasks.tasks), before, tasks.tasks);
        EvictedTwice(EndedInstalls(old(tasks.tasks), before), EndedInstalls(before, tasks.tasks),
                     old(secrets.history), history, secrets.history);
      }
    }
    assert plugins[..|plugins|] == plugins;
  }

  /** Whose secrets a registered runtime drops: the cc-octo tasks that its plugins complete.
      Tasks that the runtime's own version completes keep theirs until they expire. */
  ghost function DroppedByOne(tasks: U.Tasks, key: U.Key, r: O.Report, now: int): set<string> {
    EndedInstalls(tasks, O.PluginsClosed(tasks, key, r.plugins, r.id, now))
  }

  ghost function Dropped(s: O.Tables, owner: string, space: string, daemon: string, reports: seq<O.Report>)
      : set<string>
  {
    if reports == [] then {}
    else
      var before := reports[..|reports| - 1];
      Dropped(s, owner, space, daemon, before) +
      DroppedByOne(O.Registered(s, owner, space, daemon, before).tasks, U.Key(space, daemon, owner),
                   reports[|reports| - 1], s.now)
  }

  /** One runtime of a registration; the result is the report with the id of its row. */
  method RegisterOne(runtimes: RuntimeTable, tasks: U.TaskTable, bots: B.BotTable, secrets: S.SecretStore,
                     owner: string, space: string, daemon: string, r: O.Report, now: int)
      returns (done: O.Report)
    requires runtimes.Valid() && secrets.Valid()
    modifies runtimes, tasks, secrets
    ensures runtimes.Valid() && secrets.Valid()
    ensures done == r.(id := done.id, status := if r.status == "" then ONLINE else r.status)
    ensures O.CanUpsert(old(runtimes.rows), O.RuntimeOf(owner, space, daemon, done), done.id)
    ensures Tables(runtimes, tasks, bots, now) ==
            O.RegisteredOne(old(Tables(runtimes, tasks, bots, now)), owner, space, daemon, done)
    ensures Evicted(DroppedByOne(old(tasks.tasks), U.Key(space, daemon, owner), done, now),
                    old(secrets.history), secrets.history)
  {
    hide S.InForce, S.SecretStore.Valid, O.Closed, O.PluginsClosed;
    hide OnlyCompletes, Evicted, EndedInstalls, U.ClosedByRuntime;
    var status := if r.status == "" then ONLINE else r.status;
    var m := O.RuntimeOf(owner, space, daemon, r.(status := status));
    var id := runtimes.Upsert(m, now);
    done := r.(id := id, status := status);
    CloseOutPlugins(tasks, secrets, U.Key(space, daemon, owner), r.plugins, id, now);
    if r.version != "" {
      ghost var before := tasks.tasks;
      var key := U.Key(space, daemon, owner);
      var completed := tasks.CompleteUpgradeIfMatchedWithRuntime(key, r.kind, r.version, id, now);
      ClosedIs(before, tasks.tasks, completed, U.Key(space, daemon, owner), r.kind, r.version, id, now);
    }
  }

  lemma {:induction false} PluginsOnlyComplete(tasks: U.Tasks, key: U.Key, plugins: seq<(string, string)>,
      runtimeId: int, now: int)
    ensures OnlyCompletes(tasks, O.PluginsClosed(tasks, key, plugins, runtimeId, now))
    decreases |plugins|
  {
    hide O.Closed, OnlyCompletes;
    if plugins == [] {
      NothingClosed(tasks, []);
    } else {
      var p, before := plugins[|plugins| - 1], plugins[..|plugins| - 1];
      var mid := O.PluginsClosed(tasks, key, before, runtimeId, now);
      PluginsOnlyComplete(tasks, key, before, runtimeId, now);
      ClosedOnlyCompletes(mid, key, p.0, p.1, runtimeId, now);
      CompletesTwice(tasks, mid, O.PluginsClosed(tasks, key, plugins, runtimeId, now)) by {
        NothingClosed(mid, []);
      }
    }
  }

  lemma OtherComponentEndsNoInstall(tasks: U.Tasks, key: U.Key, component: string, actual: string,
      runtimeId: int, now: int)
    requires component != U.CC_OCTO
    ensures EndedInstalls(tasks, O.Closed(tasks, key, component, actual, runtimeId, now)) == {}
  {
    hide ClosesRuntimeTask;
  }

  /** What one report ends, and whose secrets it drops. */
  lemma OneReportEnds(tasks: U.Tasks, key: U.Key, r: O.Report, now: int)
    ensures var after := O.ReportClosed(tasks, key, r, now);
            && OnlyCompletes(tasks, after) && DroppedByOne(tasks, key, r, now) <= EndedInstalls(tasks, after)
            && (r.kind != U.CC_OCTO ==> DroppedByOne(tasks, key, r, now) == EndedInstalls(tasks, after))
  {
    hide O.Closed, OnlyCompletes, EndedInstalls;
    var mid := O.PluginsClosed(tasks, key, r.plugins, r.id, now);
    PluginsOnlyComplete(tasks, key, r.plugins, r.id, now);
    if r.version != "" {
      ClosedOnlyCompletes(mid, key, r.kind, r.version, r.id, now);
      CompletesTwice(tasks, mid, O.Closed(mid, key, r.kind, r.version, r.id, now));
      EndedTwice(tasks, mid, O.Closed(mid, key, r.kind, r.version, r.id, now));
      if r.kind != U.CC_OCTO {
        OtherComponentEndsNoInstall(mid, key, r.kind, r.version, r.id, now);
      }
    }
  }

  /** A registration drops the secrets of cc-octo tasks that it completes and of no others;
      of all that it completes, unless a provider carries the plugin's name. */
  lemma {:induction false} DroppedAreEnded(s: O.Tables, owner: string, space: string, daemon: string,
      reports: seq<O.Report>)
    ensures var after := O.Registered(s, owner, space, daemon, reports);
            && OnlyCompletes(s.tasks, after.tasks) && after.now == s.now
            && Dropped(s, owner, space, daemon, reports) <= EndedInstalls(s.tasks, after.tasks)
            && ((forall r | r in reports :: r.kind != U.CC_OCTO) ==>
                  Dropped(s, owner, space, daemon, reports) == EndedInstalls(s.tasks, after.tasks))
    decreases |reports|
  {
    hide O.ReportClosed, OnlyCompletes, EndedInstalls, DroppedByOne;
    if reports == [] {
      NothingClosed(s.tasks, []);
    } else {
      var before, r := reports[..|reports| - 1], reports[|reports| - 1];
      var mid := O.Registered(s, owner, space, daemon, before);
      var key := U.Key(space, daemon, owner);
      DroppedAreEnded(s, owner, space, daemon, before);
      OneReportEnds(mid.tasks, key, r, s.now);
      CompletesTwice(s.tasks, mid.tasks, O.ReportClosed(mid.tasks, key, r, s.now));
      EndedTwice(s.tasks, mid.tasks, O.ReportClosed(mid.tasks, key, r, s.now));
      assert forall x | x in before :: x in reports;
    }
  }

  /** The version of the daemon itself among the reported components. */
  function DaemonVersion(components: seq<(string, string)>): string {
    if components == [] then ""
    else if components[0].0 == DAEMON then components[0].1
    else DaemonVersion(components[1..])
  }

  method FindDaemonVersion(components: seq<(string, string)>) returns (version: string)
    ensures version == DaemonVersion(components)
    ensures (exists i :: 0 <= i < |components| && components[i] == ("octo-daemon", version)
                 && forall j | 0 <= j < i :: components[j].0 != "octo-daemon") ||
            (version == "" && forall i | 0 <= i < |components| :: components[i].0 != "octo-daemon")
  {
    for i := 0 to |components|
      invariant DaemonVersion(components) == DaemonVersion(components[i..])
      invariant forall j | 0 <= j < i :: components[j].0 != "octo-daemon"
    {
      if components[i].0 == DAEMON {
        return components[i].1;
      }
    }
    version := "";
  }

  predicate Registrable(r: O.Report, active: set<string>) {
    r.kind != "" && r.kind in active
  }

  function Accepted(reports: seq<O.Report>, active: set<string>): seq<O.Report> {
    if reports == [] then []
    else
      var before, last := Accepted(reports[..|reports| - 1], active), reports[|reports| - 1];
      if Registrable(last, active) then before + [last.(status := if last.status == "" then ONLINE else last.status)]
          else before
  }

  /** Exactly the reports of active providers are registered, as online unless they say
      otherwise. */
  lemma {:induction false} AcceptedAreActive(reports: seq<O.Report>, active: set<string>)
    ensures forall r | r in Accepted(reports, active) :: r.kind in active && r.kind != "" && r.status != ""
    ensures forall i | 0 <= i < |reports| && reports[i].kind in active && reports[i].kind != "" ::
            reports[i].(status := if reports[i].status == "" then "online" else reports[i].status)
                in Accepted(reports, active)
  {
    if reports != [] {
      var before := reports[..|reports| - 1];
      AcceptedAreActive(before, active);
      assert forall i | 0 <= i < |before| :: reports[i] == before[i];
    }
  }

  function WithoutIds(reports: seq<O.Report>): seq<O.Report> {
    seq(|reports|, i requires 0 <= i < |reports| => reports[i].(id := 0))
  }

  lemma WithoutIdsSnoc(reports: seq<O.Report>, r: O.Report)
    ensures WithoutIds(reports + [r]) == WithoutIds(reports) + [r.(id := 0)]
  {
  }

  /** A registration: every report of an active provider, in order, then the daemon. */
  method Register(runtimes: RuntimeTable, tasks: U.TaskTable, bots: B.BotTable, secrets: S.SecretStore,
                  active: set<string>, owner: string, space: string, daemon: string,
                  reports: seq<O.Report>, components: seq<(string, string)>, now: int)
      returns (reply: Reply, registered: seq<O.Report>)
    requires runtimes.Valid() && secrets.Valid()
    modifies runtimes, tasks, secrets
    ensures runtimes.Valid() && secrets.Valid()
    ensures reply == if daemon == "" then Validation else Ok
    ensures reply == Validation ==>
              Tables(runtimes, tasks, bots, now) == old(Tables(runtimes, tasks, bots, now))
              && secrets.history == old(secrets.history)
    ensures reply == Ok ==>
              Evicted(Dropped(old(Tables(runtimes, tasks, bots, now)), owner, space, daemon, registered),
                      old(secrets.history), secrets.history)
    ensures reply == Ok ==>
              var call := O.Register(owner, space, daemon, registered, DaemonVersion(components));
              && WithoutIds(registered) == WithoutIds(Accepted(reports, active))
              && O.Enabled(old(Tables(runtimes, tasks, bots, now)), call)
              && Tables(runtimes, tasks, bots, now) == O.Apply(old(Tables(runtimes, tasks, bots, now)), call)
  {
    hide O.CanUpsert, O.RegisteredOne, S.SecretStore.Valid, WithoutIds, Evicted, DroppedByOne;
    registered := [];
    NothingClosed(tasks.tasks, secrets.history);
    if daemon == "" {
      return Validation, [];
    }
    for i := 0 to |reports|
      invariant runtimes.Valid() && secrets.Valid()
      invariant WithoutIds(registered) == WithoutIds(Accepted(reports[..i], active))
      invariant O.CanRegister(old(Tables(runtimes, tasks, bots, now)), owner, space, daemon, registered)
      invariant Tables(runtimes, tasks, bots, now) ==
                O.Registered(old(Tables(runtimes, tasks, bots, now)), owner, space, daemon, registered)
      invariant Evicted(Dropped(old(Tables(runtimes, tasks, bots, now)), owner, space, daemon, registered),
                        old(secrets.history), secrets.history)
    {
      ghost var before, history := tasks.tasks, secrets.history;
      var r := reports[i];
      assert reports[..i + 1][..i] == reports[..i];
      if r.kind == "" || r.kind !in active {
        continue;
      }
      var done := RegisterOne(runtimes, tasks, bots, secrets, owner, space, daemon, r, now);
      assert (registered + [done])[..|registered|] == registered;
      WithoutIdsSnoc(registered, done);
      EvictedTwice(Dropped(old(Tables(runtimes, tasks, bots, now)), owner, space, daemon, registered),
                   DroppedByOne(before, U.Key(space, daemon, owner), done, now),
                   old(secrets.history), history, secrets.history);
      WithoutIdsSnoc(Accepted(reports[..i], active), done.(id := r.id));
      registered := registered + [done];
    }
    assert reports[..|reports|] == reports;
    var version := FindDaemonVersion(components);
    if version != "" {
      tasks.CompleteUpgradeIfMatched(U.Key(space, daemon, owner), DAEMON, version, now);
    }
    reply := Ok;
  }

  // ----- a request for an upgrade -----

  /** The key's tasks in progress. */
  method CountActive(tasks: U.Tasks, key: U.Key) returns (activeCount: nat)
    ensures activeCount > 0 <==> U.Busy(tasks, key)
    ensures activeCount > 0 <==>
            exists id :: id in tasks && tasks[id].key == key && tasks[id].status !in {U.Completed, U.Failed, U.Timeout}
  {
    activeCount := 0;
    var left := tasks.Keys;
    while left != {}
      invariant left <= tasks.Keys
      invariant activeCount > 0 <==>
                exists id :: id in tasks && id !in left && tasks[id].key == key && U.Open(tasks[id])
      decreases left
    {
      var id :| id in left;
      left := left - {id};
      if tasks[id].key == key && U.Open(tasks[id]) {
        activeCount := activeCount + 1;
      }
    }
  }

  /** The request once its gates have passed; `commits` is whether the commit succeeds. A
      secret is stored before the commit and dropped again if that fails. */
  method InsertUpgradeTask(runtimes: RuntimeTable, tasks: U.TaskTable, bots: B.BotTable, secrets: S.SecretStore,
                           request: U.Task, secret: Option<S.Secret>, taskId: string, commits: bool, now: int)
      returns (reply: Reply)
    requires secrets.Valid() && now >= secrets.clock && taskId !in tasks.tasks
    modifies tasks, secrets
    ensures secrets.Valid()
    ensures reply == if U.Busy(old(tasks.tasks), request.key) then Conflict else if commits then Ok else InternalError
    ensures reply == Conflict ==> secrets.history == old(secrets.history)
    ensures reply == Ok ==> S.Visible(secrets.history, taskId, now) == if secret.Some? then secret
            else S.Visible(old(secrets.history), taskId, now)
    ensures reply == InternalError && secret.Some? ==> S.InForce(secrets.history, taskId).None?
    ensures secret.None? ==> secrets.history == old(secrets.history)
    ensures forall k | k != taskId :: S.InForce(secrets.history, k) == S.InForce(old(secrets.history), k)
    ensures Tables(runtimes, tasks, bots, now) ==
            if reply == InternalError then old(Tables(runtimes, tasks, bots, now))
            else O.Apply(old(Tables(runtimes, tasks, bots, now)), O.RequestUpgrade(request.key.owner, taskId, request))
    ensures reply == Conflict <==>
            exists id :: id in old(tasks.tasks) && old(tasks.tasks)[id].key == request.key
                && old(tasks.tasks)[id].status !in {U.Completed, U.Failed, U.Timeout}
    ensures tasks.tasks == if reply != Ok then old(tasks.tasks) else old(tasks.tasks)[taskId :=
              request.(status := U.Pending, errorMsg := "", createdAt := now, updatedAt := now)]
  {
    var activeCount := CountActive(tasks.tasks, request.key);
    if activeCount > 0 {
      return Conflict;
    }
    ghost var before := secrets.history;
    if secret.Some? {
      secrets.Put(taskId, secret.value, now);
      assert secrets.history[..|before|] == before;
    }
    if !commits {
      if secret.Some? {
        ghost var stored := secrets.history;
        secrets.Evict(taskId);
        assert secrets.history[..|stored|] == stored;
      }
      return InternalError;
    }
    tasks.tasks := tasks.tasks[taskId := U.NewRow(request, now)];
    reply := Ok;
  }
}
