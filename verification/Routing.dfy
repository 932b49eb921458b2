/** To which runtime a bot can be handed: the heartbeat finds it by its key, the fetch by
    its runtime id (modules/runtime/bot.go, modules/runtime/bot_provision_fetch.go,
    modules/runtime/db.go). */
module Routing {
  import opened Wrappers
  import opened Runtimes
  import opened Bots

  datatype State = State(runtimes: Rows, nextRuntime: int, world: World)

  datatype Step =
    | Register(m: Runtime, now: int)
    | Beat(id: int, now: int)
    | TurnOff(ids: set<int>)
    | Remove(ids: set<int>)                                   // deleted by its owner or by the sweeper
    | OnRuntime(runtimeId: int, name: string, workspace: string)  // a bot is created
    | OnBot(call: Call)

  const START := State(map[], 1, World(map[], 1, []))

  predicate Enabled(s: State, step: Step) {
    match step
    case OnRuntime(runtimeId, _, _) => runtimeId in s.runtimes
    case OnBot(call) => !call.Create?
    case _ => true
  }

  ghost function Apply(s: State, step: Step): State
    requires Enabled(s, step)
  {
    match step
    case Register(m, now) =>
      if exists id :: id in s.runtimes && s.runtimes[id].route == m.route then
        var id :| id in s.runtimes && s.runtimes[id].route == m.route;
        s.(runtimes := s.runtimes[id := Refreshed(s.runtimes[id], m, now)])
      else s.(runtimes := s.runtimes[s.nextRuntime := m.(lastSeen := now)], nextRuntime := s.nextRuntime + 1)
    case Beat(id, now) =>
      if id in s.runtimes then s.(runtimes := s.runtimes[id := s.runtimes[id].(status := ONLINE, lastSeen := now)])
          else s
    case TurnOff(ids) => s.(runtimes := TurnedOff(s.runtimes, ids))
    case Remove(ids) => s.(runtimes := s.runtimes - ids)
    case OnRuntime(runtimeId, name, workspace) =>
      s.(world := Handled(s.world, Create(NewBot(s.runtimes[runtimeId], runtimeId, name, workspace))))
    case OnBot(call) => s.(world := Handled(s.world, call))
  }

  ghost function After(steps: seq<Step>): Option<State> {
    if steps == [] then Some(START)
    else
      match After(steps[..|steps| - 1])
      case Some(s) => if Enabled(s, steps[|steps| - 1]) then Some(Apply(s, steps[|steps| - 1])) else None
      case None => None
  }

  // ----- keys never change -----

  /** Whatever later calls do to a bot, its key and its runtime stay. */
  lemma BotsStayPut(w: World, call: Call, id: int)
    requires !call.Create?
    ensures id in Handled(w, call).bots <==> id in w.bots
    ensures id in w.bots ==>
              Handled(w, call).bots[id].route == w.bots[id].route
                  && Handled(w, call).bots[id].runtimeId == w.bots[id].runtimeId
  {
  }

  /** A row that is there before and after keeps its key; a new one gets a new id. */
  lemma RowsStayPut(s: State, step: Step, id: int)
    requires Enabled(s, step) && s.nextRuntime !in s.runtimes
    ensures var s' := Apply(s, step);
            && s'.nextRuntime >= s.nextRuntime
            && (id in s'.runtimes && id in s.runtimes ==> s'.runtimes[id].route == s.runtimes[id].route)
            && (id in s'.runtimes && id !in s.runtimes ==>
                  && step.Register? && id == s.nextRuntime < s'.nextRuntime && s'.runtimes[id].route == step.m.route
                  && forall j | j in s.runtimes :: s.runtimes[j].route != step.m.route)
  {
  }

  /** What a step leaves of the rows: the registered one becomes what was registered, but
      for a missing interval, a beat puts its row online, and the others are as before
      unless turned off or removed. */
  lemma RowsAfter(s: State, step: Step, id: int)
    requires UniqueRoutes(s.runtimes) && s.nextRuntime !in s.runtimes && !step.OnRuntime? && !step.OnBot?
    ensures var rows, rows' := s.runtimes, Apply(s, step).runtimes;
            match step
            case Register(m, now) =>
              && (id in rows' && rows'[id].route != m.route ==> id in rows && rows'[id] == rows[id])
              && (id in rows && rows[id].route == m.route ==>
                    id in rows' && rows'[id] == m.(lastSeen := now,
                      intervalMs := if m.intervalMs > 0 then m.intervalMs else rows[id].intervalMs))
              && ((forall j | j in rows :: rows[j].route != m.route) ==>
                    rows' == rows[s.nextRuntime := m.(lastSeen := now)])
            case Beat(r, now) =>
              rows' == if r in rows then rows[r := rows[r].(status := "online", lastSeen := now)] else rows
            case TurnOff(ids) =>
              rows'.Keys == rows.Keys
                && (id in rows ==> rows'[id] == if id in ids then rows[id].(status := "offline") else rows[id])
            case Remove(ids) => rows' == rows - ids
  {
  }

  ghost predicate Inv(s: State) {
    && (forall id | id in s.runtimes :: id < s.nextRuntime)
    && UniqueRoutes(s.runtimes)
    && (forall b | b in s.world.bots :: s.world.bots[b].runtimeId < s.nextRuntime)
    && (forall b | b in s.world.bots && s.world.bots[b].runtimeId in s.runtimes ::
          s.runtimes[s.world.bots[b].runtimeId].route == s.world.bots[b].route)
  }

  lemma RuntimeStepKeeps(s: State, step: Step)
    requires Inv(s) && Enabled(s, step) && !step.OnBot? && !step.OnRuntime?
    ensures Inv(Apply(s, step))
  {
    var s' := Apply(s, step);
    assert s'.world == s.world;
    hide Apply, Enabled;
    forall id | id in s'.runtimes ensures id < s'.nextRuntime {
      RowsStayPut(s, step, id);
    }
    forall i, j | i in s'.runtimes && j in s'.runtimes && s'.runtimes[i].route == s'.runtimes[j].route ensures i == j {
      RowsStayPut(s, step, i);
      RowsStayPut(s, step, j);
    }
    forall b | b in s.world.bots
      ensures s.world.bots[b].runtimeId < s'.nextRuntime
      ensures s.world.bots[b].runtimeId in s'.runtimes ==>
              s'.runtimes[s.world.bots[b].runtimeId].route == s.world.bots[b].route
    {
      RowsStayPut(s, step, s.world.bots[b].runtimeId);
    }
  }

  lemma StepKeepsInv(s: State, step: Step)
    requires Inv(s) && Enabled(s, step)
    ensures Inv(Apply(s, step))
  {
    if step.OnBot? {
      hide Handled;
      forall b | b in Apply(s, step).world.bots
        ensures b in s.world.bots && Apply(s, step).world.bots[b].route == s.world.bots[b].route
                && Apply(s, step).world.bots[b].runtimeId == s.world.bots[b].runtimeId
      {
        BotsStayPut(s.world, step.call, b);
      }
    } else if step.OnRuntime? {
    } else {
      RuntimeStepKeeps(s, step);
    }
  }

  lemma {:induction false} RunsKeepInv(steps: seq<Step>)
    requires After(steps).Some?
    ensures Inv(After(steps).value)
  {
    hide Apply, Enabled;
    if steps == [] {
    } else {
      hide Inv;
      RunsKeepInv(steps[..|steps| - 1]);
      StepKeepsInv(After(steps[..|steps| - 1]).value, steps[|steps| - 1]);
    }
  }

  // ----- the two routes -----

  /** The heartbeat of runtime `r` looks for bots with the runtime's own key. */
  predicate HeartbeatReaches(s: State, r: int, b: int) {
    r in s.runtimes && b in s.world.bots && s.runtimes[r].route == s.world.bots[b].route
  }

  /** The fetch for runtime `r`, by the owner of that runtime. */
  predicate FetchReaches(s: State, r: int, b: int) {
    && r in s.runtimes && MayFetch(s.world.bots, b, r)
    && s.world.bots[b].route.owner == s.runtimes[r].route.owner
        && s.world.bots[b].route.space == s.runtimes[r].route.space
  }

  /** On every run, while the runtime of a bot is in the table both routes lead to it and
      to nothing else. */
  lemma RoutesAgree(steps: seq<Step>, b: int, r: int)
    requires After(steps).Some? && b in After(steps).value.world.bots
    requires After(steps).value.world.bots[b].runtimeId in After(steps).value.runtimes
    ensures var s := After(steps).value;
            && (HeartbeatReaches(s, r, b) <==> r == s.world.bots[b].runtimeId)
            && (FetchReaches(s, r, b) <==> r == s.world.bots[b].runtimeId)
  {
    RunsKeepInv(steps);
  }

  /** These are the bots that the two routes hand out. On every run the heartbeat of a
      runtime in the table claims the first minted bot that it reaches and changes no
      other; while that bot's runtime is in the table, it is this very runtime. */
  lemma HeartbeatClaimsWhatItReaches(steps: seq<Step>, r: int, token: string, b: int)
    requires After(steps).Some? && r in After(steps).value.runtimes && b in After(steps).value.world.bots
    ensures var s := After(steps).value;
            var bots, route := s.world.bots, s.runtimes[r].route;
            var bots' := Apply(s, OnBot(HeartbeatClaim(route, token))).world.bots;
            var first := HeartbeatReaches(s, r, b) && bots[b].status == Minted
                && forall j | j < b && HeartbeatReaches(s, r, j) :: bots[j].status != Minted;
            && b in bots' && (bots'[b] != bots[b] <==> first)
            && (first ==>
                  && bots[b].route == route && bots'[b] == bots[b].(status := Dispatched, token := token)
                  && (bots[b].runtimeId in s.runtimes ==> bots[b].runtimeId == r))
  {
    RunsKeepInv(steps);
    var s := After(steps).value;
    hide After, Inv;
    var bots, route := s.world.bots, s.runtimes[r].route;
    var first := HeartbeatReaches(s, r, b) && bots[b].status == Minted
        && forall j | j < b && HeartbeatReaches(s, r, j) :: bots[j].status != Minted;
    assert first ==> FirstWaiting(bots, route, b) by {
      forall j | Waiting(bots, route, j) ensures HeartbeatReaches(s, r, j) && bots[j].status == Minted {
      }
    }
    assert FirstWaiting(bots, route, b) ==> first by {
      forall j | HeartbeatReaches(s, r, j) && bots[j].status == Minted ensures Waiting(bots, route, j) {
      }
    }
    ClaimsFirst(s.world, route, token, b);
    if first {
      assert bots[b].runtimeId in s.runtimes ==> s.runtimes[bots[b].runtimeId].route == route by {
        RunsKeepInv(steps);
      }
    }
  }

  lemma ClaimsFirst(w: World, route: Route, token: string, b: int)
    requires b in w.bots
    ensures var bots' := Handled(w, HeartbeatClaim(route, token)).bots;
            && b in bots'
            && bots'[b] == if FirstWaiting(w.bots, route, b) then w.bots[b].(status := Dispatched, token := token)
                  else w.bots[b]
    ensures FirstWaiting(w.bots, route, b) ==> w.bots[b].status == Minted
  {
  }

  /** And the fetch for a runtime claims the bot it names if that is minted and on this
      runtime, and changes nothing else. */
  lemma FetchClaimsWhatItReaches(s: State, r: int, token: string, id: int, b: int)
    requires b in s.world.bots
    ensures var bots, bots' := s.world.bots, Apply(s, OnBot(Fetch(id, r, token))).world.bots;
            && b in bots'
            && bots'[b] == if b == id && bots[b].runtimeId == r && bots[b].status == Minted
                  then bots[b].(status := Dispatched, token := token) else bots[b]
  {
  }

  /** And exactly when they agree: unless the bot's runtime is gone and its key has come
      back under another id. */
  lemma RoutesAgreeIff(steps: seq<Step>, b: int)
    requires After(steps).Some? && b in After(steps).value.world.bots
    ensures var s := After(steps).value;
            (forall r: int :: HeartbeatReaches(s, r, b) <==> FetchReaches(s, r, b)) <==>
            (s.world.bots[b].runtimeId in s.runtimes ||
             forall r | r in s.runtimes :: s.runtimes[r].route != s.world.bots[b].route)
  {
    RunsKeepInv(steps);
    hide After;
    var s := After(steps).value;
    if s.world.bots[b].runtimeId !in s.runtimes {
      forall r | r in s.runtimes && s.runtimes[r].route == s.world.bots[b].route
        ensures HeartbeatReaches(s, r, b) && !FetchReaches(s, r, b)
      {
      }
    }
  }

  /** That does come about: once the runtime is deleted, registering its key again makes
      the bot reachable by heartbeat and by no fetch at all. */
  lemma RegisteringAgainSplits(s: State, m: Runtime, now: int, b: int)
    requires Inv(s) && b in s.world.bots && m.route == s.world.bots[b].route && s.world.bots[b].runtimeId !in s.runtimes
    requires forall r | r in s.runtimes :: s.runtimes[r].route != m.route
    ensures HeartbeatReaches(Apply(s, Register(m, now)), s.nextRuntime, b)
    ensures forall r: int :: !FetchReaches(Apply(s, Register(m, now)), r, b)
  {
  }

  lemma OneMore(steps: seq<Step>, step: Step)
    requires After(steps).Some? && Enabled(After(steps).value, step)
    ensures After(steps + [step]) == Some(Apply(After(steps).value, step))
  {
    hide Apply, Enabled;
    assert (steps + [step])[..|steps + [step]| - 1] == steps;
  }

  lemma RuntimeThenBot(m: Runtime, now: int, name: string, workspace: string)
    ensures var s := After([] + [Register(m, now)] + [OnRuntime(1, name, workspace)] + [Remove({1})]);
            && s.Some? && s.value.runtimes == map[] && s.value.nextRuntime == 2
            && 1 in s.value.world.bots && s.value.world.bots[1].route == m.route && s.value.world.bots[1].runtimeId == 1
  {
    assert After([]) == Some(START);
    OneMore([], Register(m, now));
    hide After;
    OneMore([] + [Register(m, now)], OnRuntime(1, name, workspace));
    OneMore([] + [Register(m, now)] + [OnRuntime(1, name, workspace)], Remove({1}));
  }

  /** From the start: a runtime, a bot on it, the runtime deleted and registered again. */
  lemma SplitIsReached(m: Runtime, now: int, name: string, workspace: string)
    ensures var s := After([] + [Register(m, now)] + [OnRuntime(1, name, workspace)] + [Remove({1})]
            + [Register(m, now)]);
            && s.Some? && HeartbeatReaches(s.value, 2, 1) && forall r: int :: !FetchReaches(s.value, r, 1)
  {
    var steps := [] + [Register(m, now)] + [OnRuntime(1, name, workspace)] + [Remove({1})];
    RuntimeThenBot(m, now, name, workspace);
    RunsKeepInv(steps);
    OneMore(steps, Register(m, now));
    hide After, Apply, Inv;
    RegisteringAgainSplits(After(steps).value, m, now, 1);
  }
}
