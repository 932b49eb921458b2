/** Bots and the handlers that move them: create, mint, the two claim routes, ack and
    archive (modules/runtime/bot.go, modules/runtime/bot_provision_fetch.go). */
module Bots {
  import opened Wrappers
  import opened Runtimes
  import Text

  // ----- rows -----

  datatype Status = Draft | Minted | Dispatched | Active | Failed | Archived

  /** `route` is fixed when the bot is created; `token` is "" unless a claim is outstanding. */
  datatype Bot = Bot(route: Route, runtimeId: int, name: string, workspace: string, uid: string,
                     status: Status, errorMsg: string, token: string)

  type Table = map<int, Bot>

  /** What a daemon is handed. */
  datatype Payload = Payload(id: int, kind: string, workspace: string, name: string, uid: string, token: string)

  function PayloadOf(id: int, b: Bot): Payload {
    Payload(id, b.route.kind, b.workspace, b.name, b.uid, b.token)
  }

  // ----- the statements on one row -----

  function NewBot(runtime: Runtime, runtimeId: int, name: string, workspace: string): Bot {
    Bot(runtime.route, runtimeId, name, workspace, "", Draft, "", "")
  }

  function MintedAs(b: Bot, uid: string): Bot {
    b.(uid := uid, status := Minted)
  }

  function ClaimedWith(b: Bot, token: string): Bot {
    b.(status := Dispatched, token := token)
  }

  /** The guard of the ack's UPDATE. */
  predicate Takes(b: Bot, token: string) {
    b.status == Dispatched && b.token == token
  }

  function AckedAs(b: Bot, status: Status, errorMsg: string): Bot {
    b.(status := status, errorMsg := errorMsg, token := "")
  }

  function ArchivedNow(b: Bot): Bot {
    b.(status := Archived, errorMsg := "")
  }

  // ----- events -----

  datatype Event =
    | BotProvision(runtimeId: int, botId: int)
    | ManagedBotsChanged(runtimeId: int, added: seq<string>, removed: seq<string>)

  function RemovalOf(b: Bot): seq<Event> {
    if b.runtimeId > 0 && b.uid != "" then [ManagedBotsChanged(b.runtimeId, [], [b.uid])] else []
  }

  function AdditionOf(id: int, b: Bot): seq<Event> {
    if b.runtimeId > 0 then [BotProvision(b.runtimeId, id), ManagedBotsChanged(b.runtimeId, [b.uid], [])] else []
  }

  // ----- whole handlers -----

  datatype World = World(bots: Table, nextId: int, events: seq<Event>)

  datatype Call =
    | Create(bot: Bot)
    | Mint(id: int, login: string, uid: string)
    | HeartbeatClaim(route: Route, token: string)
    | Fetch(id: int, runtimeId: int, token: string)
    | Ack(id: int, space: string, owner: string, status: Status, errorMsg: string, token: string)
    | Archive(id: int, login: string)

  predicate Waiting(bots: Table, route: Route, id: int) {
    id in bots && bots[id].route == route && bots[id].status == Minted
  }

  predicate FirstWaiting(bots: Table, route: Route, id: int) {
    Waiting(bots, route, id) && forall j | j in bots && Waiting(bots, route, j) :: id <= j
  }

  predicate MayMint(bots: Table, id: int, login: string) {
    id in bots && bots[id].route.owner == login && bots[id].status == Draft
  }

  predicate MayFetch(bots: Table, id: int, runtimeId: int) {
    id in bots && bots[id].runtimeId == runtimeId
  }

  /** The runtime and the bot are the caller's, and the bot is on that runtime. */
  predicate Entitled(runtimes: Rows, bots: Table, id: int, runtimeId: int, owner: string, space: string) {
    && runtimeId in runtimes && runtimes[runtimeId].route.owner == owner && runtimes[runtimeId].route.space == space
    && MayFetch(bots, id, runtimeId) && bots[id].route.owner == owner && bots[id].route.space == space
  }

  predicate AckLands(bots: Table, id: int, space: string, owner: string, token: string) {
    id in bots && bots[id].route.space == space && bots[id].route.owner == owner && token != ""
        && Takes(bots[id], token)
  }

  ghost function Handled(w: World, call: Call): World {
    match call
    case Create(bot) => World(w.bots[w.nextId := bot], w.nextId + 1, w.events)
    case Mint(id, login, uid) =>
      if MayMint(w.bots, id, login) then
        w.(bots := w.bots[id := MintedAs(w.bots[id], uid)],
           events := w.events + AdditionOf(id, MintedAs(w.bots[id], uid)))
      else w
    case HeartbeatClaim(route, token) =>
      if exists id :: FirstWaiting(w.bots, route, id) then
        var id :| FirstWaiting(w.bots, route, id);
        w.(bots := w.bots[id := ClaimedWith(w.bots[id], token)])
      else w
    case Fetch(id, runtimeId, token) =>
      if MayFetch(w.bots, id, runtimeId) && w.bots[id].status == Minted then
        w.(bots := w.bots[id := ClaimedWith(w.bots[id], token)])
      else w
    case Ack(id, space, owner, status, errorMsg, token) =>
      if (status == Active || status == Failed) && AckLands(w.bots, id, space, owner, token) then
        w.(bots := w.bots[id := AckedAs(w.bots[id], status, errorMsg)],
           events := w.events + if status == Failed then RemovalOf(w.bots[id]) else [])
      else w
    case Archive(id, login) =>
      if id in w.bots && w.bots[id].route.owner == login then
        w.(bots := w.bots[id := ArchivedNow(w.bots[id])], events := w.events + RemovalOf(w.bots[id]))
      else w
  }

  // ----- the code -----

  datatype Reply = Ok | Validation | NotFound | Forbidden | Conflict

  class BotTable {
    var bots: Table
    var nextId: int
    var events: seq<Event>

    ghost predicate Valid()
      reads this
    {
      0 < nextId && forall id | id in bots :: 0 < id < nextId
    }

    ghost function Now(): World
      reads this
    {
      World(bots, nextId, events)
    }

    constructor ()
      ensures Valid() && bots == map[] && nextId == 1 && events == []
    {
      bots, nextId, events := map[], 1, [];
    }

    /** A draft on a runtime that the caller owns; it carries the runtime's whole key. */
    method CreateBot(runtimes: Rows, active: set<string>, login: string, runtimeId: int, name: string, kind: string,
        workspace: string)
        returns (reply: Reply, id: int)
      requires Valid()
      modifies this
      ensures Valid()
      ensures reply ==
                if runtimeId <= 0 || Text.TrimSpace(name) == "" || kind !in active then Validation
                else if runtimeId !in runtimes then NotFound
                else if runtimes[runtimeId].route.owner != login then Forbidden
                else if runtimes[runtimeId].route.kind != kind then Validation
                else Ok
      ensures reply == Ok ==>
                var bot := NewBot(runtimes[runtimeId], runtimeId, Text.TrimSpace(name), workspace);
                id == old(nextId) && Now() == Handled(old(Now()), Create(bot))
      ensures reply == Ok ==>
                && id in bots && bots == old(bots)[id := bots[id]] && events == old(events)
                && var on := runtimes[runtimeId].route;
                   bots[id] == Bot(Route(on.space, on.daemon, kind, login), runtimeId, Text.TrimSpace(name),
                                   workspace, "", Draft, "", "")
      ensures reply != Ok ==> Now() == old(Now())
    {
      id := 0;
      if runtimeId <= 0 {
        return Validation, 0;
      }
      var trimmed := Text.TrimSpace(name);
      if trimmed == "" || kind !in active {
        return Validation, 0;
      }
      if runtimeId !in runtimes {
        return NotFound, 0;
      }
      var runtime := runtimes[runtimeId];
      if runtime.route.owner != login {
        return Forbidden, 0;
      }
      if runtime.route.kind != kind {
        return Validation, 0;
      }
      id := nextId;
      nextId := nextId + 1;
      bots := bots[id := Bot(Route(runtime.route.space, runtime.route.daemon, kind, login), runtimeId, trimmed,
          workspace, "", Draft, "", "")];
      reply := Ok;
    }

    method PatchBotMint(id: int, login: string, uid: string) returns (reply: Reply)
      requires Valid()
      modifies this
      ensures Valid()
      ensures reply ==
                if id <= 0 || Text.TrimSpace(uid) == "" then Validation
                else if id !in old(bots) then NotFound
                else if old(bots)[id].route.owner != login then Forbidden
                else if old(bots)[id].status != Draft then Conflict
                else Ok
      ensures Now() == if reply == Ok then Handled(old(Now()), Mint(id, login, uid)) else old(Now())
      ensures reply == Ok ==>
                var r := old(bots)[id].runtimeId;
                && bots == old(bots)[id := old(bots)[id].(uid := uid, status := Minted)]
                && events == old(events) + if r > 0 then [BotProvision(r, id), ManagedBotsChanged(r, [uid], [])] else []
    {
      if id <= 0 || Text.TrimSpace(uid) == "" {
        return Validation;
      }
      if id !in bots {
        return NotFound;
      }
      var row := bots[id];
      if row.route.owner != login {
        return Forbidden;
      }
      if row.status != Draft {
        return Conflict;
      }
      bots := bots[id := bots[id].(uid := uid, status := Minted)];
      row := row.(uid := uid, status := Minted);
      if row.runtimeId > 0 {
        events := events + [BotProvision(row.runtimeId, id), ManagedBotsChanged(row.runtimeId, [uid], [])];
      }
      reply := Ok;
    }

    /** The heartbeat's route: the oldest waiting bot of the runtime's key. */
    method ClaimPendingBotProvision(route: Route, token: string) returns (payload: Option<Payload>)
      requires Valid()
      modifies this
      ensures Valid()
      ensures payload.None? ==> Now() == old(Now()) && forall id :: !Waiting(bots, route, id)
      ensures payload.Some? ==>
                && FirstWaiting(old(bots), route, payload.value.id) && payload.value.id in bots
                && payload.value.token == token && payload.value == PayloadOf(payload.value.id, bots[payload.value.id])
      ensures payload.Some? ==>
                var id := payload.value.id;
                && old(bots)[id].route == route && old(bots)[id].status == Minted
                && (forall j | j in old(bots) && old(bots)[j].route == route && old(bots)[j].status == Minted ::
                      id <= j)
                && bots == old(bots)[id := old(bots)[id].(status := Dispatched, token := token)]
                && payload.value == Payload(id, route.kind, bots[id].workspace, bots[id].name, bots[id].uid, token)
      ensures payload.None? ==> forall j | j in bots && bots[j].route == route :: bots[j].status != Minted
      ensures Now() == Handled(old(Now()), HeartbeatClaim(route, token))
    {
      for id := 1 to nextId
        invariant Now() == old(Now())
        invariant forall j | 0 < j < id :: !Waiting(bots, route, j)
      {
        if id in bots && bots[id].route == route && bots[id].status == Minted {
          assert FirstWaiting(bots, route, id);
          bots := bots[id := bots[id].(status := Dispatched, token := token)];
          return Some(PayloadOf(id, bots[id]));
        }
      }
      assert forall j | j in bots :: !Waiting(bots, route, j);
      payload := None;
    }

    /** The fetch route, up to the point where the status decides. */
    method FetchBotProvision(runtimes: Rows, id: int, runtimeId: int, owner: string, space: string, token: string)
        returns (reply: Reply, payload: Option<Payload>)
      requires Valid()
      modifies this
      ensures Valid()
      ensures reply ==
                if id <= 0 || runtimeId <= 0 then Validation
                else if !Entitled(runtimes, old(bots), id, runtimeId, owner, space) then Forbidden
                else if old(bots)[id].status == Minted || old(bots)[id].status == Dispatched then Ok
                else Conflict
      ensures reply == Ok ==>
                && Now() == Handled(old(Now()), Fetch(id, runtimeId, token))
                && bots[id].status == Dispatched && payload == Some(PayloadOf(id, bots[id]))
                && old(bots)[id].runtimeId == runtimeId && runtimes[runtimeId].route.owner == owner
                && runtimes[runtimeId].route.space == space && old(bots)[id].route.owner == owner
                && old(bots)[id].route.space == space
      ensures reply == Forbidden ==>
                || id !in old(bots) || runtimeId !in runtimes || old(bots)[id].runtimeId != runtimeId
                || (owner, space) != (runtimes[runtimeId].route.owner, runtimes[runtimeId].route.space)
                || (owner, space) != (old(bots)[id].route.owner, old(bots)[id].route.space)
      ensures reply != Ok ==> payload.None? && Now() == old(Now())
    {
      payload := None;
      if id <= 0 || runtimeId <= 0 {
        return Validation, None;
      }
      if runtimeId !in runtimes || runtimes[runtimeId].route.owner != owner
          || runtimes[runtimeId].route.space != space {
        return Forbidden, None;
      }
      if id !in bots {
        return Forbidden, None;
      }
      var row := bots[id];
      if row.route.owner != owner || row.route.space != space || row.runtimeId != runtimeId {
        return Forbidden, None;
      }
      reply, payload := RespondBotProvisionByStatus(id, runtimeId, row, token);
    }

    /** `row` is what the caller has read; the table may have moved on since. The call
        goes at most one level deep: a row that is re-read is never claimed. */
    method RespondBotProvisionByStatus(id: int, runtimeId: int, row: Bot, token: string)
        returns (reply: Reply, payload: Option<Payload>)
      requires Valid() && id in bots
      modifies this
      decreases if row.status == Minted then 1 else 0
      ensures Valid() && nextId == old(nextId) && events == old(events)
      ensures reply == Ok <==> payload.Some?
      ensures reply == Ok || reply == Conflict
      ensures var claims := row.status == Minted && Waiting(old(bots), old(bots)[id].route, id)
              && old(bots)[id].runtimeId == runtimeId;
              && bots == (if claims then old(bots)[id := ClaimedWith(old(bots)[id], token)] else old(bots))
              && (claims ==> bots[id] == old(bots)[id].(status := Dispatched, token := token))
              && payload == (if claims then Some(PayloadOf(id, ClaimedWith(row, token)))
                             else if row.status == Dispatched then Some(PayloadOf(id, row))
                             else if row.status == Minted && bots[id].status == Dispatched
                             then Some(PayloadOf(id, bots[id]))
                             else None)
    {
      match row.status {
        case Minted =>
          if bots[id].status == Minted && bots[id].runtimeId == runtimeId {
            bots := bots[id := bots[id].(status := Dispatched, token := token)];
            return Ok, Some(PayloadOf(id, row.(status := Dispatched, token := token)));
          }
          var newRow := bots[id];
          if newRow.status == Minted {
            return Conflict, None;
          }
          reply, payload := RespondBotProvisionByStatus(id, runtimeId, newRow, token);
        case Dispatched =>
          return Ok, Some(PayloadOf(id, row));
        case _ =>
          return Conflict, None;
      }
    }

    /** Reads the row, then leaves the rest to `AckAsRead`. */
    method AckBot(id: int, space: string, owner: string, status: Status, errorMsg: string, token: string)
        returns (reply: Reply)
      requires Valid()
      modifies this
      ensures Valid()
      ensures reply ==
                if status != Active && status != Failed then Validation
                else if id !in old(bots) then NotFound
                else if old(bots)[id].route.space != space || old(bots)[id].route.owner != owner then Forbidden
                else if old(bots)[id].status == status || AckLands(old(bots), id, space, owner, token) then Ok
                else Conflict
      ensures reply == Ok ==> id in bots && bots[id].status == status
      ensures Now() == if reply == Ok then Handled(old(Now()), Ack(id, space, owner, status, errorMsg, token))
              else old(Now())
      ensures reply == Ok && old(bots)[id].status == status ==> Now() == old(Now())
      ensures reply == Ok && old(bots)[id].status != status ==>
                && token != "" && old(bots)[id].token == token && old(bots)[id].status == Dispatched
                && bots == old(bots)[id := old(bots)[id].(status := status, errorMsg := errorMsg, token := "")]
      ensures reply == Conflict ==>
                || old(bots)[id].status != Dispatched || old(bots)[id].token != token || token == ""
    {
      if status != Active && status != Failed {
        return Validation;
      }
      if id !in bots {
        return NotFound;
      }
      var m := bots[id];
      if m.route.space != space || m.route.owner != owner {
        return Forbidden;
      }
      reply := AckAsRead(id, m, status, errorMsg, token);
    }

    /** `m` is the row as read before; the guarded UPDATE decides on the table as it is. */
    method AckAsRead(id: int, m: Bot, status: Status, errorMsg: string, token: string) returns (reply: Reply)
      requires Valid() && id in bots && (status == Active || status == Failed)
      modifies this
      ensures Valid() && nextId == old(nextId)
      ensures var lands := m.status != status && token != "" && m.token == token && Takes(old(bots)[id], token);
              && bots == (if lands then old(bots)[id := AckedAs(old(bots)[id], status, errorMsg)] else old(bots))
              && events == old(events) + (if lands && status == Failed then RemovalOf(m) else [])
      ensures reply == if m.status == status || (token != "" && m.token == token && bots[id].status == status) then Ok
              else Conflict
    {
      if m.status == status {
        return Ok;
      }
      if m.token == "" || m.token != token {
        return Conflict;
      }
      if bots[id].status == Dispatched && bots[id].token == token {
        bots := bots[id := bots[id].(status := status, errorMsg := errorMsg, token := "")];
      } else {
        return if bots[id].status == status then Ok else Conflict;
      }
      if status == Failed && m.runtimeId > 0 && m.uid != "" {
        events := events + [ManagedBotsChanged(m.runtimeId, [], [m.uid])];
      }
      reply := Ok;
    }

    method ArchiveBot(id: int, login: string) returns (reply: Reply)
      requires Valid()
      modifies this
      ensures Valid()
      ensures reply == if id !in old(bots) then NotFound else if old(bots)[id].route.owner != login then Forbidden
              else Ok
      ensures Now() == Handled(old(Now()), Archive(id, login))
      ensures reply == Ok ==>
                var b := old(bots)[id];
                && bots == old(bots)[id := b.(status := Archived, errorMsg := "")]
                && events == old(events) + if b.runtimeId > 0 && b.uid != ""
                      then [ManagedBotsChanged(b.runtimeId, [], [b.uid])] else []
    {
      if id !in bots {
        return NotFound;
      }
      var m := bots[id];
      if m.route.owner != login {
        return Forbidden;
      }
      bots := bots[id := bots[id].(status := Archived, errorMsg := "")];
      if m.runtimeId > 0 && m.uid != "" {
        events := events + [ManagedBotsChanged(m.runtimeId, [], [m.uid])];
      }
      reply := Ok;
    }
  }
}
