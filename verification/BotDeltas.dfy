/** The delta log of a runtime's bots: `managed_bots_changed` events against the bot
    table, with handlers run one at a time (modules/runtime/bot.go). */
module BotDeltas {
  import opened Bots

  /** The uids that a daemon holds after applying a runtime's events in order. */
  function Folded(events: seq<Event>, runtimeId: int): set<string> {
    if events == [] then {}
    else
      var before := Folded(events[..|events| - 1], runtimeId);
      match events[|events| - 1]
      case ManagedBotsChanged(r, added, removed) =>
        if r == runtimeId then (before + set u | u in added) - set u | u in removed else before
      case BotProvision(_, _) => before
  }

  predicate Live(b: Bot) {
    b.status == Minted || b.status == Dispatched || b.status == Active
  }

  predicate LiveOn(bots: Table, runtimeId: int, id: int) {
    id in bots && bots[id].runtimeId == runtimeId && Live(bots[id])
  }

  /** What the table says. */
  function Managed(bots: Table, runtimeId: int): set<string> {
    set id | id in bots && LiveOn(bots, runtimeId, id) :: bots[id].uid
  }

  /** Every bot past its draft has a uid of its own. */
  predicate OwnUids(bots: Table) {
    && (forall id | id in bots ::
          && bots[id].runtimeId > 0
          && (bots[id].status == Draft ==> bots[id].uid == "") && (Live(bots[id]) ==> bots[id].uid != ""))
    && (forall i, j | i in bots && j in bots && bots[i].uid != "" && bots[i].uid == bots[j].uid :: i == j)
  }

  ghost predicate Agrees(w: World) {
    && (forall id | id in w.bots :: id < w.nextId)
    && OwnUids(w.bots)
    && forall r: int :: Folded(w.events, r) == Managed(w.bots, r)
  }

  /** What the callers must respect: drafts come from `CreateBot`, and a mint that is
      accepted brings a uid that no bot has. Refused mints may repeat one. */
  predicate Proper(w: World, call: Call) {
    match call
    case Create(bot) => bot.status == Draft && bot.uid == "" && bot.runtimeId > 0
    case Mint(id, login, uid) =>
      MayMint(w.bots, id, login) ==> uid != "" && forall j | j in w.bots :: w.bots[j].uid != uid
    case _ => true
  }

  lemma FoldedSnoc(events: seq<Event>, e: Event, runtimeId: int)
    ensures Folded(events + [e], runtimeId) ==
            if e.ManagedBotsChanged? && e.runtimeId == runtimeId
            then (Folded(events, runtimeId) + set u | u in e.added) - set u | u in e.removed
                else Folded(events, runtimeId)
  {
    assert (events + [e])[..|events|] == events;
  }

  lemma FoldedRemoval(events: seq<Event>, b: Bot, runtimeId: int)
    requires b.runtimeId > 0
    ensures Folded(events + RemovalOf(b), runtimeId) ==
            if b.uid != "" && runtimeId == b.runtimeId then Folded(events, runtimeId) - {b.uid}
                else Folded(events, runtimeId)
  {
    hide Folded;
    if b.uid != "" {
      FoldedSnoc(events, ManagedBotsChanged(b.runtimeId, [], [b.uid]), runtimeId);
    } else {
      assert events + [] == events;
    }
  }

  lemma FoldedAddition(events: seq<Event>, id: int, b: Bot, runtimeId: int)
    requires b.runtimeId > 0
    ensures Folded(events + AdditionOf(id, b), runtimeId) ==
            if runtimeId == b.runtimeId then Folded(events, runtimeId) + {b.uid} else Folded(events, runtimeId)
  {
    hide Folded;
    var first, second := BotProvision(b.runtimeId, id), ManagedBotsChanged(b.runtimeId, [b.uid], []);
    assert events + [first, second] == (events + [first]) + [second];
    FoldedSnoc(events, first, runtimeId);
    FoldedSnoc(events + [first], second, runtimeId);
  }

  // ----- how a change of one row shows -----

  lemma MemberOfManaged(bots: Table, runtimeId: int, uid: string)
    ensures uid in Managed(bots, runtimeId) <==> exists id :: LiveOn(bots, runtimeId, id) && bots[id].uid == uid
  {
  }

  lemma RowLeaves(bots: Table, id: int, b: Bot, runtimeId: int)
    requires OwnUids(bots) && id in bots && b.runtimeId == bots[id].runtimeId && !Live(b)
    ensures Managed(bots[id := b], runtimeId) ==
            if bots[id].uid != "" && runtimeId == b.runtimeId then Managed(bots, runtimeId) - {bots[id].uid}
                else Managed(bots, runtimeId)
  {
    forall uid
      ensures uid in Managed(bots[id := b], runtimeId) <==>
              uid in Managed(bots, runtimeId) && !(bots[id].uid != "" && runtimeId == b.runtimeId
                  && uid == bots[id].uid)
    {
      MemberOfManaged(bots, runtimeId, uid);
      MemberOfManaged(bots[id := b], runtimeId, uid);
      forall j | LiveOn(bots, runtimeId, j) && j != id ensures LiveOn(bots[id := b], runtimeId, j)
          && bots[id := b][j] == bots[j] {
      }
    }
  }

  lemma RowArrives(bots: Table, id: int, b: Bot, runtimeId: int)
    requires (id in bots ==> !Live(bots[id])) && Live(b)
    ensures Managed(bots[id := b], runtimeId) ==
            if runtimeId == b.runtimeId then Managed(bots, runtimeId) + {b.uid} else Managed(bots, runtimeId)
  {
    forall uid
      ensures uid in Managed(bots[id := b], runtimeId) <==>
              uid in Managed(bots, runtimeId) || (runtimeId == b.runtimeId && uid == b.uid)
    {
      MemberOfManaged(bots, runtimeId, uid);
      MemberOfManaged(bots[id := b], runtimeId, uid);
      forall j | LiveOn(bots, runtimeId, j) ensures LiveOn(bots[id := b], runtimeId, j) && bots[id := b][j] == bots[j] {
      }
      if runtimeId == b.runtimeId {
        assert LiveOn(bots[id := b], runtimeId, id);
      }
    }
  }

  lemma RowStays(bots: Table, id: int, b: Bot, runtimeId: int)
    requires id in bots ==> Live(b) == Live(bots[id]) && b.uid == bots[id].uid && b.runtimeId == bots[id].runtimeId
    requires id !in bots ==> !Live(b)
    ensures Managed(bots[id := b], runtimeId) == Managed(bots, runtimeId)
  {
    forall uid ensures uid in Managed(bots[id := b], runtimeId) <==> uid in Managed(bots, runtimeId) {
      MemberOfManaged(bots, runtimeId, uid);
      MemberOfManaged(bots[id := b], runtimeId, uid);
      forall j | LiveOn(bots, runtimeId, j) ensures LiveOn(bots[id := b], runtimeId, j)
          && bots[id := b][j].uid == bots[j].uid {
      }
      forall j | LiveOn(bots[id := b], runtimeId, j) ensures LiveOn(bots, runtimeId, j)
          && bots[id := b][j].uid == bots[j].uid {
      }
    }
  }

  // ----- every handler -----

  lemma CreateAgrees(w: World, bot: Bot)
    requires Agrees(w) && Proper(w, Create(bot))
    ensures Agrees(Handled(w, Create(bot)))
  {
    hide Folded, Managed;
    forall r: int {
      RowStays(w.bots, w.nextId, bot, r);
    }
  }

  lemma MintAgrees(w: World, id: int, login: string, uid: string)
    requires Agrees(w) && Proper(w, Mint(id, login, uid))
    ensures Agrees(Handled(w, Mint(id, login, uid)))
  {
    hide Folded, Managed, AdditionOf;
    if MayMint(w.bots, id, login) {
      var b := MintedAs(w.bots[id], uid);
      var w' := Handled(w, Mint(id, login, uid));
      forall r: int ensures Folded(w'.events, r) == Managed(w'.bots, r) {
        RowArrives(w.bots, id, b, r);
        FoldedAddition(w.events, id, b, r);
      }
    }
  }

  lemma ClaimAgrees(w: World, id: int, token: string)
    requires Agrees(w) && id in w.bots && w.bots[id].status == Minted
    ensures Agrees(w.(bots := w.bots[id := ClaimedWith(w.bots[id], token)]))
  {
    hide Folded, Managed;
    forall r: int {
      RowStays(w.bots, id, ClaimedWith(w.bots[id], token), r);
    }
  }

  lemma AckAgrees(w: World, id: int, status: Status, errorMsg: string)
    requires Agrees(w) && id in w.bots && w.bots[id].status == Dispatched && (status == Active || status == Failed)
    ensures Agrees(w.(bots := w.bots[id := AckedAs(w.bots[id], status, errorMsg)],
                      events := w.events + if status == Failed then RemovalOf(w.bots[id]) else []))
  {
    hide Folded, Managed, RemovalOf;
    var b := AckedAs(w.bots[id], status, errorMsg);
    var events := w.events + if status == Failed then RemovalOf(w.bots[id]) else [];
    assert w.events + [] == w.events;
    forall r: int ensures Folded(events, r) == Managed(w.bots[id := b], r) {
      if status == Failed {
        RowLeaves(w.bots, id, b, r);
        FoldedRemoval(w.events, w.bots[id], r);
      } else {
        RowStays(w.bots, id, b, r);
      }
    }
  }

  lemma ArchiveAgrees(w: World, id: int)
    requires Agrees(w) && id in w.bots
    ensures Agrees(w.(bots := w.bots[id := ArchivedNow(w.bots[id])], events := w.events + RemovalOf(w.bots[id])))
  {
    hide Folded, Managed, RemovalOf;
    var b := ArchivedNow(w.bots[id]);
    forall r: int ensures Folded(w.events + RemovalOf(w.bots[id]), r) == Managed(w.bots[id := b], r) {
      RowLeaves(w.bots, id, b, r);
      FoldedRemoval(w.events, w.bots[id], r);
    }
  }

  lemma CallAgrees(w: World, call: Call)
    requires Agrees(w) && Proper(w, call)
    ensures Agrees(Handled(w, call))
  {
    hide Agrees, Folded, Managed, RemovalOf, AdditionOf;
    match call
    case Create(bot) => CreateAgrees(w, bot);
    case Mint(id, login, uid) => MintAgrees(w, id, login, uid);
    case HeartbeatClaim(route, token) =>
      if exists id :: FirstWaiting(w.bots, route, id) {
        var id :| FirstWaiting(w.bots, route, id)
            && Handled(w, call) == w.(bots := w.bots[id := ClaimedWith(w.bots[id], token)]);
        ClaimAgrees(w, id, token);
      }
    case Fetch(id, runtimeId, token) =>
      if MayFetch(w.bots, id, runtimeId) && w.bots[id].status == Minted {
        ClaimAgrees(w, id, token);
      }
    case Ack(id, space, owner, status, errorMsg, token) =>
      if (status == Active || status == Failed) && AckLands(w.bots, id, space, owner, token) {
        AckAgrees(w, id, status, errorMsg);
      }
    case Archive(id, login) =>
      if id in w.bots && w.bots[id].route.owner == login {
        ArchiveAgrees(w, id);
      }
  }

  ghost function After(calls: seq<Call>): World {
    if calls == [] then World(map[], 1, []) else Handled(After(calls[..|calls| - 1]), calls[|calls| - 1])
  }

  ghost predicate AllProper(calls: seq<Call>) {
    calls != [] ==> AllProper(calls[..|calls| - 1]) && Proper(After(calls[..|calls| - 1]), calls[|calls| - 1])
  }

  lemma {:induction false} RunsAgree(calls: seq<Call>)
    requires AllProper(calls)
    ensures Agrees(After(calls))
  {
    hide Handled, Proper;
    if calls == [] {
      assert forall r: int :: Managed(map[], r) == {};
    } else {
      hide Agrees;
      RunsAgree(calls[..|calls| - 1]);
      CallAgrees(After(calls[..|calls| - 1]), calls[|calls| - 1]);
    }
  }

  /** After any sequence of handler calls, applying a runtime's deltas in order gives
      exactly the uids of its bots that are minted, dispatched or active. */
  lemma DeltaLogMatchesTheTable(calls: seq<Call>, runtimeId: int)
    requires AllProper(calls)
    ensures forall uid :: uid in Folded(After(calls).events, runtimeId) <==>
              exists id :: LiveOn(After(calls).bots, runtimeId, id) && After(calls).bots[id].uid == uid
  {
    RunsAgree(calls);
    hide After, Folded;
    forall uid {
      MemberOfManaged(After(calls).bots, runtimeId, uid);
    }
  }

  // ----- announcements -----

  /** A bot that has a uid has been announced to its runtime once, and to no other. */
  ghost predicate Announced(bots: Table, events: seq<Event>) {
    forall r: int, id: int :: multiset(events)[BotProvision(r, id)] ==
        if id in bots && bots[id].runtimeId == r && bots[id].uid != "" then 1 else 0
  }

  lemma RemovalAnnouncesNothing(events: seq<Event>, b: Bot, r: int, id: int)
    ensures multiset(events + RemovalOf(b))[BotProvision(r, id)] == multiset(events)[BotProvision(r, id)]
  {
  }

  lemma MintAnnounces(w: World, id: int, login: string, uid: string)
    requires Agrees(w) && Announced(w.bots, w.events) && Proper(w, Mint(id, login, uid)) && MayMint(w.bots, id, login)
    ensures Announced(Handled(w, Mint(id, login, uid)).bots, Handled(w, Mint(id, login, uid)).events)
  {
    var b := w.bots[id].(uid := uid, status := Minted);
    var first, second := BotProvision(b.runtimeId, id), ManagedBotsChanged(b.runtimeId, [uid], []);
    var w' := Handled(w, Mint(id, login, uid));
    assert w'.bots == w.bots[id := b] && w'.events == w.events + [first, second];
    assert multiset([first, second]) == multiset{first, second};
    hide Agrees;
    forall r: int, j: int
      ensures multiset(w'.events)[BotProvision(r, j)] ==
              if j in w'.bots && w'.bots[j].runtimeId == r && w'.bots[j].uid != "" then 1 else 0
    {
      assert multiset(w'.events) == multiset(w.events) + multiset{first, second};
    }
  }

  lemma UidStays(w: World, bots: Table)
    requires Announced(w.bots, w.events) && w.bots.Keys <= bots.Keys
    requires forall id | id in bots :: if id in w.bots then bots[id].uid == w.bots[id].uid
                 && bots[id].runtimeId == w.bots[id].runtimeId else bots[id].uid == ""
    ensures Announced(bots, w.events)
    ensures forall b: Bot :: Announced(bots, w.events + RemovalOf(b))
  {
    forall b: Bot, r: int, id: int {
      RemovalAnnouncesNothing(w.events, b, r, id);
    }
  }

  lemma CallAnnounces(w: World, call: Call)
    requires Agrees(w) && Announced(w.bots, w.events) && Proper(w, call)
    ensures Announced(Handled(w, call).bots, Handled(w, call).events)
  {
    var w' := Handled(w, call);
    if call.Mint? && MayMint(w.bots, call.id, call.login) {
      MintAnnounces(w, call.id, call.login, call.uid);
    } else {
      UidStays(w, w'.bots);
      assert w'.events == w.events || exists b :: w'.events == w.events + RemovalOf(b) by {
        assert w.events + [] == w.events;
      }
    }
  }

  /** After any sequence of handler calls every bot that was minted has been announced to
      its runtime exactly once, and nothing else has been announced. */
  lemma {:induction false} MintsAreAnnouncedOnce(calls: seq<Call>)
    requires AllProper(calls)
    ensures Announced(After(calls).bots, After(calls).events)
  {
    if calls == [] {
    } else {
      var rest, call := calls[..|calls| - 1], calls[|calls| - 1];
      RunsAgree(rest);
      MintsAreAnnouncedOnce(rest);
      hide Handled, Proper, Agrees, Announced, After;
      assert After(calls) == Handled(After(rest), call) by {
        AfterOneMore(calls);
      }
      CallAnnounces(After(rest), call);
    }
  }

  lemma AfterOneMore(calls: seq<Call>)
    requires calls != []
    ensures After(calls) == Handled(After(calls[..|calls| - 1]), calls[|calls| - 1])
  {
  }

  /** Distinct uids are needed: if two bots of a runtime share one, archiving either
      takes it from the daemon although the other is still live. */
  lemma SharedUidIsLost(w: World, i: int, j: int)
    requires i != j && i in w.bots && w.bots[i].runtimeId > 0 && w.bots[i].uid != ""
    requires LiveOn(w.bots, w.bots[i].runtimeId, j) && w.bots[j].uid == w.bots[i].uid
    ensures var w' := Handled(w, Archive(i, w.bots[i].route.owner));
            w.bots[i].uid in Managed(w'.bots, w.bots[i].runtimeId)
                && w.bots[i].uid !in Folded(w'.events, w.bots[i].runtimeId)
  {
    var w' := Handled(w, Archive(i, w.bots[i].route.owner));
    FoldedRemoval(w.events, w.bots[i], w.bots[i].runtimeId);
    assert LiveOn(w'.bots, w.bots[i].runtimeId, j);
    MemberOfManaged(w'.bots, w.bots[i].runtimeId, w.bots[i].uid);
  }
}
