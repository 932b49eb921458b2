/** One connection from registration to its end (`sseEvents` in modules/runtime/sse.go):
    what it puts on the wire, and what a standard client makes of it. */
module SseConnection {
  import opened Wrappers
  import opened Text
  import opened SseFrames
  import opened SseHub
  import EventLog
  import SseDelivery

  /** What happens next while the connection is live. The first three are other calls: a
      publish, a newer connection of the runtime, and the delete of an older connection's
      cleanup, whoever owns the entry by then. The others are the branches of the select. */
  datatype Choice = Published(ev: Envelope) | Superseded | Deleted | Receive | Tick | Expire | Gone

  /** What the live part writes, whether the connection closed itself, whether it still
      owned the registry entry at its end, and what was left in its channel. */
  datatype Live = Live(items: seq<Item>, closed: bool, mapped: bool, left: seq<Envelope>)

  function EventOf(ev: Envelope): Event {
    Event(ev.kind, ev.id, ev.payload)
  }

  function Before(item: Item, live: Live): Live {
    live.(items := [item] + live.items)
  }

  /** The live part for a channel that holds `queue`, registered or no longer; a receive
      waits while it is empty. */
  function Served(queue: seq<Envelope>, mapped: bool, choices: seq<Choice>): Live
    decreases |choices|
  {
    if choices == [] then Live([], false, mapped, queue)
    else
      var rest := choices[1..];
      match choices[0]
      case Published(ev) => Served(if mapped then Offered(queue, ev) else queue, mapped, rest)
      case Superseded => Served(queue, false, rest)
      case Deleted => Served(queue, false, rest)
      case Receive =>
        if queue == [] then Served(queue, mapped, rest)
        else Before(Frame(EventOf(queue[0])), Served(queue[1..], mapped, rest))
      case Tick => Before(Keepalive, Served(queue, mapped, rest))
      case Expire => Live([], true, mapped, queue)
      case Gone => Live([], false, mapped, queue)
  }

  /** What the whole live part writes when `items` are out and `live` is still to come. */
  function After(items: seq<Item>, live: Live): Live {
    live.(items := items + live.items)
  }

  /** The entries of all other runtimes are as before. */
  ghost predicate OthersKept(before: map<int, Channel>, after: map<int, Channel>, runtimeId: int) {
    forall r: int | r != runtimeId :: (r in after <==> r in before) && (r in before ==> after[r] == before[r])
  }

  predicate Known(rows: EventLog.Rows, ids: seq<int>) {
    forall i | 0 <= i < |ids| :: ids[i] in rows
  }

  function Frames(rows: EventLog.Rows, ids: seq<int>): seq<Item>
    requires Known(rows, ids)
  {
    if ids == [] then []
    else [Frame(Event(rows[ids[0]].kind, ids[0], rows[ids[0]].payload))] + Frames(rows, ids[1..])
  }

  function Wire(items: seq<Item>, closed: bool): string {
    StreamText(items) + (if closed then Unlines(CLOSE_LINES) else "")
  }

  /** The replay result of a query. */
  function Page(rows: EventLog.Rows, nextId: int, scope: EventLog.Scope, lastEventId: int): (ids: seq<int>)
    ensures Known(rows, ids)
  {
    EventLog.ScanIs(rows, scope, lastEventId + 1, nextId);
    var all := EventLog.Scan(rows, scope, lastEventId + 1, nextId);
    var ids := EventLog.Take(all, SseDelivery.REPLAY_LIMIT);
    assert forall i | 0 <= i < |ids| :: ids[i] == all[i] && all[i] in all;
    ids
  }

  /** A dispatch: the event is in the log before it is offered to the channel, so
      whatever the channel drops a later replay still finds. */
  method Dispatch(log: EventLog.Log, hub: Hub, scope: EventLog.Scope, kind: string, payload: string, now: int)
      returns (id: int)
    requires log.Valid()
    modifies log
    modifies if scope.runtimeId in hub.channels then {hub.channels[scope.runtimeId]} else {}
    ensures log.Valid() && id !in old(log.rows)
    ensures log.rows == old(log.rows)[id := EventLog.Row(scope, kind, payload, now)]
    ensures forall from | from <= id :: id in EventLog.Scan(log.rows, scope, from, log.nextId)
    ensures scope.runtimeId in hub.channels ==>
              hub.channels[scope.runtimeId].queue ==
                  Offered(old(hub.channels[scope.runtimeId].queue), Envelope(id, kind, payload))
  {
    id := log.Insert(scope, kind, payload, now);
    hub.Publish(scope.runtimeId, Envelope(id, kind, payload));
    forall from | from <= id ensures id in EventLog.Scan(log.rows, scope, from, log.nextId) {
      EventLog.ScanIs(log.rows, scope, from, log.nextId);
    }
  }

  /** What is replayed: nothing if the query fails. */
  function Replayed(rows: EventLog.Rows, nextId: int, scope: EventLog.Scope, lastEventId: int, queryFails: bool)
      : (ids: seq<int>)
    ensures Known(rows, ids)
  {
    if queryFails then [] else Page(rows, nextId, scope, lastEventId)
  }

  /** Registers, replays, serves the live part and cleans up. The wire holds the frames
      of the replayed rows in ascending order, then what the live part writes. Entries of
      other runtimes, and of a newer connection of this one, are left alone. */
  method ServeEvents(log: EventLog.Log, hub: Hub, scope: EventLog.Scope, lastEventId: int, queryFails: bool,
                     choices: seq<Choice>)
      returns (wire: string)
    requires log.Valid()
    modifies hub
    ensures var live, missed := Served([], true, choices),
                Replayed(log.rows, log.nextId, scope, lastEventId, queryFails);
            && wire == Wire(Frames(log.rows, missed) + live.items, live.closed)
            && (live.mapped ==> scope.runtimeId !in hub.channels)
    ensures scope.runtimeId in hub.channels ==> fresh(hub.channels[scope.runtimeId])
    ensures OthersKept(old(hub.channels), hub.channels, scope.runtimeId)
  {
    var ch := hub.Register(scope.runtimeId);
    var missed := [];
    if !queryFails {
      missed := log.QuerySince(scope, lastEventId, SseDelivery.REPLAY_LIMIT);
      assert missed == Page(log.rows, log.nextId, scope, lastEventId);
    }
    hide Page, Frames, Served, StreamText, Wire, Offered, OthersKept;
    wire := Replay(log, missed);
    ghost var registered := hub.channels;
    var rest, closed := ServeLive(hub, ch, scope.runtimeId, choices);
    ghost var served := hub.channels;
    hub.Cleanup(scope.runtimeId, ch);
    KeptThroughout(old(hub.channels), registered, served, hub.channels, scope.runtimeId, ch);
    WireAppend(Frames(log.rows, missed), Served([], true, choices).items, closed);
    wire := wire + rest;
  }

  lemma KeptThroughout(before: map<int, Channel>, registered: map<int, Channel>, served: map<int, Channel>,
      after: map<int, Channel>, runtimeId: int, ch: Channel)
    requires registered == before[runtimeId := ch] && OthersKept(registered, served, runtimeId)
    requires after == if runtimeId in served && served[runtimeId] == ch then served - {runtimeId} else served
    ensures OthersKept(before, after, runtimeId)
  {
  }

  lemma WireAppend(page: seq<Item>, items: seq<Item>, closed: bool)
    ensures Wire(page + items, closed) == StreamText(page) + Wire(items, closed)
  {
    hide StreamText;
    StreamTextAppend(page, items);
    var close := if closed then Unlines(CLOSE_LINES) else "";
    assert (StreamText(page) + StreamText(items)) + close == StreamText(page) + (StreamText(items) + close);
  }

  /** The loop of the live part, for a channel just registered. */
  method ServeLive(hub: Hub, ch: Channel, runtimeId: int, choices: seq<Choice>) returns (text: string, closed: bool)
    requires runtimeId in hub.channels && hub.channels[runtimeId] == ch && ch.queue == []
    modifies hub, ch
    ensures var live := Served([], true, choices);
            && text == Wire(live.items, live.closed) && closed == live.closed
            && (live.mapped <==> runtimeId in hub.channels && hub.channels[runtimeId] == ch)
            && ch.queue == live.left
    ensures runtimeId in hub.channels ==> hub.channels[runtimeId] == ch || fresh(hub.channels[runtimeId])
    ensures OthersKept(old(hub.channels), hub.channels, runtimeId)
  {
    hide ItemLines, FrameLines, StreamText;
    ghost var all := Served([], true, choices);
    ghost var items: seq<Item> := [];
    ghost var mapped := true;
    var i := 0;
    text, closed := "", false;
    assert StreamText([]) == "" by {
      NothingPrinted();
    }
    assert choices[0..] == choices && [] + all.items == all.items;
    while i < |choices|
      invariant 0 <= i <= |choices|
      invariant OthersKept(old(hub.channels), hub.channels, runtimeId)
      invariant mapped <==> runtimeId in hub.channels && hub.channels[runtimeId] == ch
      invariant runtimeId in hub.channels ==> hub.channels[runtimeId] == ch || fresh(hub.channels[runtimeId])
      invariant text == StreamText(items) && !closed
      invariant all == After(items, Served(ch.queue, mapped, choices[i..]))
    {
      var choice := choices[i];
      assert choices[i..][1..] == choices[i + 1..];
      i := i + 1;
      match choice
      case Published(ev) =>
        hub.Publish(runtimeId, ev);
      case Superseded =>
        var other := hub.Register(runtimeId);
        mapped := false;
      case Deleted =>
        hub.channels := hub.channels - {runtimeId};
        mapped := false;
      case Receive =>
        if ch.queue != [] {
          var ev := ch.queue[0];
          WriteItem(items, Frame(EventOf(ev)), Served(ch.queue[1..], mapped, choices[i..]).items);
          text := text + Unlines(ItemLines(Frame(EventOf(ev))));
          items := items + [Frame(EventOf(ev))];
          ch.queue := ch.queue[1..];
        }
      case Tick =>
        WriteItem(items, Keepalive, Served(ch.queue, mapped, choices[i..]).items);
        text := text + Unlines(ItemLines(Keepalive));
        items := items + [Keepalive];
      case Expire =>
        text := text + Unlines(CLOSE_LINES);
        closed := true;
        break;
      case Gone =>
        break;
    }
    assert items + [] == items;
  }

  // ----- the live part by its choices alone -----

  /** The connection is neither closed nor abandoned. */
  predicate Running(choices: seq<Choice>) {
    forall i | 0 <= i < |choices| :: !choices[i].Expire? && !choices[i].Gone?
  }

  /** Nor does it lose its registry entry. */
  predicate EntryKept(choices: seq<Choice>) {
    Running(choices) && forall i | 0 <= i < |choices| :: !choices[i].Superseded? && !choices[i].Deleted?
  }

  function Publishes(choices: seq<Choice>): seq<Envelope> {
    if choices == [] then []
    else (if choices[0].Published? then [choices[0].ev] else []) + Publishes(choices[1..])
  }

  /** How many envelopes wait at the end if `waiting` wait at first; nothing if some publish
      finds sixteen of them waiting. */
  function Waiting(waiting: nat, choices: seq<Choice>): Option<nat>
    decreases |choices|
  {
    if choices == [] then Some(waiting)
    else
      match choices[0]
      case Published(_) => if waiting >= 16 then None else Waiting(waiting + 1, choices[1..])
      case Receive => Waiting(if waiting == 0 then 0 else waiting - 1, choices[1..])
      case _ => Waiting(waiting, choices[1..])
  }

  function Heard(queue: seq<Envelope>): seq<Event> {
    if queue == [] then [] else [EventOf(queue[0])] + Heard(queue[1..])
  }

  lemma {:induction false} HeardAppend(a: seq<Envelope>, b: seq<Envelope>)
    ensures Heard(a + b) == Heard(a) + Heard(b) && |Heard(a)| == |a|
  {
    if a == [] {
      assert a + b == b;
    } else {
      assert (a + b)[1..] == a[1..] + b;
      HeardAppend(a[1..], b);
    }
  }

  lemma HeardMoved(queue: seq<Envelope>, ev: Envelope, more: seq<Envelope>)
    ensures Heard((queue + [ev]) + more) == Heard(queue + ([ev] + more))
  {
    assert (queue + [ev]) + more == queue + ([ev] + more);
  }

  lemma HeardFirst(queue: seq<Envelope>, more: seq<Envelope>)
    requires queue != []
    ensures Heard(queue + more) == [EventOf(queue[0])] + Heard(queue[1..] + more)
  {
    assert (queue + more)[1..] == queue[1..] + more;
  }

  /** Of the envelopes waiting and those to come the live part has written some in order
      and left the others, or, if `n` is none, dropped one. */
  ghost predicate Passes(queue: seq<Envelope>, more: seq<Envelope>, live: Live, n: Option<nat>) {
    var all := Heard(queue + more);
    match n
    case Some(n) => |live.left| == n && Events(live.items) + Heard(live.left) == all
    case None => |Events(live.items)| + |live.left| < |all|
  }

  /** While the entry is kept, nothing published is lost and nothing changes its place, unless
      a publish finds the channel full. */
  ghost predicate InOrder(queue: seq<Envelope>, choices: seq<Choice>) {
    Passes(queue, Publishes(choices), Served(queue, true, choices), Waiting(|queue|, choices))
  }

  lemma PublishPasses(queue: seq<Envelope>, ev: Envelope, more: seq<Envelope>, live: Live, n: Option<nat>)
    requires Passes(Offered(queue, ev), more, live, n)
    ensures Passes(queue, [ev] + more, live, if |queue| >= 16 then None else n)
  {
    hide EventOf, Heard;
    HeardMoved(queue, ev, more);
    forall q { HeardAppend(q, []); }
    assert |queue + ([ev] + more)| == |queue + more| + 1;
  }

  lemma ReceivePasses(queue: seq<Envelope>, more: seq<Envelope>, live: Live, n: Option<nat>)
    requires queue != [] && Passes(queue[1..], more, live, n)
    ensures Passes(queue, more, Before(Frame(EventOf(queue[0])), live), n)
  {
    hide EventOf, Heard, Events;
    HeardFirst(queue, more);
    WrittenFirst(Frame(EventOf(queue[0])), live);
    var e := EventOf(queue[0]);
    assert ([e] + Events(live.items)) + Heard(live.left) == [e] + (Events(live.items) + Heard(live.left));
  }

  lemma TickPasses(queue: seq<Envelope>, more: seq<Envelope>, live: Live, n: Option<nat>)
    requires Passes(queue, more, live, n)
    ensures Passes(queue, more, Before(Keepalive, live), n)
  {
    hide EventOf, Heard, Events;
    WrittenFirst(Keepalive, live);
    assert [] + Events(live.items) == Events(live.items);
  }

  lemma {:induction false} NothingIsDropped(queue: seq<Envelope>, choices: seq<Choice>)
    requires EntryKept(choices)
    ensures InOrder(queue, choices)
    decreases |choices|
  {
    if choices == [] {
      assert queue + [] == queue && [] + Heard(queue) == Heard(queue);
    } else {
      var rest := choices[1..];
      assert forall i | 0 <= i < |rest| :: rest[i] == choices[i + 1];
      assert [] + Publishes(rest) == Publishes(rest);
      hide Passes, Offered, Heard;
      var more := Publishes(rest);
      match choices[0]
      case Published(ev) =>
        var queue' := Offered(queue, ev);
        NothingIsDropped(queue', rest);
        PublishPasses(queue, ev, more, Served(queue', true, rest), Waiting(|queue'|, rest));
        if |queue| < 16 {
          OfferedLength(queue, ev);
        }
      case Receive =>
        if queue == [] {
          NothingIsDropped(queue, rest);
        } else {
          NothingIsDropped(queue[1..], rest);
          ReceivePasses(queue, more, Served(queue[1..], true, rest), Waiting(|queue| - 1, rest));
        }
      case Tick =>
        NothingIsDropped(queue, rest);
        TickPasses(queue, more, Served(queue, true, rest), Waiting(|queue|, rest));
    }
  }

  lemma OfferedLength(queue: seq<Envelope>, ev: Envelope)
    requires |queue| < 16
    ensures |Offered(queue, ev)| == |queue| + 1
  {
  }

  lemma WrittenFirst(item: Item, live: Live)
    ensures Before(item, live).left == live.left
    ensures Events(Before(item, live).items) == (if item.Frame? then [item.event] else []) + Events(live.items)
  {
    assert ([item] + live.items)[1..] == live.items;
  }

  /** So the events written are exactly the published ones, in order, if and only if no
      publish finds the channel full and the receives catch up in the end. */
  lemma LiveEventsAreThePublished(choices: seq<Choice>)
    requires EntryKept(choices)
    ensures Events(Served([], true, choices).items) == Heard(Publishes(choices)) <==>
            Waiting(0, choices) == Some(0)
    ensures Waiting(0, choices) == Some(0) ==> Served([], true, choices).left == []
  {
    hide Served, Waiting, Publishes;
    NothingIsDropped([], choices);
    assert [] + Publishes(choices) == Publishes(choices);
    var live := Served([], true, choices);
    HeardAppend(live.left, []);
    assert Events(live.items) + [] == Events(live.items);
  }

  /** Once the entry is gone nothing more enters the channel; what waits is still written. */
  lemma {:induction false} WithoutEntryNothingEnters(queue: seq<Envelope>, choices: seq<Choice>)
    requires Running(choices)
    ensures var live := Served(queue, false, choices);
            !live.mapped && Events(live.items) + Heard(live.left) == Heard(queue)
    decreases |choices|
  {
    hide EventOf;
    if choices == [] {
      assert [] + Heard(queue) == Heard(queue);
    } else {
      var rest := choices[1..];
      assert forall i | 0 <= i < |rest| :: rest[i] == choices[i + 1];
      if choices[0].Receive? && queue != [] {
        WithoutEntryNothingEnters(queue[1..], rest);
        WrittenFirst(Frame(EventOf(queue[0])), Served(queue[1..], false, rest));
      } else {
        WithoutEntryNothingEnters(queue, rest);
        WrittenFirst(Keepalive, Served(queue, false, rest));
      }
    }
  }

  /** The live part in two stretches: the second goes on with what the first has left. In the
      first one keepalives are ticks. */
  ghost predicate InTwo(queue: seq<Envelope>, mapped: bool, a: seq<Choice>, b: seq<Choice>) {
    var first := Served(queue, mapped, a);
    && !first.closed
    && (first.mapped <==> mapped && forall i | 0 <= i < |a| :: !a[i].Superseded? && !a[i].Deleted?)
    && multiset(first.items)[Keepalive] == multiset(a)[Tick]
    && Served(queue, mapped, a + b) == After(first.items, Served(first.left, first.mapped, b))
  }

  lemma SilentInTwo(queue: seq<Envelope>, mapped: bool, a: seq<Choice>, b: seq<Choice>, queue': seq<Envelope>)
    requires a != [] && !a[0].Tick? && !a[0].Expire? && !a[0].Gone?
    requires a[0].Published? ==> queue' == if mapped then Offered(queue, a[0].ev) else queue
    requires !a[0].Published? ==> queue' == queue && (a[0].Receive? ==> queue == [])
    requires InTwo(queue', mapped && !a[0].Superseded? && !a[0].Deleted?, a[1..], b)
    ensures InTwo(queue, mapped, a, b)
  {
    hide EventOf, Offered;
    OneThenRest(a, b);
  }

  lemma LoudInTwo(queue: seq<Envelope>, mapped: bool, a: seq<Choice>, b: seq<Choice>, queue': seq<Envelope>, item: Item)
    requires a != []
    requires if a[0].Tick? then queue' == queue && item == Keepalive
             else a[0].Receive? && queue != [] && queue' == queue[1..] && item == Frame(EventOf(queue[0]))
    requires InTwo(queue', mapped, a[1..], b)
    ensures InTwo(queue, mapped, a, b)
  {
    hide EventOf, Offered;
    OneThenRest(a, b);
    var first := Served(queue', mapped, a[1..]);
    var later := Served(first.left, first.mapped, b);
    assert [item] + (first.items + later.items) == ([item] + first.items) + later.items;
    assert multiset([item] + first.items) == multiset{item} + multiset(first.items);
  }

  lemma OneThenRest(a: seq<Choice>, b: seq<Choice>)
    requires a != []
    ensures (a + b)[1..] == a[1..] + b && (a + b)[0] == a[0]
    ensures multiset(a) == multiset{a[0]} + multiset(a[1..])
    ensures (forall i | 0 <= i < |a| :: !a[i].Superseded? && !a[i].Deleted?) <==>
              !a[0].Superseded? && !a[0].Deleted?
              && forall i | 0 <= i < |a[1..]| :: !a[1..][i].Superseded? && !a[1..][i].Deleted?
  {
    assert a == [a[0]] + a[1..];
    assert forall i | 1 <= i < |a| :: a[i] == a[1..][i - 1];
    assert forall i | 0 <= i < |a[1..]| :: a[1..][i] == a[i + 1];
  }

  lemma {:induction false} ServedInTwo(queue: seq<Envelope>, mapped: bool, a: seq<Choice>, b: seq<Choice>)
    requires Running(a)
    ensures InTwo(queue, mapped, a, b)
    decreases |a|
  {
    if a == [] {
      assert a + b == b;
      assert [] + Served(queue, mapped, b).items == Served(queue, mapped, b).items;
    } else {
      hide InTwo, Offered;
      var rest := a[1..];
      assert forall i | 0 <= i < |rest| :: rest[i] == a[i + 1];
      match a[0]
      case Published(ev) =>
        var queue' := if mapped then Offered(queue, ev) else queue;
        ServedInTwo(queue', mapped, rest, b);
        SilentInTwo(queue, mapped, a, b, queue');
      case Superseded =>
        ServedInTwo(queue, false, rest, b);
        SilentInTwo(queue, mapped, a, b, queue);
      case Deleted =>
        ServedInTwo(queue, false, rest, b);
        SilentInTwo(queue, mapped, a, b, queue);
      case Receive =>
        if queue == [] {
          ServedInTwo(queue, mapped, rest, b);
          SilentInTwo(queue, mapped, a, b, queue);
        } else {
          ServedInTwo(queue[1..], mapped, rest, b);
          LoudInTwo(queue, mapped, a, b, queue[1..], Frame(EventOf(queue[0])));
        }
      case Tick =>
        ServedInTwo(queue, mapped, rest, b);
        LoudInTwo(queue, mapped, a, b, queue, Keepalive);
    }
  }

  /** Closing and leaving end the live part with what is out; only the first says so. */
  lemma LiveEnds(queue: seq<Envelope>, mapped: bool, a: seq<Choice>, b: seq<Choice>)
    requires Running(a)
    ensures Served(queue, mapped, a + [Expire] + b) == Served(queue, mapped, a).(closed := true)
    ensures Served(queue, mapped, a + [Gone] + b) == Served(queue, mapped, a)
  {
    Stops(queue, mapped, a, Expire, b);
    Stops(queue, mapped, a, Gone, b);
  }

  lemma Stops(queue: seq<Envelope>, mapped: bool, a: seq<Choice>, stop: Choice, b: seq<Choice>)
    requires Running(a) && (stop == Expire || stop == Gone)
    ensures Served(queue, mapped, a + [stop] + b) == Served(queue, mapped, a).(closed := stop == Expire)
    ensures !Served(queue, mapped, a).closed
  {
    var first, last := Served(queue, mapped, a), [stop] + b;
    ServedInTwo(queue, mapped, a, last);
    assert last[0] == stop;
    assert Served(first.left, first.mapped, last) == Live([], stop == Expire, first.mapped, first.left);
    hide Offered;
    assert a + [stop] + b == a + last;
    assert first.items + [] == first.items;
  }

  lemma NothingPrinted()
    ensures StreamText([]) == ""
  {
  }

  lemma StreamTextAppend(a: seq<Item>, b: seq<Item>)
    ensures StreamText(a + b) == StreamText(a) + StreamText(b)
  {
    StreamLinesAppend(a, b);
    UnlinesAppend(StreamLines(a), StreamLines(b));
  }

  lemma {:induction false} StreamLinesAppend(a: seq<Item>, b: seq<Item>)
    ensures StreamLines(a + b) == StreamLines(a) + StreamLines(b)
  {
    hide ItemLines;
    if a == [] {
      assert a + b == b;
    } else {
      assert (a + b)[1..] == a[1..] + b;
      StreamLinesAppend(a[1..], b);
      assert ItemLines(a[0]) + (StreamLines(a[1..]) + StreamLines(b)) ==
             (ItemLines(a[0]) + StreamLines(a[1..])) + StreamLines(b);
    }
  }

  /** Writes the frames of the replayed rows one by one. */
  method Replay(log: EventLog.Log, missed: seq<int>) returns (wire: string)
    requires Known(log.rows, missed)
    ensures wire == StreamText(Frames(log.rows, missed))
  {
    wire := "";
    ghost var rest := missed;
    ghost var items: seq<Item> := [];
    for k := 0 to |missed|
      invariant rest == missed[k..] && Known(log.rows, rest)
      invariant wire == StreamText(items)
      invariant Frames(log.rows, missed) == items + Frames(log.rows, rest)
    {
      var id := missed[k];
      var event := Event(log.rows[id].kind, id, log.rows[id].payload);
      WriteItem(items, Frame(event), Frames(log.rows, rest[1..]));
      wire := wire + Unlines(FrameLines(event));
      items := items + [Frame(event)];
      rest := rest[1..];
    }
    assert items + [] == items;
  }

  lemma WriteItem(items: seq<Item>, item: Item, later: seq<Item>)
    ensures StreamText(items + [item]) == StreamText(items) + Unlines(ItemLines(item))
    ensures (items + [item]) + later == items + ([item] + later)
  {
    hide ItemLines, Unlines;
    StreamTextAppend(items, [item]);
    assert StreamLines([item]) == ItemLines(item) by {
      assert [item][1..] == [];
      assert ItemLines(item) + [] == ItemLines(item);
    }
  }

  lemma {:induction false} UnlinesAppend(a: seq<string>, b: seq<string>)
    ensures Unlines(a + b) == Unlines(a) + Unlines(b)
  {
    if a == [] {
      assert a + b == b;
    } else {
      assert (a + b)[1..] == a[1..] + b;
      UnlinesAppend(a[1..], b);
      assert a[0] + ['\n'] + (Unlines(a[1..]) + Unlines(b)) == (a[0] + ['\n'] + Unlines(a[1..])) + Unlines(b);
    }
  }

  /** A standard client gets exactly the written events, in order, and at the end the
      close message if the connection closed itself. */
  lemma WireDelivers(lastId: string, items: seq<Item>, closed: bool)
    requires PrintableStream(items) && ProperIds(items)
    ensures var c := Read(lastId, Wire(items, closed));
            && c.got == Messages(items) + (if closed then [Message("close", "ttl-expired", c.lastId)] else [])
            && c.lastId == CursorAfter(lastId, Messages(items))
            && Decoded(Messages(items)) == Some(Events(items))
  {
    DecodedMessages(items);
    if closed {
      CloseKeepsCursor(lastId, items);
    } else {
      assert Wire(items, closed) == StreamText(items);
      StreamIsItsLines(items, "");
      assert StreamText(items) + "" == StreamText(items);
      assert StreamLines(items) + Lines("") == StreamLines(items);
      FeedStream(Connected(lastId), items);
      HearIs(Connected(lastId), items);
    }
  }

  lemma {:induction false} MessagesOfFrames(rows: EventLog.Rows, ids: seq<int>)
    requires Known(rows, ids)
    ensures |Messages(Frames(rows, ids))| == |ids|
    ensures forall i | 0 <= i < |ids| :: Messages(Frames(rows, ids))[i].lastId == Decimal(ids[i])
  {
    if ids != [] {
      MessagesOfFrames(rows, ids[1..]);
      assert Frames(rows, ids)[1..] == Frames(rows, ids[1..]);
      assert forall i | 1 <= i < |ids| :: ids[i] == ids[1..][i - 1];
    }
  }

  /** A connection that breaks anywhere in its replay has delivered the first rows of it,
      and a new one that resumes from the client's cursor finds exactly the rest: nothing
      is skipped and nothing is repeated. (Ids of live events may come out of order, so
      this does not extend to them.) */
  lemma ResumeAfterCut(rows: EventLog.Rows, nextId: int, scope: EventLog.Scope, cursor: int, lastId: string, k: nat)
    requires var items := Frames(rows, Page(rows, nextId, scope, cursor));
             PrintableStream(items) && k <= |StreamText(items)|
    ensures var page := Page(rows, nextId, scope, cursor);
            var c := Read(lastId, StreamText(Frames(rows, page))[..k]);
            var n := |c.got|;
            && n <= |page| <= |EventLog.Scan(rows, scope, cursor + 1, nextId)|
            && var resumed := if n == 0 then cursor else page[n - 1];
               && c.lastId == (if n == 0 then lastId else Decimal(resumed))
               && EventLog.Scan(rows, scope, resumed + 1, nextId) == EventLog.Scan(rows, scope, cursor + 1, nextId)[n..]
  {
    hide Frames, Read, Page, StreamText, EventLog.Scan, PrintableStream;
    var page := Page(rows, nextId, scope, cursor);
    var items := Frames(rows, page);
    CutAnywhere(lastId, items, k);
    MessagesOfFrames(rows, page);
    var c := Read(lastId, StreamText(items)[..k]);
    var n := |c.got|;
    if n > 0 {
      assert c.got[n - 1] == Messages(items)[n - 1];
    }
    RestOfPage(rows, nextId, scope, cursor, n);
  }

  /** The scan above the `n`th row of a page. */
  lemma RestOfPage(rows: EventLog.Rows, nextId: int, scope: EventLog.Scope, cursor: int, n: nat)
    requires n <= |Page(rows, nextId, scope, cursor)|
    ensures |Page(rows, nextId, scope, cursor)| <= |EventLog.Scan(rows, scope, cursor + 1, nextId)|
    ensures var resumed := if n == 0 then cursor else Page(rows, nextId, scope, cursor)[n - 1];
            EventLog.Scan(rows, scope, resumed + 1, nextId) == EventLog.Scan(rows, scope, cursor + 1, nextId)[n..]
  {
    var all := EventLog.Scan(rows, scope, cursor + 1, nextId);
    if n == 0 {
      assert all[0..] == all;
    } else {
      EventLog.DropThrough(rows, scope, cursor + 1, nextId, n - 1);
    }
  }
}
