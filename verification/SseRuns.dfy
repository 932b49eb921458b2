/** The connection code against the delivery machine: whatever `ServeEvents` writes is what
    the connection of some run of `SseDelivery` has written, so that machine's theorems
    speak about the bytes on the wire and about what a standard client makes of them. */
module SseRuns {
  import opened Wrappers
  import opened SseFrames
  import opened SseHub
  import opened SseConnection
  import L = EventLog
  import D = SseDelivery

  // ----- rows, envelopes and events -----

  function EventAt(rows: L.Rows, id: int): Event
    requires id in rows
  {
    Event(rows[id].kind, id, rows[id].payload)
  }

  function EventsAt(rows: L.Rows, ids: seq<int>): seq<Event>
    requires Known(rows, ids)
  {
    if ids == [] then [] else EventsAt(rows, ids[..|ids| - 1]) + [EventAt(rows, ids[|ids| - 1])]
  }

  /** The envelopes in a channel are those of the given rows. */
  predicate Carries(rows: L.Rows, ids: seq<int>, queue: seq<Envelope>) {
    && |queue| == |ids| && Known(rows, ids)
    && forall i | 0 <= i < |ids| :: queue[i].id == ids[i] && EventOf(queue[i]) == EventAt(rows, ids[i])
  }

  function RowOf(scope: L.Scope, ev: Envelope): L.Row {
    L.Row(scope, ev.kind, ev.payload, 0)
  }

  /** Every published envelope is a dispatch of the runtime: its row is inserted before, or
      at the latest now, and it is published once. */
  predicate Dispatches(scope: L.Scope, rows: L.Rows, published: set<int>, choices: seq<Choice>)
    decreases |choices|
  {
    if choices == [] then true
    else if choices[0].Published? then
      var ev := choices[0].ev;
      && ev.id > 0 && ev.id !in published
      && (ev.id in rows ==> rows[ev.id].scope == scope && EventAt(rows, ev.id) == EventOf(ev))
      && Dispatches(scope, if ev.id in rows then rows
          else rows[ev.id := RowOf(scope, ev)], published + {ev.id}, choices[1..])
    else Dispatches(scope, rows, published, choices[1..])
  }

  lemma {:induction false} EventsAtConcat(rows: L.Rows, a: seq<int>, b: seq<int>)
    requires Known(rows, a) && Known(rows, b)
    ensures Known(rows, a + b) && EventsAt(rows, a + b) == EventsAt(rows, a) + EventsAt(rows, b)
  {
    if b == [] {
      assert a + b == a;
    } else {
      var front, last := b[..|b| - 1], b[|b| - 1];
      EventsAtConcat(rows, a, front);
      assert (a + b)[..|a + b| - 1] == a + front;
      assert EventsAt(rows, a + b) == EventsAt(rows, a + front) + [EventAt(rows, last)];
    }
  }

  lemma {:induction false} EventsConcat(a: seq<Item>, b: seq<Item>)
    ensures Events(a + b) == Events(a) + Events(b)
  {
    if a == [] {
      assert a + b == b;
    } else {
      assert (a + b)[1..] == a[1..] + b;
      EventsConcat(a[1..], b);
      var first := if a[0].Frame? then [a[0].event] else [];
      assert Events(a + b) == first + Events((a + b)[1..]);
      assert first + (Events(a[1..]) + Events(b)) == (first + Events(a[1..])) + Events(b);
    }
  }

  lemma {:induction false} EventsOfFrames(rows: L.Rows, ids: seq<int>)
    requires Known(rows, ids)
    ensures Events(Frames(rows, ids)) == EventsAt(rows, ids)
  {
    if ids == [] {
    } else {
      var first, rest := [ids[0]], ids[1..];
      EventsOfFrames(rows, rest);
      EventsAtConcat(rows, first, rest);
      assert ids == first + rest;
      assert first[..0] == [] && EventsAt(rows, first) == [EventAt(rows, ids[0])];
      assert Frames(rows, ids)[1..] == Frames(rows, rest);
    }
  }

  /** Later inserts do not change what known ids stand for. */
  lemma {:induction false} EventsAtGrow(rows: L.Rows, more: L.Rows, ids: seq<int>)
    requires Known(rows, ids) && forall id | id in rows :: id in more && more[id] == rows[id]
    ensures Known(more, ids) && EventsAt(more, ids) == EventsAt(rows, ids)
  {
    if ids != [] {
      EventsAtGrow(rows, more, ids[..|ids| - 1]);
    }
  }

  // ----- steps of the machine -----

  lemma OneMore(scope: L.Scope, cursor: int, steps: seq<D.Step>, step: D.Step)
    requires D.After(scope, cursor, steps).Some? && D.Enabled(D.After(scope, cursor, steps).value, step)
    ensures D.After(scope, cursor, steps + [step]) == Some(D.Apply(D.After(scope, cursor, steps).value, step))
  {
    hide D.Apply, D.Enabled;
    assert (steps + [step])[..|steps + [step]| - 1] == steps;
  }

  /** The machine is live: it streams, the replay is written and the entry is its own or not. */
  predicate Live(s: D.State, mapped: bool) {
    s.phase == D.Streaming && s.mapped == mapped && s.left == []
  }

  /** What the machine has written when it has taken over `items`. */
  predicate Wrote(s: D.State, s': D.State, items: seq<Item>) {
    && Known(s'.inserted, s'.written) && |s.written| <= |s'.written| && s'.written[..|s.written|] == s.written
    && (forall id | id in s.inserted :: id in s'.inserted && s'.inserted[id] == s.inserted[id])
    && Events(items) == EventsAt(s'.inserted, s'.written[|s.written|..])
  }

  /** The replay is out and the channel holds the given envelopes. */
  predicate Leaves(s: D.State, queue: seq<Envelope>) {
    s.left == [] && Carries(s.inserted, s.channel, queue)
  }

  lemma WroteNothing(s: D.State, s': D.State)
    requires Known(s.inserted, s.written) && s'.written == s.written && s'.inserted == s.inserted
    ensures Wrote(s, s', [])
  {
  }

  lemma WroteLater(s: D.State, s1: D.State, s': D.State, items: seq<Item>)
    requires Wrote(s1, s', items) && s1.written == s.written
    requires forall id | id in s.inserted :: id in s1.inserted && s1.inserted[id] == s.inserted[id]
    ensures Wrote(s, s', items)
  {
  }

  lemma WroteKeepalive(s: D.State, s': D.State, items: seq<Item>)
    requires Wrote(s, s', items)
    ensures Wrote(s, s', [Keepalive] + items)
  {
    assert ([Keepalive] + items)[1..] == items;
  }

  lemma WroteFirst(s: D.State, s1: D.State, s': D.State, id: int, items: seq<Item>)
    requires s1.inserted == s.inserted && id in s.inserted && s1.written == s.written + [id] && Wrote(s1, s', items)
    ensures Wrote(s, s', [Frame(EventAt(s.inserted, id))] + items)
  {
    var n, rows := |s.written|, s'.inserted;
    var later := s'.written[n + 1..];
    assert s'.written[n..] == [id] + later by {
      assert s'.written[..n + 1][n] == id;
    }
    assert s'.written[..n] == s'.written[..n + 1][..n] == s.written;
    assert Known(rows, [id]) && Known(rows, later);
    EventsAtConcat(rows, [id], later);
    assert [id][..0] == [] && EventsAt(rows, [id]) == [EventAt(rows, id)];
    assert ([Frame(EventAt(s.inserted, id))] + items)[1..] == items;
  }

  // ----- the live part -----

  /** One dispatch: the row, unless it is there already, and the publish. */
  lemma DispatchRuns(scope: L.Scope, cursor: int, steps: seq<D.Step>, ev: Envelope, queue: seq<Envelope>, mapped: bool)
      returns (whole: seq<D.Step>)
    requires D.After(scope, cursor, steps).Some?
    requires var s := D.After(scope, cursor, steps).value;
             && s.scope == scope && Live(s, mapped) && s.published <= s.inserted.Keys
             && Carries(s.inserted, s.channel, queue)
             && ev.id > 0 && ev.id !in s.published
             && (ev.id in s.inserted ==> s.inserted[ev.id].scope == scope && EventAt(s.inserted, ev.id) == EventOf(ev))
    ensures steps <= whole && D.After(scope, cursor, whole).Some?
    ensures var s, s' := D.After(scope, cursor, steps).value, D.After(scope, cursor, whole).value;
            && s'.scope == scope && Live(s', mapped) && s'.written == s.written
            && s'.inserted == (if ev.id in s.inserted then s.inserted else s.inserted[ev.id := RowOf(scope, ev)])
            && s'.published == s.published + {ev.id}
            && Carries(s'.inserted, s'.channel, if mapped then Offered(queue, ev) else queue)
  {
    hide D.After;
    var s := D.After(scope, cursor, steps).value;
    whole := steps;
    if ev.id !in s.inserted {
      OneMore(scope, cursor, steps, D.Insert(ev.id, RowOf(scope, ev)));
      whole := steps + [D.Insert(ev.id, RowOf(scope, ev))];
    }
    OneMore(scope, cursor, whole, D.Publish(ev.id));
    whole := whole + [D.Publish(ev.id)];
  }

  lemma {:induction false} LiveIsARun(scope: L.Scope, cursor: int, steps: seq<D.Step>, queue: seq<Envelope>,
      mapped: bool, choices: seq<Choice>)
      returns (whole: seq<D.Step>)
    requires D.After(scope, cursor, steps).Some?
    requires var s := D.After(scope, cursor, steps).value;
             && s.scope == scope && Live(s, mapped) && s.published <= s.inserted.Keys && Known(s.inserted, s.written)
             && Carries(s.inserted, s.channel, queue) && Dispatches(scope, s.inserted, s.published, choices)
    ensures steps <= whole && D.After(scope, cursor, whole).Some?
    ensures Wrote(D.After(scope, cursor, steps).value, D.After(scope, cursor, whole).value,
                  Served(queue, mapped, choices).items)
    ensures Leaves(D.After(scope, cursor, whole).value, Served(queue, mapped, choices).left)
    decreases |choices|, 1
  {
    hide D.After, D.Apply, D.Enabled, Carries, Wrote;
    var s := D.After(scope, cursor, steps).value;
    if choices == [] {
      WroteNothing(s, s);
      return steps;
    }
    hide Leaves;
    match choices[0]
    case Published(ev) =>
      var mid := PublishedFirst(scope, cursor, steps, ev, queue, mapped);
      var s1 := D.After(scope, cursor, mid).value;
      var queue' := if mapped then Offered(queue, ev) else queue;
      whole := LiveIsARun(scope, cursor, mid, queue', mapped, choices[1..]);
      WroteLater(s, s1, D.After(scope, cursor, whole).value, Served(queue', mapped, choices[1..]).items);
    case Superseded =>
      whole := EntryLost(scope, cursor, steps, queue, mapped, choices);
    case Deleted =>
      whole := EntryLost(scope, cursor, steps, queue, mapped, choices);
    case Receive =>
      if queue == [] {
        whole := LiveIsARun(scope, cursor, steps, queue, mapped, choices[1..]);
      } else {
        var mid := steps + [D.WriteLive];
        var id := ReceivedFirst(scope, cursor, steps, queue, mapped);
        whole := LiveIsARun(scope, cursor, mid, queue[1..], mapped, choices[1..]);
        WroteFirst(s, D.After(scope, cursor, mid).value, D.After(scope, cursor, whole).value, id,
                   Served(queue[1..], mapped, choices[1..]).items);
      }
    case Tick =>
      whole := LiveIsARun(scope, cursor, steps, queue, mapped, choices[1..]);
      WroteKeepalive(s, D.After(scope, cursor, whole).value, Served(queue, mapped, choices[1..]).items);
    case Expire =>
      whole := StoppedNow(scope, cursor, steps, mapped, queue);
    case Gone =>
      whole := StoppedNow(scope, cursor, steps, mapped, queue);
  }

  /** A newer connection, or an older one's delete, while the entry is still there. */
  lemma {:induction false} EntryLost(scope: L.Scope, cursor: int, steps: seq<D.Step>, queue: seq<Envelope>,
      mapped: bool, choices: seq<Choice>)
      returns (whole: seq<D.Step>)
    requires D.After(scope, cursor, steps).Some? && choices != [] && (choices[0].Superseded? || choices[0].Deleted?)
    requires var s := D.After(scope, cursor, steps).value;
             && s.scope == scope && Live(s, mapped) && s.published <= s.inserted.Keys && Known(s.inserted, s.written)
             && Carries(s.inserted, s.channel, queue) && Dispatches(scope, s.inserted, s.published, choices)
    ensures steps <= whole && D.After(scope, cursor, whole).Some?
    ensures Wrote(D.After(scope, cursor, steps).value, D.After(scope, cursor, whole).value,
                  Served(queue, mapped, choices).items)
    ensures Leaves(D.After(scope, cursor, whole).value, Served(queue, mapped, choices).left)
    decreases |choices|, 0
  {
    hide D.After, Carries, Wrote, Leaves;
    var s := D.After(scope, cursor, steps).value;
    if mapped {
      OneMore(scope, cursor, steps, D.LoseEntry);
      var mid := steps + [D.LoseEntry];
      whole := LiveIsARun(scope, cursor, mid, queue, false, choices[1..]);
      WroteLater(s, D.After(scope, cursor, mid).value, D.After(scope, cursor, whole).value,
                 Served(queue, false, choices[1..]).items);
    } else {
      whole := LiveIsARun(scope, cursor, steps, queue, false, choices[1..]);
    }
  }

  lemma PublishedFirst(scope: L.Scope, cursor: int, steps: seq<D.Step>, ev: Envelope, queue: seq<Envelope>,
      mapped: bool)
      returns (mid: seq<D.Step>)
    requires D.After(scope, cursor, steps).Some?
    requires var s := D.After(scope, cursor, steps).value;
             && s.scope == scope && Live(s, mapped) && s.published <= s.inserted.Keys && Known(s.inserted, s.written)
             && Carries(s.inserted, s.channel, queue)
             && ev.id > 0 && ev.id !in s.published
             && (ev.id in s.inserted ==> s.inserted[ev.id].scope == scope && EventAt(s.inserted, ev.id) == EventOf(ev))
    ensures steps <= mid && D.After(scope, cursor, mid).Some?
    ensures var s, s1 := D.After(scope, cursor, steps).value, D.After(scope, cursor, mid).value;
            && s1.scope == scope && Live(s1, mapped) && s1.written == s.written && s1.published <= s1.inserted.Keys
            && s1.inserted == (if ev.id in s.inserted then s.inserted else s.inserted[ev.id := RowOf(scope, ev)])
            && Known(s1.inserted, s1.written) && s1.published == s.published + {ev.id}
            && Carries(s1.inserted, s1.channel, if mapped then Offered(queue, ev) else queue)
            && forall id | id in s.inserted :: id in s1.inserted && s1.inserted[id] == s.inserted[id]
  {
    hide D.After, Carries;
    mid := DispatchRuns(scope, cursor, steps, ev, queue, mapped);
  }

  lemma ReceivedFirst(scope: L.Scope, cursor: int, steps: seq<D.Step>, queue: seq<Envelope>, mapped: bool)
      returns (id: int)
    requires D.After(scope, cursor, steps).Some? && queue != []
    requires var s := D.After(scope, cursor, steps).value;
             Live(s, mapped) && Known(s.inserted, s.written) && Carries(s.inserted, s.channel, queue)
    ensures D.After(scope, cursor, steps + [D.WriteLive]).Some?
    ensures var s, s1 := D.After(scope, cursor, steps).value, D.After(scope, cursor, steps + [D.WriteLive]).value;
            && s1.scope == s.scope && Live(s1, mapped) && s1.inserted == s.inserted && s1.published == s.published
            && id in s.inserted && s1.written == s.written + [id] && Known(s1.inserted, s1.written)
            && EventOf(queue[0]) == EventAt(s.inserted, id) && Carries(s1.inserted, s1.channel, queue[1..])
  {
    hide D.After;
    OneMore(scope, cursor, steps, D.WriteLive);
    id := D.After(scope, cursor, steps).value.channel[0];
  }

  lemma StoppedNow(scope: L.Scope, cursor: int, steps: seq<D.Step>, mapped: bool, queue: seq<Envelope>)
      returns (whole: seq<D.Step>)
    requires D.After(scope, cursor, steps).Some?
    requires var s := D.After(scope, cursor, steps).value;
             Live(s, mapped) && Known(s.inserted, s.written) && Carries(s.inserted, s.channel, queue)
    ensures steps <= whole && D.After(scope, cursor, whole).Some?
    ensures Wrote(D.After(scope, cursor, steps).value, D.After(scope, cursor, whole).value, [])
    ensures Leaves(D.After(scope, cursor, whole).value, queue)
  {
    hide D.After;
    OneMore(scope, cursor, steps, D.Stop);
    whole := steps + [D.Stop];
    WroteNothing(D.After(scope, cursor, steps).value, D.After(scope, cursor, whole).value);
  }

  // ----- the replay -----

  lemma {:induction false} ReplayIsARun(scope: L.Scope, cursor: int, steps: seq<D.Step>) returns (whole: seq<D.Step>)
    requires D.After(scope, cursor, steps).Some? && D.After(scope, cursor, steps).value.phase == D.Streaming
    ensures steps <= whole && D.After(scope, cursor, whole).Some?
    ensures var s := D.After(scope, cursor, steps).value;
            D.After(scope, cursor, whole).value == s.(written := s.written + s.left, left := [])
    decreases |D.After(scope, cursor, steps).value.left|
  {
    hide D.After;
    var s := D.After(scope, cursor, steps).value;
    if s.left == [] {
      assert s.written + s.left == s.written;
      return steps;
    }
    OneMore(scope, cursor, steps, D.WriteReplay);
    whole := ReplayIsARun(scope, cursor, steps + [D.WriteReplay]);
    assert (s.written + [s.left[0]]) + s.left[1..] == s.written + s.left;
  }

  function QueryStep(queryFails: bool): D.Step {
    if queryFails then D.QueryFails else D.Query
  }

  lemma QueriedState(s: D.State, queryFails: bool)
    requires D.LogInv(s) && D.FifoInv(s) && s.phase == D.Idle
    ensures var s2 := D.Apply(D.Apply(s, D.Register), QueryStep(queryFails));
            && s2.phase == D.Streaming && s2.mapped && s2.scope == s.scope && s2.channel == [] && s2.written == []
            && s2.inserted == s.inserted && s2.published == s.published && s2.published <= s2.inserted.Keys
            && s2.left == Replayed(s.log, s.top, s.scope, s.cursor, queryFails)
  {
    hide L.Scan;
  }

  lemma LogIsInserted(s: D.State)
    requires D.LogInv(s)
    ensures forall id | id in s.log :: id in s.inserted && s.inserted[id] == s.log[id]
  {
  }

  lemma ReplayIsInserted(s: D.State, queryFails: bool)
    requires D.LogInv(s)
    ensures Known(s.inserted, Replayed(s.log, s.top, s.scope, s.cursor, queryFails))
  {
    LogIsInserted(s);
    var page := Replayed(s.log, s.top, s.scope, s.cursor, queryFails);
    forall i | 0 <= i < |page| ensures page[i] in s.inserted {
      var id := page[i];
      assert id in s.log;
    }
  }

  /** From any point of any run before the connection registers, registering, querying and
      writing the replay. */
  lemma ReplayedRun(scope: L.Scope, cursor: int, steps: seq<D.Step>, queryFails: bool) returns (whole: seq<D.Step>)
    requires D.After(scope, cursor, steps).Some? && D.After(scope, cursor, steps).value.phase == D.Idle
    ensures steps <= whole && D.After(scope, cursor, whole).Some?
    ensures var s, s' := D.After(scope, cursor, steps).value, D.After(scope, cursor, whole).value;
            && Live(s', true) && s'.scope == scope && s'.channel == []
            && s'.inserted == s.inserted && s'.published == s.published
            && s'.published <= s'.inserted.Keys && Known(s'.inserted, s'.written)
            && s'.written == Replayed(s.log, s.top, s.scope, s.cursor, queryFails)
            && forall id | id in s.log :: id in s.inserted && s.inserted[id] == s.log[id]
  {
    D.EveryRunKeeps(scope, cursor, steps);
    hide D.After, D.LogInv, D.FifoInv, D.OnceInv, D.AccountInv, Replayed;
    var s, query := D.After(scope, cursor, steps).value, QueryStep(queryFails);
    QueriedState(s, queryFails);
    ReplayIsInserted(s, queryFails);
    LogIsInserted(s);
    OneMore(scope, cursor, steps, D.Register);
    OneMore(scope, cursor, steps + [D.Register], query);
    hide D.Apply;
    whole := ReplayIsARun(scope, cursor, steps + [D.Register] + [query]);
    var page := Replayed(s.log, s.top, s.scope, s.cursor, queryFails);
    assert [] + page == page;
  }

  // ----- the whole connection -----

  /** What `ServeEvents` writes on a log in the machine's state: replay, then live part. */
  function Items(s: D.State, queryFails: bool, choices: seq<Choice>): seq<Item> {
    Frames(s.log, Replayed(s.log, s.top, s.scope, s.cursor, queryFails)) + Served([], true, choices).items
  }

  /** The connection code continues any run in which the connection has not registered to
      one that has written exactly the events on the wire, in their order. */
  lemma ConnectionIsARun(scope: L.Scope, cursor: int, steps: seq<D.Step>, queryFails: bool, choices: seq<Choice>)
      returns (whole: seq<D.Step>)
    requires D.After(scope, cursor, steps).Some?
    requires var s := D.After(scope, cursor, steps).value;
             s.phase == D.Idle && Dispatches(scope, s.inserted, s.published, choices)
    ensures steps <= whole && D.After(scope, cursor, whole).Some?
    ensures var s, s' := D.After(scope, cursor, steps).value, D.After(scope, cursor, whole).value;
            && Known(s'.inserted, s'.written)
            && Events(Items(s, queryFails, choices)) == EventsAt(s'.inserted, s'.written)
            && Carries(s'.inserted, s'.channel, Served([], true, choices).left)
            && (Served([], true, choices).left == [] ==> s'.written == s'.page + s'.queued)
  {
    D.EveryRunKeeps(scope, cursor, steps);
    hide D.After, D.Inv, Replayed, Dispatches, Served, EventsAt, Events, Frames, Wrote;
    var s := D.After(scope, cursor, steps).value;
    var mid := ReplayedRun(scope, cursor, steps, queryFails);
    var s1 := D.After(scope, cursor, mid).value;
    whole := LiveIsARun(scope, cursor, mid, [], true, choices);
    WroteAfterPage(s.log, s1, D.After(scope, cursor, whole).value, Served([], true, choices).items);
    AllWritten(scope, cursor, whole);
  }

  lemma AllWritten(scope: L.Scope, cursor: int, steps: seq<D.Step>)
    requires D.After(scope, cursor, steps).Some?
    ensures var s := D.After(scope, cursor, steps).value;
            s.left == [] && s.channel == [] ==> s.written == s.page + s.queued
  {
    hide D.After, D.LogInv, D.OnceInv, D.AccountInv;
    D.EveryRunKeeps(scope, cursor, steps);
    var s := D.After(scope, cursor, steps).value;
    assert s.written + [] + [] == s.written;
  }

  lemma WroteAfterPage(log: L.Rows, s: D.State, s': D.State, items: seq<Item>)
    requires Known(log, s.written) && Wrote(s, s', items) &&
             forall id | id in log :: id in s.inserted && s.inserted[id] == log[id]
    ensures Known(s'.inserted, s'.written)
            && Events(Frames(log, s.written) + items) == EventsAt(s'.inserted, s'.written)
  {
    hide EventsAt, Events, Frames;
    var page, n := s.written, |s.written|;
    assert s'.written == page + s'.written[n..];
    assert Known(s'.inserted, s'.written[n..]);
    EventsOfFrames(log, page);
    EventsAtGrow(log, s'.inserted, page);
    EventsAtConcat(s'.inserted, page, s'.written[n..]);
    EventsConcat(Frames(log, page), items);
  }

  /** End to end: what a standard client decodes from the bytes of a connection are the
      events of the ids that the machine has written, a prefix of the replay result
      followed by what entered the channel; no id comes more than twice. */
  lemma ClientGetsTheRun(scope: L.Scope, cursor: int, steps: seq<D.Step>, queryFails: bool, choices: seq<Choice>,
      lastId: string)
      returns (whole: seq<D.Step>)
    requires D.After(scope, cursor, steps).Some?
    requires var s := D.After(scope, cursor, steps).value;
             && s.phase == D.Idle && Dispatches(scope, s.inserted, s.published, choices)
             && PrintableStream(Items(s, queryFails, choices)) && ProperIds(Items(s, queryFails, choices))
    ensures steps <= whole && D.After(scope, cursor, whole).Some?
    ensures var s, s', closed := D.After(scope, cursor, steps).value, D.After(scope, cursor, whole).value,
            Served([], true, choices).closed;
            var c := Read(lastId, Wire(Items(s, queryFails, choices), closed));
            var got := if closed && |c.got| > 0 then c.got[..|c.got| - 1] else c.got;
            && Known(s'.inserted, s'.written) && Decoded(got) == Some(EventsAt(s'.inserted, s'.written))
            && s'.written <= s'.page + s'.queued
            && (Served([], true, choices).left == [] ==> s'.written == s'.page + s'.queued)
            && forall id :: multiset(s'.written)[id] <= 2
  {
    whole := ConnectionIsARun(scope, cursor, steps, queryFails, choices);
    hide D.After, Replayed, Dispatches, Served, EventsAt, Events, Frames, Read, Wire, Decoded, Items;
    var s, s' := D.After(scope, cursor, steps).value, D.After(scope, cursor, whole).value;
    var items, closed := Items(s, queryFails, choices), Served([], true, choices).closed;
    WireDelivers(lastId, items, closed);
    var c := Read(lastId, Wire(items, closed));
    assert Messages(items) + [] == Messages(items);
    assert closed ==> c.got[..|c.got| - 1] == Messages(items);
    forall id ensures multiset(s'.written)[id] <= 2 && s'.written <= s'.page + s'.queued {
      D.WrittenAtMostTwice(scope, cursor, whole, id);
    }
    D.WrittenAtMostTwice(scope, cursor, whole, 0);
  }

  /** And by the choices alone: if the connection is not disturbed, no publish finds the
      channel full and the receives catch up, the client decodes exactly the rows of the
      replay and then the published events, each in its order. */
  lemma ClientGetsEverything(rows: L.Rows, page: seq<int>, choices: seq<Choice>, lastId: string)
    requires Known(rows, page) && EntryKept(choices) && Waiting(0, choices) == Some(0)
    requires var items := Frames(rows, page) + Served([], true, choices).items;
             PrintableStream(items) && ProperIds(items)
    ensures var items := Frames(rows, page) + Served([], true, choices).items;
            Decoded(Read(lastId, Wire(items, false)).got) == Some(EventsAt(rows, page) + Heard(Publishes(choices)))
    ensures !Served([], true, choices).closed
  {
    var items := Frames(rows, page) + Served([], true, choices).items;
    assert !Served([], true, choices).closed by {
      ServedInTwo([], true, choices, []);
    }
    hide Served, Waiting, Publishes, EventsAt, Frames, Read, Wire, Decoded, PrintableStream;
    EventsOfFrames(rows, page);
    LiveEventsAreThePublished(choices);
    EventsConcat(Frames(rows, page), Served([], true, choices).items);
    WireDelivers(lastId, items, false);
    assert Messages(items) + [] == Messages(items);
  }
}
