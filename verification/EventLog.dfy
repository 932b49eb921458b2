/** The persistent event log behind the event stream (modules/runtime/event_log.go). */
module EventLog {

  const BATCH_SIZE: nat := 1000

  datatype Scope = Scope(runtimeId: int, space: string, owner: string)

  datatype Row = Row(scope: Scope, kind: string, payload: string, createdAt: int)

  type Rows = map<int, Row>

  predicate Matches(rows: Rows, scope: Scope, id: int) {
    id in rows && rows[id].scope == scope
  }

  /** The ids of the scope in `from..to`, ascending. */
  function Scan(rows: Rows, scope: Scope, from: int, to: int): (ids: seq<int>)
    ensures |ids| <= (if from < to then to - from else 0)
    decreases if from < to then to - from else 0
  {
    if from >= to then []
    else (if Matches(rows, scope, from) then [from] else []) + Scan(rows, scope, from + 1, to)
  }

  function Take(s: seq<int>, limit: nat): seq<int> {
    if |s| <= limit then s else s[..limit]
  }

  function OldIds(rows: Rows, cutoff: int): set<int> {
    set id | id in rows && rows[id].createdAt < cutoff
  }

  class Log {
    var rows: Rows
    var nextId: int

    predicate Valid()
      reads this
    {
      0 < nextId && forall id | id in rows :: 0 < id < nextId
    }

    constructor ()
      ensures Valid() && rows == map[] && nextId == 1
    {
      rows, nextId := map[], 1;
    }

    /** Appends a row under the next id. */
    method Insert(scope: Scope, kind: string, payload: string, now: int) returns (id: int)
      requires Valid()
      modifies this
      ensures Valid()
      ensures id == old(nextId) && id !in old(rows) && nextId > id
      ensures rows == old(rows)[id := Row(scope, kind, payload, now)]
    {
      id := nextId;
      rows := rows[id := Row(scope, kind, payload, now)];
      nextId := nextId + 1;
    }

    /** The oldest `limit` rows of the scope above the cursor. */
    method QuerySince(scope: Scope, lastEventId: int, limit: nat) returns (ids: seq<int>)
      requires Valid()
      ensures ids == Take(Scan(rows, scope, lastEventId + 1, nextId), limit)
    {

      ids := [];
      var id := lastEventId + 1;
      while id < nextId && |ids| < limit
        invariant |ids| <= limit
        invariant id <= nextId || (id == lastEventId + 1 && ids == [])
        invariant Scan(rows, scope, lastEventId + 1, nextId) == ids + Scan(rows, scope, id, nextId)
        decreases nextId - id
      {
        if Matches(rows, scope, id) {
          assert (ids + [id]) + Scan(rows, scope, id + 1, nextId) == ids + ([id] + Scan(rows, scope, id + 1, nextId));
          ids := ids + [id];
        }
        id := id + 1;
      }
      assert (ids + Scan(rows, scope, id, nextId))[..|ids|] == ids;
    }

    /** One `DELETE ... LIMIT`: any old rows, as many as the limit allows. */
    method DeleteBatch(cutoff: int) returns (n: nat, victims: set<int>)
      requires Valid()
      modifies this
      ensures Valid() && nextId == old(nextId)
      ensures victims <= OldIds(old(rows), cutoff) && rows == old(rows) - victims
      ensures n == |victims| == Batch(|OldIds(old(rows), cutoff)|)
    {
      var candidates := OldIds(rows, cutoff);
      if |candidates| <= BATCH_SIZE {
        victims := candidates;
      } else {
        ghost var some := Part(candidates, BATCH_SIZE);
        assert some <= candidates && |some| == BATCH_SIZE;
        victims :| victims <= candidates && |victims| == BATCH_SIZE;
      }
      n := |victims|;
      rows := rows - victims;
    }

    /** The rows that other calls insert between two batches. */
    method Arrive(arrival: Arrival)
      requires Valid() && arrival.After(nextId)
      modifies this
      ensures Valid() && rows == old(rows) + arrival.rows && nextId == arrival.nextId
    {
      rows, nextId := rows + arrival.rows, arrival.nextId;
    }

    /** What happens between two looks at the loop condition: arrivals, one batch. */
    method Round(cutoff: int, arrival: Arrival) returns (n: nat, victims: set<int>)
      requires Valid() && arrival.After(nextId) && Fresh(arrival.rows, nextId, cutoff)
      modifies this
      ensures Valid() && nextId == arrival.nextId
      ensures victims <= OldIds(old(rows), cutoff)
      ensures rows == (old(rows) - victims) + arrival.rows
      ensures OldIds(rows, cutoff) == OldIds(old(rows), cutoff) - victims
      ensures n == |victims| == Batch(|OldIds(old(rows), cutoff)|)
    {
      OldAfterArrival(rows, arrival.rows, nextId, cutoff);
      Arrive(arrival);
      ghost var left := rows;
      n, victims := DeleteBatch(cutoff);
      OldAfterBatch(left, victims, cutoff);
    }

    /** Deletes batches until one comes back short, while before each round other
        calls may insert rows newer than the cutoff. In the end no older row is left,
        every newer row of before and every row that arrived is still there, and the
        result counts exactly the rows that are gone. */
    method PruneOlderThan(cutoff: int, arrivals: seq<Arrival>) returns (total: nat, rounds: nat)
      requires Valid() && InOrder(arrivals, nextId, cutoff)
      modifies this
      ensures Valid()
      ensures OldIds(rows, cutoff) == {} && forall id | id in rows :: rows[id].createdAt >= cutoff
      ensures rows == (old(rows) - OldIds(old(rows), cutoff)) + Arrived(arrivals, rounds)
      ensures total == |OldIds(old(rows), cutoff)|
      ensures rounds == total / 1000 + 1
    {
      hide Progress;
      total, rounds := 0, 0;
      ghost var base, start := rows, nextId;
      ghost var gone: set<int> := {};
      ProgressStarts(base, start, cutoff, arrivals);
      while true
        invariant Valid()
        invariant Progress(base, start, cutoff, arrivals, rounds, gone, rows, nextId)
        invariant |gone| == total == rounds * BATCH_SIZE
        decreases |OldIds(rows, cutoff)|
      {
        var arrival := if rounds < |arrivals| then arrivals[rounds] else Arrival(map[], nextId);
        ghost var left, last := rows, nextId;
        ArrivalIsInOrder(base, start, cutoff, arrivals, rounds, gone, rows, nextId);
        var n, victims := Round(cutoff, arrival);
        ProgressStep(base, start, cutoff, arrivals, rounds, gone, left, last, victims, arrival);
        CountVictims(OldIds(left, cutoff), gone, victims);
        gone := gone + victims;
        total, rounds := total + n, rounds + 1;
        if n < BATCH_SIZE {
          break;
        }
      }
      ProgressEnds(base, start, cutoff, arrivals, rounds, gone, rows, nextId);
    }
  }

  function Rest(arrivals: seq<Arrival>, rounds: nat): seq<Arrival> {
    if rounds < |arrivals| then arrivals[rounds..] else []
  }

  /** The state of the loop: `gone` of the older rows are deleted, the arrivals of
      `rounds` rounds have come, the other arrivals are still to come. */
  ghost predicate Progress(base: Rows, start: int, cutoff: int, arrivals: seq<Arrival>, rounds: nat,
                           gone: set<int>, rows: Rows, nextId: int) {
    && start <= nextId
    && (forall id | id in base :: id < start)
    && (forall id | id in Arrived(arrivals, rounds) :: id >= start)
    && gone <= OldIds(base, cutoff)
    && OldIds(rows, cutoff) == OldIds(base, cutoff) - gone
    && rows == (base - gone) + Arrived(arrivals, rounds)
    && InOrder(Rest(arrivals, rounds), nextId, cutoff)
  }

  lemma ProgressStarts(base: Rows, start: int, cutoff: int, arrivals: seq<Arrival>)
    requires InOrder(arrivals, start, cutoff) && forall id | id in base :: id < start
    ensures Progress(base, start, cutoff, arrivals, 0, {}, base, start)
  {
  }

  lemma ArrivalIsInOrder(base: Rows, start: int, cutoff: int, arrivals: seq<Arrival>, rounds: nat,
                         gone: set<int>, rows: Rows, nextId: int)
    requires Progress(base, start, cutoff, arrivals, rounds, gone, rows, nextId)
    ensures rounds < |arrivals| ==> arrivals[rounds].After(nextId) && Fresh(arrivals[rounds].rows, nextId, cutoff)
    ensures gone !! OldIds(rows, cutoff)
  {
  }

  lemma ProgressStep(base: Rows, start: int, cutoff: int, arrivals: seq<Arrival>, rounds: nat,
                     gone: set<int>, rows: Rows, nextId: int, victims: set<int>, arrival: Arrival)
    requires Progress(base, start, cutoff, arrivals, rounds, gone, rows, nextId)
    requires arrival == if rounds < |arrivals| then arrivals[rounds] else Arrival(map[], nextId)
    requires victims <= OldIds(rows, cutoff)
    requires var rows' := (rows - victims) + arrival.rows; OldIds(rows', cutoff) == OldIds(rows, cutoff) - victims
    ensures Progress(base, start, cutoff, arrivals, rounds + 1, gone + victims, (rows - victims) + arrival.rows,
            arrival.nextId)
  {
    hide OldIds, InOrder;
    var came := Arrived(arrivals, rounds);
    assert victims <= OldIds(base, cutoff);
    VictimsAreOlder(base, start, cutoff, came, victims);
    AfterRound(base, gone, came, arrival.rows, victims);
    assert came + arrival.rows == Arrived(arrivals, rounds + 1);
    NextArrival(arrivals, rounds, nextId, cutoff, arrival);
    assert OldIds(rows, cutoff) - victims == OldIds(base, cutoff) - (gone + victims);
  }

  lemma NextArrival(arrivals: seq<Arrival>, rounds: nat, nextId: int, cutoff: int, arrival: Arrival)
    requires InOrder(Rest(arrivals, rounds), nextId, cutoff)
    requires arrival == if rounds < |arrivals| then arrivals[rounds] else Arrival(map[], nextId)
    ensures InOrder(Rest(arrivals, rounds + 1), arrival.nextId, cutoff)
    ensures arrival.After(nextId)
  {
    assert rounds < |arrivals| ==> arrivals[rounds..][1..] == Rest(arrivals, rounds + 1);
  }

  lemma CountVictims(left: set<int>, gone: set<int>, victims: set<int>)
    requires victims <= left && gone !! left
    ensures |gone + victims| == |gone| + |victims| && |left - victims| == |left| - |victims|
  {
    assert (left - victims) + victims == left;
  }

  lemma VictimsAreOlder(base: Rows, start: int, cutoff: int, came: Rows, victims: set<int>)
    requires (forall id | id in base :: id < start) && (forall id | id in came :: id >= start)
    requires victims <= OldIds(base, cutoff)
    ensures victims !! came.Keys
  {
    forall id | id in victims ensures id !in came {
      assert id in OldIds(base, cutoff);
    }
  }

  lemma ProgressEnds(base: Rows, start: int, cutoff: int, arrivals: seq<Arrival>, rounds: nat,
                     gone: set<int>, rows: Rows, nextId: int)
    requires Progress(base, start, cutoff, arrivals, rounds, gone, rows, nextId)
    requires OldIds(rows, cutoff) == {}
    ensures gone == OldIds(base, cutoff)
    ensures rows == (base - OldIds(base, cutoff)) + Arrived(arrivals, rounds)
  {
    var left := OldIds(base, cutoff) - gone;
    assert forall id | id in OldIds(base, cutoff) :: id in gone || id in left;
  }

  function Batch(candidates: nat): nat {
    if candidates <= BATCH_SIZE then candidates else BATCH_SIZE
  }

  datatype Arrival = Arrival(rows: Rows, nextId: int) {
    predicate After(start: int) {
      start <= nextId && forall id | id in rows :: 0 < id && start <= id < nextId
    }
  }

  /** New rows, and none of them older than the cutoff. */
  predicate Fresh(rows: Rows, start: int, cutoff: int) {
    forall id | id in rows :: id >= start && rows[id].createdAt >= cutoff
  }

  /** Ids keep growing, and whatever arrives is no older than the cutoff. */
  predicate InOrder(arrivals: seq<Arrival>, start: int, cutoff: int) {
    arrivals == [] ||
    (arrivals[0].After(start) && Fresh(arrivals[0].rows, start, cutoff)
        && InOrder(arrivals[1..], arrivals[0].nextId, cutoff))
  }

  function Arrived(arrivals: seq<Arrival>, rounds: nat): Rows {
    if rounds == 0 then map[]
    else if rounds <= |arrivals| then Arrived(arrivals, rounds - 1) + arrivals[rounds - 1].rows
    else Arrived(arrivals, rounds - 1)
  }

  lemma Part<T>(s: set<T>, n: nat) returns (part: set<T>)
    requires n <= |s|
    ensures part <= s && |part| == n
  {
    part := s;
    while |part| > n
      invariant part <= s && |part| >= n
    {
      var x :| x in part;
      part := part - {x};
    }
  }

  lemma AfterRound(base: Rows, gone: set<int>, came: Rows, more: Rows, victims: set<int>)
    requires victims !! came.Keys
    ensures (((base - gone) + came) - victims) + more == (base - (gone + victims)) + (came + more)
  {
  }

  lemma OldAfterBatch(rows: Rows, victims: set<int>, cutoff: int)
    ensures OldIds(rows - victims, cutoff) == OldIds(rows, cutoff) - victims
  {
  }

  lemma OldAfterArrival(rows: Rows, arrival: Rows, start: int, cutoff: int)
    requires Fresh(arrival, start, cutoff) && forall id | id in rows :: id < start
    ensures OldIds(rows + arrival, cutoff) == OldIds(rows, cutoff)
  {
    forall id ensures id in OldIds(rows + arrival, cutoff) <==> id in OldIds(rows, cutoff) {
      if id in arrival {
        assert id !in rows && (rows + arrival)[id] == arrival[id];
      }
    }
  }

  // ----- replay -----

  predicate Ascending(ids: seq<int>) {
    forall i, j | 0 <= i < j < |ids| :: ids[i] < ids[j]
  }

  /** The scan lists exactly the matching ids of its range, in ascending order. */
  lemma {:induction false} ScanIs(rows: Rows, scope: Scope, from: int, to: int)
    ensures Ascending(Scan(rows, scope, from, to))
    ensures forall id :: id in Scan(rows, scope, from, to) <==>
              from <= id < to && id in rows && rows[id].scope == scope
    decreases if from < to then to - from else 0
  {
    if from < to {
      ScanIs(rows, scope, from + 1, to);
      var rest := Scan(rows, scope, from + 1, to);
      assert forall i | 0 <= i < |rest| :: rest[i] in rest;
    }
  }

  /** A page lists matching ids of its range, ascending; those it lacks come after it, and
      then it is full. */
  lemma PageIs(rows: Rows, scope: Scope, from: int, to: int, limit: nat)
    ensures var ids := Take(Scan(rows, scope, from, to), limit);
            && |ids| <= limit && Ascending(ids)
            && (forall id | id in ids :: id in rows && rows[id].scope == scope && from <= id < to)
            && forall id | id in rows && rows[id].scope == scope && from <= id < to && id !in ids ::
                |ids| == limit && forall i | 0 <= i < |ids| :: ids[i] < id
  {
    ScanIs(rows, scope, from, to);
    var all := Scan(rows, scope, from, to);
    var ids := Take(all, limit);
    forall id | id in all && id !in ids ensures |ids| == limit && forall i | 0 <= i < |ids| :: ids[i] < id {
      var k :| 0 <= k < |all| && all[k] == id;
      assert k >= limit;
    }
  }

  /** What a client collects that asks page after page, each time with the last id of
      the page before as its cursor, until a page comes back empty. */
  function Resume(rows: Rows, scope: Scope, cursor: int, to: int, limit: nat): seq<int>
    decreases |Scan(rows, scope, cursor + 1, to)|
  {
    var all := Scan(rows, scope, cursor + 1, to);
    var page := Take(all, limit);
    if page == [] then []
    else
      PageThenRest(rows, scope, cursor, to, limit);
      page + Resume(rows, scope, page[|page| - 1], to, limit)
  }

  /** The rows above the last id of a page are the ones after that page. */
  lemma PageThenRest(rows: Rows, scope: Scope, cursor: int, to: int, limit: nat)
    requires Take(Scan(rows, scope, cursor + 1, to), limit) != []
    ensures var all := Scan(rows, scope, cursor + 1, to);
            var page := Take(all, limit);
            Scan(rows, scope, page[|page| - 1] + 1, to) == all[|page|..]
  {
    var all := Scan(rows, scope, cursor + 1, to);
    ScanIs(rows, scope, cursor + 1, to);
    DropThrough(rows, scope, cursor + 1, to, |Take(all, limit)| - 1);
  }

  lemma {:induction false} DropThrough(rows: Rows, scope: Scope, from: int, to: int, k: nat)
    requires k < |Scan(rows, scope, from, to)|
    ensures Scan(rows, scope, Scan(rows, scope, from, to)[k] + 1, to) == Scan(rows, scope, from, to)[k + 1..]
    decreases if from < to then to - from else 0
  {
    var all, rest := Scan(rows, scope, from, to), Scan(rows, scope, from + 1, to);
    if !Matches(rows, scope, from) {
      assert all == rest;
      DropThrough(rows, scope, from + 1, to, k);
    } else if k > 0 {
      assert all == [from] + rest;
      DropThrough(rows, scope, from + 1, to, k - 1);
      assert all[k + 1..] == rest[k..];
    } else {
      assert all == [from] + rest;
    }
  }

  /** Paging loses and repeats nothing, whatever positive page size is used. */
  lemma {:induction false} PagesAreTheWholeLog(rows: Rows, scope: Scope, cursor: int, to: int, limit: nat)
    requires limit > 0
    ensures Resume(rows, scope, cursor, to, limit) == Scan(rows, scope, cursor + 1, to)
    decreases |Scan(rows, scope, cursor + 1, to)|
  {
    hide Scan, Matches;
    var all := Scan(rows, scope, cursor + 1, to);
    var page := Take(all, limit);
    if page != [] {
      PageThenRest(rows, scope, cursor, to, limit);
      PagesAreTheWholeLog(rows, scope, page[|page| - 1], to, limit);
      assert page + all[|page|..] == all;
    }
  }
}
