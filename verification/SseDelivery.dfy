/** Dispatch and one connection of a runtime, at the granularity of single statements:
    a dispatch inserts into the log and later publishes to the channel, while the
    connection registers, replays from the log and then goes live
    (modules/runtime/sse.go). Any number of dispatches run at the same time, and rows
    may become visible in any order of their ids. */
module SseDelivery {
  import opened Wrappers
  import opened EventLog
  import SseHub

  const REPLAY_LIMIT: nat := 1000

  datatype Phase = Idle | Registered | Streaming | Closed

  /** `mapped`: the hub entry of the runtime is this connection's channel. `page` and
      `queued` record the replay result and what entered the channel, in order. The
      sets at the end record every way in which an event can pass this connection by. */
  datatype State = State(
    scope: Scope, cursor: int,
    log: Rows, inserted: Rows, top: int, published: set<int>,
    phase: Phase, mapped: bool, channel: seq<int>, left: seq<int>, written: seq<int>,
    page: seq<int>, queued: seq<int>,
    full: set<int>,      // published while the channel was full
    unmapped: set<int>,  // published after the query while the entry was someone else's or gone
    skipped: set<int>,   // in the log at the query, but beyond the limit or the query failed
    pruned: set<int>)    // deleted from the log before the query

  datatype Step =
    | Insert(id: int, row: Row)
    | Publish(id: int)
    | Prune(ids: set<int>)
    | Register
    | Query
    | QueryFails
    | WriteReplay
    | WriteLive
    | LoseEntry  // a newer registration, or its stale cleanup, replaces the entry
    | Stop

  function Init(scope: Scope, cursor: int): State {
    State(scope, cursor, map[], map[], 1, {}, Idle, false, [], [], [], [], [], {}, {}, {}, {})
  }

  predicate Enabled(s: State, step: Step) {
    match step
    case Insert(id, row) => id > 0 && id !in s.inserted
    case Publish(id) => id in s.inserted && id !in s.published
    case Prune(ids) => true
    case Register => s.phase == Idle
    case Query => s.phase == Registered
    case QueryFails => s.phase == Registered
    case WriteReplay => s.phase == Streaming && s.left != []
    case WriteLive => s.phase == Streaming && s.left == [] && s.channel != []
    case LoseEntry => s.mapped
    case Stop => s.phase == Streaming
  }

  /** Events of this runtime above the cursor. */
  predicate Wanted(s: State, id: int) {
    id in s.inserted && s.inserted[id].scope == s.scope && id > s.cursor
  }

  function Backlog(s: State): seq<int> {
    Scan(s.log, s.scope, s.cursor + 1, s.top)
  }

  function Elements(ids: seq<int>): set<int> {
    set id | id in ids
  }

  function Publishing(s: State, id: int): State
    requires id in s.inserted
  {
    var s1 := s.(published := s.published + {id});
    if s.inserted[id].scope != s.scope then s1
    else if !s.mapped then
      if s.phase == Streaming || s.phase == Closed then s1.(unmapped := s.unmapped + {id}) else s1
    else if |s.channel| < SseHub.CHANNEL_BUFFER then
      s1.(channel := s.channel + [id], queued := s.queued + [id])
    else
      s1.(full := s.full + {id})
  }

  function Apply(s: State, step: Step): State
    requires Enabled(s, step)
  {
    match step
    case Insert(id, row) =>
      s.(log := s.log[id := row], inserted := s.inserted[id := row], top := if id < s.top then s.top else id + 1)
    case Publish(id) => Publishing(s, id)
    case Prune(ids) =>
      var s1 := s.(log := s.log - ids);
      if s.phase == Idle || s.phase == Registered then s1.(pruned := s.pruned + (s.log.Keys * ids)) else s1
    case Register => s.(phase := Registered, mapped := true)
    case Query =>
      var page := Take(Backlog(s), REPLAY_LIMIT);
      s.(phase := Streaming, left := page, page := page, skipped := Elements(Backlog(s)) - Elements(page))
    case QueryFails => s.(phase := Streaming, skipped := Elements(Backlog(s)))
    case WriteReplay => s.(written := s.written + [s.left[0]], left := s.left[1..])
    case WriteLive => s.(written := s.written + [s.channel[0]], channel := s.channel[1..])
    case LoseEntry => s.(mapped := false)
    case Stop => s.(phase := Closed, mapped := false)
  }

  /** The state after the steps, if each was possible when it ran. */
  function After(scope: Scope, cursor: int, steps: seq<Step>): Option<State> {
    if steps == [] then Some(Init(scope, cursor))
    else
      match After(scope, cursor, steps[..|steps| - 1])
      case Some(s) => if Enabled(s, steps[|steps| - 1]) then Some(Apply(s, steps[|steps| - 1])) else None
      case None => None
  }

  // ----- what every step keeps -----

  predicate Early(s: State) {
    s.phase == Idle || s.phase == Registered
  }

  /** The log is what was inserted and not pruned, below `top`. */
  predicate LogInv(s: State) {
    && s.published <= s.inserted.Keys
    && (forall id | id in s.inserted :: 0 < id < s.top)
    && (forall id | id in s.log :: id in s.inserted && s.log[id] == s.inserted[id])
    && (Early(s) ==> forall id | id in s.inserted :: id in s.log || id in s.pruned)
  }

  /** Written, waiting in the replay result and waiting in the channel: together these
      are the replay result followed by the channel's intake, in order. */
  predicate FifoInv(s: State) {
    && s.written + s.left + s.channel == s.page + s.queued
    && (Early(s) ==> s.page == [] && s.written == [] && s.left == [])
    && (s.phase == Idle || s.phase == Closed ==> !s.mapped)
    && (s.phase == Idle ==> s.channel == [] && s.queued == [])
  }

  predicate Distinct(ids: seq<int>) {
    forall i, j | 0 <= i < j < |ids| :: ids[i] != ids[j]
  }

  predicate OnceInv(s: State) {
    Distinct(s.page) && Distinct(s.queued) && forall id | id in s.queued :: id in s.published
  }

  /** Where a published event can be after the query. */
  predicate Accounted(s: State, id: int) {
    || id in s.page || id in s.queued
    || id in s.full || id in s.unmapped || id in s.skipped || id in s.pruned
  }

  predicate AccountInv(s: State) {
    !Early(s) ==> forall id | id in s.published && Wanted(s, id) :: Accounted(s, id)
  }

  lemma InsertKeepsLog(s: State, id: int, row: Row)
    requires LogInv(s) && id > 0 && id !in s.inserted
    ensures LogInv(Apply(s, Insert(id, row)))
  {
  }

  lemma PruneKeepsLog(s: State, ids: set<int>)
    requires LogInv(s)
    ensures LogInv(Apply(s, Prune(ids)))
  {
  }

  lemma StepKeepsLog(s: State, step: Step)
    requires LogInv(s) && Enabled(s, step)
    ensures LogInv(Apply(s, step))
  {
    hide Backlog, Take;
    match step
    case Insert(id, row) => InsertKeepsLog(s, id, row);
    case Prune(ids) => PruneKeepsLog(s, ids);
    case Publish(_) =>
    case Register =>
    case Query =>
    case QueryFails =>
    case WriteReplay =>
    case WriteLive =>
    case LoseEntry =>
    case Stop =>
  }

  lemma MoveHead(done: seq<int>, waiting: seq<int>, later: seq<int>)
    requires waiting != []
    ensures (done + [waiting[0]]) + waiting[1..] + later == done + waiting + later
  {
    assert [waiting[0]] + waiting[1..] == waiting;
  }

  lemma QueryKeepsFifo(s: State)
    requires FifoInv(s) && s.phase == Registered
    ensures FifoInv(Apply(s, Query))
  {
    hide Backlog, Take, FifoInv;
    PageKeepsFifo(s, Apply(s, Query).page, Apply(s, Query).skipped);
  }

  lemma PageKeepsFifo(s: State, page: seq<int>, skipped: set<int>)
    requires FifoInv(s) && s.phase == Registered
    ensures FifoInv(s.(phase := Streaming, left := page, page := page, skipped := skipped))
  {
    assert s.written + s.left + s.channel == s.channel && s.page + s.queued == s.queued;
    assert s.written + page == page;
  }

  lemma WriteReplayKeepsFifo(s: State)
    requires FifoInv(s) && s.phase == Streaming && s.left != []
    ensures FifoInv(Apply(s, WriteReplay))
  {
    MoveHead(s.written, s.left, s.channel);
  }

  lemma WriteLiveKeepsFifo(s: State)
    requires FifoInv(s) && s.phase == Streaming && s.left == [] && s.channel != []
    ensures FifoInv(Apply(s, WriteLive))
  {
    MoveHead(s.written, s.channel, []);
    var written, channel := s.written + [s.channel[0]], s.channel[1..];
    assert s.written + [] + s.channel == s.written + s.channel + [];
    assert written + [] + channel == written + channel + [];
  }

  lemma StepKeepsFifo(s: State, step: Step)
    requires FifoInv(s) && Enabled(s, step)
    ensures FifoInv(Apply(s, step))
  {
    hide Backlog, Publishing;
    match step
    case Publish(id) => PublishKeepsFifo(s, id);
    case Query => QueryKeepsFifo(s);
    case WriteReplay => WriteReplayKeepsFifo(s);
    case WriteLive => WriteLiveKeepsFifo(s);
    case Insert(_, _) =>
    case Prune(_) =>
    case Register =>
    case QueryFails =>
    case LoseEntry =>
    case Stop =>
  }

  lemma PublishKeepsFifo(s: State, id: int)
    requires FifoInv(s) && id in s.inserted
    ensures FifoInv(Publishing(s, id))
  {
    assert s.written + s.left + (s.channel + [id]) == (s.written + s.left + s.channel) + [id];
    assert s.page + (s.queued + [id]) == (s.page + s.queued) + [id];
  }

  lemma StepKeepsOnce(s: State, step: Step)
    requires OnceInv(s) && Enabled(s, step)
    ensures OnceInv(Apply(s, step))
  {
    if step.Query? {
      ScanIs(s.log, s.scope, s.cursor + 1, s.top);
      var page := Apply(s, step).page;
      assert forall i | 0 <= i < |page| :: page[i] == Backlog(s)[i];
    } else {
      hide Backlog;
    }
  }

  lemma StepKeepsAccount(s: State, step: Step)
    requires LogInv(s) && FifoInv(s) && AccountInv(s) && Enabled(s, step)
    ensures AccountInv(Apply(s, step))
  {
    var s' := Apply(s, step);
    if step.Query? || step.QueryFails? {
      ScanIs(s.log, s.scope, s.cursor + 1, s.top);
      var backlog := Backlog(s);
      forall id | id in s'.published && Wanted(s', id) ensures Accounted(s', id) {
        assert id in s.pruned || id in backlog;
      }
    } else {
      hide Backlog;
    }
  }

  predicate Inv(s: State) {
    LogInv(s) && FifoInv(s) && OnceInv(s) && AccountInv(s)
  }

  lemma {:induction false} EveryRunKeeps(scope: Scope, cursor: int, steps: seq<Step>)
    requires After(scope, cursor, steps).Some?
    ensures Inv(After(scope, cursor, steps).value)
    ensures After(scope, cursor, steps).value.scope == scope && After(scope, cursor, steps).value.cursor == cursor
  {
    hide LogInv, FifoInv, OnceInv, AccountInv, Enabled, Apply;
    if steps == [] {
      InitIsFine(scope, cursor);
    } else {
      var s, step := After(scope, cursor, steps[..|steps| - 1]).value, steps[|steps| - 1];
      EveryRunKeeps(scope, cursor, steps[..|steps| - 1]);
      StepKeepsLog(s, step);
      StepKeepsFifo(s, step);
      StepKeepsOnce(s, step);
      StepKeepsAccount(s, step);
      StepKeepsScope(s, step);
    }
  }

  lemma InitIsFine(scope: Scope, cursor: int)
    ensures Inv(Init(scope, cursor)) && Calm(Init(scope, cursor))
  {
  }

  lemma StepKeepsScope(s: State, step: Step)
    requires Enabled(s, step)
    ensures Apply(s, step).scope == s.scope && Apply(s, step).cursor == s.cursor
  {
  }

  // ----- theorems over every run -----

  /** After the query, every published event of the runtime above the cursor is written,
      still in the replay result or waiting in the channel, unless it took one of the
      recorded ways out: a full channel, a lost hub entry, a row beyond the replay
      limit or a failed query, a row pruned before the query. */
  lemma NothingElseIsLost(scope: Scope, cursor: int, steps: seq<Step>, id: int)
    requires After(scope, cursor, steps).Some?
    requires var s := After(scope, cursor, steps).value; !Early(s) && id in s.published && Wanted(s, id)
    ensures var s := After(scope, cursor, steps).value;
            || id in s.written || id in s.left || id in s.channel
            || id in s.full || id in s.unmapped || id in s.skipped || id in s.pruned
  {
    EveryRunKeeps(scope, cursor, steps);
    var s := After(scope, cursor, steps).value;
    assert Accounted(s, id);
    assert id in s.page + s.queued <==> id in s.page || id in s.queued;
    assert id in s.written + s.left + s.channel <==> id in s.written || id in s.left || id in s.channel;
  }

  /** No event is written more than twice; one written twice is in the replay result
      and also went through the channel. Nothing is written that is neither. */
  lemma WrittenAtMostTwice(scope: Scope, cursor: int, steps: seq<Step>, id: int)
    requires After(scope, cursor, steps).Some?
    ensures var s := After(scope, cursor, steps).value;
            && multiset(s.written)[id] <= (if id in s.page then 1 else 0) + (if id in s.queued then 1 else 0)
            && s.written <= s.page + s.queued
  {
    hide After, LogInv, AccountInv;
    EveryRunKeeps(scope, cursor, steps);
    var s := After(scope, cursor, steps).value;
    assert s.written + (s.left + s.channel) == s.page + s.queued;
    AtMostTwice(s.written, s.left + s.channel, s.page, s.queued, id);
  }

  lemma AtMostTwice(written: seq<int>, pending: seq<int>, page: seq<int>, queued: seq<int>, id: int)
    requires written + pending == page + queued && Distinct(page) && Distinct(queued)
    ensures multiset(written)[id] <= (if id in page then 1 else 0) + (if id in queued then 1 else 0)
    ensures written <= page + queued
  {
    var whole := written + pending;
    assert whole[..|written|] == written;
    assert multiset(whole) == multiset(written) + multiset(pending);
    assert multiset(whole) == multiset(page) + multiset(queued);
    CountDistinct(page, id);
    CountDistinct(queued, id);
    assert multiset(written)[id] <= multiset(whole)[id];
    assert written == (page + queued)[..|written|];
  }

  lemma {:induction false} CountDistinct(ids: seq<int>, id: int)
    requires Distinct(ids)
    ensures multiset(ids)[id] == if id in ids then 1 else 0
  {
    if ids != [] {
      var first, rest := ids[0], ids[1..];
      assert ids == [first] + rest;
      assert forall i | 0 <= i < |rest| :: rest[i] == ids[i + 1] && rest[i] != first;
      CountDistinct(rest, id);
      assert multiset(ids) == multiset{first} + multiset(rest);
    }
  }

  /** When each way out is taken: an event that enters `full` is being published and finds
      sixteen waiting, one that enters `unmapped` finds the entry gone after the query, one
      that enters `pruned` is deleted from the log before the query, and a successful query
      skips exactly the waiting rows that are not in its page, so none up to the limit. */
  lemma WaysOut(s: State, step: Step, id: int)
    requires Enabled(s, step)
    ensures var s' := Apply(s, step);
            && (id in s'.full && id !in s.full ==> step == Publish(id) && s.mapped && |s.channel| >= 16)
            && (id in s'.unmapped && id !in s.unmapped ==> step == Publish(id) && !s.mapped && !Early(s))
            && (id in s'.pruned && id !in s.pruned ==> step.Prune? && id in step.ids && id in s.log && Early(s))
            && (id in s'.skipped && id !in s.skipped ==> step.QueryFails? || (step.Query? && id !in s'.page))
            && (step.Query? ==> (s'.skipped == {} <==> |Backlog(s)| <= 1000))
            && (s.mapped && !s'.mapped ==> step.LoseEntry? || step.Stop?)
  {
    if step.Query? {
      var all := Backlog(s);
      ScanIs(s.log, s.scope, s.cursor + 1, s.top);
      if |all| > REPLAY_LIMIT {
        var last := all[|all| - 1];
        assert forall i | 0 <= i < REPLAY_LIMIT :: all[..REPLAY_LIMIT][i] == all[i] < last;
        assert last in Apply(s, step).skipped;
      }
    }
  }

  /** No newer registration, and no older connection's stale cleanup, takes the entry. */
  predicate Undisturbed(steps: seq<Step>) {
    forall i | 0 <= i < |steps| :: !steps[i].LoseEntry?
  }

  predicate Calm(s: State) {
    s.phase != Closed ==> s.unmapped == {} && (s.phase != Idle ==> s.mapped)
  }

  lemma StepStaysCalm(s: State, step: Step)
    requires Calm(s) && Enabled(s, step) && !step.LoseEntry?
    ensures Calm(Apply(s, step))
  {
    hide Backlog, Take;
  }

  lemma {:induction false} UndisturbedRun(scope: Scope, cursor: int, steps: seq<Step>)
    requires After(scope, cursor, steps).Some? && Undisturbed(steps)
    ensures Calm(After(scope, cursor, steps).value)
  {
    hide Enabled, Apply, Calm;
    if steps == [] {
      InitIsFine(scope, cursor);
    } else {
      var rest := steps[..|steps| - 1];
      assert forall i | 0 <= i < |rest| :: rest[i] == steps[i];
      UndisturbedRun(scope, cursor, rest);
      StepStaysCalm(After(scope, cursor, rest).value, steps[|steps| - 1]);
    }
  }

  /** While a connection that keeps its entry streams, a published event is lost only if
      it found the channel full, lay beyond the replay limit or behind a failed query, or
      was pruned before the query. Prunes after the query, of this runtime or of any
      other, do no harm. */
  lemma RegisterBeforeReplayLosesNothing(scope: Scope, cursor: int, steps: seq<Step>, id: int)
    requires After(scope, cursor, steps).Some? && Undisturbed(steps)
    requires var s := After(scope, cursor, steps).value;
             && s.phase == Streaming && id in s.published && Wanted(s, id)
             && id !in s.full && id !in s.skipped && id !in s.pruned
    ensures var s := After(scope, cursor, steps).value; id in s.written || id in s.left || id in s.channel
  {
    NothingElseIsLost(scope, cursor, steps, id);
    UndisturbedRun(scope, cursor, steps);
  }
}
