/** The registry of live event channels, one per runtime (`sseHub` in
    modules/runtime/sse.go), and the race between two connections of a runtime. */
module SseHub {
  import opened Wrappers

  const CHANNEL_BUFFER: nat := 16

  datatype Envelope = Envelope(id: int, kind: string, payload: string)

  /** A non-blocking send: a full channel drops the envelope. */
  function Offered(queue: seq<Envelope>, ev: Envelope): seq<Envelope> {
    if |queue| < CHANNEL_BUFFER then queue + [ev] else queue
  }

  class Channel {
    var queue: seq<Envelope>

    constructor ()
      ensures queue == []
    {
      queue := [];
    }
  }

  class Hub {
    var channels: map<int, Channel>

    constructor ()
      ensures channels == map[]
    {
      channels := map[];
    }

    /** A new channel takes over the runtime, whoever had it before. */
    method Register(runtimeId: int) returns (ch: Channel)
      modifies this
      ensures fresh(ch) && ch.queue == []
      ensures channels == old(channels)[runtimeId := ch]
    {
      ch := new Channel();
      channels := channels[runtimeId := ch];
    }

    method Publish(runtimeId: int, ev: Envelope)
      modifies if runtimeId in channels then {channels[runtimeId]} else {}
      ensures runtimeId in channels ==> channels[runtimeId].queue == Offered(old(channels[runtimeId].queue), ev)
    {
      if runtimeId in channels {
        var ch := channels[runtimeId];
        if |ch.queue| < CHANNEL_BUFFER {
          ch.queue := ch.queue + [ev];
        }
      }
    }

    /** Removes the channel only while it is still the registered one. */
    method Cleanup(runtimeId: int, ch: Channel)
      modifies this
      ensures channels == if runtimeId in old(channels) && old(channels)[runtimeId] == ch
                          then old(channels) - {runtimeId} else old(channels)
    {
      if runtimeId in channels {
        if channels[runtimeId] == ch {
          channels := channels - {runtimeId};
        }
      }
    }
  }

  // ----- two connections of one runtime -----

  /** The hub entry of one runtime. Connections are numbered in the order in which
      they register; `checked` are the ones whose cleanup has loaded the entry, found
      itself there and has not deleted it yet. */
  datatype Slot = Slot(owner: Option<nat>, next: nat, checked: set<nat>)

  datatype SlotStep =
    | Register
    | Load(conn: nat)    // first half of a cleanup
    | Delete(conn: nat)  // second half, only after a load that found itself
    | Cleanup(conn: nat) // both halves with nothing in between

  predicate Enabled(s: Slot, step: SlotStep) {
    match step
    case Register => true
    case Load(c) => c < s.next
    case Delete(c) => c in s.checked
    case Cleanup(c) => c < s.next
  }

  function Apply(s: Slot, step: SlotStep): Slot {
    match step
    case Register => s.(owner := Some(s.next), next := s.next + 1)
    case Load(c) => if s.owner == Some(c) then s.(checked := s.checked + {c}) else s
    case Delete(c) => s.(owner := None, checked := s.checked - {c})
    case Cleanup(c) => if s.owner == Some(c) then s.(owner := None) else s
  }

  const NOBODY := Slot(None, 0, {})

  function Final(steps: seq<SlotStep>): Slot {
    if steps == [] then NOBODY else Apply(Final(steps[..|steps| - 1]), steps[|steps| - 1])
  }

  predicate Run(steps: seq<SlotStep>) {
    steps == [] || (Run(steps[..|steps| - 1]) && Enabled(Final(steps[..|steps| - 1]), steps[|steps| - 1]))
  }

  /** The two halves with nothing between them are the whole cleanup, which removes the
      entry exactly if it is the caller's. */
  lemma HalvesAreTheCleanup(s: Slot, c: nat)
    requires c < s.next && c !in s.checked
    ensures var loaded := Apply(s, Load(c));
            var ends := if Enabled(loaded, Delete(c)) then Apply(loaded, Delete(c)) else loaded;
            && ends == Apply(s, Cleanup(c))
            && ends == s.(owner := if s.owner == Some(c) then None else s.owner)
  {
  }

  /** Since the latest registration no `Delete` ran and its own cleanup did not. */
  predicate Undisturbed(steps: seq<SlotStep>) {
    if steps == [] then false
    else
      var rest := steps[..|steps| - 1];
      match steps[|steps| - 1]
      case Register => true
      case Load(_) => Undisturbed(rest)
      case Delete(_) => false
      case Cleanup(c) => Undisturbed(rest) && c != Final(rest).next - 1
  }

  /** Exactly when the latest connection is reachable: nothing deleted the entry since
      it registered. */
  lemma {:induction false} LatestOwnsIffUndisturbed(steps: seq<SlotStep>)
    requires Run(steps)
    ensures var s := Final(steps); s.owner == if Undisturbed(steps) then Some(s.next - 1) else None
    ensures Undisturbed(steps) ==> Final(steps).next > 0
  {
    if steps != [] {
      LatestOwnsIffUndisturbed(steps[..|steps| - 1]);
    }
  }

  /** Exactly when the second half of a cleanup deletes the entry of another connection:
      the newest connection still owns it and the cleanup is not its own. */
  lemma DeleteHitsAnother(steps: seq<SlotStep>, c: nat)
    requires Run(steps) && Enabled(Final(steps), Delete(c))
    ensures Final(steps).owner.Some? && Final(steps).owner != Some(c) <==>
            Undisturbed(steps) && c != Final(steps).next - 1
  {
    LatestOwnsIffUndisturbed(steps);
  }

  predicate CleanedUp(steps: seq<SlotStep>, conn: nat) {
    steps != [] &&
    (CleanedUp(steps[..|steps| - 1], conn)
        || (steps[|steps| - 1] == Cleanup(conn) && conn < Final(steps[..|steps| - 1]).next))
  }

  predicate OneStepCleanups(steps: seq<SlotStep>) {
    forall i | 0 <= i < |steps| :: steps[i].Register? || steps[i].Cleanup?
  }

  /** If load and delete were one step, the latest connection would own the entry from
      its registration to its own cleanup, whatever older connections clean up. */
  lemma {:induction false} OneStepCleanupIsSafe(steps: seq<SlotStep>)
    requires Run(steps) && OneStepCleanups(steps)
    ensures var s := Final(steps); s.next > 0 ==> (s.owner == Some(s.next - 1) <==> !CleanedUp(steps, s.next - 1))
    ensures forall c: nat | c >= Final(steps).next :: !CleanedUp(steps, c)
    ensures Final(steps).owner.Some? ==> Final(steps).owner.value == Final(steps).next - 1
  {
    if steps != [] {
      var rest := steps[..|steps| - 1];
      assert steps[|steps| - 1].Register? || steps[|steps| - 1].Cleanup?;
      OneStepCleanupIsSafe(rest);
    }
  }

  /** With two steps it does not: connection 1 registers between the load and the
      delete of connection 0 and loses the entry without being cleaned up. */
  lemma StaleDeleteUnmapsNewConnection()
    ensures var steps := [Register, Load(0), Register, Delete(0)];
            Run(steps) && Final(steps) == Slot(None, 2, {}) && !CleanedUp(steps, 1)
  {
    var s1, s2, s3 := [Register], [Register, Load(0)], [Register, Load(0), Register];
    var s4 := s3 + [Delete(0)];
    assert s1[..0] == [] && s2[..1] == s1 && s3[..2] == s2 && s4[..3] == s3;
    assert Final(s1) == Slot(Some(0), 1, {});
    assert Final(s2) == Slot(Some(0), 1, {0});
    assert Final(s3) == Slot(Some(1), 2, {0});
    assert !CleanedUp(s1, 1) && !CleanedUp(s2, 1) && !CleanedUp(s3, 1);
    assert s4 == [Register, Load(0), Register, Delete(0)];
  }
}
