/** Bot provisioning under any race: every statement of the heartbeat claim, the fetch
    claim, the mint, the ack and the archive is a step of its own
    (modules/runtime/bot.go, modules/runtime/bot_provision_fetch.go). */
module BotProtocol {
  import opened Wrappers
  import opened Bots
  import Runtimes

  // ----- state -----

  /** A request between two of its statements, or what it has answered. Fetches keep the
      row that they read. A payload is kept with the number of the claim it belongs to and
      whether it is a claiming fetch's whose row a mint had overtaken by then. */
  datatype Proc =
    | Minting(id: int, uid: string)                        // has read a draft
    | Claiming(id: int, runtimeId: int, row: Bot)          // has read a minted row
    | ReReading(id: int)                                   // its claim hit no row
    | Handed(payload: Payload, claim: nat, overtaken: bool)
    | Refused
    | Acking(id: int, status: Status, errorMsg: string, token: string)
    | AckMissed(id: int, status: Status)                   // its update hit no row
    | AckOk(id: int, status: Status)
    | AckConflict(id: int)

  /** A bot and its history: writes of the minted status, tokens of the successful claims
      with the uids that they found, and tokens of the applied acks, in order. */
  datatype Slot = Slot(bot: Bot, mints: nat, issued: seq<string>, uids: seq<string>, applied: seq<string>)

  datatype State = State(slots: map<int, Slot>, procs: map<nat, Proc>, tokens: set<string>)

  datatype Step =
    | Create(id: int, bot: Bot)
    | MintRead(p: nat, id: int, uid: string)
    | MintWrite(p: nat)
    | HeartbeatClaim(p: nat, id: int, token: string)
    | FetchRead(p: nat, id: int, runtimeId: int)
    | FetchClaim(p: nat, token: string)
    | FetchReRead(p: nat)
    | AckRead(p: nat, id: int, status: Status, errorMsg: string, token: string)
    | AckWrite(p: nat)
    | AckReRead(p: nat)
    | ArchiveWrite(id: int)

  const START := State(map[], map[], {})

  // ----- steps -----

  predicate New(s: State, p: nat) {
    p !in s.procs
  }

  predicate Enabled(s: State, step: Step) {
    match step
    case Create(id, bot) => id !in s.slots && bot.status == Draft && bot.token == ""
    case MintRead(p, id, _) => New(s, p) && id in s.slots
    case MintWrite(p) => p in s.procs && s.procs[p].Minting? && s.procs[p].id in s.slots
    case HeartbeatClaim(p, id, token) =>
      New(s, p) && id in s.slots && s.slots[id].bot.status == Minted && token != "" && token !in s.tokens
    case FetchRead(p, id, runtimeId) => New(s, p) && id in s.slots && s.slots[id].bot.runtimeId == runtimeId
    case FetchClaim(p, token) =>
      p in s.procs && s.procs[p].Claiming? && s.procs[p].id in s.slots && token != "" && token !in s.tokens
    case FetchReRead(p) => p in s.procs && s.procs[p].ReReading? && s.procs[p].id in s.slots
    case AckRead(p, id, status, _, _) => New(s, p) && id in s.slots && (status == Active || status == Failed)
    case AckWrite(p) => p in s.procs && s.procs[p].Acking? && s.procs[p].id in s.slots
    case AckReRead(p) => p in s.procs && s.procs[p].AckMissed? && s.procs[p].id in s.slots
    case ArchiveWrite(id) => id in s.slots
  }

  /** The answer to a fetch that does not claim. */
  function Hand(id: int, slot: Slot): Proc {
    if slot.bot.status == Dispatched then Handed(PayloadOf(id, slot.bot), |slot.issued|, false) else Refused
  }

  function SlotAfterClaim(slot: Slot, token: string): Slot {
    slot.(bot := ClaimedWith(slot.bot, token), issued := slot.issued + [token], uids := slot.uids + [slot.bot.uid])
  }

  function SlotAfterAck(slot: Slot, status: Status, errorMsg: string, token: string): Slot {
    slot.(bot := AckedAs(slot.bot, status, errorMsg), applied := slot.applied + [token])
  }

  predicate ClaimHits(s: State, p: nat)
    requires p in s.procs && s.procs[p].Claiming? && s.procs[p].id in s.slots
  {
    s.slots[s.procs[p].id].bot.status == Minted && s.slots[s.procs[p].id].bot.runtimeId == s.procs[p].runtimeId
  }

  predicate AckHits(s: State, p: nat)
    requires p in s.procs && s.procs[p].Acking? && s.procs[p].id in s.slots
  {
    Takes(s.slots[s.procs[p].id].bot, s.procs[p].token)
  }

  function Set(s: State, p: nat, proc: Proc): State {
    s.(procs := s.procs[p := proc])
  }

  function Apply(s: State, step: Step): State
    requires Enabled(s, step)
  {
    match step
    case Create(id, bot) => s.(slots := s.slots[id := Slot(bot, 0, [], [], [])])
    case MintRead(p, id, uid) => Set(s, p, if s.slots[id].bot.status == Draft then Minting(id, uid) else Refused)
    case MintWrite(p) =>
      var id := s.procs[p].id;
      var slot := s.slots[id].(bot := MintedAs(s.slots[id].bot, s.procs[p].uid), mints := s.slots[id].mints + 1);
      Set(s, p, Refused).(slots := s.slots[id := slot])
    case HeartbeatClaim(p, id, token) =>
      var slot := SlotAfterClaim(s.slots[id], token);
      Set(s, p, Hand(id, slot)).(slots := s.slots[id := slot], tokens := s.tokens + {token})
    case FetchRead(p, id, runtimeId) =>
      var row := s.slots[id].bot;
      Set(s, p, if row.status == Minted then Claiming(id, runtimeId, row) else Hand(id, s.slots[id]))
    case FetchClaim(p, token) =>
      var id := s.procs[p].id;
      if ClaimHits(s, p) then
        var slot := SlotAfterClaim(s.slots[id], token);
        var payload := PayloadOf(id, ClaimedWith(s.procs[p].row, token));
        Set(s, p, Handed(payload, |slot.issued|, payload.uid != slot.bot.uid)).(
          slots := s.slots[id := slot], tokens := s.tokens + {token})
      else
        Set(s, p, ReReading(id)).(tokens := s.tokens + {token})
    case FetchReRead(p) => Set(s, p, Hand(s.procs[p].id, s.slots[s.procs[p].id]))
    case AckRead(p, id, status, errorMsg, token) =>
      var m := s.slots[id].bot;
      Set(s, p, if m.status == status then AckOk(id, status)
                else if m.token == "" || m.token != token then AckConflict(id)
                else Acking(id, status, errorMsg, token))
    case AckWrite(p) =>
      var a := s.procs[p];
      if AckHits(s, p) then
        var slot := SlotAfterAck(s.slots[a.id], a.status, a.errorMsg, a.token);
        Set(s, p, AckOk(a.id, a.status)).(slots := s.slots[a.id := slot])
      else
        Set(s, p, AckMissed(a.id, a.status))
    case AckReRead(p) =>
      var a := s.procs[p];
      Set(s, p, if s.slots[a.id].bot.status == a.status then AckOk(a.id, a.status) else AckConflict(a.id))
    case ArchiveWrite(id) => s.(slots := s.slots[id := s.slots[id].(bot := ArchivedNow(s.slots[id].bot))])
  }

  ghost function After(steps: seq<Step>): Option<State> {
    if steps == [] then Some(START)
    else
      match After(steps[..|steps| - 1])
      case Some(s) => if Enabled(s, steps[|steps| - 1]) then Some(Apply(s, steps[|steps| - 1])) else None
      case None => None
  }

  // ----- what one step does -----

  predicate IsAck(step: Step) {
    step.AckRead? || step.AckWrite? || step.AckReRead?
  }

  predicate Runs(step: Step, p: nat) {
    !step.Create? && !step.ArchiveWrite? && step.p == p
  }

  /** The ways in which a bot changes. */
  datatype Change =
    | Same
    | NowMinted(uid: string)
    | NowClaimed(token: string)
    | NowAcked(status: Status, errorMsg: string, token: string)
    | NowArchived

  function Changed(slot: Slot, change: Change): Slot {
    match change
    case Same => slot
    case NowMinted(uid) => slot.(bot := MintedAs(slot.bot, uid), mints := slot.mints + 1)
    case NowClaimed(token) => SlotAfterClaim(slot, token)
    case NowAcked(status, errorMsg, token) => SlotAfterAck(slot, status, errorMsg, token)
    case NowArchived => slot.(bot := ArchivedNow(slot.bot))
  }

  function ChangeOf(s: State, step: Step, id: int): Change
    requires Enabled(s, step) && id in s.slots
  {
    match step
    case MintWrite(p) => if s.procs[p].id == id then NowMinted(s.procs[p].uid) else Same
    case HeartbeatClaim(_, b, token) => if b == id then NowClaimed(token) else Same
    case FetchClaim(p, token) => if s.procs[p].id == id && ClaimHits(s, p) then NowClaimed(token) else Same
    case AckWrite(p) =>
      if s.procs[p].id == id && AckHits(s, p)
      then NowAcked(s.procs[p].status, s.procs[p].errorMsg, s.procs[p].token) else Same
    case ArchiveWrite(b) => if b == id then NowArchived else Same
    case _ => Same
  }

  /** Each step changes a bot in one of these ways, under these guards. */
  lemma StepChanges(s: State, step: Step, id: int)
    requires Enabled(s, step) && id in s.slots
    ensures var s', change := Apply(s, step), ChangeOf(s, step, id);
            && id in s'.slots && s'.slots[id] == Changed(s.slots[id], change)
            && (change.NowClaimed? ==>
                  && s.slots[id].bot.status == Minted && change.token != ""
                  && change.token !in s.tokens && change.token in s'.tokens)
            && (change.NowAcked? ==> Takes(s.slots[id].bot, change.token))
            && s.tokens <= s'.tokens
  {
  }

  lemma StepCreates(s: State, step: Step, id: int)
    requires Enabled(s, step) && id !in s.slots && id in Apply(s, step).slots
    ensures step.Create? && step.id == id && Apply(s, step).slots[id] == Slot(step.bot, 0, [], [], [])
    ensures step.bot.status == Draft && step.bot.token == ""
  {
  }

  // ----- conservation and tokens -----

  /** Mints, claims and acks of one bot add up, each token is issued once, and while the
      bot is dispatched its token is the one of the latest claim. */
  predicate SlotInv(slot: Slot, tokens: set<string>) {
    && |slot.issued| + (if slot.bot.status == Minted then 1 else 0) <= slot.mints
    && |slot.applied| + (if slot.bot.status == Dispatched then 1 else 0) <= |slot.issued|
    && (forall i | 0 <= i < |slot.issued| :: slot.issued[i] in tokens && slot.issued[i] != "")
    && (forall i, j | 0 <= i < j < |slot.issued| :: slot.issued[i] != slot.issued[j])
    && (forall i | 0 <= i < |slot.applied| :: slot.applied[i] in slot.issued)
    && (forall i, j | 0 <= i < j < |slot.applied| :: slot.applied[i] != slot.applied[j])
    && |slot.uids| == |slot.issued|
    && (slot.bot.status == Dispatched ==> |slot.uids| > 0 && slot.bot.uid == slot.uids[|slot.uids| - 1])
    && (slot.bot.status == Dispatched ==>
        |slot.issued| > 0 && slot.bot.token == slot.issued[|slot.issued| - 1] && slot.bot.token !in slot.applied)
  }

  lemma ClaimKeepsSlot(slot: Slot, tokens: set<string>, token: string, tokens': set<string>)
    requires SlotInv(slot, tokens) && slot.bot.status == Minted && token != "" && token !in tokens && token in tokens'
             && tokens <= tokens'
    ensures SlotInv(SlotAfterClaim(slot, token), tokens')
  {
  }

  lemma AckKeepsSlot(slot: Slot, tokens: set<string>, status: Status, errorMsg: string, token: string,
      tokens': set<string>)
    requires SlotInv(slot, tokens) && Takes(slot.bot, token) && tokens <= tokens' && status != Dispatched
             && status != Minted
    ensures SlotInv(SlotAfterAck(slot, status, errorMsg, token), tokens')
  {
  }

  lemma OtherKeepsSlot(slot: Slot, tokens: set<string>, change: Change, tokens': set<string>)
    requires SlotInv(slot, tokens) && tokens <= tokens' && !change.NowClaimed? && !change.NowAcked?
    ensures SlotInv(Changed(slot, change), tokens')
  {
  }

  // ----- requests -----

  /** The columns that no statement touches after the insert. */
  predicate SameColumns(b: Bot, b': Bot) {
    b'.route == b.route && b'.runtimeId == b.runtimeId && b'.name == b.name && b'.workspace == b.workspace
  }

  /** The payload shows the bot as the `n`th claim found it, but for the uid if that claim
      had read an older row. */
  predicate Belongs(payload: Payload, n: nat, overtaken: bool, slot: Slot) {
    && 0 < n <= |slot.issued| == |slot.uids|
    && payload.token == slot.issued[n - 1] && (payload.uid == slot.uids[n - 1] <==> !overtaken)
    && payload.kind == slot.bot.route.kind && payload.workspace == slot.bot.workspace && payload.name == slot.bot.name
  }

  predicate ProcFits(proc: Proc, slots: map<int, Slot>) {
    match proc
    case Claiming(id, _, row) => id in slots && SameColumns(row, slots[id].bot)
    case Handed(payload, n, overtaken) => payload.id in slots && Belongs(payload, n, overtaken, slots[payload.id])
    case Acking(_, status, _, _) => status == Active || status == Failed
    case _ => true
  }

  predicate Inv(s: State) {
    && (forall id | id in s.slots :: SlotInv(s.slots[id], s.tokens))
    && (forall p | p in s.procs :: ProcFits(s.procs[p], s.slots))
  }

  lemma StepKeepsSlot(s: State, step: Step, id: int)
    requires Inv(s) && Enabled(s, step) && id in Apply(s, step).slots
    ensures SlotInv(Apply(s, step).slots[id], Apply(s, step).tokens)
  {
    hide Apply, SlotInv;
    if id in s.slots {
      StepChanges(s, step, id);
      var change := ChangeOf(s, step, id);
      match change
      case NowClaimed(token) => ClaimKeepsSlot(s.slots[id], s.tokens, token, Apply(s, step).tokens);
      case NowAcked(status, errorMsg, token) =>
        assert ProcFits(s.procs[step.p], s.slots);
        AckKeepsSlot(s.slots[id], s.tokens, status, errorMsg, token, Apply(s, step).tokens);
      case _ => OtherKeepsSlot(s.slots[id], s.tokens, change, Apply(s, step).tokens);
    } else {
      StepCreates(s, step, id);
      FreshSlot(step.bot, Apply(s, step).tokens);
    }
  }

  lemma FreshSlot(bot: Bot, tokens: set<string>)
    requires bot.status == Draft
    ensures SlotInv(Slot(bot, 0, [], [], []), tokens)
  {
  }

  /** Later statements on a bot leave what a request has noted of it true. */
  lemma ProcStillFits(s: State, step: Step, proc: Proc)
    requires Enabled(s, step) && ProcFits(proc, s.slots)
    ensures ProcFits(proc, Apply(s, step).slots)
  {
    hide Apply, Enabled;
    if proc.Claiming? {
      StepChanges(s, step, proc.id);
    } else if proc.Handed? {
      StepChanges(s, step, proc.payload.id);
    }
  }

  lemma OtherProcs(s: State, step: Step, p: nat)
    requires Enabled(s, step) && p in Apply(s, step).procs && !Runs(step, p)
    ensures p in s.procs && Apply(s, step).procs[p] == s.procs[p]
  {
  }

  lemma OwnProc(s: State, step: Step, p: nat)
    requires Inv(s) && Enabled(s, step) && Runs(step, p)
    ensures p in Apply(s, step).procs && ProcFits(Apply(s, step).procs[p], Apply(s, step).slots)
  {
    if step.HeartbeatClaim? {
    } else if step.FetchClaim? {
      assert ProcFits(s.procs[p], s.slots);
    } else if step.FetchRead? {
      HandFits(s, step.id);
    } else if step.FetchReRead? {
      HandFits(s, s.procs[p].id);
    } else {
    }
  }

  lemma HandFits(s: State, id: int)
    requires Inv(s) && id in s.slots
    ensures ProcFits(Hand(id, s.slots[id]), s.slots)
  {
    assert SlotInv(s.slots[id], s.tokens);
  }

  lemma StepKeepsInv(s: State, step: Step)
    requires Inv(s) && Enabled(s, step)
    ensures Inv(Apply(s, step))
  {
    hide Apply, Enabled, SlotInv, ProcFits, Inv;
    var s' := Apply(s, step);
    forall id | id in s'.slots ensures SlotInv(s'.slots[id], s'.tokens) {
      StepKeepsSlot(s, step, id);
    }
    forall p | p in s'.procs ensures ProcFits(s'.procs[p], s'.slots) {
      if Runs(step, p) {
        OwnProc(s, step, p);
      } else {
        OtherProcs(s, step, p);
        FitsIn(s, p);
        ProcStillFits(s, step, s.procs[p]);
      }
    }
    Assemble(s');
  }

  lemma FitsIn(s: State, p: nat)
    requires Inv(s) && p in s.procs
    ensures ProcFits(s.procs[p], s.slots)
  {
  }

  lemma Assemble(s: State)
    requires forall id | id in s.slots :: SlotInv(s.slots[id], s.tokens)
    requires forall p | p in s.procs :: ProcFits(s.procs[p], s.slots)
    ensures Inv(s)
  {
  }

  lemma {:induction false} RunsKeepInv(steps: seq<Step>)
    requires After(steps).Some?
    ensures Inv(After(steps).value)
  {
    hide Apply, Enabled;
    if steps == [] {
    } else {
      hide Inv;
      RunsKeepInv(steps[..|steps| - 1]);
      StepKeepsInv(After(steps[..|steps| - 1]).value, steps[|steps| - 1]);
    }
  }

  /** Conservation on every run: applied acks, successful claims, writes of bot_minted. */
  lemma AcksClaimsMints(steps: seq<Step>, id: int)
    requires After(steps).Some? && id in After(steps).value.slots
    ensures var slot := After(steps).value.slots[id]; |slot.applied| <= |slot.issued| <= slot.mints
  {
    RunsKeepInv(steps);
    hide After, Inv;
    SlotFits(After(steps).value, id);
  }

  /** Token agreement on every run: while a bot is dispatched it holds the token of its
      latest claim, no two claims had the same one, and every applied ack carried the
      token of a claim that no other applied ack carried. */
  lemma TokensAgree(steps: seq<Step>, id: int)
    requires After(steps).Some? && id in After(steps).value.slots
    ensures var slot := After(steps).value.slots[id];
            && (slot.bot.status == Dispatched ==>
                |slot.issued| > 0 && slot.bot.token == slot.issued[|slot.issued| - 1] != "")
            && (forall i, j | 0 <= i < j < |slot.issued| :: slot.issued[i] != slot.issued[j])
            && (forall i | 0 <= i < |slot.applied| :: slot.applied[i] in slot.issued)
            && (forall i, j | 0 <= i < j < |slot.applied| :: slot.applied[i] != slot.applied[j])
  {
    RunsKeepInv(steps);
    hide After, Inv;
    SlotFits(After(steps).value, id);
  }

  /** Whatever route handed them out, two payloads of a bot carry the same token exactly
      if they belong to the same claim. Then they are the same altogether, unless the uid
      differs because one of them is the claiming fetch's and a mint had overtaken it. */
  lemma PayloadsAgree(steps: seq<Step>, p: nat, q: nat)
    requires After(steps).Some?
    requires var s := After(steps).value;
             && p in s.procs && q in s.procs && s.procs[p].Handed? && s.procs[q].Handed?
             && s.procs[p].payload.id == s.procs[q].payload.id
    ensures var x, y := After(steps).value.procs[p], After(steps).value.procs[q];
            && (x.payload.token == y.payload.token <==> x.claim == y.claim)
            && (x.claim == y.claim && !x.overtaken && !y.overtaken ==> x.payload == y.payload)
            && (x.claim == y.claim && x.overtaken != y.overtaken ==> x.payload.uid != y.payload.uid)
  {
    RunsKeepInv(steps);
    hide After, Inv, SlotInv;
    var s := After(steps).value;
    FitsIn(s, p);
    FitsIn(s, q);
    SlotFits(s, s.procs[p].payload.id);
    IssuedOnce(s.slots[s.procs[p].payload.id], s.tokens, s.procs[p].claim - 1, s.procs[q].claim - 1);
  }

  lemma SlotFits(s: State, id: int)
    requires Inv(s) && id in s.slots
    ensures SlotInv(s.slots[id], s.tokens)
  {
  }

  lemma IssuedOnce(slot: Slot, tokens: set<string>, i: nat, j: nat)
    requires SlotInv(slot, tokens) && i < |slot.issued| && j < |slot.issued|
    ensures slot.issued[i] == slot.issued[j] <==> i == j
  {
  }

  /** An applied ack carried the token of the claim outstanding at that moment. */
  lemma AppliedAckMatches(steps: seq<Step>, p: nat)
    requires After(steps).Some? && Enabled(After(steps).value, AckWrite(p)) && AckHits(After(steps).value, p)
    ensures var s := After(steps).value;
            var slot := s.slots[s.procs[p].id];
            |slot.issued| > 0 && s.procs[p].token == slot.issued[|slot.issued| - 1] && s.procs[p].token !in slot.applied
  {
    RunsKeepInv(steps);
    hide After, Inv;
    SlotFits(After(steps).value, After(steps).value.procs[p].id);
  }

  // ----- what a claiming fetch hands out -----

  /** The payload comes from the row as read before the claim: it shows the bot as it now
      is exactly if no other mint has replaced the uid in between. */
  lemma FetchedPayloadIsCurrent(steps: seq<Step>, p: nat, token: string)
    requires After(steps).Some? && Enabled(After(steps).value, FetchClaim(p, token)) && ClaimHits(After(steps).value, p)
    ensures var s := After(steps).value;
            var id, s' := s.procs[p].id, Apply(s, FetchClaim(p, token));
            && s'.procs[p].Handed?
            && (s'.procs[p].payload == PayloadOf(id, s'.slots[id].bot) <==> s.procs[p].row.uid == s.slots[id].bot.uid)
            && (s'.procs[p].overtaken <==> s.procs[p].row.uid != s.slots[id].bot.uid)
  {
    RunsKeepInv(steps);
    assert ProcFits(After(steps).value.procs[p], After(steps).value.slots);
  }

  // ----- answers to acks -----

  lemma PrefixRuns(steps: seq<Step>, i: nat)
    requires After(steps).Some? && i <= |steps|
    ensures After(steps[..i]).Some?
    decreases |steps| - i
  {
    hide Apply, Enabled;
    if i == |steps| {
      assert steps[..i] == steps;
    } else {
      PrefixRuns(steps, i + 1);
      assert steps[..i + 1][..i] == steps[..i];
    }
  }

  /** Right after the `i`th step, one of the call `p`, the bot has the status. */
  ghost predicate HadStatus(steps: seq<Step>, i: nat, p: nat, id: int, status: Status) {
    && 0 < i <= |steps| && Runs(steps[i - 1], p) && IsAck(steps[i - 1]) && After(steps[..i]).Some?
    && id in After(steps[..i]).value.slots && After(steps[..i]).value.slots[id].bot.status == status
  }

  lemma OkStep(s: State, step: Step, p: nat)
    requires Enabled(s, step) && p in Apply(s, step).procs && Apply(s, step).procs[p].AckOk?
    requires p in s.procs ==> !s.procs[p].AckOk?
    ensures Runs(step, p) && IsAck(step)
    ensures var ok := Apply(s, step).procs[p];
            ok.id in Apply(s, step).slots && Apply(s, step).slots[ok.id].bot.status == ok.status
  {
  }

  lemma KeptOk(s: State, step: Step, p: nat)
    requires Enabled(s, step) && p in s.procs && s.procs[p].AckOk?
    ensures p in Apply(s, step).procs && Apply(s, step).procs[p] == s.procs[p]
  {
  }

  /** An ack is answered OK only if the bot had the requested status at some instant of
      the call. */
  lemma {:induction false} OkMeansStatus(steps: seq<Step>, p: nat)
    requires After(steps).Some? && p in After(steps).value.procs && After(steps).value.procs[p].AckOk?
    ensures exists i: nat :: HadStatus(steps, i, p, After(steps).value.procs[p].id, After(steps).value.procs[p].status)
  {
    hide Apply, Enabled;
    if steps != [] {
      var rest, last := steps[..|steps| - 1], steps[|steps| - 1];
      var s, ok := After(rest).value, After(steps).value.procs[p];
      if p in s.procs && s.procs[p].AckOk? {
        KeptOk(s, last, p);
        OkMeansStatus(rest, p);
        var i: nat :| HadStatus(rest, i, p, ok.id, ok.status);
        assert rest[..i] == steps[..i];
        assert HadStatus(steps, i, p, ok.id, ok.status);
      } else {
        OkStep(s, last, p);
        assert steps[..|steps|] == steps;
        assert HadStatus(steps, |steps|, p, ok.id, ok.status);
      }
    }
  }

  predicate AckWithoutEffect(proc: Proc) {
    proc.Acking? || proc.AckMissed? || proc.AckConflict?
  }

  lemma NoEffectStep(s: State, step: Step, p: nat)
    requires Enabled(s, step) && p in Apply(s, step).procs && AckWithoutEffect(Apply(s, step).procs[p])
    ensures p in s.procs ==> AckWithoutEffect(s.procs[p])
    ensures Runs(step, p) ==> Apply(s, step).slots == s.slots
    ensures !Runs(step, p) ==> p in s.procs
  {
  }

  /** A call that is answered with a conflict has changed nothing in any of its steps. */
  lemma {:induction false} ConflictChangedNothing(steps: seq<Step>, p: nat, i: nat)
    requires After(steps).Some? && p in After(steps).value.procs && AckWithoutEffect(After(steps).value.procs[p])
    requires i < |steps| && Runs(steps[i], p)
    ensures After(steps[..i]).Some? && After(steps[..i + 1]).Some?
    ensures After(steps[..i + 1]).value.slots == After(steps[..i]).value.slots
  {
    hide Apply, Enabled;
    PrefixRuns(steps, i);
    PrefixRuns(steps, i + 1);
    var rest, last := steps[..|steps| - 1], steps[|steps| - 1];
    NoEffectStep(After(rest).value, last, p);
    if i == |steps| - 1 {
      assert steps[..i + 1] == steps;
    } else {
      assert rest[..i] == steps[..i] && rest[..i + 1] == steps[..i + 1] && rest[i] == steps[i];
      if p in After(rest).value.procs {
        ConflictChangedNothing(rest, p, i);
      } else {
        KnownProc(rest, p, i);
      }
    }
  }

  /** A request that has run a step is known from then on. */
  lemma {:induction false} KnownProc(steps: seq<Step>, p: nat, i: nat)
    requires After(steps).Some? && i < |steps| && Runs(steps[i], p)
    ensures p in After(steps).value.procs
  {
    hide Apply, Enabled;
    var rest := steps[..|steps| - 1];
    if i < |steps| - 1 {
      assert rest[i] == steps[i];
      KnownProc(rest, p, i);
    }
    ProcsGrow(After(rest).value, steps[|steps| - 1], p);
  }

  lemma ProcsGrow(s: State, step: Step, p: nat)
    requires Enabled(s, step) && (p in s.procs || Runs(step, p))
    ensures p in Apply(s, step).procs
  {
  }

  /** No ack moves a bot out of the archive; only the write of a mint request does. */
  lemma OnlyMintsLeaveTheArchive(s: State, step: Step, id: int)
    requires Enabled(s, step) && id in s.slots && s.slots[id].bot.status == Archived
    ensures id in Apply(s, step).slots
    ensures Apply(s, step).slots[id].bot.status == Archived || step.MintWrite?
    ensures IsAck(step) ==> Apply(s, step).slots[id] == s.slots[id]
  {
    hide Apply;
    StepChanges(s, step, id);
  }

  ghost function From(s: State, steps: seq<Step>): Option<State>
    decreases |steps|
  {
    if steps == [] then Some(s)
    else if Enabled(s, steps[0]) then From(Apply(s, steps[0]), steps[1..])
    else None
  }

  // ----- when an archive is final -----

  /** A mint request that has read the bot's draft and has still to write. */
  predicate MintPending(s: State, id: int) {
    exists p :: p in s.procs && s.procs[p].Minting? && s.procs[p].id == id
  }

  lemma ArchivedStep(s: State, step: Step, id: int)
    requires Enabled(s, step) && id in s.slots && s.slots[id].bot.status == Archived && !MintPending(s, id)
    ensures var s' := Apply(s, step);
            id in s'.slots && s'.slots[id].bot.status == Archived && !MintPending(s', id)
  {
    StepChanges(s, step, id);
    forall p | p in Apply(s, step).procs && Apply(s, step).procs[p].Minting? && Apply(s, step).procs[p].id == id
      ensures p in s.procs && s.procs[p] == Apply(s, step).procs[p]
    {
    }
  }

  lemma {:induction false} ArchivedForGood(s: State, steps: seq<Step>, id: int)
    requires From(s, steps).Some? && id in s.slots && s.slots[id].bot.status == Archived && !MintPending(s, id)
    ensures id in From(s, steps).value.slots && From(s, steps).value.slots[id].bot.status == Archived
    decreases |steps|
  {
    hide Apply, Enabled, MintPending;
    if steps != [] {
      ArchivedStep(s, steps[0], id);
      ArchivedForGood(Apply(s, steps[0]), steps[1..], id);
    }
  }

  ghost predicate StaysArchived(s: State, steps: seq<Step>, id: int) {
    From(s, steps).Some? ==>
      id in From(s, steps).value.slots && From(s, steps).value.slots[id].bot.status == Archived
  }

  /** Exactly when an archived bot stays archived whatever happens: no mint request that
      read its draft has still to write. */
  lemma ArchiveIsFinalIff(s: State, id: int)
    requires id in s.slots && s.slots[id].bot.status == Archived
    ensures (forall steps: seq<Step> :: StaysArchived(s, steps, id)) <==> !MintPending(s, id)
  {
    if p :| p in s.procs && s.procs[p].Minting? && s.procs[p].id == id {
      var minted := Apply(s, MintWrite(p));
      assert [MintWrite(p)][1..] == [] && From(minted, []) == Some(minted);
      assert From(s, [MintWrite(p)]) == Some(minted);
      assert !StaysArchived(s, [MintWrite(p)], id);
    } else {
      forall steps: seq<Step> ensures StaysArchived(s, steps, id) {
        if From(s, steps).Some? {
          ArchivedForGood(s, steps, id);
        }
      }
    }
  }

  // ----- what a claiming fetch hands out, over a run -----

  /** The uid that the run's last mint of the bot writes, if it has one. */
  ghost function LastMint(s: State, steps: seq<Step>, id: int): Option<string>
    requires From(s, steps).Some? && id in s.slots
    decreases |steps|
  {
    if steps == [] || id !in Apply(s, steps[0]).slots then None
    else
      var later := LastMint(Apply(s, steps[0]), steps[1..], id);
      var change := ChangeOf(s, steps[0], id);
      if later.Some? then later else if change.NowMinted? then Some(change.uid) else None
  }

  lemma {:induction false} UidIsLastMint(s: State, steps: seq<Step>, id: int)
    requires From(s, steps).Some? && id in s.slots
    ensures var end := From(s, steps).value;
            && id in end.slots && SameColumns(s.slots[id].bot, end.slots[id].bot)
            && end.slots[id].bot.uid == match LastMint(s, steps, id)
                                        case Some(uid) => uid
                                        case None => s.slots[id].bot.uid
    decreases |steps|
  {
    hide Apply, Enabled;
    if steps != [] {
      StepChanges(s, steps[0], id);
      UidIsLastMint(Apply(s, steps[0]), steps[1..], id);
    }
  }

  ghost predicate Waits(steps: seq<Step>, p: nat) {
    forall i | 0 <= i < |steps| :: !Runs(steps[i], p)
  }

  lemma {:induction false} WaitingProc(s: State, steps: seq<Step>, p: nat)
    requires From(s, steps).Some? && p in s.procs && Waits(steps, p)
    ensures p in From(s, steps).value.procs && From(s, steps).value.procs[p] == s.procs[p]
    decreases |steps|
  {
    hide Apply, Enabled, Runs;
    if steps != [] {
      assert !Runs(steps[0], p) && forall i | 0 <= i < |steps[1..]| :: steps[1..][i] == steps[i + 1];
      ProcsGrow(s, steps[0], p);
      OtherProcs(s, steps[0], p);
      WaitingProc(Apply(s, steps[0]), steps[1..], p);
    }
  }

  /** A fetch that reads a minted row, waits while anything else runs and then claims hands
      out the bot as it is by then exactly if the last mint since the read, if there was
      one, wrote the uid that was read. */
  lemma FetchedPayloadOverRun(s: State, p: nat, id: int, runtimeId: int, steps: seq<Step>, token: string)
    requires Enabled(s, FetchRead(p, id, runtimeId)) && s.slots[id].bot.status == Minted
    requires var s1 := Apply(s, FetchRead(p, id, runtimeId));
             && id in s1.slots && From(s1, steps).Some? && Waits(steps, p)
             && var end := From(s1, steps).value;
                Enabled(end, FetchClaim(p, token)) && ClaimHits(end, p)
    ensures var s1 := Apply(s, FetchRead(p, id, runtimeId));
            var claimed := Apply(From(s1, steps).value, FetchClaim(p, token));
            && claimed.procs[p].Handed? && id in claimed.slots
            && (claimed.procs[p].payload == PayloadOf(id, claimed.slots[id].bot) <==>
                  LastMint(s1, steps, id) in {None, Some(s.slots[id].bot.uid)})
  {
    var s1 := Apply(s, FetchRead(p, id, runtimeId));
    assert p in s1.procs && s1.procs[p] == Claiming(id, runtimeId, s.slots[id].bot) && s1.slots == s.slots;
    hide From, LastMint, Waits;
    WaitingProc(s1, steps, p);
    UidIsLastMint(s1, steps, id);
  }

  /** Nobody archives the bot or mints it again. */
  ghost predicate LeftAlone(s: State, steps: seq<Step>, id: int)
    requires From(s, steps).Some? && id in s.slots
    decreases |steps|
  {
    steps == [] ||
    (!ChangeOf(s, steps[0], id).NowMinted? && !ChangeOf(s, steps[0], id).NowArchived? && id in Apply(s, steps[0]).slots
     && LeftAlone(Apply(s, steps[0]), steps[1..], id))
  }

  lemma {:induction false} AckedStays(s: State, steps: seq<Step>, id: int)
    requires From(s, steps).Some? && id in s.slots && LeftAlone(s, steps, id)
    requires s.slots[id].bot.status == Active || s.slots[id].bot.status == Failed
    ensures id in From(s, steps).value.slots && From(s, steps).value.slots[id].bot.status == s.slots[id].bot.status
    decreases |steps|
  {
    hide Apply, Enabled;
    if steps != [] {
      StepChanges(s, steps[0], id);
      AckedStays(Apply(s, steps[0]), steps[1..], id);
    }
  }

  /** After an applied ack every replay of it, with whatever token, is answered OK until
      the bot is archived or minted again. */
  lemma ReplaysAreAnswered(s: State, q: nat, steps: seq<Step>, p: nat, errorMsg: string, token: string)
    requires Enabled(s, AckWrite(q)) && AckHits(s, q) && (s.procs[q].status == Active || s.procs[q].status == Failed)
    requires var s1 := Apply(s, AckWrite(q));
             s.procs[q].id in s1.slots && From(s1, steps).Some? && LeftAlone(s1, steps, s.procs[q].id)
                 && p !in From(s1, steps).value.procs
    ensures var end := From(Apply(s, AckWrite(q)), steps).value;
            var replay := AckRead(p, s.procs[q].id, s.procs[q].status, errorMsg, token);
            && Enabled(end, replay) && Apply(end, replay).slots == end.slots
            && Apply(end, replay).procs[p] == AckOk(s.procs[q].id, s.procs[q].status)
  {
    hide From, LeftAlone;
    AckedStays(Apply(s, AckWrite(q)), steps, s.procs[q].id);
  }

  /** Duplicates that had already read the row when the ack was applied are covered too:
      until the bot is archived or minted again, the update of one misses, and one whose
      update has missed is answered OK. */
  lemma LateDuplicatesAreAnswered(s: State, q: nat, steps: seq<Step>, p: nat)
    requires Enabled(s, AckWrite(q)) && AckHits(s, q) && (s.procs[q].status == Active || s.procs[q].status == Failed)
    requires var s1 := Apply(s, AckWrite(q));
             s.procs[q].id in s1.slots && From(s1, steps).Some? && LeftAlone(s1, steps, s.procs[q].id)
    ensures var end, id, status := From(Apply(s, AckWrite(q)), steps).value, s.procs[q].id, s.procs[q].status;
            && (p in end.procs && end.procs[p].Acking? && end.procs[p].id == id && end.procs[p].status == status ==>
                  && Enabled(end, AckWrite(p)) && Apply(end, AckWrite(p)).slots == end.slots
                  && Apply(end, AckWrite(p)).procs[p] == AckMissed(id, status))
            && (p in end.procs && end.procs[p] == AckMissed(id, status) ==>
                  && Enabled(end, AckReRead(p)) && Apply(end, AckReRead(p)).slots == end.slots
                  && Apply(end, AckReRead(p)).procs[p] == AckOk(id, status))
  {
    hide From, LeftAlone;
    AckedStays(Apply(s, AckWrite(q)), steps, s.procs[q].id);
  }

  // ----- two races of the mint's unguarded write -----

  /** Whenever a mint request has read the draft and not yet written, an archive in
      between is undone. */
  lemma ArchivedCanComeBack(s: State, p: nat)
    requires Enabled(s, MintWrite(p))
    ensures Enabled(s, ArchiveWrite(s.procs[p].id))
    ensures var archived := Apply(s, ArchiveWrite(s.procs[p].id));
            && archived.slots[s.procs[p].id].bot.status == Archived && Enabled(archived, MintWrite(p))
            && Apply(archived, MintWrite(p)).slots[s.procs[p].id].bot.status == Minted
  {
  }

  /** Whenever a second mint with another uid is under way while a fetch is about to
      claim, the fetch can hand out the uid that the table no longer has. */
  lemma FetchCanHandOutOldUid(s: State, p: nat, q: nat, token: string)
    requires Enabled(s, FetchClaim(p, token)) && Enabled(s, MintWrite(q)) && s.procs[p].id == s.procs[q].id
    requires s.procs[p].runtimeId == s.slots[s.procs[p].id].bot.runtimeId && s.procs[p].row.uid != s.procs[q].uid
    ensures var minted := Apply(s, MintWrite(q));
            && Enabled(minted, FetchClaim(p, token))
            && var end := Apply(minted, FetchClaim(p, token));
               && end.procs[p].Handed? && end.procs[p].payload.uid == s.procs[p].row.uid
               && end.slots[s.procs[p].id].bot.uid != s.procs[p].row.uid
  {
  }

  lemma OneMore(steps: seq<Step>, step: Step)
    requires After(steps).Some? && Enabled(After(steps).value, step)
    ensures After(steps + [step]) == Some(Apply(After(steps).value, step))
  {
    hide Apply, Enabled;
    assert (steps + [step])[..|steps + [step]| - 1] == steps;
  }

  /** Both races are reached from the start. A bot is archived between a mint's read and
      its write ... */
  lemma ArchiveIsUndone(id: int, bot: Bot, uid: string)
    requires bot.status == Draft && bot.token == ""
    ensures var before := [Step.Create(id, bot), MintRead(0, id, uid)] + [ArchiveWrite(id)];
            && After(before).Some? && id in After(before).value.slots
            && After(before).value.slots[id].bot.status == Archived
            && After(before + [MintWrite(0)]).Some? && id in After(before + [MintWrite(0)]).value.slots
            && After(before + [MintWrite(0)]).value.slots[id].bot.status == Minted
  {
    var first := [Step.Create(id, bot), MintRead(0, id, uid)];
    DraftRead(id, bot, uid);
    hide After;
    OneMore(first, ArchiveWrite(id));
    OneMore(first + [ArchiveWrite(id)], MintWrite(0));
    ArchivedCanComeBack(After(first).value, 0);
  }

  lemma DraftRead(id: int, bot: Bot, uid: string)
    requires bot.status == Draft && bot.token == ""
    ensures var s := After([Step.Create(id, bot), MintRead(0, id, uid)]);
            s == Some(State(map[id := Slot(bot, 0, [], [], [])], map[0 := Minting(id, uid)], {}))
  {
    OneMore([], Step.Create(id, bot));
    OneMore([Step.Create(id, bot)], MintRead(0, id, uid));
    assert [] + [Step.Create(id, bot)] == [Step.Create(id, bot)];
    assert [Step.Create(id, bot)] + [MintRead(0, id, uid)] == [Step.Create(id, bot), MintRead(0, id, uid)];
    assert After([]) == Some(START);
  }

  function TwoMints(id: int, bot: Bot, uid: string, uid': string): seq<Step> {
    [Step.Create(id, bot), MintRead(0, id, uid)] + [MintRead(1, id, uid')] + [MintWrite(0)]
        + [FetchRead(2, id, bot.runtimeId)]
  }

  lemma FetchBetweenMints(id: int, bot: Bot, uid: string, uid': string)
    requires bot.status == Draft && bot.token == ""
    ensures var s := After(TwoMints(id, bot, uid, uid'));
            && s.Some? && s.value.tokens == {} && id in s.value.slots && s.value.slots[id].bot == MintedAs(bot, uid)
            && 1 in s.value.procs && s.value.procs[1] == Minting(id, uid')
            && 2 in s.value.procs && s.value.procs[2] == Claiming(id, bot.runtimeId, MintedAs(bot, uid))
  {
    var first := [Step.Create(id, bot), MintRead(0, id, uid)];
    DraftRead(id, bot, uid);
    hide After;
    OneMore(first, MintRead(1, id, uid'));
    OneMore(first + [MintRead(1, id, uid')], MintWrite(0));
    OneMore(first + [MintRead(1, id, uid')] + [MintWrite(0)], FetchRead(2, id, bot.runtimeId));
  }

  /** ... and a second mint writes between a fetch's read and its claim. */
  lemma OldUidIsHandedOut(id: int, bot: Bot, uid: string, uid': string, token: string)
    requires bot.status == Draft && bot.token == "" && uid != uid' && token != ""
    ensures var end := After(TwoMints(id, bot, uid, uid') + [MintWrite(1)] + [FetchClaim(2, token)]);
            && end.Some? && 2 in end.value.procs && end.value.procs[2].Handed? && end.value.procs[2].payload.uid == uid
            && id in end.value.slots && end.value.slots[id].bot.uid == uid'
  {
    var steps := TwoMints(id, bot, uid, uid');
    FetchBetweenMints(id, bot, uid, uid');
    hide After, TwoMints;
    OneMore(steps, MintWrite(1));
    OneMore(steps + [MintWrite(1)], FetchClaim(2, token));
  }

  // ----- run alone, the statements are the handlers -----

  function TableOf(s: State): Table {
    map id | id in s.slots :: s.slots[id].bot
  }

  /** A mint whose statements nothing comes between is the handler's. */
  lemma MintAlone(s: State, w: World, p: nat, id: int, uid: string)
    requires w.bots == TableOf(s) && Enabled(s, MintRead(p, id, uid))
    ensures var s1, w' := Apply(s, MintRead(p, id, uid)), Handled(w, Mint(id, w.bots[id].route.owner, uid));
            if w.bots[id].status == Draft
            then Enabled(s1, MintWrite(p)) && TableOf(Apply(s1, MintWrite(p))) == w'.bots
            else s1.procs[p].Refused? && TableOf(s1) == w'.bots
  {
  }

  lemma HeartbeatAlone(s: State, w: World, p: nat, route: Runtimes.Route, id: int, token: string)
    requires w.bots == TableOf(s) && Enabled(s, Step.HeartbeatClaim(p, id, token)) && FirstWaiting(w.bots, route, id)
    ensures var s', w' := Apply(s, Step.HeartbeatClaim(p, id, token)), Handled(w, Call.HeartbeatClaim(route, token));
            && TableOf(s') == w'.bots
            && s'.procs[p].Handed? && s'.procs[p].payload == PayloadOf(id, w'.bots[id])
  {
    assert forall j | FirstWaiting(w.bots, route, j) :: j == id;
  }

  lemma FetchAlone(s: State, w: World, p: nat, id: int, runtimeId: int, token: string)
    requires w.bots == TableOf(s) && Enabled(s, FetchRead(p, id, runtimeId)) && token != "" && token !in s.tokens
    ensures var s1, w' := Apply(s, FetchRead(p, id, runtimeId)), Handled(w, Fetch(id, runtimeId, token));
            if w.bots[id].status == Minted
            then
              && Enabled(s1, FetchClaim(p, token))
              && var s2 := Apply(s1, FetchClaim(p, token));
                 && TableOf(s2) == w'.bots
                 && s2.procs[p].Handed? && s2.procs[p].payload == PayloadOf(id, w'.bots[id])
            else
              && TableOf(s1) == w'.bots
              && if w.bots[id].status == Dispatched
                 then s1.procs[p].Handed? && s1.procs[p].payload == PayloadOf(id, w'.bots[id])
                 else s1.procs[p].Refused?
  {
  }

  lemma AckAlone(s: State, w: World, p: nat, id: int, status: Status, errorMsg: string, token: string)
    requires w.bots == TableOf(s) && Enabled(s, AckRead(p, id, status, errorMsg, token))
    ensures var b := w.bots[id];
            var s1 := Apply(s, AckRead(p, id, status, errorMsg, token));
            var w' := Handled(w, Ack(id, b.route.space, b.route.owner, status, errorMsg, token));
            var s2 := if s1.procs[p].Acking? then Apply(s1, AckWrite(p)) else s1;
            var s3 := if s2.procs[p].AckMissed? then Apply(s2, AckReRead(p)) else s2;
            && TableOf(s3) == (if b.status == status then w.bots else w'.bots)
            && s3.procs[p] == if b.status == status || (b.status == Dispatched && token != "" && b.token == token)
                              then AckOk(id, status) else AckConflict(id)
  {
  }

  lemma ArchiveAlone(s: State, w: World, id: int)
    requires w.bots == TableOf(s) && Enabled(s, ArchiveWrite(id))
    ensures TableOf(Apply(s, ArchiveWrite(id))) == Handled(w, Archive(id, w.bots[id].route.owner)).bots
  {
  }
}
