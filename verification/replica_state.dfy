/** The state of one replica as a value, and the atomic steps its handlers are made of. */
module ReplicaState {
  import opened Types
  import opened Recorder
  import opened Proposer
  import opened SlotLogic
  import Consensus
  import Wire
  import Batch
  import opened Pooling
  import opened Encoding

  const U64_MAX: nat := 0xFFFF_FFFF_FFFF_FFFF
  const PING_INTERVAL: nat := 1_000_000_000
  const LEARN_CHUNK_BYTES: nat := 0x10_0000
  const DEDUP_WINDOW: nat := 1024

  /** A configuration as `Config::new` and its setters leave it. */
  datatype Config = Config(
    ids: seq<ReplicaId>, me: nat, boot: nat,
    hedgeDelay: nat, retransmitDelay: nat, pipeline: nat,
    maxBatchBytes: nat, maxPoolBytes: nat, maxRetainedBytes: nat)
  {
    predicate Valid() {
      && me < |ids|
      && (forall i, j :: 0 <= i < j < |ids| ==> ids[i] < ids[j])
      && (forall i :: 0 <= i < |ids| ==> 0 < ids[i] < U64_LIMIT) && boot < U64_LIMIT
      && retransmitDelay >= 1_000_000 && pipeline >= 1
      && 1 <= maxBatchBytes <= MAX_BATCH_BYTES_LIMIT && maxPoolBytes >= 1 && maxRetainedBytes >= 1
    }

    function N(): nat { |ids| }
    function Quorum(): nat { |ids| / 2 + 1 }
    predicate IsLeader() { me == 0 }
    function MySeat(): Seat { Seat(ids, me) }

    /** How far past the frontier this replica records. */
    function AheadWindow(): nat { 4 * pipeline + 64 }

    function ForwardInterval(): nat {
      if Saturate(hedgeDelay * 2) > retransmitDelay then Saturate(hedgeDelay * 2) else retransmitDelay
    }
  }

  /** Saturating 64-bit arithmetic. */
  function Saturate(x: nat): nat {
    if x > U64_MAX then U64_MAX else x
  }

  datatype SlotState = SlotState(recorder: RecorderSlot, proposer: ProposerState, firstObserved: nat, lastProgress: nat)

  function NewSlot(now: nat): SlotState {
    SlotState(Open(Fresh), Idle, now, now)
  }

  datatype Action =
    | Send(to: nat, message: Wire.Message)
    | Deliver(slot: Slot, commands: seq<Command>)

  /** Everything a replica holds, and its history: what each slot's recorder and proposer
      did, every value decided, which decisions were its own, every command submitted, and
      every action emitted. `drawn` counts the priorities drawn so far. */
  datatype State = State(
    slots: map<Slot, SlotState>,
    contig: Slot,
    retained: map<Slot, Bytes>,
    gcFloor: Slot,
    peerAcked: seq<Slot>,
    pool: map<CommandId, PoolEntry>,
    dedup: DedupMap,
    nextSeq: nat,
    maxOpen: Slot,
    pendingSince: Option<nat>,
    learning: Option<(nat, nat)>,
    learnAttempts: nat,
    lastPing: nat,
    drawn: nat,
    actions: seq<Action>,
    hist: map<Slot, Consensus.History>,
    log: map<Slot, Bytes>,
    own: set<Slot>,
    submitted: map<nat, Bytes>)

  function Initial(cfg: Config): State {
    State(map[], 0, map[], 0, seq(cfg.N(), _ => 0), map[], map[], 0, 0, None, None, 0, 0, 0, [], map[], map[], {},
      map[])
  }

  /** Priorities are drawn one after another from an arbitrary stream. */
  type Rng = nat -> Draw

  function DrawsAt(rng: Rng, drawn: nat, n: nat): (d: seq<Draw>)
    ensures |d| == n
  {
    seq(n, k requires 0 <= k < n => rng(drawn + k))
  }

  /** Slots, decided values and the frontier are as they were. */
  ghost predicate SameStorage(st: State, next: State) {
    && next.slots == st.slots && next.contig == st.contig && next.retained == st.retained && next.gcFloor == st.gcFloor
    && next.maxOpen == st.maxOpen && next.log == st.log && next.own == st.own && next.hist == st.hist
    && |next.peerAcked| == |st.peerAcked|
  }

  /** The pool and what is known of deliveries and submissions are as they were. */
  ghost predicate SamePool(st: State, next: State) {
    next.pool == st.pool && next.dedup == st.dedup && next.nextSeq == st.nextSeq && next.submitted == st.submitted
  }

  // ---- one slot ----

  function HistAt(st: State, slot: Slot): Consensus.History {
    if slot in st.hist then st.hist[slot] else Consensus.EmptyHistory
  }

  /** The recorder and proposer of a slot, fresh when nothing is known of it. */
  function NodeOf(st: State, slot: Slot): Consensus.Node {
    if slot in st.slots then Consensus.Node(st.slots[slot].recorder, st.slots[slot].proposer, HistAt(st, slot))
    else if slot in st.log then Consensus.Node(RecorderSlot.Decided(st.log[slot]), Done, HistAt(st, slot))
    else Consensus.Node(Open(Fresh), Idle, HistAt(st, slot))
  }

  function SlotOr(st: State, slot: Slot, now: nat): SlotState {
    if slot in st.slots then st.slots[slot] else NewSlot(now)
  }

  /** One slot moved, above the floor or not; nothing else that is stored did. */
  ghost predicate OnlySlot(st: State, next: State, slot: Slot) {
    && slot in next.slots && next.slots == st.slots[slot := next.slots[slot]]
    && next.contig == st.contig && next.retained == st.retained && next.gcFloor == st.gcFloor
      && next.peerAcked == st.peerAcked
    && next.log == st.log && next.own == st.own && next.pendingSince == st.pendingSince && next.learning == st.learning
    && next.learnAttempts == st.learnAttempts && next.lastPing == st.lastPing
    && slot in next.hist && next.hist == st.hist[slot := next.hist[slot]]
  }

  function PutSlot(st: State, slot: Slot, s: SlotState, node: Consensus.Node): (r: State)
    ensures OnlySlot(st, r, slot) && SamePool(st, r) && r.actions == st.actions && r.maxOpen == st.maxOpen
      && r.drawn == st.drawn
    ensures NodeOf(r, slot) == node && r.slots[slot] == s.(recorder := node.recorder, proposer := node.proposer)
  {
    st.(slots := st.slots[slot := s.(recorder := node.recorder, proposer := node.proposer)],
      hist := st.hist[slot := node.hist])
  }

  // ---- sending ----

  function Emit(st: State, more: seq<Action>): (r: State)
    ensures SameStorage(st, r) && SamePool(st, r) && r.peerAcked == st.peerAcked && r.actions == st.actions + more
  {
    st.(actions := st.actions + more)
  }

  function SendOne(cfg: Config, st: State, to: nat, payload: Wire.Payload): Action
    requires cfg.me < |cfg.ids|
  {
    Send(to, Wire.Message(cfg.ids[cfg.me], st.contig, payload))
  }

  /** One message to each replica below `k` but this one, in schedule order. */
  function SendsBelow(cfg: Config, decided: Slot, payload: nat -> Wire.Payload, k: nat): (r: seq<Action>)
    requires cfg.me < |cfg.ids|
    ensures forall c :: 0 <= c < |r| ==> r[c].Send?
  {
    if k == 0 then []
    else SendsBelow(cfg, decided, payload, k - 1)
         + if k - 1 == cfg.me then [] else [Send(k - 1, Wire.Message(cfg.ids[cfg.me], decided, payload(k - 1)))]
  }

  lemma {:induction false} SendsBelowAre(cfg: Config, decided: Slot, payload: nat -> Wire.Payload, k: nat, a: Action)
    requires cfg.me < |cfg.ids|
    ensures a in SendsBelow(cfg, decided, payload, k) <==>
      exists j: nat :: j < k && j != cfg.me && a == Send(j, Wire.Message(cfg.ids[cfg.me], decided, payload(j)))
  {
    if k > 0 {
      SendsBelowAre(cfg, decided, payload, k - 1, a);
    }
  }

  function ToOthers(cfg: Config, decided: Slot, payload: nat -> Wire.Payload): (r: seq<Action>)
    requires cfg.me < |cfg.ids|
    ensures forall c :: 0 <= c < |r| ==> r[c].Send?
  {
    SendsBelow(cfg, decided, payload, cfg.N())
  }

  function DecideTo(slot: Slot, value: Bytes): nat -> Wire.Payload {
    (_: nat) => Wire.Decide(slot, value)
  }

  function PingTo(): nat -> Wire.Payload {
    (_: nat) => Wire.Ping
  }

  // ---- deciding ----

  /** The commands of a decided value; anything that is no batch counts as empty. */
  function Commands(value: Bytes): seq<Command> {
    match Batch.ParseBatch(value)
    case Some(cmds) => cmds
    case None => []
  }

  predicate Rides(cmds: seq<Command>, id: CommandId) {
    exists k :: 0 <= k < |cmds| && cmds[k].id == id
  }

  /** Commands of ours that rode in a slot but lost become re-batchable. */
  function Release(pool: map<CommandId, PoolEntry>, slot: Slot, cmds: seq<Command>): map<CommandId, PoolEntry> {
    map id | id in pool :: if pool[id].proposedIn == Some(slot) && !Rides(cmds, id) then pool[id].(proposedIn := None)
      else pool[id]
  }

  function Install(cfg: Config, st: State, slot: Slot, value: Bytes, mine: bool, now: nat): State
    requires cfg.me < |cfg.ids|
  {
    var settled := PutSlot(st, slot, SlotOr(st, slot, now), Consensus.Settle(NodeOf(st, slot), value));
    var sends := if mine then ToOthers(cfg, st.contig, DecideTo(slot, value)) else [];
    Emit(settled, sends).(
      retained := st.retained[slot := value],
      log := st.log[slot := value],
      own := if mine then st.own + {slot} else st.own,
      pool := Release(st.pool, slot, Commands(value)))
  }

  // ---- delivering ----

  /** The commands of a batch not delivered before, in order, and what is then delivered. */
  function Filter(dedup: DedupMap, cmds: seq<Command>): (DedupMap, seq<Command>) {
    if cmds == [] then (dedup, [])
    else
      var (before, kept) := Filter(dedup, cmds[..|cmds| - 1]);
      var cmd := cmds[|cmds| - 1];
      (MarkDelivered(before, cmd.id), if OriginOf(before, cmd.id).Has(cmd.id.seqno) then kept else kept + [cmd])
  }

  function Without(pool: map<CommandId, PoolEntry>, cmds: seq<Command>): map<CommandId, PoolEntry> {
    map id | id in pool && !Rides(cmds, id) :: pool[id]
  }

  function DeliverNext(st: State): State
    requires st.contig + 1 in st.retained
  {
    var (dedup, kept) := Filter(st.dedup, Commands(st.retained[st.contig + 1]));
    Emit(st.(dedup := dedup, pool := Without(st.pool, kept), contig := st.contig + 1), [Deliver(st.contig + 1, kept)])
  }

  // ---- freeing ----

  ghost function Sizes(values: map<Slot, Bytes>): map<Slot, nat> {
    map s | s in values :: |values[s]|
  }

  /** The bytes of a set of retained values. */
  ghost function TotalBytes(values: map<Slot, Bytes>): nat {
    Sum(Sizes(values))
  }

  /** Frees the slot just above the floor. */
  function FreeNext(st: State): State {
    st.(gcFloor := st.gcFloor + 1, retained := st.retained - {st.gcFloor + 1}, slots := st.slots - {st.gcFloor + 1})
  }

  // ---- batching ----

  predicate InWindow(dedup: DedupMap, id: CommandId) {
    id.seqno <= HighWater(dedup, id.origin, id.boot) + DEDUP_WINDOW
  }

  predicate Eligible(st: State, id: CommandId) {
    id in st.pool && st.pool[id].proposedIn.None? && InWindow(st.dedup, id)
  }

  /** Commands taken from the pool: eligible, distinct, with their data, and of a total
      encoded size within the limit unless there is only one. */
  ghost predicate Takeable(cfg: Config, st: State, cmds: seq<Command>) {
    && (forall k :: 0 <= k < |cmds| ==> Eligible(st, cmds[k].id) && cmds[k].data == st.pool[cmds[k].id].data)
    && (forall j, k :: 0 <= j < k < |cmds| ==> cmds[j].id != cmds[k].id)
    && (|cmds| > 1 ==> Batch.CommandsSize(cmds) <= cfg.maxBatchBytes)
  }

  function Assign(pool: map<CommandId, PoolEntry>, cmds: seq<Command>, slot: Slot): map<CommandId, PoolEntry> {
    map id | id in pool :: if Rides(cmds, id) then pool[id].(proposedIn := Some(slot)) else pool[id]
  }

  /** Claims commands for a slot and starts our proposer there with them. */
  function OpenSlot(cfg: Config, rng: Rng, st: State, slot: Slot, cmds: seq<Command>, asLeader: bool, now: nat): State
    requires cfg.me < |cfg.ids|
  {
    var run := Proposer.Start(Batch.BatchBytes(cmds), cfg.ids[cfg.me], cfg.me, cfg.N(), cfg.IsLeader(), now,
      DrawsAt(rng, st.drawn, cfg.N()));
    var started := PutSlot(st, slot, SlotOr(st, slot, now), Consensus.React(NodeOf(st, slot), run, Resend));
    started.(
      pool := Assign(st.pool, cmds, slot),
      maxOpen := if asLeader then slot else st.maxOpen,
      drawn := if cfg.IsLeader() then st.drawn else st.drawn + cfg.N())
  }

  // ---- recording and replying ----

  predicate CanRecord(cfg: Config, st: State, from: nat, slot: Slot, step: nat) {
    && from < cfg.N() && from != cfg.me && cfg.me < cfg.N() && step >= 4
      && st.gcFloor < slot <= st.contig + cfg.AheadWindow()
    && (NodeOf(st, slot).recorder.Open? ==> NodeOf(st, slot).recorder.isr.WellFormed())
    && (slot !in st.slots ==> slot !in st.log)
  }

  /** An open recorder takes the invocation; only a change counts as progress. */
  function Recorded(st: State, slot: Slot, step: nat, proposal: Proposal, now: nat): (r: State)
    requires NodeOf(st, slot).recorder.Open? && NodeOf(st, slot).recorder.isr.WellFormed() && step >= 4
    ensures OnlySlot(st, r, slot) && SamePool(st, r) && r.actions == st.actions
    ensures r.slots[slot].recorder.Open? && r.slots[slot].recorder.isr.WellFormed()
      && r.slots[slot].recorder.isr.step > 0
    ensures r.slots[slot].proposer == NodeOf(st, slot).proposer && r.maxOpen == st.maxOpen && r.drawn == st.drawn
  {
    var node := Consensus.Accept(NodeOf(st, slot), step, proposal);
    RecordKeepsWellFormed(NodeOf(st, slot).recorder.isr, step, proposal);
    var s := SlotOr(st, slot, now);
    PutSlot(st, slot, s.(lastProgress := if node.recorder != NodeOf(st, slot).recorder then now else s.lastProgress),
      node)
  }

  function RecordAt(cfg: Config, st: State, from: nat, slot: Slot, step: nat, proposal: Proposal, now: nat): State
    requires CanRecord(cfg, st, from, slot, step)
  {
    match NodeOf(st, slot).recorder
    case Decided(value) => Emit(st, [SendOne(cfg, st, from, Wire.Decide(slot, value))])
    case Open(_) =>
      var recorded := Recorded(st, slot, step, proposal, now);
      var summary := Summarize(recorded.slots[slot].recorder.isr);
      Emit(recorded, [SendOne(cfg, st, from,
        Wire.RecordReply(slot, step, summary.step, AnswerFirst(summary, step, proposal), summary.priorAgg))])
  }

  /** The run is stored as it is now. */
  function Kept(st: State, slot: Slot, run: RunState): (r: State)
    requires slot in st.slots
    ensures OnlySlot(st, r, slot) && SamePool(st, r) && r.actions == st.actions && r.maxOpen == st.maxOpen
    ensures r.slots[slot].recorder == st.slots[slot].recorder && r.slots[slot].proposer == Running(run)
  {
    PutSlot(st, slot, st.slots[slot], Consensus.React(NodeOf(st, slot), run, Quiet))
  }

  /** The run entered a new step, to be sent. */
  function Moved(cfg: Config, st: State, slot: Slot, run: RunState): (r: State)
    requires slot in st.slots
    ensures OnlySlot(st, r, slot) && SamePool(st, r) && r.actions == st.actions && r.maxOpen == st.maxOpen
    ensures r.slots[slot].recorder == st.slots[slot].recorder && r.slots[slot].proposer == Running(run)
  {
    PutSlot(st, slot, st.slots[slot], Consensus.React(NodeOf(st, slot), run, Resend))
      .(drawn := if Randomizes(run.step, cfg.IsLeader()) then st.drawn + cfg.N() else st.drawn)
  }

  /** What a folded reply leads to: the run is stored, moves to a new step, or decides. */
  function Settled(cfg: Config, st: State, slot: Slot, run: RunState, reaction: Reaction, now: nat): State
    requires cfg.me < |cfg.ids| && slot in st.slots
  {
    match reaction
    case Choose(value) => Install(cfg, st, slot, value, true, now)
    case Quiet => Kept(st, slot, run)
    case Resend => Moved(cfg, st, slot, run)
  }

  predicate CanFold(cfg: Config, st: State, slot: Slot) {
    && slot in st.slots && st.slots[slot].proposer.Running? && Fits(st.slots[slot].proposer.run, cfg.N())
    && cfg.me < |cfg.ids|
  }

  function TakeReply(cfg: Config, rng: Rng, st: State, slot: Slot, from: nat, reqStep: nat, step: nat,
        first: Proposal, priorAgg: Option<Proposal>, now: nat): State
    requires CanFold(cfg, st, slot) && from < cfg.N()
  {
    var (run, reaction) := FoldReply(st.slots[slot].proposer.run, cfg.MySeat(), now, DrawsAt(rng, st.drawn, cfg.N()),
        from, reqStep, step, first, priorAgg);
    Settled(cfg, st, slot, run, reaction, now)
  }

  function ReplyAt(cfg: Config, rng: Rng, st: State, slot: Slot, from: nat, reqStep: nat, step: nat,
        first: ReplyFirst, priorAgg: Option<Proposal>, now: nat): State
    requires CanFold(cfg, st, slot) && from < cfg.N()
  {
    match Reconstitute(st.slots[slot].proposer.run, from, reqStep, first)
    case None => st
    case Some(p) => TakeReply(cfg, rng, st, slot, from, reqStep, step, p, priorAgg, now)
  }

  predicate CanDrive(cfg: Config, st: State, slot: Slot) {
    && CanFold(cfg, st, slot) && st.slots[slot].recorder.Open? && st.slots[slot].recorder.isr.WellFormed()
    && st.slots[slot].proposer.run.needsSend && st.slots[slot].proposer.run.step > 0
  }

  /** The proposer's own record, before it takes its recorder's answer. */
  function OwnRecord(cfg: Config, st: State, slot: Slot, now: nat): (r: State)
    requires CanDrive(cfg, st, slot)
    ensures CanFold(cfg, r, slot) && r.slots[slot].recorder.Open? && r.slots[slot].recorder.isr.WellFormed()
    ensures r.slots[slot].recorder.isr.first.Some?
      && r.slots[slot].proposer.run.step == st.slots[slot].proposer.run.step
    ensures OnlySlot(st, r, slot) && SamePool(st, r) && r.actions == st.actions && r.maxOpen == st.maxOpen
  {
    var s := st.slots[slot];
    var run := Consensus.SetSend(s.proposer.run, false, now);
    var mine := Consensus.TemplateOf(run).For(cfg.me);
    RecordKeepsWellFormed(s.recorder.isr, run.step, mine);
    PutSlot(st, slot, s, Consensus.Accept(NodeOf(st, slot).(proposer := Running(run)), run.step, mine))
  }

  /** The records broadcast when the own answer left the step to be waited for. */
  function DriveSends(cfg: Config, st: State, slot: Slot): seq<Action>
    requires cfg.me < |cfg.ids|
  {
    if slot in st.slots && st.slots[slot].proposer.Running? && !st.slots[slot].proposer.run.needsSend then
      ToOthers(cfg, st.contig, RecordTo(slot, st.slots[slot].proposer.run))
    else []
  }

  /** One pass of the drive loop: record locally, take our recorder's answer, and broadcast
      unless that answer moved the proposer on. */
  function DriveAt(cfg: Config, rng: Rng, st: State, slot: Slot, now: nat): State
    requires CanDrive(cfg, st, slot)
  {
    var recorded := OwnRecord(cfg, st, slot, now);
    var summary := Summarize(recorded.slots[slot].recorder.isr);
    var step := st.slots[slot].proposer.run.step;
    var after := TakeReply(cfg, rng, recorded, slot, cfg.me, step, summary.step, summary.first, summary.priorAgg, now);
    Emit(after, DriveSends(cfg, after, slot))
  }

  function RecordTo(slot: Slot, run: RunState): nat -> Wire.Payload {
    (j: nat) => Wire.Record(slot, run.step, Consensus.TemplateOf(run).For(j))
  }

  // ---- the atomic steps ----

  datatype Micro =
    | Header(from: nat, decided: Slot)
    | RecordStep(from: nat, slot: Slot, step: nat, proposal: Proposal, now: nat)
    | ReplyStep(from: nat, slot: Slot, reqStep: nat, step: nat, first: ReplyFirst, priorAgg: Option<Proposal>, now: nat)
    | DriveStep(slot: Slot, now: nat)
    | RetransmitStep(slot: Slot)
    | OpenStep(slot: Slot, cmds: seq<Command>, asLeader: bool, now: nat)
    | LearnStep(slot: Slot, value: Bytes, now: nat)
    | DeliverStep
    | AckSelf
    | FreeStep
    | EvictStep
    | SubmitStep(data: Bytes, now: nat)
    | PoolStep(cmd: Command, now: nat)
    | ForwardStep(chunks: seq<(nat, seq<Command>)>, now: nat)
    | ObserveStep(now: nat)
    | RefreshStep(now: nat)
    | RequestStep(to: nat, now: nat)
    | AnswerStep(to: nat, fromSlot: Slot, values: seq<Bytes>)
    | EndLearn
    | TimeoutLearn
    | PingStep(now: nat)

  function Top(st: State): Slot {
    var open := if st.maxOpen > st.contig then st.maxOpen else st.contig;
    LargestKey(st.slots.Keys, open)
  }

  /** The largest of some slots and a floor. */
  function LargestKey(s: set<Slot>, floor: Slot): (top: Slot)
    ensures top >= floor && (top == floor || top in s) && forall k :: k in s ==> k <= top
  {
    if s == {} then floor
    else
      LargestExists(s);
      var m :| m in s && forall k :: k in s ==> k <= m;
      if m > floor then m else floor
  }

  lemma {:induction false} LargestExists(s: set<Slot>)
    requires s != {}
    ensures exists m :: m in s && forall k :: k in s ==> k <= m
    decreases |s|
  {
    var a :| a in s;
    if s != {a} {
      var rest := s - {a};
      assert rest != {};
      LargestExists(rest);
      var m :| m in rest && forall k :: k in rest ==> k <= m;
      var best := if a > m then a else m;
      assert best in s && forall k :: k in s ==> k <= best by {
        assert forall k :: k in s ==> k == a || k in rest;
      }
    }
  }

  function Least(acked: seq<Slot>): (m: Slot)
    requires acked != []
    ensures m in acked && forall k :: 0 <= k < |acked| ==> m <= acked[k]
  {
    if |acked| == 1 then acked[0]
    else
      var rest := Least(acked[..|acked| - 1]);
      if acked[|acked| - 1] < rest then acked[|acked| - 1] else rest
  }

  /** Retained values from a slot on, up to the frontier and the chunk size. */
  ghost predicate IsChunk(st: State, fromSlot: Slot, values: seq<Bytes>) {
    && values != [] && fromSlot + |values| - 1 <= st.contig
    && RetainedFrom(st, fromSlot, values) && BytesOf(values[..|values| - 1]) < LEARN_CHUNK_BYTES
    && (fromSlot + |values| - 1 < st.contig ==> BytesOf(values) >= LEARN_CHUNK_BYTES)
  }

  ghost predicate RetainedFrom(st: State, from: Slot, values: seq<Bytes>) {
    forall k {:trigger values[k]} :: 0 <= k < |values| ==> RetainedAs(st, from + k, values[k])
  }

  ghost predicate RetainedAs(st: State, slot: Slot, value: Bytes) {
    slot in st.retained && st.retained[slot] == value
  }

  function BytesOf(values: seq<Bytes>): nat {
    if values == [] then 0 else BytesOf(values[..|values| - 1]) + |values[|values| - 1]|
  }

  /** The forwarding target of a command's `attempts`-th transmission: the others in turn. */
  function ForwardTarget(cfg: Config, attempts: nat): nat
    requires cfg.N() > 1
  {
    var k := attempts % (cfg.N() - 1);
    if k < cfg.me then k else k + 1
  }

  predicate OwnUnassigned(cfg: Config, st: State, id: CommandId) {
    && id in st.pool && st.pool[id].proposedIn.None?
    && cfg.me < |cfg.ids| && id.origin == cfg.ids[cfg.me] && id.boot == cfg.boot
  }

  /** Premise on what others send: sequence numbers start at 1, and an id of ours is one
      we gave out. */
  predicate Known(cfg: Config, st: State, id: CommandId) {
    id.seqno >= 1 && (cfg.me < |cfg.ids| && id.origin == cfg.ids[cfg.me] && id.boot == cfg.boot ==>
      id.seqno <= st.nextSeq)
  }

  function AllOf(chunks: seq<(nat, seq<Command>)>): seq<Command> {
    if chunks == [] then [] else AllOf(chunks[..|chunks| - 1]) + chunks[|chunks| - 1].1
  }

  /** One message of re-forwarded commands: our own unassigned ones, whose attempt count
      names the target, within the batch limit unless there is only one. */
  ghost predicate ChunkOk(cfg: Config, st: State, target: nat, cmds: seq<Command>) {
    && cfg.N() > 1 && cmds != [] && target < cfg.N() && target != cfg.me
    && (|cmds| > 1 ==> Batch.CommandsSize(cmds) <= cfg.maxBatchBytes)
    && forall k :: 0 <= k < |cmds| ==>
         OwnUnassigned(cfg, st, cmds[k].id) && cmds[k].data == st.pool[cmds[k].id].data
         && target == ForwardTarget(cfg, st.pool[cmds[k].id].forwardAttempts)
  }

  ghost predicate Forwardable(cfg: Config, st: State, chunks: seq<(nat, seq<Command>)>) {
    forall c :: 0 <= c < |chunks| ==> ChunkOk(cfg, st, chunks[c].0, chunks[c].1)
  }

  function Forwarded(pool: map<CommandId, PoolEntry>, cmds: seq<Command>, now: nat): map<CommandId, PoolEntry> {
    map id | id in pool :: if Rides(cmds, id)
      then pool[id].(lastForward := now, forwardAttempts := pool[id].forwardAttempts + 1) else pool[id]
  }

  function ChunkSends(cfg: Config, st: State, chunks: seq<(nat, seq<Command>)>): seq<Action>
    requires cfg.me < |cfg.ids|
  {
    seq(|chunks|, c requires 0 <= c < |chunks| => SendOne(cfg, st, chunks[c].0, Wire.Forward(chunks[c].1)))
  }

  // ---- what the other handlers change ----

  /** A message header advertises a watermark. */
  function Acked(st: State, from: nat, decided: Slot): (r: State)
    requires from < |st.peerAcked|
    ensures SameStorage(st, r) && SamePool(st, r) && r.actions == st.actions && r.pendingSince == st.pendingSince
    ensures r.peerAcked == st.peerAcked[from := r.peerAcked[from]]
    ensures r.peerAcked[from] == if st.peerAcked[from] < decided then decided else st.peerAcked[from]
  {
    if st.peerAcked[from] < decided then st.(peerAcked := st.peerAcked[from := decided]) else st
  }

  function SelfAcked(cfg: Config, st: State): (r: State)
    requires cfg.me < |st.peerAcked|
    ensures SameStorage(st, r) && SamePool(st, r) && r.actions == st.actions
      && r.peerAcked == st.peerAcked[cfg.me := st.contig]
  {
    st.(peerAcked := st.peerAcked[cfg.me := st.contig])
  }

  function Retransmitted(st: State, slot: Slot): (r: State)
    requires slot in st.slots && st.slots[slot].proposer.Running?
    ensures OnlySlot(st, r, slot) && SamePool(st, r) && r.actions == st.actions && r.maxOpen == st.maxOpen
  {
    var run := st.slots[slot].proposer.run;
    PutSlot(st, slot, st.slots[slot], NodeOf(st, slot).(proposer := Running(Consensus.SetSend(run, true, run.sentAt))))
  }

  /** The id of the `q`-th command submitted here. */
  function OwnId(cfg: Config, q: nat): CommandId
    requires cfg.me < |cfg.ids|
  {
    CommandId(cfg.ids[cfg.me], cfg.boot, q)
  }

  /** A submission takes the next sequence number into the pool; anyone but the leader
      forwards it to the leader at once. */
  function Submitted(cfg: Config, st: State, data: Bytes, now: nat): (r: State)
    requires cfg.me < |cfg.ids|
    ensures SameStorage(st, r) && r.peerAcked == st.peerAcked && r.dedup == st.dedup && r.nextSeq == st.nextSeq + 1
    ensures
      var id := OwnId(cfg, r.nextSeq);
      && r.submitted == st.submitted[r.nextSeq := data] && id in r.pool && r.pool == st.pool[id := r.pool[id]]
      && r.pool[id].data == data && r.pool[id].proposedIn.None?
  {
    var id := OwnId(cfg, st.nextSeq + 1);
    var taken := st.(nextSeq := st.nextSeq + 1, submitted := st.submitted[st.nextSeq + 1 := data]);
    if cfg.IsLeader() then taken.(pool := st.pool[id := NewEntry(data, now)])
    else
      Emit(taken.(pool := st.pool[id := PoolEntry(data, None, now, 1)]),
           [SendOne(cfg, st, 0, Wire.Forward([Command(id, data)]))])
  }

  function Pooled(st: State, cmd: Command, now: nat): (r: State)
    ensures SameStorage(st, r) && r.peerAcked == st.peerAcked && r.actions == st.actions && r.dedup == st.dedup
  {
    st.(pool := st.pool[cmd.id := NewEntry(cmd.data, now)])
  }

  function Reforwarded(cfg: Config, st: State, chunks: seq<(nat, seq<Command>)>, now: nat): (r: State)
    requires cfg.me < |cfg.ids|
    ensures SameStorage(st, r) && r.peerAcked == st.peerAcked
    ensures r.pendingSince == st.pendingSince && r.learning == st.learning && r.lastPing == st.lastPing
  {
    Emit(st.(pool := Forwarded(st.pool, AllOf(chunks), now)), ChunkSends(cfg, st, chunks))
  }

  function Observed(st: State, now: nat): (r: State)
    ensures OnlySlot(st, r, st.contig + 1) && SamePool(st, r) && r.actions == st.actions && r.maxOpen == st.maxOpen
    ensures r.slots[st.contig + 1] == NewSlot(now)
  {
    PutSlot(st, st.contig + 1, NewSlot(now), Consensus.Node(Open(Fresh), Idle, HistAt(st, st.contig + 1)))
  }

  ghost function Refreshed(st: State, now: nat): (r: State)
    ensures SameStorage(st, r) && SamePool(st, r) && r.peerAcked == st.peerAcked && r.actions == st.actions
  {
    st.(pendingSince := if AnyUnassigned(st.pool) then (if st.pendingSince.None? then Some(now) else st.pendingSince)
      else None)
  }

  function Requested(cfg: Config, st: State, to: nat, now: nat): (r: State)
    requires cfg.me < |cfg.ids|
    ensures SameStorage(st, r) && SamePool(st, r) && r.peerAcked == st.peerAcked
    ensures r.pendingSince == st.pendingSince && r.lastPing == st.lastPing && r.learning == Some((to, now))
  {
    Emit(st.(learning := Some((to, now))), [SendOne(cfg, st, to, Wire.Learn(st.contig + 1))])
  }

  function Answered(cfg: Config, st: State, to: nat, fromSlot: Slot, values: seq<Bytes>): (r: State)
    requires cfg.me < |cfg.ids|
    ensures SameStorage(st, r) && SamePool(st, r) && r.peerAcked == st.peerAcked && r.pendingSince == st.pendingSince
  {
    Emit(st, [SendOne(cfg, st, to, Wire.LearnReply(fromSlot, values))])
  }

  function LearnEnded(st: State): (r: State)
    ensures SameStorage(st, r) && SamePool(st, r) && r.peerAcked == st.peerAcked && r.actions == st.actions
    ensures r.pendingSince == st.pendingSince
  {
    st.(learning := None)
  }

  function LearnTimedOut(st: State): (r: State)
    ensures SameStorage(st, r) && SamePool(st, r) && r.peerAcked == st.peerAcked && r.actions == st.actions
    ensures r.pendingSince == st.pendingSince && r.lastPing == st.lastPing && r.learning.None?
  {
    st.(learning := None, learnAttempts := st.learnAttempts + 1)
  }

  function Pinged(cfg: Config, st: State, now: nat): (r: State)
    requires cfg.me < |cfg.ids|
    ensures SameStorage(st, r) && SamePool(st, r) && r.peerAcked == st.peerAcked
    ensures r.pendingSince == st.pendingSince && r.learning == st.learning && r.lastPing == now
  {
    Emit(st.(lastPing := now), ToOthers(cfg, st.contig, PingTo()))
  }

  predicate CanOpen(cfg: Config, st: State, slot: Slot, cmds: seq<Command>, asLeader: bool) {
    && slot > st.contig
    && if asLeader then cfg.IsLeader() && cmds != [] && slot == Top(st) + 1 && slot <= st.contig + cfg.pipeline
       else slot in st.slots && st.slots[slot].proposer.Idle? && st.slots[slot].recorder.Open?
  }

  /** A value from elsewhere is taken unless the slot was freed or is decided already, or the
      value is ahead of the next slot and does not fit the budget. */
  ghost predicate CanLearn(cfg: Config, st: State, slot: Slot, value: Bytes) {
    && cfg.N() > 1 && slot > st.gcFloor && (slot in st.slots ==> st.slots[slot].recorder.Open?)
    && (slot > st.contig + 1 ==> TotalBytes(st.retained) + |value| <= cfg.maxRetainedBytes)
  }

  /** Something is known of a slot ahead of the frontier. */
  predicate Beyond(st: State) {
    exists s :: s in st.slots && s > st.contig
  }

  /** The steps that open, move, decide, deliver or free slots. */
  predicate IsSlotStep(m: Micro) {
    m.RecordStep? || m.ReplyStep? || m.DriveStep? || m.RetransmitStep? || m.OpenStep? || m.LearnStep?
    || m.DeliverStep? || m.FreeStep? || m.EvictStep? || m.ObserveStep?
  }

  ghost predicate SlotsEnabled(cfg: Config, st: State, m: Micro)
    requires IsSlotStep(m)
  {
    cfg.me < |cfg.ids| && |st.peerAcked| == cfg.N() &&
    match m
    case RecordStep(from, slot, step, _, _) => CanRecord(cfg, st, from, slot, step)
    case ReplyStep(from, slot, _, _, _, _, _) => from < cfg.N() && from != cfg.me && CanFold(cfg, st, slot)
    case DriveStep(slot, _) => CanDrive(cfg, st, slot)
    case RetransmitStep(slot) => CanFold(cfg, st, slot)
    case OpenStep(slot, cmds, asLeader, _) => Takeable(cfg, st, cmds) && CanOpen(cfg, st, slot, cmds, asLeader)
    case LearnStep(slot, value, _) => CanLearn(cfg, st, slot, value)
    case DeliverStep => st.contig + 1 in st.retained
    case FreeStep => st.gcFloor < Least(st.peerAcked) && st.peerAcked[cfg.me] == st.contig
    case EvictStep => TotalBytes(st.retained) > cfg.maxRetainedBytes && st.gcFloor + 1 in st.retained
      && st.gcFloor + 1 <= st.contig
    case ObserveStep(_) => st.contig + 1 !in st.slots && (st.pendingSince.Some? || Beyond(st))
  }

  ghost predicate RestEnabled(cfg: Config, st: State, m: Micro)
    requires !IsSlotStep(m)
  {
    cfg.me < |cfg.ids| && |st.peerAcked| == cfg.N() &&
    match m
    case Header(from, _) => from < cfg.N() && from != cfg.me
    case AckSelf => true
    case SubmitStep(data, _) => st.nextSeq < U64_MAX && |data| <= MAX_COMMAND_BYTES
      && TotalCost(st.pool) + Cost(|data|) <= cfg.maxPoolBytes
    case PoolStep(cmd, _) =>
      && !IsDelivered(st.dedup, cmd.id) && cmd.id !in st.pool && |cmd.data| <= MAX_COMMAND_BYTES
      && TotalCost(st.pool) + Cost(|cmd.data|) <= cfg.maxPoolBytes && cfg.N() > 1
      && Known(cfg, st, cmd.id) && Batch.IdFits(cmd.id)
    case ForwardStep(chunks, _) => Forwardable(cfg, st, chunks)
    case RefreshStep(_) => true
    case RequestStep(to, _) => to < cfg.N() && to != cfg.me
    case AnswerStep(to, fromSlot, values) => to < cfg.N() && to != cfg.me && st.gcFloor < fromSlot
      && IsChunk(st, fromSlot, values)
    case EndLearn => cfg.N() > 1
    case TimeoutLearn => st.learning.Some?
    case PingStep(now) => cfg.N() > 1 && now >= st.lastPing + PING_INTERVAL
  }

  ghost function MoveSlots(cfg: Config, rng: Rng, st: State, m: Micro): State
    requires IsSlotStep(m) && SlotsEnabled(cfg, st, m)
  {
    match m
    case RecordStep(from, slot, step, proposal, now) => RecordAt(cfg, st, from, slot, step, proposal, now)
    case ReplyStep(from, slot, reqStep, step, first, priorAgg, now) => ReplyAt(cfg, rng, st, slot, from, reqStep, step,
      first, priorAgg, now)
    case DriveStep(slot, now) => DriveAt(cfg, rng, st, slot, now)
    case RetransmitStep(slot) => Retransmitted(st, slot)
    case OpenStep(slot, cmds, asLeader, now) => OpenSlot(cfg, rng, st, slot, cmds, asLeader, now)
    case LearnStep(slot, value, now) => Install(cfg, st, slot, value, false, now)
    case DeliverStep => DeliverNext(st)
    case FreeStep => FreeNext(st)
    case EvictStep => FreeNext(st)
    case ObserveStep(now) => Observed(st, now)
  }

  ghost function MoveRest(cfg: Config, st: State, m: Micro): (r: State)
    requires !IsSlotStep(m) && RestEnabled(cfg, st, m)
    ensures SameStorage(st, r)
    ensures !m.Header? && !m.AckSelf? ==> r.peerAcked == st.peerAcked
  {
    match m
    case Header(from, decided) => Acked(st, from, decided)
    case AckSelf => SelfAcked(cfg, st)
    case SubmitStep(data, now) => Submitted(cfg, st, data, now)
    case PoolStep(cmd, now) => Pooled(st, cmd, now)
    case ForwardStep(chunks, now) => Reforwarded(cfg, st, chunks, now)
    case RefreshStep(now) => Refreshed(st, now)
    case RequestStep(to, now) => Requested(cfg, st, to, now)
    case AnswerStep(to, fromSlot, values) => Answered(cfg, st, to, fromSlot, values)
    case EndLearn => LearnEnded(st)
    case TimeoutLearn => LearnTimedOut(st)
    case PingStep(now) => Pinged(cfg, st, now)
  }

  ghost predicate Enabled(cfg: Config, st: State, m: Micro) {
    if IsSlotStep(m) then SlotsEnabled(cfg, st, m) else RestEnabled(cfg, st, m)
  }

  ghost function Apply(cfg: Config, rng: Rng, st: State, m: Micro): State
    requires Enabled(cfg, st, m)
  {
    if IsSlotStep(m) then MoveSlots(cfg, rng, st, m) else MoveRest(cfg, st, m)
  }
}
