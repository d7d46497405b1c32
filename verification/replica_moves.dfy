/** One step more of a run, handler by handler: what the replica's methods do. */
module ReplicaMoves {
  import opened Types
  import opened Recorder
  import opened Proposer
  import opened SlotLogic
  import opened Pooling
  import opened ReplicaState
  import opened ReplicaInvariant
  import opened ReplicaRuns
  import opened Delivery
  import opened Retention
  import Consensus
  import Wire
  import Batch

  lemma RanRest(cfg: Config, rng: Rng, trail: seq<Micro>, st: State, m: Micro)
    requires Ran(cfg, rng, trail, st) && !IsSlotStep(m) && RestEnabled(cfg, st, m)
    ensures Ran(cfg, rng, trail + [m], MoveRest(cfg, st, m))
  {
    hide SlotsEnabled, MoveSlots, RestEnabled, MoveRest, Ran;
    RanStep(cfg, rng, trail, st, m, MoveRest(cfg, st, m));
  }

  lemma RanSlots(cfg: Config, rng: Rng, trail: seq<Micro>, st: State, m: Micro)
    requires Ran(cfg, rng, trail, st) && IsSlotStep(m) && SlotsEnabled(cfg, st, m)
    ensures Ran(cfg, rng, trail + [m], MoveSlots(cfg, rng, st, m))
  {
    hide SlotsEnabled, MoveSlots, RestEnabled, MoveRest, Ran;
    RanStep(cfg, rng, trail, st, m, MoveSlots(cfg, rng, st, m));
  }

  lemma Seated(cfg: Config, rng: Rng, trail: seq<Micro>, st: State)
    requires Ran(cfg, rng, trail, st)
    ensures cfg.Valid() && cfg.me < |cfg.ids| && |st.peerAcked| == cfg.N()
  {
    hide Ran, StorageOk;
    RanSound(cfg, rng, trail, st);
    Counters(cfg, st);
  }

  lemma RanHeader(cfg: Config, rng: Rng, trail: seq<Micro>, st: State, from: nat, decided: Slot)
    requires Ran(cfg, rng, trail, st) && from < cfg.N() == |st.peerAcked| && from != cfg.me
    ensures Ran(cfg, rng, trail + [Header(from, decided)], Acked(st, from, decided))
  {
    hide Ran, Acked, SlotsEnabled, MoveSlots;
    Seated(cfg, rng, trail, st);
    RanRest(cfg, rng, trail, st, Header(from, decided));
  }

  lemma RanAckSelf(cfg: Config, rng: Rng, trail: seq<Micro>, st: State)
    requires Ran(cfg, rng, trail, st) && cfg.me < |st.peerAcked|
    ensures Ran(cfg, rng, trail + [AckSelf], SelfAcked(cfg, st))
  {
    hide Ran, SelfAcked, SlotsEnabled, MoveSlots;
    Seated(cfg, rng, trail, st);
    RanRest(cfg, rng, trail, st, AckSelf);
  }

  lemma RanRefresh(cfg: Config, rng: Rng, trail: seq<Micro>, st: State, now: nat)
    requires Ran(cfg, rng, trail, st)
    ensures Ran(cfg, rng, trail + [RefreshStep(now)], Refreshed(st, now))
  {
    hide Ran, Refreshed, SlotsEnabled, MoveSlots;
    Seated(cfg, rng, trail, st);
    RanRest(cfg, rng, trail, st, RefreshStep(now));
  }

  lemma RanSubmit(cfg: Config, rng: Rng, trail: seq<Micro>, st: State, data: Bytes, now: nat)
    requires Ran(cfg, rng, trail, st) && st.nextSeq < U64_MAX && |data| <= MAX_COMMAND_BYTES
      && TotalCost(st.pool) + Cost(|data|) <= cfg.maxPoolBytes
    ensures Ran(cfg, rng, trail + [SubmitStep(data, now)], Submitted(cfg, st, data, now))
  {
    hide Ran, Submitted, SlotsEnabled, MoveSlots;
    Seated(cfg, rng, trail, st);
    RanRest(cfg, rng, trail, st, SubmitStep(data, now));
  }

  lemma RanRequest(cfg: Config, rng: Rng, trail: seq<Micro>, st: State, to: nat, now: nat)
    requires Ran(cfg, rng, trail, st) && to < cfg.N() && to != cfg.me
    ensures Ran(cfg, rng, trail + [RequestStep(to, now)], Requested(cfg, st, to, now))
  {
    hide Ran, Requested, SlotsEnabled, MoveSlots;
    Seated(cfg, rng, trail, st);
    RanRest(cfg, rng, trail, st, RequestStep(to, now));
  }

  lemma RanAnswer(cfg: Config, rng: Rng, trail: seq<Micro>, st: State, to: nat, fromSlot: Slot, values: seq<Bytes>)
    requires Ran(cfg, rng, trail, st) && to < cfg.N() && to != cfg.me && st.gcFloor < fromSlot
      && IsChunk(st, fromSlot, values)
    ensures Ran(cfg, rng, trail + [AnswerStep(to, fromSlot, values)], Answered(cfg, st, to, fromSlot, values))
  {
    hide Ran, Answered, SlotsEnabled, MoveSlots;
    Seated(cfg, rng, trail, st);
    RanRest(cfg, rng, trail, st, AnswerStep(to, fromSlot, values));
  }

  lemma RanEndLearn(cfg: Config, rng: Rng, trail: seq<Micro>, st: State)
    requires Ran(cfg, rng, trail, st) && cfg.N() > 1
    ensures Ran(cfg, rng, trail + [EndLearn], LearnEnded(st))
  {
    hide Ran, LearnEnded, SlotsEnabled, MoveSlots;
    Seated(cfg, rng, trail, st);
    RanRest(cfg, rng, trail, st, EndLearn);
  }

  lemma RanTimeout(cfg: Config, rng: Rng, trail: seq<Micro>, st: State)
    requires Ran(cfg, rng, trail, st) && st.learning.Some?
    ensures Ran(cfg, rng, trail + [TimeoutLearn], LearnTimedOut(st))
  {
    hide Ran, LearnTimedOut, SlotsEnabled, MoveSlots;
    Seated(cfg, rng, trail, st);
    RanRest(cfg, rng, trail, st, TimeoutLearn);
  }

  lemma RanPing(cfg: Config, rng: Rng, trail: seq<Micro>, st: State, now: nat)
    requires Ran(cfg, rng, trail, st) && cfg.N() > 1 && now >= st.lastPing + PING_INTERVAL
    ensures Ran(cfg, rng, trail + [PingStep(now)], Pinged(cfg, st, now))
  {
    hide Ran, Pinged, SlotsEnabled, MoveSlots;
    Seated(cfg, rng, trail, st);
    RanRest(cfg, rng, trail, st, PingStep(now));
  }

  lemma RanForward(cfg: Config, rng: Rng, trail: seq<Micro>, st: State, chunks: seq<(nat, seq<Command>)>, now: nat)
    requires Ran(cfg, rng, trail, st) && Forwardable(cfg, st, chunks)
    ensures Ran(cfg, rng, trail + [ForwardStep(chunks, now)], Reforwarded(cfg, st, chunks, now))
  {
    hide Ran, Reforwarded, SlotsEnabled, MoveSlots;
    Seated(cfg, rng, trail, st);
    RanRest(cfg, rng, trail, st, ForwardStep(chunks, now));
  }

  lemma RanDeliver(cfg: Config, rng: Rng, trail: seq<Micro>, st: State)
    requires Ran(cfg, rng, trail, st) && st.contig + 1 in st.retained
    ensures Ran(cfg, rng, trail + [DeliverStep], DeliverNext(st))
  {
    hide Ran, DeliverNext, RestEnabled, MoveRest;
    Seated(cfg, rng, trail, st);
    RanSlots(cfg, rng, trail, st, DeliverStep);
  }

  lemma RanObserve(cfg: Config, rng: Rng, trail: seq<Micro>, st: State, now: nat)
    requires Ran(cfg, rng, trail, st) && st.contig + 1 !in st.slots && (st.pendingSince.Some? || Beyond(st))
    ensures Ran(cfg, rng, trail + [ObserveStep(now)], Observed(st, now))
  {
    hide Ran, Observed, RestEnabled, MoveRest;
    Seated(cfg, rng, trail, st);
    RanSlots(cfg, rng, trail, st, ObserveStep(now));
  }

  lemma RanRecord(cfg: Config, rng: Rng, trail: seq<Micro>, st: State, from: nat, slot: Slot, step: nat,
        proposal: Proposal, now: nat)
    requires Ran(cfg, rng, trail, st) && CanRecord(cfg, st, from, slot, step)
    ensures Ran(cfg, rng, trail + [RecordStep(from, slot, step, proposal, now)],
      RecordAt(cfg, st, from, slot, step, proposal, now))
  {
    hide Ran, RecordAt, RestEnabled, MoveRest, CanRecord;
    Seated(cfg, rng, trail, st);
    RanSlots(cfg, rng, trail, st, RecordStep(from, slot, step, proposal, now));
  }

  lemma RanReply(cfg: Config, rng: Rng, trail: seq<Micro>, st: State, from: nat, slot: Slot, reqStep: nat, step: nat,
        first: ReplyFirst, priorAgg: Option<Proposal>, now: nat)
    requires Ran(cfg, rng, trail, st) && from < cfg.N() && from != cfg.me && CanFold(cfg, st, slot)
    ensures
      Ran(cfg, rng, trail + [ReplyStep(from, slot, reqStep, step, first, priorAgg, now)],
        ReplyAt(cfg, rng, st, slot, from, reqStep, step, first, priorAgg, now))
  {
    hide Ran, ReplyAt, RestEnabled, MoveRest;
    Seated(cfg, rng, trail, st);
    RanSlots(cfg, rng, trail, st, ReplyStep(from, slot, reqStep, step, first, priorAgg, now));
  }

  lemma RanDrive(cfg: Config, rng: Rng, trail: seq<Micro>, st: State, slot: Slot, now: nat)
    requires Ran(cfg, rng, trail, st) && CanDrive(cfg, st, slot)
    ensures Ran(cfg, rng, trail + [DriveStep(slot, now)], DriveAt(cfg, rng, st, slot, now))
  {
    hide Ran, DriveAt, RestEnabled, MoveRest;
    Seated(cfg, rng, trail, st);
    RanSlots(cfg, rng, trail, st, DriveStep(slot, now));
  }

  lemma RanRetransmit(cfg: Config, rng: Rng, trail: seq<Micro>, st: State, slot: Slot)
    requires Ran(cfg, rng, trail, st) && CanFold(cfg, st, slot)
    ensures Ran(cfg, rng, trail + [RetransmitStep(slot)], Retransmitted(st, slot))
  {
    hide Ran, Retransmitted, RestEnabled, MoveRest;
    Seated(cfg, rng, trail, st);
    RanSlots(cfg, rng, trail, st, RetransmitStep(slot));
  }

  lemma RanOpen(cfg: Config, rng: Rng, trail: seq<Micro>, st: State, slot: Slot, cmds: seq<Command>, asLeader: bool,
        now: nat)
    requires Ran(cfg, rng, trail, st) && Takeable(cfg, st, cmds) && CanOpen(cfg, st, slot, cmds, asLeader)
    ensures Ran(cfg, rng, trail + [OpenStep(slot, cmds, asLeader, now)],
      OpenSlot(cfg, rng, st, slot, cmds, asLeader, now))
  {
    hide Ran, OpenSlot, RestEnabled, MoveRest;
    Seated(cfg, rng, trail, st);
    RanSlots(cfg, rng, trail, st, OpenStep(slot, cmds, asLeader, now));
  }

  lemma RanLearn(cfg: Config, rng: Rng, trail: seq<Micro>, st: State, slot: Slot, value: Bytes, now: nat)
    requires Ran(cfg, rng, trail, st) && CanLearn(cfg, st, slot, value)
    ensures Ran(cfg, rng, trail + [LearnStep(slot, value, now)], Install(cfg, st, slot, value, false, now))
  {
    hide Ran, Install, RestEnabled, MoveRest;
    Seated(cfg, rng, trail, st);
    RanSlots(cfg, rng, trail, st, LearnStep(slot, value, now));
  }

  lemma RanFree(cfg: Config, rng: Rng, trail: seq<Micro>, st: State)
    requires Ran(cfg, rng, trail, st) && |st.peerAcked| == cfg.N() > cfg.me
    requires st.gcFloor < Least(st.peerAcked) && st.peerAcked[cfg.me] == st.contig
    ensures Ran(cfg, rng, trail + [FreeStep], FreeNext(st))
  {
    hide Ran, FreeNext, RestEnabled, MoveRest;
    RanSlots(cfg, rng, trail, st, FreeStep);
  }

  lemma RanEvict(cfg: Config, rng: Rng, trail: seq<Micro>, st: State)
    requires Ran(cfg, rng, trail, st)
    requires TotalBytes(st.retained) > cfg.maxRetainedBytes && st.gcFloor + 1 in st.retained
      && st.gcFloor + 1 <= st.contig
    ensures Ran(cfg, rng, trail + [EvictStep], FreeNext(st))
  {
    hide Ran, FreeNext, RestEnabled, MoveRest;
    Seated(cfg, rng, trail, st);
    RanSlots(cfg, rng, trail, st, EvictStep);
  }

  lemma RanPool(cfg: Config, rng: Rng, trail: seq<Micro>, st: State, cmd: Command, now: nat)
    requires Ran(cfg, rng, trail, st) && !IsDelivered(st.dedup, cmd.id) && cmd.id !in st.pool
      && |cmd.data| <= MAX_COMMAND_BYTES
    requires TotalCost(st.pool) + Cost(|cmd.data|) <= cfg.maxPoolBytes && cfg.N() > 1
    requires Known(cfg, st, cmd.id) && Batch.IdFits(cmd.id)
    ensures Ran(cfg, rng, trail + [PoolStep(cmd, now)], Pooled(st, cmd, now))
  {
    hide Ran, Pooled, SlotsEnabled, MoveSlots;
    Seated(cfg, rng, trail, st);
    RanRest(cfg, rng, trail, st, PoolStep(cmd, now));
  }

  // ---- the queue of effects ----

  lemma QueueGrows(all: seq<Action>, k: nat, more: seq<Action>)
    requires k <= |all|
    ensures (all + more)[k..] == all[k..] + more
  {
  }

  // ---- delivering and freeing ----

  lemma FilterNone(dedup: DedupMap)
    ensures Filter(dedup, []) == (dedup, [])
  {
  }

  lemma FilterOne(dedup: DedupMap, cmds: seq<Command>, k: nat)
    requires k < |cmds|
    ensures
      var (before, kept) := Filter(dedup, cmds[..k]);
      Filter(dedup, cmds[..k + 1]) == (MarkDelivered(before, cmds[k].id),
        if OriginOf(before, cmds[k].id).Has(cmds[k].id.seqno) then kept else kept + [cmds[k]])
  {
    hide OriginOf, MarkDelivered;
    assert cmds[..k + 1][..k] == cmds[..k];
  }

  lemma WithoutNone(pool: map<CommandId, PoolEntry>)
    ensures Without(pool, []) == pool
  {
  }

  lemma WithoutOne(pool: map<CommandId, PoolEntry>, cmds: seq<Command>, cmd: Command)
    ensures Without(pool, cmds + [cmd]) == Without(pool, cmds) - {cmd.id}
  {
    hide Rides;
    forall id ensures Rides(cmds + [cmd], id) <==> Rides(cmds, id) || cmd.id == id {
      RidesAppend(cmds, cmd, id);
    }
  }

  lemma BytesWithout(values: map<Slot, Bytes>, k: Slot)
    requires k in values
    ensures TotalBytes(values) == |values[k]| + TotalBytes(values - {k})
  {
    BytesSplit(values, k);
  }

  /** Commands riding in none of our proposals. */
  ghost function UnassignedIds(pool: map<CommandId, PoolEntry>): set<CommandId> {
    set id | id in pool && pool[id].proposedIn.None?
  }

  ghost predicate PendingOk(st: State) {
    st.pendingSince.Some? <==> AnyUnassigned(st.pool)
  }

  /** Delivery and freeing only take away: no slot changes, none ahead of the frontier goes. */
  ghost predicate Shrinks(st: State, next: State) {
    && next.contig >= st.contig && next.maxOpen == st.maxOpen
    && (forall s :: s in next.slots ==> s in st.slots && next.slots[s] == st.slots[s])
    && (forall s :: s in st.slots && s > next.contig ==> s in next.slots)
    && (forall s :: s in next.retained ==> s in st.retained)
    && UnassignedIds(next.pool) <= UnassignedIds(st.pool)
  }

  lemma ShrinksMore(a: State, b: State, c: State)
    requires Shrinks(a, b) && Shrinks(b, c)
    ensures Shrinks(a, c)
  {
  }

  lemma SameShrinks(st: State, next: State)
    requires SameStorage(st, next) && SamePool(st, next)
    ensures Shrinks(st, next)
  {
  }

  lemma DeliverShrinks(st: State)
    requires st.contig + 1 in st.retained
    ensures Shrinks(st, DeliverNext(st))
  {
    hide Filter, Commands;
  }

  lemma FreeShrinks(st: State)
    requires st.gcFloor < st.contig
    ensures Shrinks(st, FreeNext(st)) && SamePool(st, FreeNext(st))
  {
  }

  lemma RefreshedIsPending(st: State, now: nat)
    ensures PendingOk(Refreshed(st, now))
  {
  }

  lemma SamePending(st: State, next: State)
    requires PendingOk(st) && next.pool == st.pool && next.pendingSince == st.pendingSince
    ensures PendingOk(next)
  {
  }

  /** The oldest retained value, when delivered, is the one just above the floor. */
  lemma OldestIsNext(cfg: Config, st: State, oldest: Slot)
    requires StorageOk(cfg, st) && oldest in st.retained && oldest <= st.contig && forall s :: s in st.retained ==>
      oldest <= s
    ensures oldest == st.gcFloor + 1
  {
    assert SlotOk(cfg, st, oldest);
    assert st.gcFloor < st.gcFloor + 1 <= st.contig;
    assert st.gcFloor + 1 in st.retained;
  }

  lemma RanStorage(cfg: Config, rng: Rng, trail: seq<Micro>, st: State)
    requires Ran(cfg, rng, trail, st)
    ensures StorageOk(cfg, st) && PoolOk(cfg, st)
  {
    hide Ran, StorageOk, PoolOk, LogOk, DeliveryOk, BudgetOk;
    RanSound(cfg, rng, trail, st);
  }

  /** Freeing follows the acknowledgments, our own among them: no slot is held that every
      replica has delivered. */
  ghost predicate FreedAcked(cfg: Config, st: State) {
    st.peerAcked != [] && cfg.me < |st.peerAcked| && st.peerAcked[cfg.me] == st.contig
      && Least(st.peerAcked) <= st.gcFloor
  }

  /** Freeing ran to its end. */
  ghost predicate Collected(cfg: Config, st: State) {
    TotalBytes(st.retained) <= cfg.maxRetainedBytes || forall s :: s in st.retained ==> s > st.contig
  }

  lemma DeliverMoves(st: State)
    requires st.contig + 1 in st.retained
    ensures DeliverNext(st).contig == st.contig + 1 && DeliverNext(st).retained == st.retained
  {
    hide Filter, Commands, Without;
  }

  lemma SweptAtLast(cfg: Config, st: State, next: State)
    requires Shrinks(st, next) && next.contig == st.contig && st.contig + 1 !in st.retained && Collected(cfg, next)
    ensures Swept(cfg, next)
  {
  }

  // ---- recording and driving ----

  lemma CanRecordHere(cfg: Config, rng: Rng, trail: seq<Micro>, st: State, from: nat, slot: Slot, step: nat)
    requires Ran(cfg, rng, trail, st) && from < cfg.N() && from != cfg.me && step >= 4
    requires st.gcFloor < slot <= st.contig + cfg.AheadWindow()
    ensures CanRecord(cfg, st, from, slot, step)
  {
    hide Ran, PoolOk, DeliveryOk, BudgetOk;
    RanSound(cfg, rng, trail, st);
    if slot in st.slots {
      SlotFacts(cfg, st, slot);
    }
  }

  lemma NodeHere(st: State, slot: Slot, now: nat)
    requires slot !in st.slots ==> slot !in st.log
    ensures NodeOf(st, slot).recorder == SlotOr(st, slot, now).recorder
      && NodeOf(st, slot).proposer == SlotOr(st, slot, now).proposer
  {
  }

  /** The slot as an open recorder leaves it. */
  function RecordedSlot(s: SlotState, step: nat, proposal: Proposal, now: nat): SlotState
    requires s.recorder.Open?
  {
    var after := Recorder.Record(s.recorder.isr, step, proposal);
    s.(recorder := Open(after), lastProgress := if after != s.recorder.isr then now else s.lastProgress)
  }

  lemma RecordedIs(st: State, slot: Slot, step: nat, proposal: Proposal, now: nat)
    requires NodeOf(st, slot).recorder.Open? && NodeOf(st, slot).recorder.isr.WellFormed() && step >= 4
    requires slot !in st.slots ==> slot !in st.log
    ensures SlotOr(st, slot, now).recorder.Open?
    ensures Recorded(st, slot, step, proposal, now).slots[slot] ==
      RecordedSlot(SlotOr(st, slot, now), step, proposal, now)
  {
    hide Recorder.Record, Consensus.HistRecord;
    NodeHere(st, slot, now);
  }

  lemma RecordAtIs(cfg: Config, st: State, from: nat, slot: Slot, step: nat, proposal: Proposal, now: nat)
    requires CanRecord(cfg, st, from, slot, step)
    ensures
      var next := RecordAt(cfg, st, from, slot, step, proposal, now);
      if slot in st.slots && st.slots[slot].recorder.Decided? then
        next == Emit(st, [SendOne(cfg, st, from, Wire.Decide(slot, st.slots[slot].recorder.value))])
      else
        && NodeOf(st, slot).recorder.Open? && NodeOf(st, slot).recorder.isr.WellFormed()
        && var recorded := Recorded(st, slot, step, proposal, now);
        && var summary := Summarize(recorded.slots[slot].recorder.isr);
        next == Emit(recorded, [SendOne(cfg, st, from,
          Wire.RecordReply(slot, step, summary.step, AnswerFirst(summary, step, proposal), summary.priorAgg))])
  {
    hide Recorded, Emit;
    NodeHere(st, slot, now);
  }

  /** What our own recorder's answer makes of a proposer that is being driven. */
  function DriveFold(cfg: Config, rng: Rng, st: State, slot: Slot, now: nat): (RunState, Reaction)
    requires CanDrive(cfg, st, slot)
  {
    var recorded := OwnRecord(cfg, st, slot, now);
    var summary := Summarize(recorded.slots[slot].recorder.isr);
    FoldReply(recorded.slots[slot].proposer.run, cfg.MySeat(), now, DrawsAt(rng, recorded.drawn, cfg.N()), cfg.me,
      st.slots[slot].proposer.run.step, summary.step, summary.first, summary.priorAgg)
  }

  lemma DriveResult(cfg: Config, rng: Rng, st: State, slot: Slot, now: nat)
    requires CanDrive(cfg, st, slot)
    ensures
      var recorded := OwnRecord(cfg, st, slot, now);
      var (run, reaction) := DriveFold(cfg, rng, st, slot, now);
      match reaction
      case Choose(value) => DriveAt(cfg, rng, st, slot, now) == Install(cfg, recorded, slot, value, true, now)
      case Resend => DriveAt(cfg, rng, st, slot, now) == Moved(cfg, recorded, slot, run)
      case Quiet =>
        DriveAt(cfg, rng, st, slot, now) ==
          Emit(Kept(recorded, slot, run), ToOthers(cfg, recorded.contig, RecordTo(slot, run)))
  {
    hide OwnRecord, FoldReply, ToOthers, Emit;
    var recorded := OwnRecord(cfg, st, slot, now);
    var summary := Summarize(recorded.slots[slot].recorder.isr);
    var (run, reaction) := DriveFold(cfg, rng, st, slot, now);
    OwnRecordUnsends(cfg, st, slot, now);
    FoldReplySends(recorded.slots[slot].proposer.run, cfg.MySeat(), now, DrawsAt(rng, recorded.drawn, cfg.N()), cfg.me,
      st.slots[slot].proposer.run.step, summary.step, summary.first, summary.priorAgg);
    EmitNothing(Moved(cfg, recorded, slot, run));
    if reaction.Choose? {
      InstallIsDone(cfg, recorded, slot, reaction.value, now);
      EmitNothing(Install(cfg, recorded, slot, reaction.value, true, now));
    }
  }

  lemma RecordedSlotIn(cfg: Config, st: State, slot: Slot, now: nat)
    requires CanDrive(cfg, st, slot)
    ensures slot in OwnRecord(cfg, st, slot, now).slots
  {
  }

  lemma EmitNothing(st: State)
    ensures Emit(st, []) == st
  {
  }

  lemma InstallIsDone(cfg: Config, st: State, slot: Slot, value: Bytes, now: nat)
    requires cfg.me < |cfg.ids|
    ensures DriveSends(cfg, Install(cfg, st, slot, value, true, now), slot) == []
  {
    hide ToOthers, Emit, Commands, Release;
  }

  lemma OwnRecordUnsends(cfg: Config, st: State, slot: Slot, now: nat)
    requires CanDrive(cfg, st, slot)
    ensures !OwnRecord(cfg, st, slot, now).slots[slot].proposer.run.needsSend
  {
    hide Recorder.Record, Consensus.HistRecord;
  }

  /** A fold asks for the step to be sent exactly when it moved on. */
  lemma FoldReplySends(run: RunState, seat: Seat, now: nat, draws: seq<Draw>, from: nat, reqStep: nat, step: nat,
        first: Proposal, priorAgg: Option<Proposal>)
    requires seat.Valid() && Fits(run, seat.N()) && |draws| == seat.N() && from < seat.N()
    ensures
      var (after, reaction) := FoldReply(run, seat, now, draws, from, reqStep, step, first, priorAgg);
      && (reaction.Resend? ==> after.needsSend && after.sentAt == now && after.replyCount == 0)
      && (reaction.Quiet? ==> after.needsSend == run.needsSend && after.sentAt == run.sentAt)
  {
    hide Types.Max;
  }

  // ---- deciding ----

  lemma InstallFields(cfg: Config, st: State, slot: Slot, value: Bytes, mine: bool, now: nat)
    requires cfg.me < |cfg.ids|
    ensures
      var next := Install(cfg, st, slot, value, mine, now);
      && next.slots == st.slots[slot := SlotOr(st, slot, now).(recorder := RecorderSlot.Decided(value),
        proposer := Done)]
      && next.retained == st.retained[slot := value] && next.pool == Release(st.pool, slot, Commands(value))
      && next.actions == st.actions + (if mine then ToOthers(cfg, st.contig, DecideTo(slot, value)) else [])
      && next.contig == st.contig && next.gcFloor == st.gcFloor && next.peerAcked == st.peerAcked
        && next.dedup == st.dedup
      && next.nextSeq == st.nextSeq && next.maxOpen == st.maxOpen && next.pendingSince == st.pendingSince
      && next.learning == st.learning && next.learnAttempts == st.learnAttempts && next.lastPing == st.lastPing
        && next.drawn == st.drawn
  {
    hide ToOthers, Commands, Release, NodeOf, SlotOr;
  }

  lemma BytesWith(values: map<Slot, Bytes>, k: Slot, value: Bytes)
    requires k !in values
    ensures TotalBytes(values[k := value]) == TotalBytes(values) + |value|
  {
    BytesSplit(values[k := value], k);
    assert values[k := value] - {k} == values;
  }

  lemma CommandsDecoded(value: Bytes)
    ensures Commands(value) == Batch.ParseBatch(value).GetOr([])
  {
    hide Batch.ParseBatch;
  }

  // ---- batching ----

  /** Pool order: by origin, then boot, then sequence number. */
  predicate IdLess(a: CommandId, b: CommandId) {
    || a.origin < b.origin
    || (a.origin == b.origin && a.boot < b.boot)
    || (a.origin == b.origin && a.boot == b.boot && a.seqno < b.seqno)
  }

  /** All ids of the pool, in ascending order. */
  ghost predicate InOrder(ids: seq<CommandId>, pool: map<CommandId, PoolEntry>) {
    && (forall j, k :: 0 <= j < k < |ids| ==> IdLess(ids[j], ids[k]))
    && (forall k :: 0 <= k < |ids| ==> ids[k] in pool)
    && (forall id :: id in pool ==> id in ids)
  }

  /** The batchable commands among some ids, in their order. */
  function EligibleOf(st: State, ids: seq<CommandId>): seq<Command> {
    if ids == [] then []
    else
      var id := ids[|ids| - 1];
      EligibleOf(st, ids[..|ids| - 1]) + if Eligible(st, id) then [Command(id, st.pool[id].data)] else []
  }

  /** A batch filled from the front of `all`: it takes commands while it is below the size
      limit and the next one fits, and at least one. */
  ghost predicate IsFill(cfg: Config, all: seq<Command>, batch: seq<Command>) {
    && batch <= all
    && (|batch| > 1 ==> Batch.CommandsSize(batch) <= cfg.maxBatchBytes)
    && (batch != [] ==> Batch.CommandsSize(batch[..|batch| - 1]) < cfg.maxBatchBytes)
    && (|batch| < |all| ==>
         batch != [] && (Batch.CommandsSize(batch) >= cfg.maxBatchBytes
                         || Batch.CommandsSize(batch + [all[|batch|]]) > cfg.maxBatchBytes))
  }

  /** A batch taken from the batchable commands of the pool in ascending order of their ids,
      as many as fit. */
  ghost predicate FullBatch(cfg: Config, st: State, batch: seq<Command>) {
    exists order :: InOrder(order, st.pool) && IsFill(cfg, EligibleOf(st, order), batch)
  }

  lemma {:induction false} EligibleAre(st: State, ids: seq<CommandId>, k: nat)
    requires k < |EligibleOf(st, ids)|
    ensures
      var cmd := EligibleOf(st, ids)[k];
      cmd.id in ids && Eligible(st, cmd.id) && cmd.data == st.pool[cmd.id].data
  {
    hide Eligible;
    var shorter := EligibleOf(st, ids[..|ids| - 1]);
    if k < |shorter| {
      EligibleAre(st, ids[..|ids| - 1], k);
    }
  }

  lemma {:induction false} EligibleInOrder(st: State, ids: seq<CommandId>, j: nat, k: nat)
    requires j < k < |EligibleOf(st, ids)| && forall a, b :: 0 <= a < b < |ids| ==> IdLess(ids[a], ids[b])
    ensures IdLess(EligibleOf(st, ids)[j].id, EligibleOf(st, ids)[k].id)
  {
    hide Eligible;
    var shorter := ids[..|ids| - 1];
    if k < |EligibleOf(st, shorter)| {
      EligibleInOrder(st, shorter, j, k);
    } else {
      EligibleAre(st, shorter, j);
      var a :| 0 <= a < |shorter| && shorter[a] == EligibleOf(st, shorter)[j].id;
      assert IdLess(ids[a], ids[|ids| - 1]);
    }
  }

  lemma {:induction false} EligibleAll(st: State, ids: seq<CommandId>, id: CommandId)
    requires id in ids && Eligible(st, id)
    ensures exists k :: 0 <= k < |EligibleOf(st, ids)| && EligibleOf(st, ids)[k].id == id
  {
    hide Eligible;
    var n := |ids| - 1;
    if id == ids[n] {
      assert EligibleOf(st, ids)[|EligibleOf(st, ids)| - 1].id == id;
    } else {
      EligibleAll(st, ids[..n], id);
      var k :| 0 <= k < |EligibleOf(st, ids[..n])| && EligibleOf(st, ids[..n])[k].id == id;
      assert EligibleOf(st, ids)[k].id == id;
    }
  }

  ghost predicate NoneEligible(st: State) {
    forall id :: !Eligible(st, id)
  }

  lemma FillTakes(cfg: Config, st: State, ids: seq<CommandId>, batch: seq<Command>)
    requires InOrder(ids, st.pool) && IsFill(cfg, EligibleOf(st, ids), batch)
    ensures Takeable(cfg, st, batch)
    ensures batch == [] ==> NoneEligible(st)
  {
    hide Eligible;
    forall k | 0 <= k < |batch|
      ensures Eligible(st, batch[k].id) && batch[k].id in st.pool && batch[k].data == st.pool[batch[k].id].data
    {
      EligibleAre(st, ids, k);
      EligibleInPool(st, batch[k].id);
    }
    forall j, k | 0 <= j < k < |batch| ensures batch[j].id != batch[k].id {
      EligibleInOrder(st, ids, j, k);
    }
    if batch == [] {
      forall id ensures !Eligible(st, id) {
        if Eligible(st, id) {
          EligibleInPool(st, id);
          EligibleAll(st, ids, id);
        }
      }
    }
  }

  lemma EligibleInPool(st: State, id: CommandId)
    requires Eligible(st, id)
    ensures id in st.pool
  {
  }

  lemma {:induction false} SizeAppend(cmds: seq<Command>, cmd: Command)
    ensures Batch.CommandsSize(cmds + [cmd]) == Batch.CommandsSize(cmds) + |cmd.data| + COMMAND_WIRE_OVERHEAD
  {
    if cmds != [] {
      SizeAppend(cmds[1..], cmd);
      assert (cmds + [cmd])[1..] == cmds[1..] + [cmd];
    }
  }

  lemma EligibleStep(st: State, ids: seq<CommandId>, k: nat)
    requires k < |ids|
    ensures EligibleOf(st, ids[..k + 1]) ==
      EligibleOf(st, ids[..k]) + if Eligible(st, ids[k]) then [Command(ids[k], st.pool[ids[k]].data)] else []
  {
    hide Eligible;
    assert ids[..k + 1][..k] == ids[..k];
  }

  lemma {:induction false} EligiblePrefix(st: State, ids: seq<CommandId>, k: nat)
    requires k <= |ids|
    ensures EligibleOf(st, ids[..k]) <= EligibleOf(st, ids)
    decreases |ids| - k
  {
    hide Eligible;
    if k < |ids| {
      EligiblePrefix(st, ids, k + 1);
      EligibleStep(st, ids, k);
    } else {
      assert ids[..k] == ids;
    }
  }

  /** What the filled batch meets while it can still take more. */
  ghost predicate Filling(cfg: Config, batch: seq<Command>) {
    batch != [] ==>
      Batch.CommandsSize(batch) < cfg.maxBatchBytes && Batch.CommandsSize(batch[..|batch| - 1]) < cfg.maxBatchBytes
  }

  lemma FillStops(cfg: Config, all: seq<Command>, batch: seq<Command>, cmd: Command)
    requires Filling(cfg, batch) && batch + [cmd] <= all && batch != []
      && Batch.CommandsSize(batch + [cmd]) > cfg.maxBatchBytes
    ensures IsFill(cfg, all, batch)
  {
    assert all[..|batch| + 1] == batch + [cmd];
    assert all[|batch|] == cmd;
  }

  lemma FillGrows(cfg: Config, all: seq<Command>, batch: seq<Command>, cmd: Command)
    requires Filling(cfg, batch) && batch + [cmd] <= all
      && (batch == [] || Batch.CommandsSize(batch + [cmd]) <= cfg.maxBatchBytes)
    requires cfg.maxBatchBytes >= 1
    ensures
      if Batch.CommandsSize(batch + [cmd]) >= cfg.maxBatchBytes then IsFill(cfg, all, batch + [cmd])
        else Filling(cfg, batch + [cmd])
  {
    assert (batch + [cmd])[..|batch + [cmd]| - 1] == batch;
  }

  lemma FillsFromNothing(cfg: Config)
    ensures Filling(cfg, []) && Batch.CommandsSize([]) == 0
  {
  }

  lemma FillEnds(cfg: Config, all: seq<Command>)
    requires Filling(cfg, all)
    ensures IsFill(cfg, all, all)
  {
  }

  lemma AssignNone(pool: map<CommandId, PoolEntry>, slot: Slot)
    ensures Assign(pool, [], slot) == pool
  {
  }

  lemma AssignOne(pool: map<CommandId, PoolEntry>, cmds: seq<Command>, cmd: Command, slot: Slot)
    requires cmd.id in pool
    ensures
      var before := Assign(pool, cmds, slot);
      cmd.id in before && Assign(pool, cmds + [cmd], slot) ==
        before[cmd.id := before[cmd.id].(proposedIn := Some(slot))]
  {
    hide Rides;
    forall id ensures Rides(cmds + [cmd], id) <==> Rides(cmds, id) || cmd.id == id {
      RidesAppend(cmds, cmd, id);
    }
  }

  lemma AssignKeeps(pool: map<CommandId, PoolEntry>, cmds: seq<Command>, slot: Slot)
    ensures TotalCost(Assign(pool, cmds, slot)) == TotalCost(pool)
  {
    hide Rides, TotalCost;
    TotalCostSame(pool, Assign(pool, cmds, slot));
  }

  lemma SamePoolSelf(st: State)
    ensures SamePool(st, st)
  {
  }

  lemma SamePoolMeans(st: State, next: State)
    requires SamePool(st, next)
    ensures next.pool == st.pool
  {
  }

  lemma SamePoolTwice(a: State, b: State, c: State)
    requires SamePool(a, b) && SamePool(b, c)
    ensures SamePool(a, c)
  {
  }
}
