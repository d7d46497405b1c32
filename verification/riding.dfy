/** No command is stranded. */
module Riding {
  // What waits in the pool is undelivered, and what is marked as proposed does ride in a slot
  // that is still to be delivered.

  import opened Types
  import opened Recorder
  import opened SlotLogic
  import opened Proposer
  import opened Pooling
  import opened ReplicaState
  import opened ReplicaInvariant
  import opened Delivery

  /** Slot `s` is ahead of the frontier, and either our proposer for it is running or it
      is decided with the command in its batch. */
  ghost predicate RidesAt(st: State, id: CommandId, s: Slot) {
    && s > st.contig && s in st.slots
    && (st.slots[s].proposer.Running?
        || (st.slots[s].recorder.Decided? && Rides(Commands(st.slots[s].recorder.value), id)))
  }

  ghost predicate EntryOk(st: State, id: CommandId)
    requires id in st.pool
  {
    !IsDelivered(st.dedup, id) && (st.pool[id].proposedIn.Some? ==> RidesAt(st, id, st.pool[id].proposedIn.value))
  }

  ghost predicate RideOk(st: State) {
    forall id :: id in st.pool ==> EntryOk(st, id)
  }

  /** Premise on what is decided: its command ids were given out by their origins. */
  ghost predicate LogKnown(cfg: Config, st: State) {
    forall s :: s in st.log ==> BatchKnown(cfg, st, Commands(st.log[s]))
  }

  ghost predicate BatchKnown(cfg: Config, st: State, cmds: seq<Command>) {
    forall k :: 0 <= k < |cmds| ==> Known(cfg, st, cmds[k].id)
  }

  lemma RidersKnown(cfg: Config, st: State, cmds: seq<Command>, id: CommandId)
    requires BatchKnown(cfg, st, cmds) && Rides(cmds, id)
    ensures Known(cfg, st, id)
  {
    var k :| 0 <= k < |cmds| && cmds[k].id == id;
  }

  // ---- frames ----

  /** A slot that carried something of ours still does. */
  ghost predicate StillCarries(st: State, next: State, s: Slot) {
    s in st.slots && s > st.contig ==>
      && s in next.slots
      && (st.slots[s].proposer.Running? ==> next.slots[s].proposer.Running?)
      && (st.slots[s].recorder.Decided? ==> next.slots[s].recorder == st.slots[s].recorder)
  }

  lemma CarryKeeps(st: State, next: State)
    requires RideOk(st) && SamePool(st, next) && next.contig == st.contig
    requires forall s :: StillCarries(st, next, s)
    ensures RideOk(next)
  {
    hide IsDelivered, Rides, Commands;
    forall id | id in next.pool ensures EntryOk(next, id) {
      assert EntryOk(st, id);
      if st.pool[id].proposedIn.Some? {
        assert StillCarries(st, next, st.pool[id].proposedIn.value);
      }
    }
  }

  lemma OneSlotKeeps(st: State, next: State, slot: Slot)
    requires RideOk(st) && SamePool(st, next) && OnlySlot(st, next, slot) && StillCarries(st, next, slot)
    ensures RideOk(next)
  {
    hide RideOk;
    CarryKeeps(st, next);
  }

  lemma SameSlotsKeeps(st: State, next: State)
    requires RideOk(st) && SamePool(st, next) && SameStorage(st, next)
    ensures RideOk(next)
  {
    hide RideOk;
    CarryKeeps(st, next);
  }

  // ---- deciding and delivering ----

  lemma InstallKeepsRide(cfg: Config, st: State, slot: Slot, value: Bytes, mine: bool, now: nat)
    requires RideOk(st) && cfg.me < |cfg.ids|
    ensures RideOk(Install(cfg, st, slot, value, mine, now))
  {
    hide Emit, ToOthers, Commands, Rides, IsDelivered, SlotOr, NodeOf;
    var next := Install(cfg, st, slot, value, mine, now);
    forall id | id in next.pool ensures EntryOk(next, id) {
      assert EntryOk(st, id);
    }
  }

  lemma DeliverKeepsRide(cfg: Config, st: State)
    requires RideOk(st) && StorageOk(cfg, st) && PoolOk(cfg, st) && st.contig + 1 in st.retained
    ensures RideOk(DeliverNext(st))
  {
    hide RideOk, StorageOk, PoolOk, Without, Filter, Commands, DeliverNext;
    forall id | id in DeliverNext(st).pool ensures EntryOk(DeliverNext(st), id) {
      DeliverKeepsEntry(cfg, st, id);
    }
    RideFrom(DeliverNext(st));
  }

  lemma RideFrom(st: State)
    requires forall id :: id in st.pool ==> EntryOk(st, id)
    ensures RideOk(st)
  {
  }

  lemma RideHas(st: State, id: CommandId)
    requires RideOk(st) && id in st.pool
    ensures EntryOk(st, id)
  {
  }

  lemma PoolHas(cfg: Config, st: State, id: CommandId)
    requires PoolOk(cfg, st)
    ensures AllTight(st.dedup)
    ensures id in st.pool ==> Known(cfg, st, id)
  {
  }

  lemma DecidedNext(cfg: Config, st: State, s: Slot)
    requires StorageOk(cfg, st) && s in st.retained
    ensures s in st.slots && st.slots[s].recorder == RecorderSlot.Decided(st.retained[s]) && st.slots[s].proposer.Done?
  {
    assert SlotOk(cfg, st, s);
  }

  lemma DeliverKeepsEntry(cfg: Config, st: State, id: CommandId)
    requires RideOk(st) && StorageOk(cfg, st) && PoolOk(cfg, st) && st.contig + 1 in st.retained
      && id in DeliverNext(st).pool
    ensures EntryOk(DeliverNext(st), id)
  {
    hide RideOk, StorageOk, PoolOk, Filter, Rides, Commands, IsDelivered, AllTight;
    var next := DeliverNext(st);
    var cmds := Commands(st.retained[st.contig + 1]);
    RideHas(st, id);
    PoolHas(cfg, st, id);
    DecidedNext(cfg, st, st.contig + 1);
    FilterDelivers(st.dedup, cmds, id);
    FilterMarks(st.dedup, cmds, id);
    DeliveredMeansEntry(st.dedup, id);
    DeliveredMeansEntry(next.dedup, id);
  }

  lemma SettledKeepsRide(cfg: Config, st: State, slot: Slot, run: RunState, reaction: Reaction, now: nat)
    requires RideOk(st) && cfg.me < |cfg.ids| && slot in st.slots
    ensures RideOk(Settled(cfg, st, slot, run, reaction, now))
  {
    hide Install, Kept, Moved, RideOk;
    match reaction
    case Choose(value) => InstallKeepsRide(cfg, st, slot, value, true, now);
    case Quiet => OneSlotKeeps(st, Kept(st, slot, run), slot);
    case Resend => OneSlotKeeps(st, Moved(cfg, st, slot, run), slot);
  }

  lemma ReplyKeepsRide(cfg: Config, rng: Rng, st: State, slot: Slot, from: nat, reqStep: nat, step: nat,
        first: ReplyFirst, priorAgg: Option<Proposal>, now: nat)
    requires RideOk(st) && CanFold(cfg, st, slot) && from < cfg.N()
    ensures RideOk(ReplyAt(cfg, rng, st, slot, from, reqStep, step, first, priorAgg, now))
  {
    hide FoldReply, Settled, RideOk;
    match Reconstitute(st.slots[slot].proposer.run, from, reqStep, first)
    case None =>
    case Some(p) =>
      var (run, reaction) := FoldReply(st.slots[slot].proposer.run, cfg.MySeat(), now, DrawsAt(rng, st.drawn, cfg.N()),
          from, reqStep, step, p, priorAgg);
      SettledKeepsRide(cfg, st, slot, run, reaction, now);
  }

  lemma DriveKeepsRide(cfg: Config, rng: Rng, st: State, slot: Slot, now: nat)
    requires RideOk(st) && CanDrive(cfg, st, slot)
    ensures RideOk(DriveAt(cfg, rng, st, slot, now))
  {
    hide FoldReply, Settled, OwnRecord, Emit, ToOthers, RideOk;
    var recorded := OwnRecord(cfg, st, slot, now);
    OneSlotKeeps(st, recorded, slot);
    var summary := Summarize(recorded.slots[slot].recorder.isr);
    var step := st.slots[slot].proposer.run.step;
    var (run, reaction) := FoldReply(recorded.slots[slot].proposer.run, cfg.MySeat(), now,
      DrawsAt(rng, recorded.drawn, cfg.N()),
        cfg.me, step, summary.step, summary.first, summary.priorAgg);
    SettledKeepsRide(cfg, recorded, slot, run, reaction, now);
    var after := TakeReply(cfg, rng, recorded, slot, cfg.me, step, summary.step, summary.first, summary.priorAgg, now);
    SameSlotsKeeps(after, DriveAt(cfg, rng, st, slot, now));
  }

  lemma RecordKeepsRide(cfg: Config, st: State, from: nat, slot: Slot, step: nat, proposal: Proposal, now: nat)
    requires RideOk(st) && CanRecord(cfg, st, from, slot, step)
    ensures RideOk(RecordAt(cfg, st, from, slot, step, proposal, now))
  {
    hide Recorded, Emit, RideOk;
    var next := RecordAt(cfg, st, from, slot, step, proposal, now);
    if NodeOf(st, slot).recorder.Decided? {
      SameSlotsKeeps(st, next);
    } else {
      var recorded := Recorded(st, slot, step, proposal, now);
      OneSlotKeeps(st, recorded, slot);
      SameSlotsKeeps(recorded, next);
    }
  }

  lemma OpenKeepsRide(cfg: Config, rng: Rng, st: State, slot: Slot, cmds: seq<Command>, asLeader: bool, now: nat)
    requires RideOk(st) && CanOpen(cfg, st, slot, cmds, asLeader) && cfg.me < |cfg.ids|
    requires slot in st.slots ==> st.slots[slot].recorder.Open?
    ensures RideOk(OpenSlot(cfg, rng, st, slot, cmds, asLeader, now))
  {
    hide Rides, IsDelivered, DrawsAt, CanOpen;
    var next := OpenSlot(cfg, rng, st, slot, cmds, asLeader, now);
    assert slot > st.contig && next.slots[slot].proposer.Running? by {
      OpenRuns(cfg, rng, st, slot, cmds, asLeader, now);
    }
    forall id | id in next.pool ensures EntryOk(next, id) {
      assert EntryOk(st, id);
    }
  }

  lemma OpenRuns(cfg: Config, rng: Rng, st: State, slot: Slot, cmds: seq<Command>, asLeader: bool, now: nat)
    requires CanOpen(cfg, st, slot, cmds, asLeader) && cfg.me < |cfg.ids|
    ensures
      var next := OpenSlot(cfg, rng, st, slot, cmds, asLeader, now);
      slot > st.contig && next.slots[slot].proposer.Running?
  {
    hide Assign, DrawsAt;
  }

  lemma FreeKeepsRide(st: State)
    requires RideOk(st) && st.gcFloor + 1 <= st.contig
    ensures RideOk(FreeNext(st))
  {
    hide RideOk;
    CarryKeeps(st, FreeNext(st));
  }

  // ---- pooling ----

  /** A sequence number not given out yet is not delivered. */
  lemma UngivenUndelivered(cfg: Config, st: State, id: CommandId)
    requires LogKnown(cfg, st) && DeliveryOk(st) && id.seqno >= 1 && !Known(cfg, st, id)
    ensures !IsDelivered(st.dedup, id)
  {
    hide Known, Commands, Rides, DedupAfter, Expected, Deliveries, BatchKnown, Marks;
    DeliveredExactly(st.log, st.contig, id);
    if InSomeBatch(st.log, st.contig, id) {
      var s :| 1 <= s <= st.contig && s in st.log && Rides(Commands(st.log[s]), id);
      RidersKnown(cfg, st, Commands(st.log[s]), id);
    }
    MarksMeansEntry(st.dedup, id);
  }

  lemma MarksMeansEntry(d: DedupMap, id: CommandId)
    requires id.seqno >= 1
    ensures IsDelivered(d, id) <==> Marks(d, id)
  {
  }

  lemma SubmitKeepsRide(cfg: Config, st: State, data: Bytes, now: nat)
    requires RideOk(st) && LogKnown(cfg, st) && DeliveryOk(st) && cfg.me < |cfg.ids|
    ensures RideOk(Submitted(cfg, st, data, now))
  {
    hide Submitted, IsDelivered, LogKnown, DeliveryOk, Rides, Commands;
    var next := Submitted(cfg, st, data, now);
    UngivenUndelivered(cfg, st, OwnId(cfg, next.nextSeq));
    forall id | id in next.pool ensures EntryOk(next, id) {
      if id in st.pool {
        assert EntryOk(st, id);
      }
    }
  }

  lemma PooledKeepsRide(st: State, cmd: Command, now: nat)
    requires RideOk(st) && !IsDelivered(st.dedup, cmd.id)
    ensures RideOk(Pooled(st, cmd, now))
  {
    hide IsDelivered, Rides, Commands;
    var next := Pooled(st, cmd, now);
    forall id | id in next.pool ensures EntryOk(next, id) {
      if id in st.pool {
        assert EntryOk(st, id);
      }
    }
  }

  lemma ForwardKeepsRide(cfg: Config, st: State, chunks: seq<(nat, seq<Command>)>, now: nat)
    requires RideOk(st) && cfg.me < |cfg.ids|
    ensures RideOk(Reforwarded(cfg, st, chunks, now))
  {
    hide IsDelivered, Rides, Commands, AllOf, Emit;
    var next := Reforwarded(cfg, st, chunks, now);
    forall id | id in next.pool ensures EntryOk(next, id) {
      assert EntryOk(st, id);
    }
  }

  lemma RestKeepsRide(cfg: Config, st: State, m: Micro)
    requires RideOk(st) && LogKnown(cfg, st) && DeliveryOk(st) && !IsSlotStep(m) && RestEnabled(cfg, st, m)
    ensures RideOk(MoveRest(cfg, st, m))
  {
    hide RideOk, LogKnown, DeliveryOk, TotalCost, IsChunk, Forwardable, Known, IsDelivered, Acked, SelfAcked,
      Refreshed, Submitted,
      Pooled, Reforwarded, Requested, Answered, LearnEnded, LearnTimedOut, Pinged, SameStorage, SamePool;
    if m.SubmitStep? {
      SubmitKeepsRide(cfg, st, m.data, m.now);
    } else if m.PoolStep? {
      PooledKeepsRide(st, m.cmd, m.now);
    } else if m.ForwardStep? {
      ForwardKeepsRide(cfg, st, m.chunks, m.now);
    } else {
      SameSlotsKeeps(st, MoveRest(cfg, st, m));
    }
  }

  lemma OpenIsOpen(cfg: Config, st: State, slot: Slot, cmds: seq<Command>, asLeader: bool)
    requires CanOpen(cfg, st, slot, cmds, asLeader)
    ensures slot in st.slots ==> st.slots[slot].recorder.Open?
  {
  }

  lemma SlotStepKeepsRide(cfg: Config, rng: Rng, st: State, m: Micro)
    requires StorageOk(cfg, st) && PoolOk(cfg, st) && RideOk(st) && IsSlotStep(m) && SlotsEnabled(cfg, st, m)
    ensures RideOk(MoveSlots(cfg, rng, st, m))
  {
    hide Takeable, TotalBytes, RecordAt, ReplyAt, DriveAt, OpenSlot, Install, Least, StorageOk, PoolOk, RideOk,
      DeliverNext, FreeNext, CanRecord, CanOpen, SameStorage, Observed;
    var next := MoveSlots(cfg, rng, st, m);
    match m
    case RecordStep(from, slot, step, proposal, now) => RecordKeepsRide(cfg, st, from, slot, step, proposal, now);
    case ReplyStep(from, slot, reqStep, step, first, priorAgg, now) =>
      ReplyKeepsRide(cfg, rng, st, slot, from, reqStep, step, first, priorAgg, now);
    case DriveStep(slot, now) => DriveKeepsRide(cfg, rng, st, slot, now);
    case RetransmitStep(slot) => OneSlotKeeps(st, next, slot);
    case OpenStep(slot, cmds, asLeader, now) =>
      OpenIsOpen(cfg, st, slot, cmds, asLeader);
      OpenKeepsRide(cfg, rng, st, slot, cmds, asLeader, now);
    case LearnStep(slot, value, now) => InstallKeepsRide(cfg, st, slot, value, false, now);
    case DeliverStep => DeliverKeepsRide(cfg, st);
    case FreeStep =>
      FloorBound(cfg, st);
      FreeKeepsRide(st);
    case EvictStep => FreeKeepsRide(st);
    case ObserveStep(now) => OneSlotKeeps(st, next, st.contig + 1);
  }

  /** No step strands a command, as long as only ids that were given out get decided. */
  lemma StepKeepsRide(cfg: Config, rng: Rng, st: State, m: Micro)
    requires StorageOk(cfg, st) && PoolOk(cfg, st) && DeliveryOk(st) && LogKnown(cfg, st) && RideOk(st)
      && Enabled(cfg, st, m)
    ensures RideOk(Apply(cfg, rng, st, m))
  {
    hide StorageOk, PoolOk, DeliveryOk, LogKnown, SlotsEnabled, MoveSlots, RestEnabled, MoveRest, RideOk;
    if IsSlotStep(m) {
      SlotStepKeepsRide(cfg, rng, st, m);
    } else {
      RestKeepsRide(cfg, st, m);
    }
  }
}
