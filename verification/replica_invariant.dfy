/** What every reachable state of one replica satisfies, whatever it is sent. */
module ReplicaInvariant {
  import opened Types
  import opened Recorder
  import opened Proposer
  import opened SlotLogic
  import Consensus
  import Batch
  import opened Pooling
  import opened ReplicaState

  // ---- storage ----

  /** A decided slot is retained with its value; an open one lies ahead of the frontier
      within the window and may run our proposer. */
  ghost predicate SlotOk(cfg: Config, st: State, s: Slot)
    requires s in st.slots
  {
    && st.gcFloor < s
    && match st.slots[s].recorder
       case Decided(value) => s in st.retained && st.retained[s] == value && st.slots[s].proposer.Done?
       case Open(isr) =>
         && isr.WellFormed() && s !in st.retained && st.contig < s <= st.contig + cfg.AheadWindow()
         && !st.slots[s].proposer.Done?
         && (st.slots[s].proposer.Running? ==>
           Fits(st.slots[s].proposer.run, cfg.N()) && st.slots[s].proposer.run.step >= 4)
  }

  ghost predicate StorageOk(cfg: Config, st: State) {
    && cfg.Valid() && |st.peerAcked| == cfg.N() && st.peerAcked[cfg.me] <= st.contig && st.gcFloor <= st.contig
    && (forall s :: s in st.slots ==> SlotOk(cfg, st, s))
    && (forall s :: s in st.retained ==> s in st.slots && st.slots[s].recorder.Decided?)
    && (forall s :: st.gcFloor < s <= st.contig ==> s in st.retained)
    && (st.maxOpen > st.contig ==> st.maxOpen in st.slots)
    && st.maxOpen <= st.contig + cfg.pipeline
  }

  /** The log holds every value ever decided here: the freed prefix and what is retained. */
  ghost predicate LogOk(st: State) {
    && (forall s :: 1 <= s <= st.contig ==> s in st.log)
    && (forall s :: s in st.retained ==> s in st.log && st.log[s] == st.retained[s])
    && (forall s :: s in st.log ==> 1 <= s <= st.gcFloor || s in st.retained)
  }

  ghost predicate OwnAckOk(cfg: Config, st: State, next: State) {
    cfg.me < |next.peerAcked| && next.peerAcked[cfg.me] <= st.contig
  }

  /** Fields no storage fact speaks of may change freely. */
  lemma StorageFrame(cfg: Config, st: State, next: State)
    requires StorageOk(cfg, st) && LogOk(st)
    requires SameStorage(st, next) && OwnAckOk(cfg, st, next)
    ensures StorageOk(cfg, next) && LogOk(next)
  {
    forall s | s in next.slots ensures SlotOk(cfg, next, s) {
      assert SlotOk(cfg, st, s);
    }
  }

  /** An undecided slot within the window may be created or moved. */
  lemma PutOpenKeeps(cfg: Config, st: State, next: State, slot: Slot)
    requires StorageOk(cfg, st) && LogOk(st)
    requires slot !in st.retained && st.contig < slot <= st.contig + cfg.AheadWindow()
    requires OnlySlot(st, next, slot)
    requires next.slots[slot].recorder.Open? && next.slots[slot].recorder.isr.WellFormed()
      && !next.slots[slot].proposer.Done?
    requires next.slots[slot].proposer.Running? ==>
      Fits(next.slots[slot].proposer.run, cfg.N()) && next.slots[slot].proposer.run.step >= 4
    requires next.maxOpen == st.maxOpen || (next.maxOpen == slot && slot <= st.contig + cfg.pipeline)
    ensures StorageOk(cfg, next) && LogOk(next)
  {
    forall s | s in next.slots ensures SlotOk(cfg, next, s) {
      if s != slot {
        assert SlotOk(cfg, st, s);
      }
    }
  }

  /** Deciding a slot above the floor that was open or unknown. */
  lemma InstallKeeps(cfg: Config, st: State, slot: Slot, value: Bytes, mine: bool, now: nat)
    requires StorageOk(cfg, st) && LogOk(st)
    requires slot > st.gcFloor && (slot in st.slots ==> st.slots[slot].recorder.Open?)
    ensures StorageOk(cfg, Install(cfg, st, slot, value, mine, now)) && LogOk(Install(cfg, st, slot, value, mine, now))
  {
    var next := Install(cfg, st, slot, value, mine, now);
    assert slot !in st.retained;
    forall s | s in next.slots ensures SlotOk(cfg, next, s) {
      if s != slot {
        assert SlotOk(cfg, st, s);
      }
    }
  }

  lemma DeliverKeepsStorage(cfg: Config, st: State)
    requires StorageOk(cfg, st) && LogOk(st) && st.contig + 1 in st.retained
    ensures StorageOk(cfg, DeliverNext(st)) && LogOk(DeliverNext(st))
  {
    var next := DeliverNext(st);
    assert next.slots == st.slots && next.retained == st.retained && next.gcFloor == st.gcFloor;
    forall s | s in next.slots ensures SlotOk(cfg, next, s) {
      assert SlotOk(cfg, st, s);
    }
  }

  lemma FreeKeepsStorage(cfg: Config, st: State)
    requires StorageOk(cfg, st) && LogOk(st) && st.gcFloor + 1 <= st.contig
    ensures StorageOk(cfg, FreeNext(st)) && LogOk(FreeNext(st))
  {
    var next := FreeNext(st);
    assert SlotOk(cfg, st, st.gcFloor + 1);
    forall s | s in next.slots ensures SlotOk(cfg, next, s) {
      assert SlotOk(cfg, st, s);
    }
  }

  // ---- one handler at a time ----

  lemma KeptKeeps(cfg: Config, st: State, slot: Slot, run: RunState)
    requires StorageOk(cfg, st) && LogOk(st) && slot in st.slots && st.slots[slot].recorder.Open?
    requires Fits(run, cfg.N()) && run.step >= 4
    ensures StorageOk(cfg, Kept(st, slot, run)) && LogOk(Kept(st, slot, run))
  {
    hide LogOk;
    assert SlotOk(cfg, st, slot);
    PutOpenKeeps(cfg, st, Kept(st, slot, run), slot);
  }

  lemma MovedKeeps(cfg: Config, st: State, slot: Slot, run: RunState)
    requires StorageOk(cfg, st) && LogOk(st) && slot in st.slots && st.slots[slot].recorder.Open?
    requires Fits(run, cfg.N()) && run.step >= 4
    ensures StorageOk(cfg, Moved(cfg, st, slot, run)) && LogOk(Moved(cfg, st, slot, run))
  {
    hide LogOk;
    assert SlotOk(cfg, st, slot);
    PutOpenKeeps(cfg, st, Moved(cfg, st, slot, run), slot);
  }

  /** Facts about one slot, and about the counters. */
  lemma SlotFacts(cfg: Config, st: State, slot: Slot)
    requires StorageOk(cfg, st) && slot in st.slots
    ensures SlotOk(cfg, st, slot)
  {
  }

  lemma Counters(cfg: Config, st: State)
    requires StorageOk(cfg, st)
    ensures cfg.Valid() && |st.peerAcked| == cfg.N() && st.peerAcked[cfg.me] <= st.contig && st.gcFloor <= st.contig
  {
  }

  lemma SettledKeeps(cfg: Config, st: State, slot: Slot, run: RunState, reaction: Reaction, now: nat)
    requires StorageOk(cfg, st) && LogOk(st) && slot in st.slots && st.slots[slot].recorder.Open?
    requires Fits(run, cfg.N()) && run.step >= 4
    ensures var next := Settled(cfg, st, slot, run, reaction, now); StorageOk(cfg, next) && LogOk(next)
  {
    hide StorageOk, LogOk, Install, Kept, Moved;
    SlotFacts(cfg, st, slot);
    match reaction
    case Choose(value) => InstallKeeps(cfg, st, slot, value, true, now);
    case Quiet => KeptKeeps(cfg, st, slot, run);
    case Resend => MovedKeeps(cfg, st, slot, run);
  }

  lemma FoldReplyFits(run: RunState, seat: Seat, now: nat, draws: seq<Draw>, from: nat, reqStep: nat, step: nat,
        first: Proposal, priorAgg: Option<Proposal>)
    requires seat.Valid() && Fits(run, seat.N()) && |draws| == seat.N() && from < seat.N() && run.step >= 4
    ensures
      var after := FoldReply(run, seat, now, draws, from, reqStep, step, first, priorAgg).0;
      Fits(after, seat.N()) && after.step >= run.step
  {
    hide BeginStep, StepComplete, Types.Max, Draws;
    var (folded, result) := Fold(run, from, reqStep, step, first, priorAgg, seat.Quorum());
    if result.CatchUp? {
      BeginStepFits(folded.(step := result.step, proposal := result.adopt), seat, now, draws);
    } else if result.Quorum? {
      StepCompleteFits(folded, seat.N());
      BeginStepFits(StepComplete(folded).0, seat, now, draws);
    }
  }

  lemma BeginStepFits(run: RunState, seat: Seat, now: nat, draws: seq<Draw>)
    requires seat.Valid() && Fits(run, seat.N()) && |draws| == seat.N()
    ensures
      var after := BeginStep(run, seat.Me(), seat.idx, seat.IsLeader(), now, draws);
      Fits(after, seat.N()) && after.step == run.step
  {
  }

  lemma StepCompleteFits(run: RunState, n: nat)
    requires Fits(run, n) && run.bestFirst.Some?
    ensures Fits(StepComplete(run).0, n) && StepComplete(run).0.step >= run.step
  {
  }

  lemma TakeReplyKeeps(cfg: Config, rng: Rng, st: State, slot: Slot, from: nat, reqStep: nat, step: nat,
        first: Proposal, priorAgg: Option<Proposal>, now: nat)
    requires StorageOk(cfg, st) && LogOk(st) && CanFold(cfg, st, slot) && from < cfg.N()
    ensures
      var next := TakeReply(cfg, rng, st, slot, from, reqStep, step, first, priorAgg, now);
      StorageOk(cfg, next) && LogOk(next)
  {
    hide FoldReply, Settled;
    assert SlotOk(cfg, st, slot);
    var run := st.slots[slot].proposer.run;
    FoldReplyFits(run, cfg.MySeat(), now, DrawsAt(rng, st.drawn, cfg.N()), from, reqStep, step, first, priorAgg);
    var (after, reaction) := FoldReply(run, cfg.MySeat(), now, DrawsAt(rng, st.drawn, cfg.N()),
        from, reqStep, step, first, priorAgg);
    SettledKeeps(cfg, st, slot, after, reaction, now);
  }

  lemma ReplyKeeps(cfg: Config, rng: Rng, st: State, slot: Slot, from: nat, reqStep: nat, step: nat,
        first: ReplyFirst, priorAgg: Option<Proposal>, now: nat)
    requires StorageOk(cfg, st) && LogOk(st) && CanFold(cfg, st, slot) && from < cfg.N()
    ensures
      var next := ReplyAt(cfg, rng, st, slot, from, reqStep, step, first, priorAgg, now);
      StorageOk(cfg, next) && LogOk(next)
  {
    hide StorageOk, LogOk, TakeReply;
    match Reconstitute(st.slots[slot].proposer.run, from, reqStep, first)
    case None =>
    case Some(p) => TakeReplyKeeps(cfg, rng, st, slot, from, reqStep, step, p, priorAgg, now);
  }

  lemma RecordKeeps(cfg: Config, st: State, from: nat, slot: Slot, step: nat, proposal: Proposal, now: nat)
    requires StorageOk(cfg, st) && LogOk(st) && CanRecord(cfg, st, from, slot, step)
    ensures var next := RecordAt(cfg, st, from, slot, step, proposal, now); StorageOk(cfg, next) && LogOk(next)
  {
    hide Recorded, Emit, StorageOk, LogOk;
    Counters(cfg, st);
    if NodeOf(st, slot).recorder.Decided? {
      StorageFrame(cfg, st, RecordAt(cfg, st, from, slot, step, proposal, now));
    } else {
      RecordedKeeps(cfg, st, slot, step, proposal, now);
      StorageFrame(cfg, Recorded(st, slot, step, proposal, now), RecordAt(cfg, st, from, slot, step, proposal, now));
    }
  }

  lemma RecordedKeeps(cfg: Config, st: State, slot: Slot, step: nat, proposal: Proposal, now: nat)
    requires StorageOk(cfg, st) && LogOk(st) && NodeOf(st, slot).recorder.Open? && step >= 4
    requires NodeOf(st, slot).recorder.isr.WellFormed() && st.gcFloor < slot <= st.contig + cfg.AheadWindow()
    ensures StorageOk(cfg, Recorded(st, slot, step, proposal, now)) && LogOk(Recorded(st, slot, step, proposal, now))
  {
    hide Recorded, LogOk;
    if slot in st.slots {
      SlotFacts(cfg, st, slot);
    }
    PutOpenKeeps(cfg, st, Recorded(st, slot, step, proposal, now), slot);
  }

  lemma OwnRecordKeeps(cfg: Config, st: State, slot: Slot, now: nat)
    requires StorageOk(cfg, st) && LogOk(st) && CanDrive(cfg, st, slot)
    ensures StorageOk(cfg, OwnRecord(cfg, st, slot, now)) && LogOk(OwnRecord(cfg, st, slot, now))
  {
    hide OwnRecord, StorageOk, LogOk;
    SlotFacts(cfg, st, slot);
    PutOpenKeeps(cfg, st, OwnRecord(cfg, st, slot, now), slot);
  }

  lemma DriveKeeps(cfg: Config, rng: Rng, st: State, slot: Slot, now: nat)
    requires StorageOk(cfg, st) && LogOk(st) && CanDrive(cfg, st, slot)
    ensures StorageOk(cfg, DriveAt(cfg, rng, st, slot, now)) && LogOk(DriveAt(cfg, rng, st, slot, now))
  {
    hide TakeReply, OwnRecord, StorageOk, LogOk;
    OwnRecordKeeps(cfg, st, slot, now);
    var recorded := OwnRecord(cfg, st, slot, now);
    var summary := Summarize(recorded.slots[slot].recorder.isr);
    var step := st.slots[slot].proposer.run.step;
    TakeReplyKeeps(cfg, rng, recorded, slot, cfg.me, step, summary.step, summary.first, summary.priorAgg, now);
    var after := TakeReply(cfg, rng, recorded, slot, cfg.me, step, summary.step, summary.first, summary.priorAgg, now);
    EmitKeeps(cfg, after, DriveSends(cfg, after, slot));
  }

  lemma EmitKeeps(cfg: Config, st: State, more: seq<Action>)
    requires StorageOk(cfg, st) && LogOk(st)
    ensures StorageOk(cfg, Emit(st, more)) && LogOk(Emit(st, more))
  {
    StorageFrame(cfg, st, Emit(st, more));
  }

  lemma OpenKeeps(cfg: Config, rng: Rng, st: State, slot: Slot, cmds: seq<Command>, asLeader: bool, now: nat)
    requires StorageOk(cfg, st) && LogOk(st) && CanOpen(cfg, st, slot, cmds, asLeader)
    ensures var next := OpenSlot(cfg, rng, st, slot, cmds, asLeader, now); StorageOk(cfg, next) && LogOk(next)
  {
    var next := OpenSlot(cfg, rng, st, slot, cmds, asLeader, now);
    if slot in st.slots {
      assert SlotOk(cfg, st, slot);
    } else {
      assert slot !in st.retained;
      assert slot !in st.log;
    }
    PutOpenKeeps(cfg, st, next, slot);
  }

  lemma ObserveKeeps(cfg: Config, st: State, now: nat)
    requires StorageOk(cfg, st) && LogOk(st) && st.contig + 1 !in st.slots
    ensures StorageOk(cfg, Observed(st, now)) && LogOk(Observed(st, now))
  {
    hide SlotOk;
    PutOpenKeeps(cfg, st, Observed(st, now), st.contig + 1);
  }

  lemma RetransmitKeeps(cfg: Config, st: State, slot: Slot)
    requires StorageOk(cfg, st) && LogOk(st) && CanFold(cfg, st, slot)
    ensures StorageOk(cfg, Retransmitted(st, slot)) && LogOk(Retransmitted(st, slot))
  {
    assert SlotOk(cfg, st, slot);
    PutOpenKeeps(cfg, st, Retransmitted(st, slot), slot);
  }

  /** Every step keeps the storage invariant: retained slots are exactly the decided ones
      with their values, contiguous from the floor to the frontier. */
  lemma StepKeepsStorage(cfg: Config, rng: Rng, st: State, m: Micro)
    requires StorageOk(cfg, st) && LogOk(st) && Enabled(cfg, st, m)
    ensures StorageOk(cfg, Apply(cfg, rng, st, m)) && LogOk(Apply(cfg, rng, st, m))
  {
    hide StorageOk, LogOk, SlotsEnabled, MoveSlots, RestEnabled, MoveRest, SameStorage;
    if IsSlotStep(m) {
      SlotStepKeepsStorage(cfg, rng, st, m);
    } else {
      RestKeepsAck(cfg, st, m);
      StorageFrame(cfg, st, MoveRest(cfg, st, m));
    }
  }

  lemma RestKeepsAck(cfg: Config, st: State, m: Micro)
    requires StorageOk(cfg, st) && !IsSlotStep(m) && RestEnabled(cfg, st, m)
    ensures OwnAckOk(cfg, st, MoveRest(cfg, st, m))
  {
    hide StorageOk, TotalCost, IsChunk, Forwardable, Known, Refreshed, Submitted, Pooled, Reforwarded, Requested,
      Answered, Pinged;
    Counters(cfg, st);
  }

  lemma SlotStepKeepsStorage(cfg: Config, rng: Rng, st: State, m: Micro)
    requires StorageOk(cfg, st) && LogOk(st) && IsSlotStep(m) && SlotsEnabled(cfg, st, m)
    ensures StorageOk(cfg, MoveSlots(cfg, rng, st, m)) && LogOk(MoveSlots(cfg, rng, st, m))
  {
    hide Takeable, TotalBytes, RecordAt, ReplyAt, DriveAt, OpenSlot, Install, Least, StorageOk, LogOk, Retransmitted,
      Observed,
      DeliverNext, FreeNext, CanFold, CanDrive, CanRecord, CanOpen, SameStorage, SamePool, OnlySlot;
    Counters(cfg, st);
    match m
    case RecordStep(from, slot, step, proposal, now) => RecordKeeps(cfg, st, from, slot, step, proposal, now);
    case ReplyStep(from, slot, reqStep, step, first, priorAgg, now) =>
      ReplyKeeps(cfg, rng, st, slot, from, reqStep, step, first, priorAgg, now);
    case DriveStep(slot, now) => DriveKeeps(cfg, rng, st, slot, now);
    case RetransmitStep(slot) => RetransmitKeeps(cfg, st, slot);
    case OpenStep(slot, cmds, asLeader, now) => OpenKeeps(cfg, rng, st, slot, cmds, asLeader, now);
    case LearnStep(slot, value, now) => InstallKeeps(cfg, st, slot, value, false, now);
    case DeliverStep => DeliverKeepsStorage(cfg, st);
    case FreeStep =>
      FloorBound(cfg, st);
      FreeKeepsStorage(cfg, st);
    case EvictStep => FreeKeepsStorage(cfg, st);
    case ObserveStep(now) => ObserveKeeps(cfg, st, now);
  }

  /** The watermark every replica has acknowledged is at most our own frontier. */
  lemma FloorBound(cfg: Config, st: State)
    requires StorageOk(cfg, st)
    ensures Least(st.peerAcked) <= st.contig
  {
  }

  // ---- the pool ----

  ghost predicate PoolOk(cfg: Config, st: State) {
    && cfg.Valid() && st.nextSeq <= U64_MAX
    && (forall id :: id in st.pool ==>
         |st.pool[id].data| <= MAX_COMMAND_BYTES && Known(cfg, st, id) && Batch.IdFits(id)
         && (cfg.N() == 1 ==> id.origin == cfg.ids[cfg.me] && id.boot == cfg.boot)
         && (st.pool[id].proposedIn.Some? ==> st.pool[id].proposedIn.value <= Top(st)))
    && AllTight(st.dedup)
    && (forall q: nat :: 1 <= q <= st.nextSeq ==> OwnKept(cfg, st, q))
  }

  /** A command submitted here is delivered, or still held with the submitted data. */
  ghost predicate OwnKept(cfg: Config, st: State, q: nat)
    requires cfg.me < |cfg.ids|
  {
    && q in st.submitted
    && (OwnId(cfg, q) in st.pool ==> st.pool[OwnId(cfg, q)].data == st.submitted[q])
    && (OwnId(cfg, q) in st.pool || IsDelivered(st.dedup, OwnId(cfg, q)))
  }

  /** Changes that keep every entry's data and raise no slot above the top. */
  lemma PoolFrame(cfg: Config, st: State, next: State)
    requires PoolOk(cfg, st)
    requires next.pool.Keys == st.pool.Keys && forall id :: id in st.pool ==> next.pool[id].data == st.pool[id].data
    requires forall id :: id in next.pool && next.pool[id].proposedIn.Some? ==>
      next.pool[id].proposedIn.value <= Top(next)
    requires next.dedup == st.dedup && next.nextSeq == st.nextSeq && next.submitted == st.submitted
    ensures PoolOk(cfg, next)
  {
    forall q: nat | 1 <= q <= next.nextSeq ensures OwnKept(cfg, next, q) {
      assert OwnKept(cfg, st, q);
    }
  }

  /** The highest slot anything is known of never goes down. */
  lemma TopGrows(st: State, next: State)
    requires next.contig >= st.contig && next.maxOpen >= st.maxOpen
    requires forall s :: s in st.slots ==> s in next.slots || s <= next.contig
    ensures Top(next) >= Top(st)
  {
  }

  lemma SameTop(st: State, next: State)
    requires SameStorage(st, next)
    ensures Top(next) == Top(st)
  {
  }

  lemma SamePoolKeeps(cfg: Config, st: State, next: State)
    requires PoolOk(cfg, st) && SamePool(st, next) && Top(next) >= Top(st)
    ensures PoolOk(cfg, next)
  {
    PoolFrame(cfg, st, next);
  }

  lemma InstallKeepsPool(cfg: Config, st: State, slot: Slot, value: Bytes, mine: bool, now: nat)
    requires PoolOk(cfg, st)
    ensures PoolOk(cfg, Install(cfg, st, slot, value, mine, now))
  {
    hide Commands, Rides;
    var next := Install(cfg, st, slot, value, mine, now);
    TopGrows(st, next);
    PoolFrame(cfg, st, next);
  }

  lemma PutSlotKeepsPool(cfg: Config, st: State, next: State, slot: Slot)
    requires PoolOk(cfg, st) && OnlySlot(st, next, slot) && next.maxOpen >= st.maxOpen && SamePool(st, next)
    ensures PoolOk(cfg, next)
  {
    TopGrows(st, next);
    SamePoolKeeps(cfg, st, next);
  }

  lemma KeptKeepsPool(cfg: Config, st: State, slot: Slot, run: RunState)
    requires PoolOk(cfg, st) && slot in st.slots
    ensures PoolOk(cfg, Kept(st, slot, run))
  {
    hide PoolOk, Top;
    PutSlotKeepsPool(cfg, st, Kept(st, slot, run), slot);
  }

  lemma MovedKeepsPool(cfg: Config, st: State, slot: Slot, run: RunState)
    requires PoolOk(cfg, st) && slot in st.slots
    ensures PoolOk(cfg, Moved(cfg, st, slot, run))
  {
    hide PoolOk, Top;
    PutSlotKeepsPool(cfg, st, Moved(cfg, st, slot, run), slot);
  }

  lemma SettledKeepsPool(cfg: Config, st: State, slot: Slot, run: RunState, reaction: Reaction, now: nat)
    requires PoolOk(cfg, st) && slot in st.slots
    ensures PoolOk(cfg, Settled(cfg, st, slot, run, reaction, now))
  {
    hide PoolOk, Install, Kept, Moved;
    match reaction
    case Choose(value) => InstallKeepsPool(cfg, st, slot, value, true, now);
    case Quiet => KeptKeepsPool(cfg, st, slot, run);
    case Resend => MovedKeepsPool(cfg, st, slot, run);
  }

  lemma DriveKeepsPool(cfg: Config, rng: Rng, st: State, slot: Slot, now: nat)
    requires PoolOk(cfg, st) && CanDrive(cfg, st, slot)
    ensures PoolOk(cfg, DriveAt(cfg, rng, st, slot, now))
  {
    hide Recorder.Record, Consensus.HistRecord, FoldReply, Settled, PoolOk, Top;
    var recorded := OwnRecord(cfg, st, slot, now);
    PutSlotKeepsPool(cfg, st, recorded, slot);
    var summary := Summarize(recorded.slots[slot].recorder.isr);
    var step := st.slots[slot].proposer.run.step;
    var (run, reaction) := FoldReply(recorded.slots[slot].proposer.run, cfg.MySeat(), now,
      DrawsAt(rng, recorded.drawn, cfg.N()),
        cfg.me, step, summary.step, summary.first, summary.priorAgg);
    SettledKeepsPool(cfg, recorded, slot, run, reaction, now);
    var after := TakeReply(cfg, rng, recorded, slot, cfg.me, step, summary.step, summary.first, summary.priorAgg, now);
    EmitKeepsPool(cfg, after, DriveSends(cfg, after, slot));
  }

  lemma EmitKeepsPool(cfg: Config, st: State, more: seq<Action>)
    requires PoolOk(cfg, st)
    ensures PoolOk(cfg, Emit(st, more))
  {
    SamePoolKeeps(cfg, st, Emit(st, more));
  }

  // ---- delivering ----

  lemma {:induction false} FilterTight(dedup: DedupMap, cmds: seq<Command>)
    requires AllTight(dedup)
    ensures AllTight(Filter(dedup, cmds).0)
  {
    if cmds != [] {
      FilterTight(dedup, cmds[..|cmds| - 1]);
      var before := Filter(dedup, cmds[..|cmds| - 1]).0;
      var id := cmds[|cmds| - 1].id;
      MarkedAdds(OriginOf(before, id), id.seqno);
    }
  }

  /** After a batch exactly what was delivered, and what it kept, is delivered. */
  lemma {:induction false} FilterDelivers(dedup: DedupMap, cmds: seq<Command>, id: CommandId)
    requires AllTight(dedup)
    ensures OriginOf(Filter(dedup, cmds).0, id).Has(id.seqno) <==>
      OriginOf(dedup, id).Has(id.seqno) || Rides(Filter(dedup, cmds).1, id)
  {
    if cmds != [] {
      var shorter := cmds[..|cmds| - 1];
      FilterDelivers(dedup, shorter, id);
      FilterTight(dedup, shorter);
      var (before, kept) := Filter(dedup, shorter);
      var last := cmds[|cmds| - 1];
      MarkedAdds(OriginOf(before, last.id), last.id.seqno);
      RidesAppend(kept, last, id);
    }
  }

  lemma RidesAppend(cmds: seq<Command>, cmd: Command, id: CommandId)
    ensures Rides(cmds + [cmd], id) <==> Rides(cmds, id) || cmd.id == id
  {
    var both := cmds + [cmd];
    if Rides(cmds, id) {
      var k :| 0 <= k < |cmds| && cmds[k].id == id;
      assert both[k].id == id;
    }
    if cmd.id == id {
      assert both[|cmds|].id == id;
    }
  }

  lemma DeliverKeepsPool(cfg: Config, st: State)
    requires PoolOk(cfg, st) && st.contig + 1 in st.retained
    ensures PoolOk(cfg, DeliverNext(st))
  {
    hide Filter, Rides;
    var next := DeliverNext(st);
    var cmds := Commands(st.retained[st.contig + 1]);
    FilterTight(st.dedup, cmds);
    TopGrows(st, next);
    forall q: nat | 1 <= q <= next.nextSeq ensures OwnKept(cfg, next, q) {
      assert OwnKept(cfg, st, q);
      FilterDelivers(st.dedup, cmds, OwnId(cfg, q));
      DeliveredMeansEntry(next.dedup, OwnId(cfg, q));
    }
  }

  /** Sequence numbers start at 1, so having one delivered means having an entry. */
  lemma DeliveredMeansEntry(d: DedupMap, id: CommandId)
    requires id.seqno >= 1
    ensures IsDelivered(d, id) <==> OriginOf(d, id).Has(id.seqno)
  {
  }

  lemma SubmitKeepsPool(cfg: Config, st: State, data: Bytes, now: nat)
    requires PoolOk(cfg, st) && |data| <= MAX_COMMAND_BYTES && st.nextSeq < U64_MAX
    ensures PoolOk(cfg, Submitted(cfg, st, data, now))
  {
    hide Submitted, Top;
    var next := Submitted(cfg, st, data, now);
    SameTop(st, next);
    forall q: nat | 1 <= q <= next.nextSeq ensures OwnKept(cfg, next, q) {
      if q <= st.nextSeq {
        assert OwnKept(cfg, st, q);
      }
    }
    forall id | id in next.pool ensures Known(cfg, next, id) {
      if id in st.pool {
        assert Known(cfg, st, id);
      }
    }
  }

  lemma PoolStepKeepsPool(cfg: Config, st: State, cmd: Command, now: nat)
    requires PoolOk(cfg, st) && cmd.id !in st.pool && !IsDelivered(st.dedup, cmd.id) && Known(cfg, st, cmd.id)
    requires Batch.IdFits(cmd.id) && |cmd.data| <= MAX_COMMAND_BYTES && cfg.N() > 1
    ensures PoolOk(cfg, Pooled(st, cmd, now))
    ensures cmd.id.origin == cfg.ids[cfg.me] ==> cmd.id.boot != cfg.boot
  {
    var next := Pooled(st, cmd, now);
    SameTop(st, next);
    assert cmd.id.origin == cfg.ids[cfg.me] && cmd.id.boot == cfg.boot ==> !OwnKept(cfg, st, cmd.id.seqno);
    forall q: nat | 1 <= q <= next.nextSeq ensures OwnKept(cfg, next, q) {
      assert OwnKept(cfg, st, q);
    }
  }

  lemma OpenKeepsPool(cfg: Config, rng: Rng, st: State, slot: Slot, cmds: seq<Command>, asLeader: bool, now: nat)
    requires PoolOk(cfg, st) && CanOpen(cfg, st, slot, cmds, asLeader)
    ensures PoolOk(cfg, OpenSlot(cfg, rng, st, slot, cmds, asLeader, now))
  {
    hide Rides;
    var next := OpenSlot(cfg, rng, st, slot, cmds, asLeader, now);
    if asLeader {
      assert slot > st.maxOpen;
    }
    TopGrows(st, next);
    PoolFrame(cfg, st, next);
  }

  /** Steps that move slots about without touching the pool. */
  lemma SlotsMoveKeepsPool(cfg: Config, st: State, next: State)
    requires PoolOk(cfg, st) && SamePool(st, next) && next.contig == st.contig && next.maxOpen == st.maxOpen
    requires forall s :: s in st.slots ==> s in next.slots || s <= st.contig
    ensures PoolOk(cfg, next)
  {
    hide PoolOk, Top;
    TopGrows(st, next);
    SamePoolKeeps(cfg, st, next);
  }

  lemma PeripheralKeepsPool(cfg: Config, st: State, next: State)
    requires PoolOk(cfg, st) && SamePool(st, next) && SameStorage(st, next)
    ensures PoolOk(cfg, next)
  {
    hide PoolOk, Top;
    SlotsMoveKeepsPool(cfg, st, next);
  }

  lemma RecordKeepsPool(cfg: Config, st: State, from: nat, slot: Slot, step: nat, proposal: Proposal, now: nat)
    requires PoolOk(cfg, st) && CanRecord(cfg, st, from, slot, step)
    ensures PoolOk(cfg, RecordAt(cfg, st, from, slot, step, proposal, now))
  {
    hide PoolOk, Recorded, Emit;
    if NodeOf(st, slot).recorder.Decided? {
      PeripheralKeepsPool(cfg, st, RecordAt(cfg, st, from, slot, step, proposal, now));
    } else {
      var recorded := Recorded(st, slot, step, proposal, now);
      PutSlotKeepsPool(cfg, st, recorded, slot);
      PeripheralKeepsPool(cfg, recorded, RecordAt(cfg, st, from, slot, step, proposal, now));
    }
  }

  lemma ReplyKeepsPool(cfg: Config, rng: Rng, st: State, slot: Slot, from: nat, reqStep: nat, step: nat,
        first: ReplyFirst, priorAgg: Option<Proposal>, now: nat)
    requires PoolOk(cfg, st) && CanFold(cfg, st, slot) && from < cfg.N()
    ensures PoolOk(cfg, ReplyAt(cfg, rng, st, slot, from, reqStep, step, first, priorAgg, now))
  {
    hide PoolOk, FoldReply, Settled;
    match Reconstitute(st.slots[slot].proposer.run, from, reqStep, first)
    case None =>
    case Some(p) =>
      var (run, reaction) := FoldReply(st.slots[slot].proposer.run, cfg.MySeat(), now, DrawsAt(rng, st.drawn, cfg.N()),
          from, reqStep, step, p, priorAgg);
      SettledKeepsPool(cfg, st, slot, run, reaction, now);
  }

  lemma FreeKeepsPool(cfg: Config, st: State)
    requires PoolOk(cfg, st) && st.gcFloor + 1 <= st.contig
    ensures PoolOk(cfg, FreeNext(st))
  {
    hide PoolOk;
    SlotsMoveKeepsPool(cfg, st, FreeNext(st));
  }

  lemma RetransmitKeepsPool(cfg: Config, st: State, slot: Slot)
    requires PoolOk(cfg, st) && CanFold(cfg, st, slot)
    ensures PoolOk(cfg, Retransmitted(st, slot))
  {
    hide PoolOk;
    SlotsMoveKeepsPool(cfg, st, Retransmitted(st, slot));
  }

  lemma ObserveKeepsPool(cfg: Config, st: State, now: nat)
    requires PoolOk(cfg, st)
    ensures PoolOk(cfg, Observed(st, now))
  {
    hide PoolOk;
    SlotsMoveKeepsPool(cfg, st, Observed(st, now));
  }

  /** Every step keeps the pool in order; in particular no submitted command is ever lost. */
  lemma StepKeepsPool(cfg: Config, rng: Rng, st: State, m: Micro)
    requires StorageOk(cfg, st) && PoolOk(cfg, st) && Enabled(cfg, st, m)
    ensures PoolOk(cfg, Apply(cfg, rng, st, m))
  {
    hide StorageOk, PoolOk, SlotsEnabled, MoveSlots, RestEnabled, MoveRest;
    if IsSlotStep(m) {
      SlotStepKeepsPool(cfg, rng, st, m);
    } else {
      RestKeepsPool(cfg, st, m);
    }
  }

  lemma RestKeepsPool(cfg: Config, st: State, m: Micro)
    requires PoolOk(cfg, st) && !IsSlotStep(m) && RestEnabled(cfg, st, m)
    ensures PoolOk(cfg, MoveRest(cfg, st, m))
  {
    hide PoolOk, TotalCost, IsChunk, Forwardable, Known, Acked, SelfAcked, Refreshed, Submitted, Pooled, Reforwarded,
      Requested,
      Answered, LearnEnded, LearnTimedOut, Pinged, SameStorage, SamePool;
    if m.SubmitStep? {
      SubmitKeepsPool(cfg, st, m.data, m.now);
    } else if m.PoolStep? {
      PoolStepKeepsPool(cfg, st, m.cmd, m.now);
    } else if m.ForwardStep? {
      ForwardKeepsPool(cfg, st, m.chunks, m.now);
    } else {
      PeripheralKeepsPool(cfg, st, MoveRest(cfg, st, m));
    }
  }

  lemma SlotStepKeepsPool(cfg: Config, rng: Rng, st: State, m: Micro)
    requires StorageOk(cfg, st) && PoolOk(cfg, st) && IsSlotStep(m) && SlotsEnabled(cfg, st, m)
    ensures PoolOk(cfg, MoveSlots(cfg, rng, st, m))
  {
    hide Takeable, TotalBytes, RecordAt, ReplyAt, DriveAt, OpenSlot, Install, Least, StorageOk, PoolOk, Retransmitted,
      Observed,
      DeliverNext, FreeNext, CanFold, CanDrive, CanRecord, CanOpen, SameStorage, SamePool, OnlySlot;
    match m
    case RecordStep(from, slot, step, proposal, now) => RecordKeepsPool(cfg, st, from, slot, step, proposal, now);
    case ReplyStep(from, slot, reqStep, step, first, priorAgg, now) =>
      ReplyKeepsPool(cfg, rng, st, slot, from, reqStep, step, first, priorAgg, now);
    case DriveStep(slot, now) => DriveKeepsPool(cfg, rng, st, slot, now);
    case RetransmitStep(slot) => RetransmitKeepsPool(cfg, st, slot);
    case OpenStep(slot, cmds, asLeader, now) => OpenKeepsPool(cfg, rng, st, slot, cmds, asLeader, now);
    case LearnStep(slot, value, now) => InstallKeepsPool(cfg, st, slot, value, false, now);
    case DeliverStep => DeliverKeepsPool(cfg, st);
    case FreeStep =>
      FloorBound(cfg, st);
      FreeKeepsPool(cfg, st);
    case EvictStep => FreeKeepsPool(cfg, st);
    case ObserveStep(now) => ObserveKeepsPool(cfg, st, now);
  }

  lemma ForwardKeepsPool(cfg: Config, st: State, chunks: seq<(nat, seq<Command>)>, now: nat)
    requires PoolOk(cfg, st)
    ensures PoolOk(cfg, Reforwarded(cfg, st, chunks, now))
  {
    hide Rides, AllOf;
    var next := Reforwarded(cfg, st, chunks, now);
    SameTop(st, next);
    PoolFrame(cfg, st, next);
  }
}
