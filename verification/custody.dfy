/** Where values come from. */
module Custody {
  // What each step adds to the pool and to the slots.

  import opened Types
  import opened Recorder
  import opened Proposer
  import opened SlotLogic
  import opened Pooling
  import opened ReplicaState
  import opened ReplicaInvariant
  import opened ReplicaMoves
  import opened ReplicaRest
  import Batch

  // ---- the pool ----

  /** No command is added, none is altered, and no sequence number is given out. */
  ghost predicate PoolShrinks(st: State, next: State) {
    && next.nextSeq == st.nextSeq && next.submitted == st.submitted
    && forall id :: id in next.pool ==> id in st.pool && next.pool[id].data == st.pool[id].data
  }

  /** Nor is any forwarded. */
  ghost predicate PoolRests(st: State, next: State) {
    && PoolShrinks(st, next)
    && forall id :: id in next.pool ==>
         && next.pool[id].forwardAttempts == st.pool[id].forwardAttempts
         && next.pool[id].lastForward == st.pool[id].lastForward
  }

  lemma SamePoolShrinks(st: State, next: State)
    requires SamePool(st, next)
    ensures PoolRests(st, next)
  {
  }

  lemma ShrinksOn(a: State, b: State, c: State)
    requires PoolRests(a, b) && PoolRests(b, c)
    ensures PoolRests(a, c)
  {
  }

  lemma InstallShrinks(cfg: Config, st: State, slot: Slot, value: Bytes, mine: bool, now: nat)
    requires cfg.me < |cfg.ids|
    ensures PoolRests(st, Install(cfg, st, slot, value, mine, now))
  {
    hide ToOthers, Commands, Rides, PutSlot, NodeOf, SlotOr;
  }

  lemma SettledShrinks(cfg: Config, st: State, slot: Slot, run: RunState, reaction: Reaction, now: nat)
    requires cfg.me < |cfg.ids| && slot in st.slots
    ensures PoolRests(st, Settled(cfg, st, slot, run, reaction, now))
  {
    hide Install, Kept, Moved, PoolRests, SamePool, OnlySlot;
    match reaction
    case Choose(value) => InstallShrinks(cfg, st, slot, value, true, now);
    case Quiet => SamePoolShrinks(st, Kept(st, slot, run));
    case Resend => SamePoolShrinks(st, Moved(cfg, st, slot, run));
  }

  lemma ReplyShrinks(cfg: Config, rng: Rng, st: State, slot: Slot, from: nat, reqStep: nat, step: nat,
        first: ReplyFirst, priorAgg: Option<Proposal>, now: nat)
    requires CanFold(cfg, st, slot) && from < cfg.N()
    ensures PoolRests(st, ReplyAt(cfg, rng, st, slot, from, reqStep, step, first, priorAgg, now))
  {
    hide FoldReply, Settled;
    match Reconstitute(st.slots[slot].proposer.run, from, reqStep, first)
    case None =>
    case Some(p) =>
      var (run, reaction) := FoldReply(st.slots[slot].proposer.run, cfg.MySeat(), now, DrawsAt(rng, st.drawn, cfg.N()),
          from, reqStep, step, p, priorAgg);
      SettledShrinks(cfg, st, slot, run, reaction, now);
  }

  lemma DriveShrinks(cfg: Config, rng: Rng, st: State, slot: Slot, now: nat)
    requires CanDrive(cfg, st, slot)
    ensures PoolRests(st, DriveAt(cfg, rng, st, slot, now))
  {
    hide FoldReply, Settled, OwnRecord, Emit, PoolRests, DriveSends;
    var recorded := OwnRecord(cfg, st, slot, now);
    var (run, reaction) := DriveFold(cfg, rng, st, slot, now);
    SamePoolShrinks(st, recorded);
    SettledShrinks(cfg, recorded, slot, run, reaction, now);
    var after := Settled(cfg, recorded, slot, run, reaction, now);
    SamePoolShrinks(after, Emit(after, DriveSends(cfg, after, slot)));
    ShrinksOn(st, recorded, after);
    ShrinksOn(st, after, DriveAt(cfg, rng, st, slot, now));
  }

  lemma RecordShrinks(cfg: Config, st: State, from: nat, slot: Slot, step: nat, proposal: Proposal, now: nat)
    requires CanRecord(cfg, st, from, slot, step)
    ensures PoolRests(st, RecordAt(cfg, st, from, slot, step, proposal, now))
  {
    hide Recorded, Emit, NodeOf;
  }

  lemma OpenShrinks(cfg: Config, rng: Rng, st: State, slot: Slot, cmds: seq<Command>, asLeader: bool, now: nat)
    requires cfg.me < |cfg.ids|
    ensures PoolRests(st, OpenSlot(cfg, rng, st, slot, cmds, asLeader, now))
  {
    hide Rides, NodeOf, SlotOr, DrawsAt, Proposer.Start;
  }

  lemma DeliverShrinksPool(st: State)
    requires st.contig + 1 in st.retained
    ensures PoolRests(st, DeliverNext(st))
  {
    hide Filter, Commands, Rides;
  }

  lemma SlotStepShrinks(cfg: Config, rng: Rng, st: State, m: Micro)
    requires IsSlotStep(m) && SlotsEnabled(cfg, st, m)
    ensures PoolRests(st, MoveSlots(cfg, rng, st, m))
  {
    hide Takeable, TotalBytes, RecordAt, ReplyAt, DriveAt, OpenSlot, Install, Least, Retransmitted, Observed,
      DeliverNext, CanRecord, CanOpen, CanLearn, PoolRests, OnlySlot;
    var next := MoveSlots(cfg, rng, st, m);
    match m
    case RecordStep(from, slot, step, proposal, now) => RecordShrinks(cfg, st, from, slot, step, proposal, now);
    case ReplyStep(from, slot, reqStep, step, first, priorAgg, now) =>
      ReplyShrinks(cfg, rng, st, slot, from, reqStep, step, first, priorAgg, now);
    case DriveStep(slot, now) => DriveShrinks(cfg, rng, st, slot, now);
    case RetransmitStep(slot) => SamePoolShrinks(st, next);
    case OpenStep(slot, cmds, asLeader, now) => OpenShrinks(cfg, rng, st, slot, cmds, asLeader, now);
    case LearnStep(slot, value, now) => InstallShrinks(cfg, st, slot, value, false, now);
    case DeliverStep => DeliverShrinksPool(st);
    case FreeStep => SamePoolShrinks(st, next);
    case EvictStep => SamePoolShrinks(st, next);
    case ObserveStep(now) => SamePoolShrinks(st, next);
  }

  lemma ForwardShrinks(cfg: Config, st: State, chunks: seq<(nat, seq<Command>)>, now: nat)
    requires cfg.me < |cfg.ids|
    ensures PoolShrinks(st, Reforwarded(cfg, st, chunks, now))
  {
    hide Rides, AllOf, Emit;
  }

  /** Only submissions and forwarded commands add to the pool. */
  lemma StepShrinks(cfg: Config, rng: Rng, st: State, m: Micro)
    requires ReplicaState.Enabled(cfg, st, m) && !m.SubmitStep? && !m.PoolStep?
    ensures PoolShrinks(st, ReplicaState.Apply(cfg, rng, st, m))
    ensures !m.ForwardStep? ==> PoolRests(st, ReplicaState.Apply(cfg, rng, st, m))
  {
    hide SlotsEnabled, MoveSlots, PoolShrinks, TotalCost, IsChunk, Forwardable, Acked, SelfAcked, Submitted, Pooled,
      Reforwarded,
      Refreshed, Requested, Answered, LearnEnded, LearnTimedOut, Pinged, SameStorage;
    if IsSlotStep(m) {
      SlotStepShrinks(cfg, rng, st, m);
    } else if m.ForwardStep? {
      ForwardShrinks(cfg, st, m.chunks, m.now);
    } else {
      SamePoolShrinks(st, MoveRest(cfg, st, m));
    }
  }

  // ---- values entering a slot ----

  /** No value newly enters slot `s`. */
  ghost predicate NothingEnters(st: State, next: State, s: Slot) {
    4 in HistAt(next, s).sent ==> 4 in HistAt(st, s).sent && HistAt(next, s).sent[4] == HistAt(st, s).sent[4]
  }

  lemma SameHistEnters(st: State, next: State, s: Slot)
    requires next.hist == st.hist
    ensures NothingEnters(st, next, s)
  {
  }

  lemma OtherSlotEnters(st: State, next: State, slot: Slot, s: Slot)
    requires OnlySlot(st, next, slot)
    requires s == slot ==> HistAt(next, slot).sent == HistAt(st, slot).sent || NothingEnters(st, next, slot)
    ensures NothingEnters(st, next, s)
  {
  }

  lemma EntersTwice(a: State, b: State, c: State, s: Slot)
    requires NothingEnters(a, b, s) && NothingEnters(b, c, s)
    ensures NothingEnters(a, c, s)
  {
  }

  lemma InstallHist(cfg: Config, st: State, slot: Slot, value: Bytes, mine: bool, now: nat)
    requires cfg.me < |cfg.ids|
    ensures Install(cfg, st, slot, value, mine, now).hist == st.hist[slot := HistAt(st, slot)]
  {
    hide ToOthers, Commands, Release, SlotOr;
  }

  lemma InstallEnters(cfg: Config, st: State, slot: Slot, value: Bytes, mine: bool, now: nat, s: Slot)
    requires cfg.me < |cfg.ids|
    ensures NothingEnters(st, Install(cfg, st, slot, value, mine, now), s)
  {
    hide Install;
    InstallHist(cfg, st, slot, value, mine, now);
  }

  lemma KeptEnters(st: State, slot: Slot, run: RunState, s: Slot)
    requires slot in st.slots
    ensures NothingEnters(st, Kept(st, slot, run), s)
  {
    OtherSlotEnters(st, Kept(st, slot, run), slot, s);
  }

  lemma MovedEnters(cfg: Config, st: State, slot: Slot, run: RunState, s: Slot)
    requires slot in st.slots && run.step > 4
    ensures NothingEnters(st, Moved(cfg, st, slot, run), s)
  {
    OtherSlotEnters(st, Moved(cfg, st, slot, run), slot, s);
  }

  lemma FoldReplyMoves(run: RunState, seat: Seat, now: nat, draws: seq<Draw>, from: nat, reqStep: nat, step: nat,
        first: Proposal, priorAgg: Option<Proposal>)
    requires seat.Valid() && Fits(run, seat.N()) && |draws| == seat.N() && from < seat.N()
    ensures
      var (after, reaction) := FoldReply(run, seat, now, draws, from, reqStep, step, first, priorAgg);
      reaction.Resend? ==> after.step > run.step
  {
    hide Types.Max;
  }

  lemma SettledEnters(cfg: Config, st: State, slot: Slot, run: RunState, reaction: Reaction, now: nat, s: Slot)
    requires cfg.me < |cfg.ids| && slot in st.slots && (reaction.Resend? ==> run.step > 4)
    ensures NothingEnters(st, Settled(cfg, st, slot, run, reaction, now), s)
  {
    hide Install, Kept, Moved, NothingEnters;
    match reaction
    case Choose(value) => InstallEnters(cfg, st, slot, value, true, now, s);
    case Quiet => KeptEnters(st, slot, run, s);
    case Resend => MovedEnters(cfg, st, slot, run, s);
  }

  lemma ReplyEnters(cfg: Config, rng: Rng, st: State, slot: Slot, from: nat, reqStep: nat, step: nat,
        first: ReplyFirst, priorAgg: Option<Proposal>, now: nat, s: Slot)
    requires CanFold(cfg, st, slot) && from < cfg.N() && st.slots[slot].proposer.run.step >= 4
    ensures NothingEnters(st, ReplyAt(cfg, rng, st, slot, from, reqStep, step, first, priorAgg, now), s)
  {
    hide FoldReply, Settled;
    match Reconstitute(st.slots[slot].proposer.run, from, reqStep, first)
    case None =>
    case Some(p) =>
      var run0 := st.slots[slot].proposer.run;
      var (run, reaction) := FoldReply(run0, cfg.MySeat(), now, DrawsAt(rng, st.drawn, cfg.N()),
          from, reqStep, step, p, priorAgg);
      FoldReplyMoves(run0, cfg.MySeat(), now, DrawsAt(rng, st.drawn, cfg.N()), from, reqStep, step, p, priorAgg);
      SettledEnters(cfg, st, slot, run, reaction, now, s);
  }

  lemma OwnRecordEnters(cfg: Config, st: State, slot: Slot, now: nat, s: Slot)
    requires CanDrive(cfg, st, slot)
    ensures NothingEnters(st, OwnRecord(cfg, st, slot, now), s)
  {
    hide Recorder.Record;
    OtherSlotEnters(st, OwnRecord(cfg, st, slot, now), slot, s);
  }

  lemma DriveEnters(cfg: Config, rng: Rng, st: State, slot: Slot, now: nat, s: Slot)
    requires CanDrive(cfg, st, slot) && st.slots[slot].proposer.run.step >= 4
    ensures NothingEnters(st, DriveAt(cfg, rng, st, slot, now), s)
  {
    hide FoldReply, Settled, OwnRecord, Emit, NothingEnters, DriveSends;
    var recorded := OwnRecord(cfg, st, slot, now);
    var summary := Summarize(recorded.slots[slot].recorder.isr);
    var (run, reaction) := DriveFold(cfg, rng, st, slot, now);
    FoldReplyMoves(recorded.slots[slot].proposer.run, cfg.MySeat(), now, DrawsAt(rng, recorded.drawn, cfg.N()), cfg.me,
      st.slots[slot].proposer.run.step, summary.step, summary.first, summary.priorAgg);
    OwnRecordEnters(cfg, st, slot, now, s);
    SettledEnters(cfg, recorded, slot, run, reaction, now, s);
    var after := Settled(cfg, recorded, slot, run, reaction, now);
    SameHistEnters(after, Emit(after, DriveSends(cfg, after, slot)), s);
    EntersTwice(st, recorded, after, s);
    EntersTwice(st, after, DriveAt(cfg, rng, st, slot, now), s);
  }

  lemma RecordEnters(cfg: Config, st: State, from: nat, slot: Slot, step: nat, proposal: Proposal, now: nat, s: Slot)
    requires CanRecord(cfg, st, from, slot, step)
    ensures NothingEnters(st, RecordAt(cfg, st, from, slot, step, proposal, now), s)
  {
    hide RecordAt, Emit, NodeOf, Recorded;
    RecordAtIs(cfg, st, from, slot, step, proposal, now);
    var next := RecordAt(cfg, st, from, slot, step, proposal, now);
    if slot in st.slots && st.slots[slot].recorder.Decided? {
      SameHistEnters(st, next, s);
    } else {
      RecordedEnters(st, slot, step, proposal, now, s);
      SameHistEnters(Recorded(st, slot, step, proposal, now), next, s);
      EntersTwice(st, Recorded(st, slot, step, proposal, now), next, s);
    }
  }

  lemma RecordedEnters(st: State, slot: Slot, step: nat, proposal: Proposal, now: nat, s: Slot)
    requires NodeOf(st, slot).recorder.Open? && NodeOf(st, slot).recorder.isr.WellFormed() && step >= 4
    ensures NothingEnters(st, Recorded(st, slot, step, proposal, now), s)
  {
    hide Recorder.Record;
    OtherSlotEnters(st, Recorded(st, slot, step, proposal, now), slot, s);
  }

  /** What opening a slot enters: the batch claimed for it. */
  lemma OpenedEnters(cfg: Config, rng: Rng, st: State, slot: Slot, cmds: seq<Command>, asLeader: bool, now: nat,
        s: Slot)
    requires cfg.me < |cfg.ids|
    ensures
      var next := OpenSlot(cfg, rng, st, slot, cmds, asLeader, now);
      if s == slot then 4 in HistAt(next, s).sent && HistAt(next, s).sent[4].proposal.value == Batch.BatchBytes(cmds)
      else HistAt(next, s) == HistAt(st, s)
  {
    hide Assign, Proposer.Start, DrawsAt, Batch.BatchBytes;
    StartIs(Batch.BatchBytes(cmds), cfg.ids[cfg.me], cfg.me, cfg.N(), cfg.IsLeader(), now,
      DrawsAt(rng, st.drawn, cfg.N()));
  }

  lemma ObservedEnters(st: State, now: nat, s: Slot)
    ensures NothingEnters(st, Observed(st, now), s)
  {
    OtherSlotEnters(st, Observed(st, now), st.contig + 1, s);
  }

  lemma RetransmittedEnters(st: State, slot: Slot, s: Slot)
    requires slot in st.slots && st.slots[slot].proposer.Running?
    ensures NothingEnters(st, Retransmitted(st, slot), s)
  {
    OtherSlotEnters(st, Retransmitted(st, slot), slot, s);
  }

  lemma DeliverEnters(st: State, s: Slot)
    requires st.contig + 1 in st.retained
    ensures NothingEnters(st, DeliverNext(st), s)
  {
    hide Filter, Commands, Without;
  }

  lemma RunAtLeastFour(cfg: Config, st: State, slot: Slot)
    requires StorageOk(cfg, st) && CanFold(cfg, st, slot)
    ensures st.slots[slot].proposer.run.step >= 4
  {
    SlotFacts(cfg, st, slot);
  }

  lemma SlotStepEnters(cfg: Config, rng: Rng, st: State, m: Micro, s: Slot)
    requires StorageOk(cfg, st) && IsSlotStep(m) && SlotsEnabled(cfg, st, m) && !m.OpenStep?
    ensures NothingEnters(st, MoveSlots(cfg, rng, st, m), s)
  {
    hide Takeable, TotalBytes, RecordAt, ReplyAt, DriveAt, OpenSlot, Install, Least, Retransmitted, Observed, StorageOk,
      DeliverNext, CanRecord, CanOpen, CanLearn, NothingEnters, OnlySlot;
    var next := MoveSlots(cfg, rng, st, m);
    if m.RecordStep? {
      RecordEnters(cfg, st, m.from, m.slot, m.step, m.proposal, m.now, s);
    } else if m.ReplyStep? {
      RunAtLeastFour(cfg, st, m.slot);
      ReplyEnters(cfg, rng, st, m.slot, m.from, m.reqStep, m.step, m.first, m.priorAgg, m.now, s);
    } else if m.DriveStep? {
      RunAtLeastFour(cfg, st, m.slot);
      DriveEnters(cfg, rng, st, m.slot, m.now, s);
    } else if m.RetransmitStep? {
      RetransmittedEnters(st, m.slot, s);
    } else if m.LearnStep? {
      InstallEnters(cfg, st, m.slot, m.value, false, m.now, s);
    } else if m.DeliverStep? {
      DeliverEnters(st, s);
    } else if m.ObserveStep? {
      ObservedEnters(st, m.now, s);
    } else {
      SameHistEnters(st, next, s);
    }
  }

  /** Only opening a slot lets a value enter it. */
  lemma StepEnters(cfg: Config, rng: Rng, st: State, m: Micro, s: Slot)
    requires StorageOk(cfg, st) && ReplicaState.Enabled(cfg, st, m) && !m.OpenStep?
    ensures NothingEnters(st, ReplicaState.Apply(cfg, rng, st, m), s)
  {
    hide StorageOk, SlotsEnabled, MoveSlots, RestEnabled, MoveRest, NothingEnters;
    if IsSlotStep(m) {
      SlotStepEnters(cfg, rng, st, m, s);
    } else {
      SameHistEnters(st, MoveRest(cfg, st, m), s);
    }
  }
}
