/** The times a replica remembers of a slot. */
module Clocks {
  // A slot is first observed once; after that only a record that moves its recorder counts as
  // progress, so nothing a replica does by itself puts its hedging off.

  import opened Types
  import opened Recorder
  import opened SlotLogic
  import opened ReplicaState
  import opened ReplicaMoves

  /** The time a step happens at, for the steps that may bring up a slot. */
  function TimeOf(m: Micro): Option<nat> {
    match m
    case RecordStep(_, _, _, _, now) => Some(now)
    case OpenStep(_, _, _, now) => Some(now)
    case LearnStep(_, _, now) => Some(now)
    case ObserveStep(now) => Some(now)
    case _ => None
  }

  /** The step is another replica's record, and it moved the recorder of slot `s`. */
  predicate Progresses(st: State, next: State, m: Micro, s: Slot)
    requires s in st.slots && s in next.slots
  {
    m.RecordStep? && m.slot == s && next.slots[s].recorder != st.slots[s].recorder
  }

  /** A slot known before keeps when it was first observed, and when it last progressed
      unless it progresses now; any other starts both clocks now. */
  ghost predicate ClockMoves(st: State, next: State, m: Micro, s: Slot)
    requires s in next.slots
  {
    if s in st.slots then
      && next.slots[s].firstObserved == st.slots[s].firstObserved
      && if Progresses(st, next, m, s) then TimeOf(m) == Some(next.slots[s].lastProgress)
         else next.slots[s].lastProgress == st.slots[s].lastProgress
    else
      next.slots[s].firstObserved == next.slots[s].lastProgress && TimeOf(m) == Some(next.slots[s].firstObserved)
  }

  /** Every slot there is was there before, with the same clocks. */
  ghost predicate ClocksStay(st: State, next: State) {
    forall s :: s in next.slots ==>
      && s in st.slots && next.slots[s].firstObserved == st.slots[s].firstObserved
      && next.slots[s].lastProgress == st.slots[s].lastProgress
  }

  lemma SettledClocks(cfg: Config, st: State, slot: Slot, run: Proposer.RunState, reaction: Reaction, now: nat)
    requires cfg.me < |cfg.ids| && slot in st.slots
    ensures ClocksStay(st, Settled(cfg, st, slot, run, reaction, now))
  {
    hide Release, SendsBelow;
  }

  lemma ReplyClocks(cfg: Config, rng: Rng, st: State, slot: Slot, from: nat, reqStep: nat, step: nat,
      first: ReplyFirst, priorAgg: Option<Proposal>, now: nat)
    requires CanFold(cfg, st, slot) && from < cfg.N()
    ensures ClocksStay(st, ReplyAt(cfg, rng, st, slot, from, reqStep, step, first, priorAgg, now))
  {
    hide FoldReply, Settled, DrawsAt;
    var p := Reconstitute(st.slots[slot].proposer.run, from, reqStep, first);
    if p.Some? {
      var (run, reaction) := FoldReply(st.slots[slot].proposer.run, cfg.MySeat(), now,
          DrawsAt(rng, st.drawn, cfg.N()), from, reqStep, step, p.value, priorAgg);
      SettledClocks(cfg, st, slot, run, reaction, now);
    }
  }

  lemma OwnRecordClocks(cfg: Config, st: State, slot: Slot, now: nat)
    requires CanDrive(cfg, st, slot)
    ensures ClocksStay(st, OwnRecord(cfg, st, slot, now))
  {
  }

  lemma DriveClocks(cfg: Config, rng: Rng, st: State, slot: Slot, now: nat)
    requires CanDrive(cfg, st, slot)
    ensures ClocksStay(st, DriveAt(cfg, rng, st, slot, now))
  {
    hide FoldReply, Settled, DrawsAt, OwnRecord, DriveSends;
    var recorded := OwnRecord(cfg, st, slot, now);
    OwnRecordClocks(cfg, st, slot, now);
    var summary := Summarize(recorded.slots[slot].recorder.isr);
    var step := st.slots[slot].proposer.run.step;
    var (run, reaction) := FoldReply(recorded.slots[slot].proposer.run, cfg.MySeat(), now,
        DrawsAt(rng, recorded.drawn, cfg.N()), cfg.me, step, summary.step, summary.first, summary.priorAgg);
    SettledClocks(cfg, recorded, slot, run, reaction, now);
  }

  lemma RecordClocks(cfg: Config, st: State, from: nat, slot: Slot, step: nat, p: Proposal, now: nat, s: Slot)
    requires CanRecord(cfg, st, from, slot, step)
    requires s in RecordAt(cfg, st, from, slot, step, p, now).slots
    ensures ClockMoves(st, RecordAt(cfg, st, from, slot, step, p, now), RecordStep(from, slot, step, p, now), s)
  {
    hide Recorder.Record, Recorded, Summarize;
    RecordAtIs(cfg, st, from, slot, step, p, now);
    if !(slot in st.slots && st.slots[slot].recorder.Decided?) {
      RecordedIs(st, slot, step, p, now);
    }
  }

  lemma SlotStepClocks(cfg: Config, rng: Rng, st: State, m: Micro, s: Slot)
    requires IsSlotStep(m) && SlotsEnabled(cfg, st, m) && !m.RecordStep? && !m.ReplyStep? && !m.DriveStep?
    requires s in MoveSlots(cfg, rng, st, m).slots
    ensures ClockMoves(st, MoveSlots(cfg, rng, st, m), m, s)
  {
    hide Release, SendsBelow, Filter, Without, Assign, Proposer.Start, DrawsAt, Takeable, TotalBytes, Top, Least;
  }

  /** The clocks of every slot, over any step. */
  lemma StepClocks(cfg: Config, rng: Rng, st: State, m: Micro, s: Slot)
    requires Enabled(cfg, st, m) && s in Apply(cfg, rng, st, m).slots
    ensures ClockMoves(st, Apply(cfg, rng, st, m), m, s)
  {
    hide RecordAt, ReplyAt, DriveAt, CanRecord, CanDrive, CanFold, OpenSlot, Install, DeliverNext, FreeNext, Observed,
      Retransmitted, Takeable, TotalBytes, CanOpen, CanLearn, RestEnabled;
    if !IsSlotStep(m) {
      assert SameStorage(st, Apply(cfg, rng, st, m));
    } else {
      match m
      case RecordStep(from, slot, step, p, now) => RecordClocks(cfg, st, from, slot, step, p, now, s);
      case ReplyStep(from, slot, reqStep, step, first, priorAgg, now) =>
        ReplyClocks(cfg, rng, st, slot, from, reqStep, step, first, priorAgg, now);
      case DriveStep(slot, now) => DriveClocks(cfg, rng, st, slot, now);
      case _ => SlotStepClocks(cfg, rng, st, m, s);
    }
  }
}
