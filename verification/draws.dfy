/** The priorities a replica draws. */
module Drawing {
  // Each randomized step of each slot has its own stretch of the replica's random stream, one
  // number per recorder: no number is spread twice.

  import opened Types
  import opened Proposer
  import opened SlotLogic
  import opened ReplicaState
  import opened ReplicaMoves
  import opened ReplicaRuns
  import Batch
  import Consensus
  import opened Recorder
  import Wire

  /** A step of this replica's proposer in a slot. */
  datatype Place = Place(slot: Slot, step: nat)

  /** Recorder `k` is sent the stream's number `start + k`. */
  ghost predicate DrawnFrom(rng: Rng, n: nat, t: Consensus.Template, start: nat) {
    |t.priorities| == n && forall k {:trigger t.priorities[k]} :: 0 <= k < n ==> t.priorities[k] == rng(start + k)
  }

  /** Stretches of `n` numbers each, all behind `drawn`, and no two of them overlap. */
  ghost predicate Apart(starts: map<Place, nat>, n: nat, drawn: nat) {
    && (forall a :: a in starts ==> starts[a] + n <= drawn)
    && forall a, b :: a in starts && b in starts && a != b ==> starts[a] + n <= starts[b] || starts[b] + n <= starts[a]
  }

  function SentAt(st: State, slot: Slot): map<nat, Consensus.Template> {
    HistAt(st, slot).sent
  }

  /** Every step spread with draws has its stretch. */
  ghost predicate Placed(rng: Rng, n: nat, st: State, starts: map<Place, nat>) {
    forall s: Slot, t: nat :: t in SentAt(st, s) && SentAt(st, s)[t].priorities != [] ==>
      Place(s, t) in starts && DrawnFrom(rng, n, SentAt(st, s)[t], starts[Place(s, t)])
  }

  ghost predicate DrawnApart(cfg: Config, rng: Rng, st: State) {
    exists starts :: Apart(starts, cfg.N(), st.drawn) && Placed(rng, cfg.N(), st, starts)
  }

  // ---- one step ----

  ghost predicate SameSent(st: State, next: State) {
    forall s: Slot :: SentAt(next, s) == SentAt(st, s)
  }

  /** Nothing new is spread and nothing drawn. */
  ghost predicate Spares(st: State, next: State) {
    SameSent(st, next) && next.drawn == st.drawn
  }

  /** One step of one slot is spread: without draws, or with the next ones of the stream. */
  ghost predicate SpendsAt(cfg: Config, rng: Rng, st: State, next: State, slot: Slot, step: nat,
      t: Consensus.Template)
  {
    && (forall s: Slot :: SentAt(next, s) == if s == slot then SentAt(st, s)[step := t] else SentAt(st, s))
    && if t.priorities == [] then next.drawn == st.drawn
       else DrawnFrom(rng, cfg.N(), t, st.drawn) && next.drawn == st.drawn + cfg.N()
  }

  ghost predicate Spends(cfg: Config, rng: Rng, st: State, next: State) {
    Spares(st, next) || exists slot, step, t :: SpendsAt(cfg, rng, st, next, slot, step, t)
  }

  /** A run that moved on spreads its new step with the draws given, or without any. */
  lemma ReactionDraws(run: RunState, seat: Seat, now: nat, draws: seq<Draw>, from: nat, reqStep: nat, step: nat,
      first: Proposal, priorAgg: Option<Proposal>)
    requires seat.Valid() && Fits(run, seat.N()) && |draws| == seat.N() && from < seat.N()
    ensures
      var (next, reaction) := FoldReply(run, seat, now, draws, from, reqStep, step, first, priorAgg);
      reaction == Resend ==> next.priorities == if Randomizes(next.step, seat.IsLeader()) then draws else []
  {
    hide Count;
  }

  lemma SettledSpends(cfg: Config, rng: Rng, st: State, slot: Slot, run: RunState, reaction: Reaction, now: nat)
    requires cfg.me < |cfg.ids| && slot in st.slots
    requires reaction == Resend ==>
      run.priorities == if Randomizes(run.step, cfg.IsLeader()) then DrawsAt(rng, st.drawn, cfg.N()) else []
    ensures Spends(cfg, rng, st, Settled(cfg, st, slot, run, reaction, now))
  {
    hide Release, SendsBelow, Randomizes;
    var next := Settled(cfg, st, slot, run, reaction, now);
    if reaction == Resend {
      assert SpendsAt(cfg, rng, st, next, slot, run.step, Consensus.TemplateOf(run));
    }
  }

  lemma TakeSpends(cfg: Config, rng: Rng, st: State, slot: Slot, from: nat, reqStep: nat, step: nat,
      first: Proposal, priorAgg: Option<Proposal>, now: nat)
    requires CanFold(cfg, st, slot) && from < cfg.N()
    ensures Spends(cfg, rng, st, TakeReply(cfg, rng, st, slot, from, reqStep, step, first, priorAgg, now))
  {
    hide FoldReply, Settled, Spends, DrawsAt;
    var run, draws := st.slots[slot].proposer.run, DrawsAt(rng, st.drawn, cfg.N());
    ReactionDraws(run, cfg.MySeat(), now, draws, from, reqStep, step, first, priorAgg);
    var (next, reaction) := FoldReply(run, cfg.MySeat(), now, draws, from, reqStep, step, first, priorAgg);
    SettledSpends(cfg, rng, st, slot, next, reaction, now);
  }

  lemma OwnRecordSpares(cfg: Config, st: State, slot: Slot, now: nat)
    requires CanDrive(cfg, st, slot)
    ensures Spares(st, OwnRecord(cfg, st, slot, now))
  {
  }

  lemma SparesFirst(cfg: Config, rng: Rng, st: State, mid: State, next: State)
    requires Spares(st, mid) && Spends(cfg, rng, mid, next)
    ensures Spends(cfg, rng, st, next)
  {
    hide SentAt;
    if !Spares(mid, next) {
      var slot, step, t :| SpendsAt(cfg, rng, mid, next, slot, step, t);
      assert SpendsAt(cfg, rng, st, next, slot, step, t);
    }
  }

  lemma SparesSame(st: State)
    ensures Spares(st, st)
  {
  }

  lemma EmitSpares(st: State, next: State, more: seq<Action>)
    requires Spares(st, next)
    ensures Spares(st, Emit(next, more))
  {
  }

  lemma EmitSpends(cfg: Config, rng: Rng, st: State, next: State, more: seq<Action>)
    requires Spends(cfg, rng, st, next)
    ensures Spends(cfg, rng, st, Emit(next, more))
  {
    var sent := Emit(next, more);
    assert SameSent(next, sent);
    if !Spares(st, next) {
      var slot, step, t :| SpendsAt(cfg, rng, st, next, slot, step, t);
      assert SpendsAt(cfg, rng, st, sent, slot, step, t);
    }
  }

  lemma DriveSpends(cfg: Config, rng: Rng, st: State, slot: Slot, now: nat)
    requires CanDrive(cfg, st, slot)
    ensures Spends(cfg, rng, st, DriveAt(cfg, rng, st, slot, now))
  {
    hide OwnRecord, TakeReply, Emit, DriveSends, Spends, Spares;
    var recorded := OwnRecord(cfg, st, slot, now);
    OwnRecordSpares(cfg, st, slot, now);
    var summary := Recorder.Summarize(recorded.slots[slot].recorder.isr);
    var step := st.slots[slot].proposer.run.step;
    var after := TakeReply(cfg, rng, recorded, slot, cfg.me, step, summary.step, summary.first, summary.priorAgg, now);
    TakeSpends(cfg, rng, recorded, slot, cfg.me, step, summary.step, summary.first, summary.priorAgg, now);
    SparesFirst(cfg, rng, st, recorded, after);
    EmitSpends(cfg, rng, st, after, DriveSends(cfg, after, slot));
  }

  lemma OpenSpends(cfg: Config, rng: Rng, st: State, slot: Slot, cmds: seq<Command>, asLeader: bool, now: nat)
    requires cfg.me < |cfg.ids|
    ensures Spends(cfg, rng, st, OpenSlot(cfg, rng, st, slot, cmds, asLeader, now))
  {
    hide Assign, Batch.BatchBytes;
    var next := OpenSlot(cfg, rng, st, slot, cmds, asLeader, now);
    var run := Proposer.Start(Batch.BatchBytes(cmds), cfg.ids[cfg.me], cfg.me, cfg.N(), cfg.IsLeader(), now,
      DrawsAt(rng, st.drawn, cfg.N()));
    assert SpendsAt(cfg, rng, st, next, slot, 4, Consensus.TemplateOf(run));
  }

  lemma DeliverSpares(st: State)
    requires st.contig + 1 in st.retained
    ensures Spares(st, DeliverNext(st))
  {
    hide Filter, Without;
  }

  lemma RecordSpares(cfg: Config, st: State, from: nat, slot: Slot, step: nat, p: Proposal, now: nat)
    requires CanRecord(cfg, st, from, slot, step)
    ensures Spares(st, RecordAt(cfg, st, from, slot, step, p, now))
  {
    hide Recorded, Emit, Spares, NodeOf, Summarize;
    RecordAtIs(cfg, st, from, slot, step, p, now);
    var next := RecordAt(cfg, st, from, slot, step, p, now);
    if slot in st.slots && st.slots[slot].recorder.Decided? {
      SparesSame(st);
      EmitSpares(st, st, [SendOne(cfg, st, from, Wire.Decide(slot, st.slots[slot].recorder.value))]);
    } else {
      RecordedSpares(st, slot, step, p, now);
      var recorded := Recorded(st, slot, step, p, now);
      var more :| next == Emit(recorded, more);
      EmitSpares(st, recorded, more);
    }
  }

  lemma RecordedSpares(st: State, slot: Slot, step: nat, p: Proposal, now: nat)
    requires NodeOf(st, slot).recorder.Open? && NodeOf(st, slot).recorder.isr.WellFormed() && step >= 4
    ensures Spares(st, Recorded(st, slot, step, p, now))
  {
    hide Recorder.Record;
  }

  lemma LearnSpares(cfg: Config, st: State, slot: Slot, value: Bytes, now: nat)
    requires cfg.me < |cfg.ids|
    ensures Spares(st, Install(cfg, st, slot, value, false, now))
  {
    hide Release, SendsBelow;
  }

  lemma ReplySpends(cfg: Config, rng: Rng, st: State, slot: Slot, from: nat, reqStep: nat, step: nat,
      first: ReplyFirst, priorAgg: Option<Proposal>, now: nat)
    requires CanFold(cfg, st, slot) && from < cfg.N()
    ensures Spends(cfg, rng, st, ReplyAt(cfg, rng, st, slot, from, reqStep, step, first, priorAgg, now))
  {
    hide TakeReply, SpendsAt;
    match Reconstitute(st.slots[slot].proposer.run, from, reqStep, first)
    case None =>
    case Some(p) => TakeSpends(cfg, rng, st, slot, from, reqStep, step, p, priorAgg, now);
  }

  lemma QuietSpares(cfg: Config, rng: Rng, st: State, m: Micro)
    requires IsSlotStep(m) && SlotsEnabled(cfg, st, m)
    requires m.RetransmitStep? || m.ObserveStep? || m.FreeStep? || m.EvictStep?
    ensures Spares(st, MoveSlots(cfg, rng, st, m))
  {
    hide TotalBytes;
  }

  lemma SlotStepSpends(cfg: Config, rng: Rng, st: State, m: Micro)
    requires IsSlotStep(m) && SlotsEnabled(cfg, st, m)
    ensures Spends(cfg, rng, st, MoveSlots(cfg, rng, st, m))
  {
    hide RecordAt, ReplyAt, DriveAt, OpenSlot, Install, DeliverNext, FreeNext, Observed, Retransmitted, Takeable,
      TotalBytes, CanRecord, CanDrive, CanFold, CanOpen, CanLearn, SpendsAt, Spares;
    var next := MoveSlots(cfg, rng, st, m);
    match m
    case RecordStep(from, slot, step, p, now) => RecordSpares(cfg, st, from, slot, step, p, now);
    case ReplyStep(from, slot, reqStep, step, first, priorAgg, now) =>
      ReplySpends(cfg, rng, st, slot, from, reqStep, step, first, priorAgg, now);
    case DriveStep(slot, now) => DriveSpends(cfg, rng, st, slot, now);
    case OpenStep(slot, cmds, asLeader, now) => OpenSpends(cfg, rng, st, slot, cmds, asLeader, now);
    case LearnStep(slot, value, now) => LearnSpares(cfg, st, slot, value, now);
    case DeliverStep => DeliverSpares(st);
    case _ => QuietSpares(cfg, rng, st, m);
  }

  lemma RestSpares(cfg: Config, st: State, m: Micro)
    requires !IsSlotStep(m) && RestEnabled(cfg, st, m)
    ensures Spares(st, MoveRest(cfg, st, m))
  {
    hide Forwarded, SendsBelow, ChunkSends;
  }

  lemma ApartMore(starts: map<Place, nat>, n: nat, drawn: nat, place: Place)
    requires Apart(starts, n, drawn)
    ensures Apart(starts[place := drawn], n, drawn + n)
  {
  }

  lemma PlacedMore(cfg: Config, rng: Rng, st: State, next: State, slot: Slot, step: nat, t: Consensus.Template,
      starts: map<Place, nat>)
    requires Placed(rng, cfg.N(), st, starts) && SpendsAt(cfg, rng, st, next, slot, step, t)
    ensures Placed(rng, cfg.N(), next, if t.priorities == [] then starts else starts[Place(slot, step) := st.drawn])
  {
    hide SentAt, DrawnFrom;
  }

  /** Draws that were spent stay apart. */
  lemma SpendsKeeps(cfg: Config, rng: Rng, st: State, next: State)
    requires DrawnApart(cfg, rng, st) && Spends(cfg, rng, st, next)
    ensures DrawnApart(cfg, rng, next)
  {
    hide SentAt, Apart, Placed, SpendsAt, DrawnFrom;
    var n := cfg.N();
    var starts :| Apart(starts, n, st.drawn) && Placed(rng, n, st, starts);
    if Spares(st, next) {
      PlacedSame(rng, n, st, next, starts);
    } else {
      var slot, step, t :| SpendsAt(cfg, rng, st, next, slot, step, t);
      SpentDrawn(cfg, rng, st, next, slot, step, t);
      PlacedMore(cfg, rng, st, next, slot, step, t, starts);
      ApartMore(starts, n, st.drawn, Place(slot, step));
    }
  }

  lemma SpentDrawn(cfg: Config, rng: Rng, st: State, next: State, slot: Slot, step: nat, t: Consensus.Template)
    requires SpendsAt(cfg, rng, st, next, slot, step, t)
    ensures next.drawn == if t.priorities == [] then st.drawn else st.drawn + cfg.N()
  {
    hide SentAt;
  }

  lemma PlacedSame(rng: Rng, n: nat, st: State, next: State, starts: map<Place, nat>)
    requires Placed(rng, n, st, starts) && SameSent(st, next)
    ensures Placed(rng, n, next, starts)
  {
    hide SentAt, DrawnFrom;
  }

  lemma StepKeepsDrawn(cfg: Config, rng: Rng, st: State, m: Micro, next: State)
    requires DrawnApart(cfg, rng, st) && Steps(cfg, rng, st, m, next)
    ensures DrawnApart(cfg, rng, next)
  {
    hide Spends, Spares, DrawnApart, MoveSlots, MoveRest, SlotsEnabled, RestEnabled;
    if IsSlotStep(m) {
      SlotStepSpends(cfg, rng, st, m);
    } else {
      RestSpares(cfg, st, m);
      SparesSpends(cfg, rng, st, next);
    }
    SpendsKeeps(cfg, rng, st, next);
  }

  lemma SparesSpends(cfg: Config, rng: Rng, st: State, next: State)
    requires Spares(st, next)
    ensures Spends(cfg, rng, st, next)
  {
  }

  // ---- every run ----

  /** In every state of every run the draws spread are apart. */
  lemma {:induction false} RunDraws(cfg: Config, rng: Rng, trail: seq<Micro>, states: seq<State>, k: nat)
    requires IsRun(cfg, rng, trail, states) && k <= |trail|
    ensures DrawnApart(cfg, rng, states[k])
  {
    hide Steps;
    if k == 0 {
      assert Apart(map[], cfg.N(), 0) && Placed(rng, cfg.N(), states[0], map[]);
    } else {
      RunDraws(cfg, rng, trail, states, k - 1);
      assert Steps(cfg, rng, states[k - 1], trail[k - 1], states[k]);
      StepKeepsDrawn(cfg, rng, states[k - 1], trail[k - 1], states[k]);
    }
  }
}
