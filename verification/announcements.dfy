/** What a replica owes the others is sent to them. */
module Announcements {
  // What every run of a replica keeps: its decisions were told to everyone, the step each of
  // its proposers waits at was sent to everyone, whoever is to be waited for with a Learn was
  // asked, and every attempt at forwarding a command went to the replica it was for.

  import opened Types
  import opened Recorder
  import opened Proposer
  import opened SlotLogic
  import opened Pooling
  import opened ReplicaState
  import opened ReplicaInvariant
  import opened ReplicaMoves
  import opened ReplicaRuns
  import opened Delivery
  import opened Retention
  import opened Emissions
  import opened Custody
  import Consensus
  import Wire
  import Batch

  // ---- messages sent ----

  predicate IsMessage(a: Action, to: nat, p: Wire.Payload) {
    a.Send? && a.to == to && a.message.payload == p
  }

  /** This was sent to replica `to`. */
  ghost predicate Told(st: State, to: nat, p: Wire.Payload) {
    exists k :: 0 <= k < |st.actions| && IsMessage(st.actions[k], to, p)
  }

  /** This was sent to replica `to` since there were `n` actions. */
  ghost predicate ToldSince(n: nat, st: State, to: nat, p: Wire.Payload) {
    exists k :: n <= k < |st.actions| && IsMessage(st.actions[k], to, p)
  }

  /** So was this to everyone else. */
  ghost predicate OthersTold(cfg: Config, n: nat, st: State, p: Wire.Payload) {
    forall j: nat :: j < cfg.N() && j != cfg.me ==> ToldSince(n, st, j, p)
  }

  lemma OthersToldStays(cfg: Config, n: nat, st: State, next: State, p: Wire.Payload)
    requires OthersTold(cfg, n, st, p) && Extends(st, next)
    ensures OthersTold(cfg, n, next, p)
  {
    hide ToldSince, Extends;
    forall j: nat | j < cfg.N() && j != cfg.me ensures ToldSince(n, next, j, p) {
      ToldSinceStays(n, st, next, j, p);
    }
  }

  lemma ToldSinceStays(n: nat, st: State, next: State, to: nat, p: Wire.Payload)
    requires ToldSince(n, st, to, p) && Extends(st, next)
    ensures ToldSince(n, next, to, p)
  {
    var k :| n <= k < |st.actions| && IsMessage(st.actions[k], to, p);
    assert next.actions[k] == next.actions[..|st.actions|][k];
  }

  lemma ToldStays(st: State, next: State, to: nat, p: Wire.Payload)
    requires Told(st, to, p) && Extends(st, next)
    ensures Told(next, to, p)
  {
    ToldSinceStays(0, st, next, to, p);
  }

  /** A broadcast reaches everyone else. */
  lemma BroadcastTells(cfg: Config, st: State, payload: nat -> Wire.Payload, decided: Slot, j: nat)
    requires cfg.me < |cfg.ids| && j < cfg.N() && j != cfg.me
    ensures ToldSince(|st.actions|, Emit(st, ToOthers(cfg, decided, payload)), j, payload(j))
  {
    hide Emit;
    var sends := ToOthers(cfg, decided, payload);
    var a := Send(j, Wire.Message(cfg.ids[cfg.me], decided, payload(j)));
    SendsBelowAre(cfg, decided, payload, cfg.N(), a);
    var k :| 0 <= k < |sends| && sends[k] == a;
    assert Emit(st, sends).actions[|st.actions| + k] == a;
  }

  /** And no one twice. */
  lemma {:induction false} BroadcastOnce(cfg: Config, decided: Slot, payload: nat -> Wire.Payload, k: nat)
    requires cfg.me < |cfg.ids|
    ensures |SendsBelow(cfg, decided, payload, k)| == if cfg.me < k then k - 1 else k
  {
    if k > 0 {
      BroadcastOnce(cfg, decided, payload, k - 1);
    }
  }

  // ---- answering a record ----

  /** The answer to a request at `step` for `proposal`: the decision of the slot, or what its
      register sums up to, the first proposal left out when it is the request's own. */
  ghost predicate AnswerTo(a: Action, st: State, to: nat, slot: Slot, step: nat, proposal: Proposal) {
    && a.Send? && a.to == to && slot in st.slots
    && match st.slots[slot].recorder
       case Decided(value) => a.message.payload == Wire.Decide(slot, value)
       case Open(isr) =>
         && isr.first.Some?
         && var own := isr.step == step && isr.first.value == proposal;
         a.message.payload ==
           Wire.RecordReply(slot, step, isr.step, if own then Echo else Full(isr.first.value), isr.priorAgg)
  }

  /** One action was added, and it is the answer. */
  ghost predicate RecordAnswered(st: State, next: State, from: nat, slot: Slot, step: nat, proposal: Proposal) {
    && |next.actions| == |st.actions| + 1 && Extends(st, next)
    && AnswerTo(next.actions[|st.actions|], next, from, slot, step, proposal)
  }

  /** Whoever sent a record this replica takes is answered. */
  lemma RecordIsAnswered(cfg: Config, st: State, from: nat, slot: Slot, step: nat, proposal: Proposal, now: nat)
    requires CanRecord(cfg, st, from, slot, step)
    ensures RecordAnswered(st, RecordAt(cfg, st, from, slot, step, proposal, now), from, slot, step, proposal)
  {
    hide RecordAt, Recorded, NodeOf;
    RecordAtIs(cfg, st, from, slot, step, proposal, now);
  }

  // ---- what is kept ----

  /** Every decision of our own was told to everyone else. */
  ghost predicate DecisionsTold(cfg: Config, st: State) {
    forall s, j: nat :: s in st.own && j < cfg.N() && j != cfg.me ==> DecisionTold(st, s, j)
  }

  ghost predicate DecisionTold(st: State, s: Slot, j: nat) {
    s in st.log && Told(st, j, Wire.Decide(s, st.log[s]))
  }

  /** Our proposer for the slot waits for answers to its step. */
  predicate Waits(st: State, s: Slot) {
    s in st.slots && st.slots[s].proposer.Running? && !st.slots[s].proposer.run.needsSend
  }

  /** The step that is waited at, as it is for recorder `j`. */
  function Request(s: Slot, run: RunState, j: nat): Wire.Payload {
    Wire.Record(s, run.step, Consensus.TemplateOf(run).For(j))
  }

  /** Every step waited at was sent to everyone else. */
  ghost predicate StepsSent(cfg: Config, st: State) {
    forall s, j: nat :: Waits(st, s) && j < cfg.N() && j != cfg.me ==> StepSent(st, s, j)
  }

  ghost predicate StepSent(st: State, s: Slot, j: nat)
    requires Waits(st, s)
  {
    Told(st, j, Request(s, st.slots[s].proposer.run, j))
  }

  /** Whoever is waited for to send decided values was asked for them, from no later than the
      slot due next. */
  ghost predicate LearnAsked(st: State) {
    st.learning.Some? ==> exists from: Slot :: from <= st.contig + 1 && Told(st, st.learning.value.0, Wire.Learn(from))
  }

  ghost predicate OwnHeld(cfg: Config, st: State, id: CommandId) {
    cfg.me < |cfg.ids| && id in st.pool && id.origin == cfg.ids[cfg.me] && id.boot == cfg.boot
  }

  predicate Forwards(a: Action, to: nat, cmd: Command) {
    a.Send? && a.to == to && a.message.payload.Forward? && cmd in a.message.payload.commands
  }

  ghost predicate ForwardedTo(st: State, to: nat, cmd: Command) {
    exists k :: 0 <= k < |st.actions| && Forwards(st.actions[k], to, cmd)
  }

  /** Each attempt at forwarding a command of ours went to the replica it was for; there was
      one at least, unless this is the leader. */
  ghost predicate ForwardsSent(cfg: Config, st: State) {
    && (forall id :: OwnHeld(cfg, st, id) && !cfg.IsLeader() ==> st.pool[id].forwardAttempts >= 1)
    && forall id, a: nat :: OwnHeld(cfg, st, id) && a < st.pool[id].forwardAttempts ==> AttemptSent(cfg, st, id, a)
  }

  ghost predicate AttemptSent(cfg: Config, st: State, id: CommandId, a: nat)
    requires id in st.pool
  {
    cfg.N() > 1 && ForwardedTo(st, ForwardTarget(cfg, a), Command(id, st.pool[id].data))
  }

  ghost predicate Announced(cfg: Config, st: State) {
    DecisionsTold(cfg, st) && StepsSent(cfg, st) && LearnAsked(st) && ForwardsSent(cfg, st)
  }

  lemma ForwardedStays(st: State, next: State, to: nat, cmd: Command)
    requires ForwardedTo(st, to, cmd) && Extends(st, next)
    ensures ForwardedTo(next, to, cmd)
  {
    var k :| 0 <= k < |st.actions| && Forwards(st.actions[k], to, cmd);
    assert next.actions[k] == next.actions[..|st.actions|][k];
  }

  // ---- decisions ----

  /** What is newly our own decision was told to everyone else. */
  ghost predicate NewToldTo(cfg: Config, st: State, next: State) {
    && Extends(st, next) && LogExtends(st.log, next.log) && st.own <= next.own
    && forall s, j: nat :: s in next.own && s !in st.own && j < cfg.N() && j != cfg.me ==> DecisionTold(next, s, j)
  }

  lemma DecisionsStay(cfg: Config, st: State, next: State)
    requires DecisionsTold(cfg, st) && NewToldTo(cfg, st, next)
    ensures DecisionsTold(cfg, next)
  {
    hide Told, Extends;
    forall s, j: nat | s in next.own && j < cfg.N() && j != cfg.me ensures DecisionTold(next, s, j) {
      if s in st.own {
        assert DecisionTold(st, s, j);
        ToldStays(st, next, j, Wire.Decide(s, st.log[s]));
      }
    }
  }

  /** Installing a decision of our own tells everyone else, with the announcements that the
      call adds. */
  lemma InstallTells(cfg: Config, st: State, slot: Slot, value: Bytes, now: nat, j: nat)
    requires cfg.me < |cfg.ids| && j < cfg.N() && j != cfg.me
    ensures ToldSince(|st.actions|, Install(cfg, st, slot, value, true, now), j, Wire.Decide(slot, value))
  {
    hide Install, ToOthers, Emit;
    InstallFields(cfg, st, slot, value, true, now);
    BroadcastTells(cfg, st, DecideTo(slot, value), st.contig, j);
    SameActions(Emit(st, ToOthers(cfg, st.contig, DecideTo(slot, value))), Install(cfg, st, slot, value, true, now),
      |st.actions|, j, Wire.Decide(slot, value));
  }

  lemma InstallTellsAll(cfg: Config, st: State, slot: Slot, value: Bytes, now: nat)
    requires cfg.me < |cfg.ids|
    ensures OthersTold(cfg, |st.actions|, Install(cfg, st, slot, value, true, now), Wire.Decide(slot, value))
  {
    hide Install, ToldSince;
    forall j: nat | j < cfg.N() && j != cfg.me
      ensures ToldSince(|st.actions|, Install(cfg, st, slot, value, true, now), j, Wire.Decide(slot, value))
    {
      InstallTells(cfg, st, slot, value, now, j);
    }
  }

  /** A heartbeat goes to everyone else. */
  lemma PingTells(cfg: Config, st: State, now: nat)
    requires cfg.me < |cfg.ids|
    ensures OthersTold(cfg, |st.actions|, Pinged(cfg, st, now), Wire.Ping)
  {
    hide ToOthers, ToldSince;
    forall j: nat | j < cfg.N() && j != cfg.me ensures ToldSince(|st.actions|, Pinged(cfg, st, now), j, Wire.Ping) {
      BroadcastTells(cfg, st.(lastPing := now), PingTo(), st.contig, j);
    }
  }

  lemma SameActions(st: State, next: State, n: nat, j: nat, p: Wire.Payload)
    requires ToldSince(n, st, j, p) && next.actions == st.actions
    ensures ToldSince(n, next, j, p)
  {
    ToldSinceStays(n, st, next, j, p);
  }

  lemma InstallOwns(cfg: Config, st: State, slot: Slot, value: Bytes, mine: bool, now: nat)
    requires cfg.me < |cfg.ids|
    ensures
      var next := Install(cfg, st, slot, value, mine, now);
      next.own == (if mine then st.own + {slot} else st.own) && next.log == st.log[slot := value]
  {
    hide ToOthers, Commands, Release, NodeOf, SlotOr;
  }

  lemma InstallNew(cfg: Config, st: State, slot: Slot, value: Bytes, mine: bool, now: nat)
    requires cfg.me < |cfg.ids| && slot !in st.log
    ensures NewToldTo(cfg, st, Install(cfg, st, slot, value, mine, now))
  {
    hide Install, Told, ToldSince, Emitted, NoSlotSends;
    var next := Install(cfg, st, slot, value, mine, now);
    InstallOwns(cfg, st, slot, value, mine, now);
    InstallEmits(cfg, st, slot, value, mine, now);
    EmittedExtends(cfg, st, next);
    forall s, j: nat | s in next.own && s !in st.own && j < cfg.N() && j != cfg.me ensures DecisionTold(next, s, j) {
      InstallTells(cfg, st, slot, value, now, j);
      ToldSinceIsTold(|st.actions|, next, j, Wire.Decide(slot, value));
    }
  }

  lemma ToldSinceIsTold(n: nat, st: State, j: nat, p: Wire.Payload)
    requires ToldSince(n, st, j, p)
    ensures Told(st, j, p)
  {
    var k :| n <= k < |st.actions| && IsMessage(st.actions[k], j, p);
  }

  lemma EmittedExtends(cfg: Config, st: State, next: State)
    requires Emitted(cfg, st, next)
    ensures Extends(st, next)
  {
  }

  lemma OpenNotLogged(cfg: Config, st: State, slot: Slot)
    requires StorageOk(cfg, st) && LogOk(st) && slot in st.slots && st.slots[slot].recorder.Open?
    ensures slot !in st.log
  {
    assert SlotOk(cfg, st, slot);
  }

  lemma SettledNew(cfg: Config, st: State, slot: Slot, run: RunState, reaction: Reaction, now: nat)
    requires cfg.me < |cfg.ids| && slot in st.slots && slot !in st.log
    ensures NewToldTo(cfg, st, Settled(cfg, st, slot, run, reaction, now))
  {
    hide Install, Kept, Moved, NewToldTo;
    match reaction
    case Choose(value) => InstallNew(cfg, st, slot, value, true, now);
    case Quiet => NoneNewOwn(cfg, st, Kept(st, slot, run));
    case Resend => NoneNewOwn(cfg, st, Moved(cfg, st, slot, run));
  }

  lemma NoneNewOwn(cfg: Config, st: State, next: State)
    requires Extends(st, next) && next.log == st.log && next.own == st.own
    ensures NewToldTo(cfg, st, next)
  {
  }

  lemma NewAfter(cfg: Config, st: State, mid: State, next: State)
    requires NewToldTo(cfg, mid, next) && mid.own == st.own && mid.log == st.log && mid.actions == st.actions
    ensures NewToldTo(cfg, st, next)
  {
    hide DecisionTold;
  }

  lemma NewThenMore(cfg: Config, st: State, mid: State, next: State)
    requires NewToldTo(cfg, st, mid) && Extends(mid, next) && next.own == mid.own && next.log == mid.log
    ensures NewToldTo(cfg, st, next)
  {
    hide Told;
    assert next.actions[..|st.actions|] == mid.actions[..|st.actions|];
    forall s, j: nat | s in next.own && s !in st.own && j < cfg.N() && j != cfg.me ensures DecisionTold(next, s, j) {
      assert DecisionTold(mid, s, j);
      ToldStays(mid, next, j, Wire.Decide(s, mid.log[s]));
    }
  }

  // ---- steps ----

  /** Whoever waits at a step now waited at the same one before, or has just sent it. */
  ghost predicate StepsKept(cfg: Config, st: State, next: State) {
    && Extends(st, next)
    && forall s :: Waits(next, s) ==> SameWait(st, next, s) || JustSent(cfg, st, next, s)
  }

  ghost predicate SameWait(st: State, next: State, s: Slot) {
    && Waits(st, s) && Waits(next, s)
    && SameStep(st.slots[s].proposer.run, next.slots[s].proposer.run)
  }

  predicate SameStep(run: RunState, next: RunState) {
    next.step == run.step && Consensus.TemplateOf(next) == Consensus.TemplateOf(run)
  }

  /** The step waited at was sent to everyone else since `st`. */
  ghost predicate JustSent(cfg: Config, st: State, next: State, s: Slot) {
    Waits(next, s) && forall j: nat :: j < cfg.N() && j != cfg.me ==>
      ToldSince(|st.actions|, next, j, Request(s, next.slots[s].proposer.run, j))
  }

  lemma ExtendsOn(a: State, b: State, c: State)
    requires Extends(a, b) && Extends(b, c)
    ensures Extends(a, c)
  {
    assert c.actions[..|a.actions|] == b.actions[..|a.actions|];
  }

  lemma ExtendsSame(st: State, next: State)
    requires next.actions == st.actions
    ensures Extends(st, next)
  {
  }

  /** What was sent since a later state was sent since an earlier one. */
  lemma SentLater(cfg: Config, st: State, mid: State, next: State, s: Slot)
    requires Extends(st, mid) && JustSent(cfg, mid, next, s)
    ensures JustSent(cfg, st, next, s)
  {
    hide ToldSince;
    forall j: nat | j < cfg.N() && j != cfg.me
      ensures ToldSince(|st.actions|, next, j, Request(s, next.slots[s].proposer.run, j))
    {
      Later(|st.actions|, |mid.actions|, next, j, Request(s, next.slots[s].proposer.run, j));
    }
  }

  /** A step just sent stays so while its slot is left alone. */
  lemma SentStays(cfg: Config, st: State, mid: State, next: State, s: Slot)
    requires JustSent(cfg, st, mid, s) && Extends(mid, next) && s in next.slots && next.slots[s] == mid.slots[s]
    ensures JustSent(cfg, st, next, s)
  {
    hide ToldSince, Extends;
    forall j: nat | j < cfg.N() && j != cfg.me
      ensures ToldSince(|st.actions|, next, j, Request(s, next.slots[s].proposer.run, j))
    {
      ToldSinceStays(|st.actions|, mid, next, j, Request(s, next.slots[s].proposer.run, j));
    }
  }

  lemma KeptExtends(cfg: Config, st: State, next: State)
    requires StepsKept(cfg, st, next)
    ensures Extends(st, next)
  {
  }

  lemma StepsStay(cfg: Config, st: State, next: State)
    requires StepsSent(cfg, st) && StepsKept(cfg, st, next)
    ensures StepsSent(cfg, next)
  {
    hide Told, ToldSince, Extends;
    forall s, j: nat | Waits(next, s) && j < cfg.N() && j != cfg.me ensures StepSent(next, s, j) {
      if SameWait(st, next, s) {
        assert StepSent(st, s, j);
        ToldStays(st, next, j, Request(s, st.slots[s].proposer.run, j));
      } else {
        ToldSinceIsTold(|st.actions|, next, j, Request(s, next.slots[s].proposer.run, j));
      }
    }
  }

  /** No proposer begins to wait, and none that waits moves. */
  lemma NoneNewWaits(cfg: Config, st: State, next: State)
    requires Extends(st, next) && forall s :: Waits(next, s) ==> Waits(st, s) && next.slots[s] == st.slots[s]
    ensures StepsKept(cfg, st, next)
  {
  }

  lemma OneSlotWaits(cfg: Config, st: State, next: State, slot: Slot)
    requires Extends(st, next)
    requires forall s :: s in next.slots && s != slot ==> s in st.slots && next.slots[s] == st.slots[s]
    requires Waits(next, slot) ==> SameWait(st, next, slot) || JustSent(cfg, st, next, slot)
    ensures StepsKept(cfg, st, next)
  {
    hide JustSent, Extends;
  }

  /** A reply that only counts, or is ignored, leaves the step and when it is sent. */
  lemma QuietSame(run: RunState, seat: Seat, now: nat, draws: seq<Draw>, from: nat, reqStep: nat, replyStep: nat,
      first: Proposal, priorAgg: Option<Proposal>)
    requires seat.Valid() && Fits(run, seat.N()) && |draws| == seat.N() && from < seat.N()
    ensures
      var (after, reaction) := FoldReply(run, seat, now, draws, from, reqStep, replyStep, first, priorAgg);
      && (reaction.Quiet? ==> SameStep(run, after) && after.needsSend == run.needsSend)
      && (reaction.Resend? ==> after.needsSend)
  {
  }

  lemma SettledSteps(cfg: Config, st: State, slot: Slot, run: RunState, reaction: Reaction, now: nat)
    requires cfg.me < |cfg.ids| && slot in st.slots && st.slots[slot].proposer.Running?
    requires reaction.Quiet? ==>
      SameStep(st.slots[slot].proposer.run, run) && run.needsSend == st.slots[slot].proposer.run.needsSend
    requires reaction.Resend? ==> run.needsSend
    ensures StepsKept(cfg, st, Settled(cfg, st, slot, run, reaction, now))
    ensures
      var next := Settled(cfg, st, slot, run, reaction, now);
      && slot in next.slots && (Waits(next, slot) ==> SameWait(st, next, slot))
      && forall s :: s in next.slots && s != slot ==> s in st.slots && next.slots[s] == st.slots[s]
  {
    hide Install, Kept, Moved, SamePool, Extends, Emitted, NoSlotSends;
    var next := Settled(cfg, st, slot, run, reaction, now);
    SettledEmits(cfg, st, slot, run, reaction, now);
    EmittedExtends(cfg, st, next);
    if reaction.Choose? {
      InstallFields(cfg, st, slot, reaction.value, true, now);
    }
    OneSlotWaits(cfg, st, next, slot);
  }

  // ---- whole steps of a replica ----

  lemma ReplyKeeps(cfg: Config, rng: Rng, st: State, slot: Slot, from: nat, reqStep: nat, step: nat,
        first: ReplyFirst, priorAgg: Option<Proposal>, now: nat)
    requires StorageOk(cfg, st) && LogOk(st) && CanFold(cfg, st, slot) && from < cfg.N()
    ensures
      var next := ReplyAt(cfg, rng, st, slot, from, reqStep, step, first, priorAgg, now);
      NewToldTo(cfg, st, next) && StepsKept(cfg, st, next)
  {
    hide FoldReply, Settled, NewToldTo, StepsKept, StorageOk, LogOk, Extends;
    match Reconstitute(st.slots[slot].proposer.run, from, reqStep, first)
    case None => NothingKeeps(cfg, st);
    case Some(p) =>
      var run := st.slots[slot].proposer.run;
      var draws := DrawsAt(rng, st.drawn, cfg.N());
      var (after, reaction) := FoldReply(run, cfg.MySeat(), now, draws, from, reqStep, step, p, priorAgg);
      QuietSame(run, cfg.MySeat(), now, draws, from, reqStep, step, p, priorAgg);
      RunningIsOpen(cfg, st, slot);
      OpenNotLogged(cfg, st, slot);
      SettledNew(cfg, st, slot, after, reaction, now);
      SettledSteps(cfg, st, slot, after, reaction, now);
  }

  lemma NothingKeeps(cfg: Config, st: State)
    ensures NewToldTo(cfg, st, st) && StepsKept(cfg, st, st)
  {
  }

  lemma RunningIsOpen(cfg: Config, st: State, slot: Slot)
    requires StorageOk(cfg, st) && slot in st.slots && st.slots[slot].proposer.Running?
    ensures st.slots[slot].recorder.Open?
  {
    assert SlotOk(cfg, st, slot);
  }

  /** Driving sends the step it leaves to be waited for to everyone else, every time. */
  lemma DriveTells(cfg: Config, rng: Rng, st: State, slot: Slot, now: nat)
    requires StorageOk(cfg, st) && LogOk(st) && CanDrive(cfg, st, slot)
    ensures
      var next := DriveAt(cfg, rng, st, slot, now);
      && NewToldTo(cfg, st, next) && StepsKept(cfg, st, next)
      && (Waits(next, slot) ==> JustSent(cfg, st, next, slot))
  {
    hide FoldReply, Settled, OwnRecord, NewToldTo, StepsKept, StorageOk, LogOk, Extends, Emit, ToOthers, JustSent,
      RecordTo, SameWait, OnlySlot, SamePool;
    var recorded := OwnRecord(cfg, st, slot, now);
    var run := recorded.slots[slot].proposer.run;
    var (folded, reaction) := DriveFold(cfg, rng, st, slot, now);
    var summary := Summarize(recorded.slots[slot].recorder.isr);
    QuietSame(run, cfg.MySeat(), now, DrawsAt(rng, recorded.drawn, cfg.N()), cfg.me,
      st.slots[slot].proposer.run.step, summary.step, summary.first, summary.priorAgg);
    var after := Settled(cfg, recorded, slot, folded, reaction, now);
    OpenNotLogged(cfg, st, slot);
    OwnRecordKeeps(cfg, st, slot, now);
    SettledNew(cfg, recorded, slot, folded, reaction, now);
    SettledSteps(cfg, recorded, slot, folded, reaction, now);
    NewAfter(cfg, st, recorded, after);
    var next := DriveAt(cfg, rng, st, slot, now);
    EmitExtends(after, DriveSends(cfg, after, slot));
    NewThenMore(cfg, st, after, next);
    DriveWaits(cfg, st, recorded, after, next, slot);
  }

  lemma OwnRecordKeeps(cfg: Config, st: State, slot: Slot, now: nat)
    requires CanDrive(cfg, st, slot)
    ensures
      var r := OwnRecord(cfg, st, slot, now);
      && r.own == st.own && r.log == st.log && r.actions == st.actions && slot in r.slots
      && r.slots == st.slots[slot := r.slots[slot]]
  {
    hide Consensus.Accept;
  }

  lemma EmitExtends(st: State, more: seq<Action>)
    ensures
      var next := Emit(st, more);
      Extends(st, next) && next.own == st.own && next.log == st.log && next.slots == st.slots
  {
  }

  lemma DriveWaits(cfg: Config, st: State, recorded: State, after: State, next: State, slot: Slot)
    requires cfg.me < |cfg.ids| && recorded.actions == st.actions && slot in recorded.slots && slot in after.slots
    requires recorded.slots == st.slots[slot := recorded.slots[slot]] && StepsKept(cfg, recorded, after)
    requires next == Emit(after, DriveSends(cfg, after, slot))
    requires forall s :: s in after.slots && s != slot ==> s in recorded.slots && after.slots[s] == recorded.slots[s]
    ensures StepsKept(cfg, st, next) && (Waits(next, slot) ==> JustSent(cfg, st, next, slot))
  {
    hide ToOthers, Emit, RecordTo;
    assert Extends(st, after);
    EmitExtends(after, DriveSends(cfg, after, slot));
    assert next.actions[..|st.actions|] == after.actions[..|st.actions|];
    if Waits(next, slot) {
      var run := after.slots[slot].proposer.run;
      forall j: nat | j < cfg.N() && j != cfg.me ensures ToldSince(|st.actions|, next, j, Request(slot, run, j)) {
        BroadcastTells(cfg, after, RecordTo(slot, run), after.contig, j);
        RecordIs(slot, run, j);
        Later(|st.actions|, |after.actions|, next, j, Request(slot, run, j));
      }
    }
    OneSlotWaits(cfg, st, next, slot);
  }

  lemma RecordIs(slot: Slot, run: RunState, j: nat)
    ensures RecordTo(slot, run)(j) == Request(slot, run, j)
  {
  }

  lemma Later(n: nat, m: nat, st: State, j: nat, p: Wire.Payload)
    requires ToldSince(m, st, j, p) && n <= m
    ensures ToldSince(n, st, j, p)
  {
    var k :| m <= k < |st.actions| && IsMessage(st.actions[k], j, p);
  }

  lemma OpenKeeps(cfg: Config, rng: Rng, st: State, slot: Slot, cmds: seq<Command>, asLeader: bool, now: nat)
    requires cfg.me < |cfg.ids|
    ensures
      var next := OpenSlot(cfg, rng, st, slot, cmds, asLeader, now);
      NewToldTo(cfg, st, next) && StepsKept(cfg, st, next)
  {
    hide Assign, NodeOf, SlotOr, DrawsAt, NewToldTo, StepsKept;
    var next := OpenSlot(cfg, rng, st, slot, cmds, asLeader, now);
    NoneNewOwn(cfg, st, next);
    OneSlotWaits(cfg, st, next, slot);
  }

  lemma LearnKeeps(cfg: Config, st: State, slot: Slot, value: Bytes, now: nat)
    requires StorageOk(cfg, st) && LogOk(st) && CanLearn(cfg, st, slot, value)
    ensures
      var next := Install(cfg, st, slot, value, false, now);
      NewToldTo(cfg, st, next) && StepsKept(cfg, st, next)
  {
    hide Install, NewToldTo, StepsKept, Extends, TotalBytes;
    LearnedIsNew(cfg, st, slot, value);
    InstallFields(cfg, st, slot, value, false, now);
    InstallNew(cfg, st, slot, value, false, now);
    NewExtends(cfg, st, Install(cfg, st, slot, value, false, now));
    OneSlotWaits(cfg, st, Install(cfg, st, slot, value, false, now), slot);
  }

  lemma LearnedIsNew(cfg: Config, st: State, slot: Slot, value: Bytes)
    requires StorageOk(cfg, st) && LogOk(st) && CanLearn(cfg, st, slot, value)
    ensures slot !in st.log && cfg.me < |cfg.ids|
  {
    hide TotalBytes;
  }

  lemma NewExtends(cfg: Config, st: State, next: State)
    requires NewToldTo(cfg, st, next)
    ensures Extends(st, next)
  {
  }

  lemma RecordKeeps(cfg: Config, st: State, from: nat, slot: Slot, step: nat, proposal: Proposal, now: nat)
    requires CanRecord(cfg, st, from, slot, step)
    ensures
      var next := RecordAt(cfg, st, from, slot, step, proposal, now);
      NewToldTo(cfg, st, next) && StepsKept(cfg, st, next)
  {
    hide Recorded, Emit, NewToldTo, StepsKept;
    var next := RecordAt(cfg, st, from, slot, step, proposal, now);
    NoneNewOwn(cfg, st, next);
    OneSlotWaits(cfg, st, next, slot);
  }

  lemma DeliverKeeps(cfg: Config, st: State)
    requires st.contig + 1 in st.retained
    ensures NewToldTo(cfg, st, DeliverNext(st)) && StepsKept(cfg, st, DeliverNext(st))
  {
    hide Filter, Commands, Without;
  }

  /** No slot begins to be waited for, and nothing is decided. */
  lemma SameSlotsKeep(cfg: Config, st: State, next: State)
    requires Extends(st, next) && next.log == st.log && next.own == st.own
    requires forall s :: s in next.slots && next.slots[s].proposer.Running? && !next.slots[s].proposer.run.needsSend ==>
      s in st.slots && next.slots[s] == st.slots[s]
    ensures NewToldTo(cfg, st, next) && StepsKept(cfg, st, next)
  {
    NoneNewOwn(cfg, st, next);
    NoneNewWaits(cfg, st, next);
  }

  lemma SlotStepKeeps(cfg: Config, rng: Rng, st: State, m: Micro)
    requires StorageOk(cfg, st) && LogOk(st) && IsSlotStep(m) && SlotsEnabled(cfg, st, m)
    ensures NewToldTo(cfg, st, MoveSlots(cfg, rng, st, m)) && StepsKept(cfg, st, MoveSlots(cfg, rng, st, m))
  {
    hide Takeable, TotalBytes, RecordAt, ReplyAt, DriveAt, OpenSlot, Install, Least, StorageOk, LogOk, DeliverNext,
      CanRecord, CanOpen, CanLearn, NewToldTo, StepsKept, SamePool;
    var next := MoveSlots(cfg, rng, st, m);
    match m
    case RecordStep(from, slot, step, proposal, now) => RecordKeeps(cfg, st, from, slot, step, proposal, now);
    case ReplyStep(from, slot, reqStep, step, first, priorAgg, now) =>
      ReplyKeeps(cfg, rng, st, slot, from, reqStep, step, first, priorAgg, now);
    case DriveStep(slot, now) => DriveTells(cfg, rng, st, slot, now);
    case RetransmitStep(slot) => SameSlotsKeep(cfg, st, next);
    case OpenStep(slot, cmds, asLeader, now) => OpenKeeps(cfg, rng, st, slot, cmds, asLeader, now);
    case LearnStep(slot, value, now) => LearnKeeps(cfg, st, slot, value, now);
    case DeliverStep => DeliverKeeps(cfg, st);
    case FreeStep => SameSlotsKeep(cfg, st, next);
    case EvictStep => SameSlotsKeep(cfg, st, next);
    case ObserveStep(now) => SameSlotsKeep(cfg, st, next);
  }

  lemma StepKeepsTold(cfg: Config, rng: Rng, st: State, m: Micro)
    requires StorageOk(cfg, st) && LogOk(st) && ReplicaState.Enabled(cfg, st, m)
    ensures
      var next := ReplicaState.Apply(cfg, rng, st, m);
      NewToldTo(cfg, st, next) && StepsKept(cfg, st, next)
  {
    hide SlotsEnabled, MoveSlots, RestEnabled, MoveRest, StorageOk, LogOk, NewToldTo, StepsKept, Emitted, NoSlotSends;
    if IsSlotStep(m) {
      SlotStepKeeps(cfg, rng, st, m);
    } else {
      var next := ReplicaState.Apply(cfg, rng, st, m);
      StepEmits(cfg, rng, st, m);
      EmittedExtends(cfg, st, next);
      SameSlotsKeep(cfg, st, next);
    }
  }

  // ---- catching up ----

  /** A request went to whom it names. */
  lemma RequestTells(cfg: Config, st: State, to: nat, now: nat)
    requires cfg.me < |cfg.ids|
    ensures ToldSince(|st.actions|, Requested(cfg, st, to, now), to, Wire.Learn(st.contig + 1))
    ensures Requested(cfg, st, to, now).contig == st.contig
  {
    var next := Requested(cfg, st, to, now);
    assert IsMessage(next.actions[|st.actions|], to, Wire.Learn(st.contig + 1));
  }

  /** The request outstanding is the same, and the frontier no lower. */
  ghost predicate SameLearning(st: State, next: State) {
    next.contig >= st.contig && next.learning == st.learning
  }

  lemma SettledLearning(cfg: Config, st: State, slot: Slot, run: RunState, reaction: Reaction, now: nat)
    requires cfg.me < |cfg.ids| && slot in st.slots
    ensures SameLearning(st, Settled(cfg, st, slot, run, reaction, now))
  {
    hide Install, Kept, Moved;
    if reaction.Choose? {
      InstallFields(cfg, st, slot, reaction.value, true, now);
    }
  }

  lemma ReplyLearning(cfg: Config, rng: Rng, st: State, slot: Slot, from: nat, reqStep: nat, step: nat,
        first: ReplyFirst, priorAgg: Option<Proposal>, now: nat)
    requires CanFold(cfg, st, slot) && from < cfg.N()
    ensures SameLearning(st, ReplyAt(cfg, rng, st, slot, from, reqStep, step, first, priorAgg, now))
  {
    hide FoldReply, Settled;
    match Reconstitute(st.slots[slot].proposer.run, from, reqStep, first)
    case None =>
    case Some(p) =>
      var (run, reaction) := FoldReply(st.slots[slot].proposer.run, cfg.MySeat(), now, DrawsAt(rng, st.drawn, cfg.N()),
          from, reqStep, step, p, priorAgg);
      SettledLearning(cfg, st, slot, run, reaction, now);
  }

  lemma DriveLearning(cfg: Config, rng: Rng, st: State, slot: Slot, now: nat)
    requires CanDrive(cfg, st, slot)
    ensures SameLearning(st, DriveAt(cfg, rng, st, slot, now))
  {
    hide FoldReply, Settled, OwnRecord, DriveSends;
    var (run, reaction) := DriveFold(cfg, rng, st, slot, now);
    SettledLearning(cfg, OwnRecord(cfg, st, slot, now), slot, run, reaction, now);
  }

  lemma RecordLearning(cfg: Config, st: State, from: nat, slot: Slot, step: nat, proposal: Proposal, now: nat)
    requires CanRecord(cfg, st, from, slot, step)
    ensures SameLearning(st, RecordAt(cfg, st, from, slot, step, proposal, now))
  {
    hide Recorded;
  }

  lemma OpenLearning(cfg: Config, rng: Rng, st: State, slot: Slot, cmds: seq<Command>, asLeader: bool, now: nat)
    requires cfg.me < |cfg.ids|
    ensures SameLearning(st, OpenSlot(cfg, rng, st, slot, cmds, asLeader, now))
  {
    hide Assign, NodeOf, SlotOr, DrawsAt, Proposer.Start;
  }

  lemma DeliverLearning(st: State)
    requires st.contig + 1 in st.retained
    ensures SameLearning(st, DeliverNext(st))
  {
    hide Filter, Commands, Without;
  }

  lemma SlotStepLearning(cfg: Config, rng: Rng, st: State, m: Micro)
    requires IsSlotStep(m) && SlotsEnabled(cfg, st, m)
    ensures SameLearning(st, MoveSlots(cfg, rng, st, m))
  {
    hide Takeable, TotalBytes, RecordAt, ReplyAt, DriveAt, OpenSlot, Install, Least, Retransmitted, Observed,
      DeliverNext, CanRecord, CanOpen, CanLearn;
    match m
    case RecordStep(from, slot, step, proposal, now) => RecordLearning(cfg, st, from, slot, step, proposal, now);
    case ReplyStep(from, slot, reqStep, step, first, priorAgg, now) =>
      ReplyLearning(cfg, rng, st, slot, from, reqStep, step, first, priorAgg, now);
    case DriveStep(slot, now) => DriveLearning(cfg, rng, st, slot, now);
    case RetransmitStep(slot) =>
    case OpenStep(slot, cmds, asLeader, now) => OpenLearning(cfg, rng, st, slot, cmds, asLeader, now);
    case LearnStep(slot, value, now) => InstallFields(cfg, st, slot, value, false, now);
    case DeliverStep => DeliverLearning(st);
    case FreeStep =>
    case EvictStep =>
    case ObserveStep(now) =>
  }

  lemma RestLearning(cfg: Config, st: State, m: Micro)
    requires !IsSlotStep(m) && RestEnabled(cfg, st, m)
    ensures
      var next := MoveRest(cfg, st, m);
      || SameLearning(st, next)
      || (next.contig == st.contig && next.learning.None?)
      || (m.RequestStep? && next == Requested(cfg, st, m.to, m.now))
  {
    hide TotalCost, IsChunk, Forwardable, Known, IsDelivered, Forwarded, Requested, AllOf;
  }

  lemma StepKeepsAsked(cfg: Config, rng: Rng, st: State, m: Micro)
    requires StorageOk(cfg, st) && LogOk(st) && ReplicaState.Enabled(cfg, st, m) && LearnAsked(st)
    ensures LearnAsked(ReplicaState.Apply(cfg, rng, st, m))
  {
    hide SlotsEnabled, MoveSlots, RestEnabled, MoveRest, StorageOk, LogOk, Told, ToldSince, Requested, Extends, Emitted;
    var next := ReplicaState.Apply(cfg, rng, st, m);
    StepEmits(cfg, rng, st, m);
    EmittedExtends(cfg, st, next);
    Counters(cfg, st);
    if IsSlotStep(m) {
      SlotStepLearning(cfg, rng, st, m);
    } else {
      RestLearning(cfg, st, m);
    }
    if m.RequestStep? && next == Requested(cfg, st, m.to, m.now) {
      RequestTells(cfg, st, m.to, m.now);
      ToldSinceIsTold(|st.actions|, next, m.to, Wire.Learn(st.contig + 1));
    } else if next.learning.Some? {
      var from: Slot :| from <= st.contig + 1 && Told(st, st.learning.value.0, Wire.Learn(from));
      ToldStays(st, next, st.learning.value.0, Wire.Learn(from));
    }
  }

  // ---- forwarding ----

  /** What was sent for the commands of ours stays sent, and none that is held is forwarded
      without it. */
  lemma RestForwards(cfg: Config, st: State, next: State)
    requires ForwardsSent(cfg, st) && PoolRests(st, next) && Extends(st, next)
    ensures ForwardsSent(cfg, next)
  {
    hide ForwardedTo, Extends;
    forall id, a: nat | OwnHeld(cfg, next, id) && a < next.pool[id].forwardAttempts
      ensures AttemptSent(cfg, next, id, a)
    {
      assert OwnHeld(cfg, st, id);
      assert AttemptSent(cfg, st, id, a);
      ForwardedStays(st, next, ForwardTarget(cfg, a), Command(id, st.pool[id].data));
    }
    forall id | OwnHeld(cfg, next, id) && !cfg.IsLeader() ensures next.pool[id].forwardAttempts >= 1 {
      assert OwnHeld(cfg, st, id);
    }
  }

  lemma FirstToLeader(cfg: Config)
    requires cfg.me < cfg.N() && !cfg.IsLeader()
    ensures cfg.N() > 1 && ForwardTarget(cfg, 0) == 0
  {
  }

  /** A submission of anyone but the leader goes to the leader at once. */
  lemma SubmitTells(cfg: Config, st: State, data: Bytes, now: nat)
    requires cfg.me < cfg.N() && !cfg.IsLeader()
    ensures
      var next := Submitted(cfg, st, data, now);
      ToldSince(|st.actions|, next, 0, Wire.Forward([Command(OwnId(cfg, st.nextSeq + 1), data)])) && Extends(st, next)
    ensures ForwardedTo(Submitted(cfg, st, data, now), 0, Command(OwnId(cfg, st.nextSeq + 1), data))
    ensures OwnId(cfg, st.nextSeq + 1) in Submitted(cfg, st, data, now).pool
    ensures Submitted(cfg, st, data, now).pool[OwnId(cfg, st.nextSeq + 1)] == PoolEntry(data, None, now, 1)
  {
    var next := Submitted(cfg, st, data, now);
    var cmd := Command(OwnId(cfg, st.nextSeq + 1), data);
    assert IsMessage(next.actions[|st.actions|], 0, Wire.Forward([cmd]));
    assert Forwards(next.actions[|st.actions|], 0, cmd);
  }

  lemma SubmitKeepsForwards(cfg: Config, st: State, data: Bytes, now: nat)
    requires ForwardsSent(cfg, st) && cfg.me < cfg.N()
    ensures ForwardsSent(cfg, Submitted(cfg, st, data, now))
  {
    hide ForwardedTo, ForwardTarget, Told, ToldSince;
    var next, id := Submitted(cfg, st, data, now), OwnId(cfg, st.nextSeq + 1);
    if !cfg.IsLeader() {
      SubmitTells(cfg, st, data, now);
      FirstToLeader(cfg);
    }
    forall other, a: nat | OwnHeld(cfg, next, other) && a < next.pool[other].forwardAttempts
      ensures AttemptSent(cfg, next, other, a)
    {
      if other != id {
        assert OwnHeld(cfg, st, other);
        assert AttemptSent(cfg, st, other, a);
        ForwardedStays(st, next, ForwardTarget(cfg, a), Command(other, st.pool[other].data));
      }
    }
    forall other | OwnHeld(cfg, next, other) && !cfg.IsLeader() ensures next.pool[other].forwardAttempts >= 1 {
      if other != id {
        assert OwnHeld(cfg, st, other);
      }
    }
  }

  lemma OwnIsKept(cfg: Config, st: State, id: CommandId)
    requires PoolOk(cfg, st) && Known(cfg, st, id)
    requires cfg.me < |cfg.ids| && id.origin == cfg.ids[cfg.me] && id.boot == cfg.boot
    ensures id in st.pool || IsDelivered(st.dedup, id)
  {
    assert OwnId(cfg, id.seqno) == id && OwnKept(cfg, st, id.seqno);
  }

  /** A command that others forward here is not one of ours. */
  lemma PoolKeepsForwards(cfg: Config, st: State, cmd: Command, now: nat)
    requires ForwardsSent(cfg, st) && PoolOk(cfg, st) && Known(cfg, st, cmd.id) && !IsDelivered(st.dedup, cmd.id)
    requires cmd.id !in st.pool
    ensures ForwardsSent(cfg, Pooled(st, cmd, now))
  {
    hide ForwardedTo, ForwardTarget, Top;
    var next := Pooled(st, cmd, now);
    if OwnHeld(cfg, next, cmd.id) {
      OwnIsKept(cfg, st, cmd.id);
    }
    forall id, a: nat | OwnHeld(cfg, next, id) && a < next.pool[id].forwardAttempts
      ensures AttemptSent(cfg, next, id, a)
    {
      assert OwnHeld(cfg, st, id);
      assert AttemptSent(cfg, st, id, a);
      ForwardedStays(st, next, ForwardTarget(cfg, a), Command(id, st.pool[id].data));
    }
    forall id | OwnHeld(cfg, next, id) && !cfg.IsLeader() ensures next.pool[id].forwardAttempts >= 1 {
      assert OwnHeld(cfg, st, id);
    }
  }

  /** A command among those taken rides in one of the messages. */
  lemma {:induction false} RidesInChunk(chunks: seq<(nat, seq<Command>)>, id: CommandId) returns (c: nat, k: nat)
    requires Rides(AllOf(chunks), id)
    ensures c < |chunks| && k < |chunks[c].1| && chunks[c].1[k].id == id
  {
    assert chunks != [];
    var front, last := chunks[..|chunks| - 1], chunks[|chunks| - 1].1;
    var all := AllOf(front);
    assert AllOf(chunks) == all + last;
    if Rides(all, id) {
      c, k := RidesInChunk(front, id);
    } else {
      var both: seq<Command> := all + last;
      var j :| 0 <= j < |both| && both[j].id == id;
      assert j >= |all|;
      c, k := |chunks| - 1, j - |all|;
    }
  }

  /** Re-forwarding sends each command it takes to the replica whose turn it is. */
  lemma ForwardTells(cfg: Config, st: State, chunks: seq<(nat, seq<Command>)>, now: nat, id: CommandId)
    requires cfg.me < |cfg.ids| && Forwardable(cfg, st, chunks) && Rides(AllOf(chunks), id)
    ensures cfg.N() > 1 && id in st.pool
    ensures ForwardedTo(Reforwarded(cfg, st, chunks, now), ForwardTarget(cfg, st.pool[id].forwardAttempts),
        Command(id, st.pool[id].data))
  {
    hide AllOf, Forwarded, ForwardTarget, Batch.CommandsSize;
    var next := Reforwarded(cfg, st, chunks, now);
    var c, k := RidesInChunk(chunks, id);
    assert ChunkOk(cfg, st, chunks[c].0, chunks[c].1);
    var cmd := chunks[c].1[k];
    assert OwnUnassigned(cfg, st, cmd.id) && cmd == Command(id, st.pool[id].data);
    assert next.actions[|st.actions| + c] == SendOne(cfg, st, chunks[c].0, Wire.Forward(chunks[c].1));
    assert Forwards(next.actions[|st.actions| + c], chunks[c].0, cmd);
  }

  /** This was forwarded to replica `to` since there were `n` actions. */
  ghost predicate ForwardedSince(n: nat, st: State, to: nat, cmd: Command) {
    exists k :: n <= k < |st.actions| && Forwards(st.actions[k], to, cmd)
  }

  /** The command was forwarded at `now`, to the replica whose turn it was, and its next
      attempt is another's turn. */
  ghost predicate ForwardedNow(cfg: Config, st: State, next: State, id: CommandId, now: nat) {
    && cfg.N() > 1 && id in st.pool && id in next.pool && next.pool[id].data == st.pool[id].data
    && next.pool[id].lastForward == now && next.pool[id].forwardAttempts == st.pool[id].forwardAttempts + 1
    && ForwardedSince(|st.actions|, next, ForwardTarget(cfg, st.pool[id].forwardAttempts),
         Command(id, st.pool[id].data))
  }

  lemma ReforwardMeans(cfg: Config, st: State, chunks: seq<(nat, seq<Command>)>, now: nat, id: CommandId)
    requires cfg.me < |cfg.ids| && Forwardable(cfg, st, chunks) && Rides(AllOf(chunks), id)
    ensures ForwardedNow(cfg, st, Reforwarded(cfg, st, chunks, now), id, now)
  {
    hide AllOf, ForwardTarget, Batch.CommandsSize;
    var next := Reforwarded(cfg, st, chunks, now);
    var c, k := RidesInChunk(chunks, id);
    assert ChunkOk(cfg, st, chunks[c].0, chunks[c].1);
    var cmd := chunks[c].1[k];
    assert OwnUnassigned(cfg, st, cmd.id) && cmd == Command(id, st.pool[id].data);
    assert next.actions[|st.actions| + c] == SendOne(cfg, st, chunks[c].0, Wire.Forward(chunks[c].1));
    assert Forwards(next.actions[|st.actions| + c], chunks[c].0, cmd);
  }

  lemma ReforwardEntries(cfg: Config, st: State, chunks: seq<(nat, seq<Command>)>, now: nat, id: CommandId)
    requires cfg.me < |cfg.ids| && id in Reforwarded(cfg, st, chunks, now).pool
    ensures
      var next := Reforwarded(cfg, st, chunks, now);
      && id in st.pool && next.pool[id].data == st.pool[id].data
      && next.pool[id].forwardAttempts == st.pool[id].forwardAttempts + if Rides(AllOf(chunks), id) then 1 else 0
  {
    hide AllOf, Rides;
  }

  lemma ReforwardKeepsForwards(cfg: Config, st: State, chunks: seq<(nat, seq<Command>)>, now: nat)
    requires ForwardsSent(cfg, st) && cfg.me < |cfg.ids| && Forwardable(cfg, st, chunks)
    requires Extends(st, Reforwarded(cfg, st, chunks, now))
    ensures ForwardsSent(cfg, Reforwarded(cfg, st, chunks, now))
  {
    hide ForwardedTo, ForwardTarget, AllOf, Rides, Reforwarded, ChunkOk, Extends;
    var next := Reforwarded(cfg, st, chunks, now);
    forall id, a: nat | OwnHeld(cfg, next, id) && a < next.pool[id].forwardAttempts
      ensures AttemptSent(cfg, next, id, a)
    {
      ReforwardEntries(cfg, st, chunks, now, id);
      if a < st.pool[id].forwardAttempts {
        assert OwnHeld(cfg, st, id);
        assert AttemptSent(cfg, st, id, a);
        ForwardedStays(st, next, ForwardTarget(cfg, a), Command(id, st.pool[id].data));
      } else {
        ForwardTells(cfg, st, chunks, now, id);
      }
    }
    forall id | OwnHeld(cfg, next, id) && !cfg.IsLeader() ensures next.pool[id].forwardAttempts >= 1 {
      ReforwardEntries(cfg, st, chunks, now, id);
      assert OwnHeld(cfg, st, id);
    }
  }

  lemma StepKeepsForwards(cfg: Config, rng: Rng, st: State, m: Micro)
    requires StorageOk(cfg, st) && LogOk(st) && PoolOk(cfg, st) && ReplicaState.Enabled(cfg, st, m)
    requires ForwardsSent(cfg, st)
    ensures ForwardsSent(cfg, ReplicaState.Apply(cfg, rng, st, m))
  {
    hide ReplicaState.Enabled, ReplicaState.Apply, StorageOk, LogOk, PoolOk, ForwardsSent, Extends, Emitted,
      PoolShrinks;
    var next := ReplicaState.Apply(cfg, rng, st, m);
    StepEmits(cfg, rng, st, m);
    EmittedExtends(cfg, st, next);
    Counters(cfg, st);
    if m.SubmitStep? {
      SubmitIs(cfg, rng, st, m);
      SubmitKeepsForwards(cfg, st, m.data, m.now);
    } else if m.PoolStep? {
      PoolIs(cfg, rng, st, m);
      PoolKeepsForwards(cfg, st, m.cmd, m.now);
    } else if m.ForwardStep? {
      ForwardIs(cfg, rng, st, m);
      ReforwardKeepsForwards(cfg, st, m.chunks, m.now);
    } else {
      StepShrinks(cfg, rng, st, m);
      RestForwards(cfg, st, next);
    }
  }

  lemma SubmitIs(cfg: Config, rng: Rng, st: State, m: Micro)
    requires ReplicaState.Enabled(cfg, st, m) && m.SubmitStep?
    ensures cfg.me < |cfg.ids| && ReplicaState.Apply(cfg, rng, st, m) == Submitted(cfg, st, m.data, m.now)
  {
    hide Submitted, TotalCost;
  }

  lemma PoolIs(cfg: Config, rng: Rng, st: State, m: Micro)
    requires ReplicaState.Enabled(cfg, st, m) && m.PoolStep?
    ensures ReplicaState.Apply(cfg, rng, st, m) == Pooled(st, m.cmd, m.now)
    ensures Known(cfg, st, m.cmd.id) && !IsDelivered(st.dedup, m.cmd.id) && m.cmd.id !in st.pool
  {
    hide Pooled, TotalCost, IsDelivered;
  }

  lemma ForwardIs(cfg: Config, rng: Rng, st: State, m: Micro)
    requires ReplicaState.Enabled(cfg, st, m) && m.ForwardStep?
    ensures cfg.me < |cfg.ids| && Forwardable(cfg, st, m.chunks)
    ensures ReplicaState.Apply(cfg, rng, st, m) == Reforwarded(cfg, st, m.chunks, m.now)
  {
    hide Reforwarded, ChunkOk;
  }

  // ---- over every run ----

  lemma StepsKeepAnnounced(cfg: Config, rng: Rng, st: State, m: Micro, next: State)
    requires Sound(cfg, st) && Announced(cfg, st) && Steps(cfg, rng, st, m, next)
    ensures Announced(cfg, next)
  {
    hide ReplicaState.Enabled, ReplicaState.Apply, StorageOk, LogOk, PoolOk, DeliveryOk, BudgetOk, DecisionsTold,
      StepsSent, LearnAsked, ForwardsSent, NewToldTo, StepsKept;
    StepKeepsTold(cfg, rng, st, m);
    DecisionsStay(cfg, st, next);
    StepsStay(cfg, st, next);
    StepKeepsAsked(cfg, rng, st, m);
    StepKeepsForwards(cfg, rng, st, m);
  }

  /** Whatever a replica is sent and whenever, everyone has been told its decisions and sent the
      steps its proposers wait at, whoever it waits for was asked, and each attempt at
      forwarding a command of its own went to the replica whose turn it was. */
  lemma {:induction false} RunAnnounces(cfg: Config, rng: Rng, trail: seq<Micro>, states: seq<State>, k: nat)
    requires IsRun(cfg, rng, trail, states) && k <= |trail|
    ensures Announced(cfg, states[k])
  {
    hide Sound, Steps, Announced;
    if k == 0 {
      NothingAnnounced(cfg);
    } else {
      RunAnnounces(cfg, rng, trail, states, k - 1);
      RunSound(cfg, rng, trail, states, k - 1);
      assert Steps(cfg, rng, states[k - 1], trail[k - 1], states[k]);
      StepsKeepAnnounced(cfg, rng, states[k - 1], trail[k - 1], states[k]);
    }
  }

  lemma NothingAnnounced(cfg: Config)
    ensures Announced(cfg, Initial(cfg))
  {
  }

  lemma RanAnnounced(cfg: Config, rng: Rng, trail: seq<Micro>, st: State)
    requires Ran(cfg, rng, trail, st)
    ensures Announced(cfg, st)
  {
    hide Sound, Steps, Announced;
    var states :| IsRun(cfg, rng, trail, states) && states[|trail|] == st;
    RunAnnounces(cfg, rng, trail, states, |trail|);
  }

  // ---- one pass of driving in a run ----

  /** A pass in a run of the replica that leaves the step to be waited for has just sent it. */
  lemma PassTells(cfg: Config, rng: Rng, trail: seq<Micro>, st: State, slot: Slot, now: nat)
    requires Ran(cfg, rng, trail, st) && CanDrive(cfg, st, slot)
    ensures
      var next := DriveAt(cfg, rng, st, slot, now);
      Extends(st, next) && (Waits(next, slot) ==> JustSent(cfg, st, next, slot))
  {
    hide Ran, StorageOk, LogOk, PoolOk, DeliveryOk, BudgetOk, DriveAt, CanDrive, StepsKept, NewToldTo, JustSent,
      Extends;
    RanSound(cfg, rng, trail, st);
    DriveTells(cfg, rng, st, slot, now);
    KeptExtends(cfg, st, DriveAt(cfg, rng, st, slot, now));
  }
}
