/** The group keeps its invariant. */
module GroupSteps {
  // Every step of every replica keeps the group's invariant.

  import opened Types
  import opened Encoding
  import opened Recorder
  import opened Proposer
  import opened SlotLogic
  import opened Pooling
  import opened ReplicaState
  import opened ReplicaInvariant
  import opened Delivery
  import opened Retention
  import opened ReplicaRuns
  import opened ReplicaMoves
  import opened ReplicaRest
  import opened Emissions
  import opened Projection
  import opened Simulation
  import opened Custody
  import opened GroupRuns
  import C = Consensus
  import CI = ConsensusInvariant
  import CS = ConsensusSteps
  import Wire
  import Batch

  // ---- each fact, read off ----

  lemma SoundAt(g: Group, w: World, i: nat)
    requires WorldOk(g, w) && i < |w|
    ensures g.configs[i].Valid() && g.configs[i].ids == g.ids && g.configs[i].me == i && g.configs[i].N() == |w|
    ensures Sound(g.configs[i], w[i]) && SubmittedOk(w[i])
  {
    hide Sound, SubmittedOk, EachSlot, MessagesTrue, PoolsTrue, EntriesTrue, AcksTrue;
  }

  lemma SlotAt(g: Group, w: World, s: Slot)
    requires WorldOk(g, w)
    ensures CI.Inv(Project(g.ids, w, s))
  {
    hide CI.Inv, EachSound, MessagesTrue, PoolsTrue, EntriesTrue, AcksTrue;
  }

  lemma MessageAt(g: Group, w: World, i: nat, j: nat, message: Wire.Message)
    requires WorldOk(g, w) && Sent(w, i, j, message)
    ensures MsgTrue(g, w, i, message)
  {
    hide EachSound, EachSlot, PoolsTrue, EntriesTrue, AcksTrue, MsgTrue;
  }

  lemma PoolAt(g: Group, w: World, i: nat, id: CommandId)
    requires WorldOk(g, w) && i < |w| && id in w[i].pool
    ensures WasSubmitted(g, w, Command(id, w[i].pool[id].data))
  {
    hide EachSound, EachSlot, MessagesTrue, EntriesTrue, AcksTrue, WasSubmitted;
  }

  lemma EntryAt(g: Group, w: World, i: nat, s: Slot)
    requires WorldOk(g, w) && i < |w| && 4 in HistAt(w[i], s).sent
    ensures EnteredTrue(g, w, i, s, HistAt(w[i], s).sent[4].proposal.value)
  {
    hide EachSound, EachSlot, MessagesTrue, PoolsTrue, AcksTrue, EnteredTrue, HistAt;
  }

  // ---- arrivals ----

  lemma JustifiedBy(w: World, i: nat, m: Micro) returns (from: nat, message: Wire.Message)
    requires Justified(w, i, m) && !IsLocal(m)
    ensures Sent(w, from, i, message) && Carries(from, message, m)
  {
    hide Sent, Carries;
    from, message :| Justifies(w, from, i, message, m);
  }

  lemma InSlotNet(w: World, from: nat, to: nat, message: Wire.Message, slot: Slot)
    requires Sent(w, from, to, message) && IsFor(Send(to, message), slot)
    ensures AsMsg(from, Send(to, message)) in Net(w, slot)
  {
    var k: nat :| k < |w[from].actions| && w[from].actions[k] == Send(to, message);
    InNet(w, slot, from, k);
  }

  lemma RecordArrives(w: World, i: nat, from: nat, slot: Slot, step: nat, p: Proposal, now: nat)
    requires Justified(w, i, RecordStep(from, slot, step, p, now))
    ensures C.Record(from, i, step, p) in Net(w, slot)
  {
    hide Sent, Net;
    var f, message := JustifiedBy(w, i, RecordStep(from, slot, step, p, now));
    InSlotNet(w, f, i, message, slot);
  }

  lemma ReplyArrives(w: World, i: nat, from: nat, slot: Slot, reqStep: nat, step: nat, first: ReplyFirst,
        priorAgg: Option<Proposal>, now: nat)
    requires Justified(w, i, ReplyStep(from, slot, reqStep, step, first, priorAgg, now))
    ensures C.Reply(from, i, reqStep, step, first, priorAgg) in Net(w, slot)
  {
    hide Sent, Net;
    var f, message := JustifiedBy(w, i, ReplyStep(from, slot, reqStep, step, first, priorAgg, now));
    InSlotNet(w, f, i, message, slot);
  }

  lemma DecisionArrives(g: Group, w: World, i: nat, slot: Slot, value: Bytes, now: nat) returns (j: nat)
    requires WorldOk(g, w) && Justified(w, i, LearnStep(slot, value, now))
    ensures j < |w| && Logged(w[j], slot, value)
  {
    hide Sent, WorldOk, WasSubmitted;
    var f, message := JustifiedBy(w, i, LearnStep(slot, value, now));
    SenderIn(w, f, i, message);
    FittingFacts(g, w);
    MessageAt(g, w, f, i, message);
    j := f;
    if message.payload.LearnReply? {
      var values, first := message.payload.values, message.payload.firstSlot;
      var k := slot - first;
      assert values[k] == value;
      assert Logged(w[f], first + k, values[k]);
    }
  }

  lemma SenderIn(w: World, from: nat, to: nat, message: Wire.Message)
    requires Sent(w, from, to, message)
    ensures from < |w|
  {
  }

  lemma FittingFacts(g: Group, w: World)
    requires WorldOk(g, w)
    ensures Fitting(g, w) && g.Valid() && |w| == |g.ids|
  {
    hide EachSound, EachSlot, MessagesTrue, PoolsTrue, EntriesTrue, AcksTrue;
  }

  // ---- every slot stays a run of the protocol ----

  lemma SlotStepProjects(g: Group, w: World, i: nat, m: Micro, s: Slot)
    requires WorldOk(g, w) && i < |w| && Justified(w, i, m) && IsSlotStep(m) && SlotsEnabled(g.configs[i], w[i], m)
    ensures CI.Inv(Project(g.ids, w[i := MoveSlots(g.configs[i], g.rngs[i], w[i], m)], s))
  {
    hide WorldOk, Justified, CI.Inv, Project, Takeable, TotalBytes, RecordAt, ReplyAt, DriveAt, OpenSlot, Install,
      Least, Retransmitted, Observed,
      DeliverNext, FreeNext, CanRecord, CanOpen, CanLearn, CanFold, CanDrive, StorageOk, LogOk, PoolOk, DeliveryOk,
        BudgetOk, SubmittedOk, Net,
      OnlySlot, SamePool, Beyond, NewIn, NoSlotSends, NodeOf, Emitted;
    FittingFacts(g, w);
    SoundAt(g, w, i);
    SlotAt(g, w, s);
    var cfg, rng, st := g.configs[i], g.rngs[i], w[i];
    var next := MoveSlots(cfg, rng, st, m);
    match m
    case RecordStep(from, slot, step, p, now) =>
      RecordArrives(w, i, from, slot, step, p, now);
      RecordProjects(g.ids, cfg, w, i, from, slot, step, p, now, s);
    case ReplyStep(from, slot, reqStep, step, first, priorAgg, now) =>
      ReplyArrives(w, i, from, slot, reqStep, step, first, priorAgg, now);
      ReplyProjects(g.ids, cfg, rng, w, i, from, slot, reqStep, step, first, priorAgg, now, s);
    case DriveStep(slot, now) => DriveProjects(g.ids, cfg, rng, w, i, slot, now, s);
    case RetransmitStep(slot) => RetransmitProjects(g.ids, cfg, w, i, slot, s);
    case OpenStep(slot, cmds, asLeader, now) => OpenProjects(g.ids, cfg, rng, w, i, slot, cmds, asLeader, now, s);
    case LearnStep(slot, value, now) =>
      var j := DecisionArrives(g, w, i, slot, value, now);
      SoundAt(g, w, j);
      LearnProjects(g.ids, cfg, w, i, j, g.configs[j], slot, value, now, s);
    case DeliverStep =>
      NodeDelivered(st, s);
      DeliverEmits(cfg, st);
      QuietStep(g.ids, w, i, next, s);
    case FreeStep =>
      FloorBound(cfg, st);
      NodeFreed(cfg, st, s);
      FreeEmits(st);
      QuietEmits(cfg, st, next);
      QuietStep(g.ids, w, i, next, s);
    case EvictStep =>
      NodeFreed(cfg, st, s);
      FreeEmits(st);
      QuietEmits(cfg, st, next);
      QuietStep(g.ids, w, i, next, s);
    case ObserveStep(now) =>
      NodeObserved(cfg, st, now, s);
      QuietEmits(cfg, st, next);
      QuietStep(g.ids, w, i, next, s);
  }

  lemma QuietStep(ids: seq<ReplicaId>, w: World, i: nat, next: State, s: Slot)
    requires |w| == |ids| && i < |w| && CI.Inv(Project(ids, w, s))
    requires NodeOf(next, s) == NodeOf(w[i], s) && NoSlotSends(w[i], next)
    ensures CI.Inv(Project(ids, w[i := next], s))
  {
    hide CI.Inv, Project, NodeOf, NoSlotSends, NewIn, Net;
    NoneNew(i, w[i], next, s, Net(w, s));
    Stutters(ids, w, i, next, s);
  }

  lemma StepProjects(g: Group, w: World, i: nat, m: Micro, next: World, s: Slot)
    requires WorldOk(g, w) && Moves(g, w, i, m, next)
    ensures CI.Inv(Project(g.ids, next, s))
  {
    hide WorldOk, Justified, CI.Inv, Project, SlotsEnabled, MoveSlots, RestEnabled, MoveRest, NodeOf, NoSlotSends,
      Emitted, StorageOk, LogOk,
      PoolOk, DeliveryOk, BudgetOk, SubmittedOk;
    FittingFacts(g, w);
    if IsSlotStep(m) {
      SlotStepProjects(g, w, i, m, s);
    } else {
      SoundAt(g, w, i);
      SlotAt(g, w, s);
      RestEmits(g.configs[i], w[i], m);
      NodeSame(w[i], MoveRest(g.configs[i], w[i], m), s);
      QuietStep(g.ids, w, i, MoveRest(g.configs[i], w[i], m), s);
    }
  }

  // ---- what a move leaves ----

  lemma MovesTo(g: Group, w: World, i: nat, m: Micro, next: World)
    requires WorldOk(g, w) && Moves(g, w, i, m, next)
    ensures Fitting(g, next) && i < |w| == |next| && Justified(w, i, m) && ReplicaState.Enabled(g.configs[i], w[i], m)
    ensures next == w[i := next[i]] && next[i] == ReplicaState.Apply(g.configs[i], g.rngs[i], w[i], m)
    ensures WorldGrown(w, next) && Sound(g.configs[i], next[i]) && SubmittedOk(next[i])
  {
    hide WorldOk, Justified, ReplicaState.Enabled, ReplicaState.Apply, Sound, SubmittedOk, Grown;
    FittingFacts(g, w);
    SoundAt(g, w, i);
    StepKeepsSound(g.configs[i], g.rngs[i], w[i], m);
    StepGrows(g.configs[i], g.rngs[i], w[i], m);
    WorldGrows(w, i, next[i]);
  }

  lemma MoveKeepsSound(g: Group, w: World, i: nat, m: Micro, next: World)
    requires WorldOk(g, w) && Moves(g, w, i, m, next)
    ensures Fitting(g, next) && EachSound(g, next)
  {
    hide WorldOk, Moves, Sound, SubmittedOk, WorldGrown, ReplicaState.Enabled, ReplicaState.Apply, Justified;
    MovesTo(g, w, i, m, next);
    forall j: nat | j < |next| ensures Sound(g.configs[j], next[j]) && SubmittedOk(next[j]) {
      if j != i {
        SoundAt(g, w, j);
      }
    }
  }

  lemma MoveKeepsSlots(g: Group, w: World, i: nat, m: Micro, next: World)
    requires WorldOk(g, w) && Moves(g, w, i, m, next) && Fitting(g, next)
    ensures EachSlot(g, next)
  {
    hide WorldOk, Moves, CI.Inv, Project;
    forall s: Slot ensures CI.Inv(Project(g.ids, next, s)) {
      StepProjects(g, w, i, m, next, s);
    }
  }

  // ---- pools ----

  lemma MoveKeepsPools(g: Group, w: World, i: nat, m: Micro, next: World)
    requires WorldOk(g, w) && Moves(g, w, i, m, next) && Fitting(g, next)
    ensures PoolsTrue(g, next)
  {
    hide WorldOk, Moves, WasSubmitted, ReplicaState.Enabled, ReplicaState.Apply, Justified, Sound, SubmittedOk,
      WorldGrown;
    MovesTo(g, w, i, m, next);
    FittingFacts(g, w);
    forall j: nat, id | j < |next| && id in next[j].pool
      ensures WasSubmitted(g, next, Command(id, next[j].pool[id].data))
    {
      if j != i {
        PoolAt(g, w, j, id);
        SubmittedStays(g, w, next, Command(id, w[j].pool[id].data));
      } else {
        PoolEntryTrue(g, w, i, m, next, id);
      }
    }
  }

  lemma PoolEntryTrue(g: Group, w: World, i: nat, m: Micro, next: World, id: CommandId)
    requires WorldOk(g, w) && Moves(g, w, i, m, next) && Fitting(g, next) && i < |next| && id in next[i].pool
    ensures WasSubmitted(g, next, Command(id, next[i].pool[id].data))
  {
    hide WorldOk, Moves, WasSubmitted, ReplicaState.Enabled, ReplicaState.Apply, Justified, Sound, SubmittedOk,
      WorldGrown, Submitted, Pooled;
    MovesTo(g, w, i, m, next);
    FittingFacts(g, w);
    ApplyIs(g.configs[i], g.rngs[i], w[i], m);
    var cmd := Command(id, next[i].pool[id].data);
    if m.SubmitStep? && id == OwnId(g.configs[i], next[i].nextSeq) {
      OwnIsSubmitted(g, next, i, cmd);
    } else if m.PoolStep? && id == m.cmd.id {
      PooledGrows(w[i], m.cmd, m.now);
      ForwardedIsSubmitted(g, w, i, m);
      SubmittedStays(g, w, next, m.cmd);
    } else {
      if m.PoolStep? {
        PooledGrows(w[i], m.cmd, m.now);
      } else if !m.SubmitStep? {
        StepShrinks(g.configs[i], g.rngs[i], w[i], m);
      }
      PoolAt(g, w, i, id);
      SubmittedStays(g, w, next, cmd);
    }
  }

  lemma OwnIsSubmitted(g: Group, w: World, i: nat, cmd: Command)
    requires Fitting(g, w) && i < |w| && Gave(g.configs[i], w[i], cmd)
    ensures WasSubmitted(g, w, cmd)
  {
  }

  lemma ForwardedIsSubmitted(g: Group, w: World, i: nat, m: Micro)
    requires WorldOk(g, w) && Justified(w, i, m) && m.PoolStep?
    ensures Fitting(g, w) && WasSubmitted(g, w, m.cmd)
  {
    hide WorldOk, WasSubmitted, Sent, Justified;
    FittingFacts(g, w);
    var from, message := JustifiedBy(w, i, m);
    SenderIn(w, from, i, message);
    MessageAt(g, w, from, i, message);
    var k :| 0 <= k < |message.payload.commands| && message.payload.commands[k] == m.cmd;
  }

  // ---- messages ----

  lemma MoveKeepsMessages(g: Group, w: World, i: nat, m: Micro, next: World)
    requires WorldOk(g, w) && Moves(g, w, i, m, next) && Fitting(g, next) && PoolsTrue(g, next)
    ensures MessagesTrue(g, next)
  {
    hide WorldOk, Moves, MsgTrue, ReplicaState.Enabled, ReplicaState.Apply, Justified, Sound, SubmittedOk, WorldGrown,
      PoolsTrue;
    MovesTo(g, w, i, m, next);
    FittingFacts(g, w);
    forall a: nat, b: nat, message | a < |next| && Sent(next, a, b, message) ensures MsgTrue(g, next, a, message) {
      var k: nat :| k < |next[a].actions| && next[a].actions[k] == Send(b, message);
      if a != i {
        assert Sent(w, a, b, message);
        MessageAt(g, w, a, b, message);
        MsgTrueStays(g, w, next, a, message);
      } else {
        NewMessageTrue(g, w, i, m, next, k);
      }
    }
  }

  lemma NewMessageTrue(g: Group, w: World, i: nat, m: Micro, next: World, k: nat)
    requires WorldOk(g, w) && Moves(g, w, i, m, next) && Fitting(g, next) && PoolsTrue(g, next)
    requires i < |next| && k < |next[i].actions| && next[i].actions[k].Send?
    ensures MsgTrue(g, next, i, next[i].actions[k].message)
  {
    hide WorldOk, Moves, MsgTrue, ReplicaState.Enabled, ReplicaState.Apply, Justified, StorageOk, LogOk, PoolOk,
      DeliveryOk, BudgetOk,
      SubmittedOk, WorldGrown, PoolsTrue, PayloadTrue, PayloadSized;
    MovesTo(g, w, i, m, next);
    FittingFacts(g, w);
    SoundAt(g, w, i);
    StepEmits(g.configs[i], g.rngs[i], w[i], m);
    var a := next[i].actions[k];
    if k < |w[i].actions| {
      assert a == w[i].actions[k];
      assert Sent(w, i, a.to, a.message);
      MessageAt(g, w, i, a.to, a.message);
      MsgTrueStays(g, w, next, i, a.message);
    } else {
      assert TrueSend(g.configs[i], next[i], a);
      TrueSendIsTrue(g, next, i, a);
    }
  }

  lemma TrueSendIsTrue(g: Group, w: World, i: nat, a: Action)
    requires Fitting(g, w) && PoolsTrue(g, w) && i < |w| && TrueSend(g.configs[i], w[i], a)
    ensures MsgTrue(g, w, i, a.message)
  {
    hide WasSubmitted, PayloadSized;
    if a.message.payload.Forward? {
      var cmds := a.message.payload.commands;
      forall k | 0 <= k < |cmds| ensures WasSubmitted(g, w, cmds[k]) {
        assert Holds(w[i], cmds[k]);
        assert cmds[k] == Command(cmds[k].id, w[i].pool[cmds[k].id].data);
      }
    }
  }

  // ---- values entering slots ----

  lemma MoveKeepsEntries(g: Group, w: World, i: nat, m: Micro, next: World)
    requires WorldOk(g, w) && Moves(g, w, i, m, next) && Fitting(g, next)
    ensures EntriesTrue(g, next)
  {
    hide WorldOk, Moves, EnteredTrue, ReplicaState.Enabled, ReplicaState.Apply, Justified, Sound, SubmittedOk,
      WorldGrown, HistAt;
    MovesTo(g, w, i, m, next);
    FittingFacts(g, w);
    forall j: nat, s: Slot | j < |next| && 4 in HistAt(next[j], s).sent
      ensures EnteredTrue(g, next, j, s, HistAt(next[j], s).sent[4].proposal.value)
    {
      if j != i {
        EntryAt(g, w, j, s);
        EnteredStays(g, w, next, j, s, HistAt(w[j], s).sent[4].proposal.value);
      } else {
        EntryTrue(g, w, i, m, next, s);
      }
    }
  }

  lemma EntryTrue(g: Group, w: World, i: nat, m: Micro, next: World, s: Slot)
    requires WorldOk(g, w) && Moves(g, w, i, m, next) && Fitting(g, next) && i < |next| && 4 in HistAt(next[i], s).sent
    ensures EnteredTrue(g, next, i, s, HistAt(next[i], s).sent[4].proposal.value)
  {
    hide WorldOk, Moves, EnteredTrue, ReplicaState.Enabled, ReplicaState.Apply, Justified, StorageOk, LogOk, PoolOk,
      DeliveryOk, BudgetOk,
      SubmittedOk, WorldGrown, HistAt, OpenSlot, CanOpen, Takeable, Batch.BatchBytes, BatchTrue;
    MovesTo(g, w, i, m, next);
    FittingFacts(g, w);
    SoundAt(g, w, i);
    var cfg, rng, st := g.configs[i], g.rngs[i], w[i];
    if m.OpenStep? {
      OpenIs(cfg, rng, st, m);
      OpenedEnters(cfg, rng, st, m.slot, m.cmds, m.asLeader, m.now, s);
      if s == m.slot {
        OpenedBatchTrue(g, w, i, m.slot, m.cmds, m.asLeader);
        EnteredStays(g, w, next, i, s, Batch.BatchBytes(m.cmds));
      } else {
        EntryAt(g, w, i, s);
        EnteredStays(g, w, next, i, s, HistAt(st, s).sent[4].proposal.value);
      }
    } else {
      StepEnters(cfg, rng, st, m, s);
      EntryAt(g, w, i, s);
      EnteredStays(g, w, next, i, s, HistAt(st, s).sent[4].proposal.value);
    }
  }

  lemma OpenIs(cfg: Config, rng: Rng, st: State, m: Micro)
    requires ReplicaState.Enabled(cfg, st, m) && m.OpenStep?
    ensures cfg.me < |cfg.ids| && Takeable(cfg, st, m.cmds) && CanOpen(cfg, st, m.slot, m.cmds, m.asLeader)
    ensures ReplicaState.Apply(cfg, rng, st, m) == OpenSlot(cfg, rng, st, m.slot, m.cmds, m.asLeader, m.now)
  {
    hide RecordAt, ReplyAt, DriveAt, OpenSlot, Install, Retransmitted, Observed, DeliverNext, FreeNext, CanRecord,
      CanOpen, CanLearn,
      CanFold, CanDrive, Takeable, MoveRest, RestEnabled, Least, TotalBytes;
  }

  /** A batch claimed for a slot is made of submitted commands within the window of what its
      batcher has delivered, below that slot. */
  lemma OpenedBatchTrue(g: Group, w: World, i: nat, slot: Slot, cmds: seq<Command>, asLeader: bool)
    requires WorldOk(g, w) && i < |w| && Takeable(g.configs[i], w[i], cmds)
      && CanOpen(g.configs[i], w[i], slot, cmds, asLeader)
    ensures EnteredTrue(g, w, i, slot, Batch.BatchBytes(cmds))
  {
    hide WorldOk, StorageOk, LogOk, PoolOk, BudgetOk, SubmittedOk, Batch.BatchBytes, WasSubmitted, Top,
      Batch.CommandsFit, InWindow, Deliveries, Expected;
    FittingFacts(g, w);
    SoundAt(g, w, i);
    var cfg, st := g.configs[i], w[i];
    TakenFit(cfg, st, cmds);
    BatchSize(cfg, st, cmds);
    forall c | 0 <= c < |cmds|
      ensures WasSubmitted(g, w, cmds[c]) && InWindow(DedupAfter(st.log, st.contig), cmds[c].id)
    {
      assert Eligible(st, cmds[c].id);
      PoolAt(g, w, i, cmds[c].id);
      assert cmds[c] == Command(cmds[c].id, st.pool[cmds[c].id].data);
    }
    assert BatchTrue(g, w, i, slot, cmds, st.contig);
  }

  lemma BatchSize(cfg: Config, st: State, cmds: seq<Command>)
    requires PoolOk(cfg, st) && Takeable(cfg, st, cmds)
    ensures |Batch.BatchBytes(cmds)| < U32_LIMIT
  {
    hide Known, Top, AllTight, OwnKept, InWindow, Batch.BatchBytes;
    Batch.EncodedSize(cmds);
    if |cmds| == 1 {
      assert Eligible(st, cmds[0].id);
      assert cmds[1..] == [];
    }
  }

  // ---- watermarks ----

  lemma AcksAt(g: Group, w: World, i: nat, j: nat)
    requires WorldOk(g, w) && i < |w| && j < |w|
    ensures |w[i].peerAcked| == |w| && w[i].peerAcked[j] <= w[j].contig
  {
    hide EachSound, EachSlot, MessagesTrue, PoolsTrue, EntriesTrue;
  }

  lemma HeaderArrives(g: Group, w: World, i: nat, from: nat, decided: Slot)
    requires WorldOk(g, w) && Justified(w, i, Header(from, decided))
    ensures from < |w| && decided <= w[from].contig
  {
    hide WorldOk, Sent, Justified;
    FittingFacts(g, w);
    var f, message := JustifiedBy(w, i, Header(from, decided));
    SenderIn(w, f, i, message);
    MessageAt(g, w, f, i, message);
  }

  /** How a step changes the watermarks. */
  lemma StepAcks(cfg: Config, rng: Rng, st: State, m: Micro)
    requires ReplicaState.Enabled(cfg, st, m)
    ensures
      var next := ReplicaState.Apply(cfg, rng, st, m);
      if m.Header? then
        && m.from < |st.peerAcked| && |next.peerAcked| == |st.peerAcked|
        && forall j :: 0 <= j < |st.peerAcked| ==>
          next.peerAcked[j] == if j == m.from && st.peerAcked[j] < m.decided then m.decided else st.peerAcked[j]
      else if m.AckSelf? then
        cfg.me < |st.peerAcked| && next.peerAcked == st.peerAcked[cfg.me := st.contig]
      else next.peerAcked == st.peerAcked
  {
    hide SlotsEnabled, MoveSlots, TotalCost, IsChunk, Forwardable, Submitted, Pooled, Reforwarded, Refreshed,
      Requested, Answered,
      LearnEnded, LearnTimedOut, Pinged, SameStorage, SamePool, Known;
    if IsSlotStep(m) {
      SlotStepAcks(cfg, rng, st, m);
    }
  }

  lemma SlotStepAcks(cfg: Config, rng: Rng, st: State, m: Micro)
    requires IsSlotStep(m) && SlotsEnabled(cfg, st, m)
    ensures MoveSlots(cfg, rng, st, m).peerAcked == st.peerAcked
  {
    hide Takeable, TotalBytes, RecordAt, ReplyAt, DriveAt, OpenSlot, Install, Least, Retransmitted, Observed,
      DeliverNext, CanRecord, CanOpen,
      CanLearn, SamePool;
    match m
    case RecordStep(from, slot, step, p, now) => RecordAcks(cfg, st, from, slot, step, p, now);
    case ReplyStep(from, slot, reqStep, step, first, priorAgg, now) =>
      ReplyAcks(cfg, rng, st, slot, from, reqStep, step, first, priorAgg, now);
    case DriveStep(slot, now) => DriveAcks(cfg, rng, st, slot, now);
    case RetransmitStep(slot) =>
    case OpenStep(slot, cmds, asLeader, now) => OpenFields(cfg, rng, st, slot, cmds, asLeader, now);
    case LearnStep(slot, value, now) => InstallFields(cfg, st, slot, value, false, now);
    case DeliverStep => DeliverGrows(st);
    case FreeStep =>
    case EvictStep =>
    case ObserveStep(now) =>
  }

  lemma RecordAcks(cfg: Config, st: State, from: nat, slot: Slot, step: nat, p: Proposal, now: nat)
    requires CanRecord(cfg, st, from, slot, step)
    ensures RecordAt(cfg, st, from, slot, step, p, now).peerAcked == st.peerAcked
  {
    hide Recorded, Emit, NodeOf;
  }

  lemma SettledAcks(cfg: Config, st: State, slot: Slot, run: RunState, reaction: Reaction, now: nat)
    requires cfg.me < |cfg.ids| && slot in st.slots
    ensures Settled(cfg, st, slot, run, reaction, now).peerAcked == st.peerAcked
  {
    hide Install, Kept, Moved, SamePool;
    if reaction.Choose? {
      InstallFields(cfg, st, slot, reaction.value, true, now);
    }
  }

  lemma ReplyAcks(cfg: Config, rng: Rng, st: State, slot: Slot, from: nat, reqStep: nat, step: nat, first: ReplyFirst,
        priorAgg: Option<Proposal>, now: nat)
    requires CanFold(cfg, st, slot) && from < cfg.N()
    ensures ReplyAt(cfg, rng, st, slot, from, reqStep, step, first, priorAgg, now).peerAcked == st.peerAcked
  {
    hide FoldReply, Settled;
    match Reconstitute(st.slots[slot].proposer.run, from, reqStep, first)
    case None =>
    case Some(p) =>
      var (run, reaction) := FoldReply(st.slots[slot].proposer.run, cfg.MySeat(), now, DrawsAt(rng, st.drawn, cfg.N()),
          from, reqStep, step, p, priorAgg);
      SettledAcks(cfg, st, slot, run, reaction, now);
  }

  lemma DriveAcks(cfg: Config, rng: Rng, st: State, slot: Slot, now: nat)
    requires CanDrive(cfg, st, slot)
    ensures DriveAt(cfg, rng, st, slot, now).peerAcked == st.peerAcked
  {
    hide FoldReply, Settled, OwnRecord, Emit, DriveSends;
    var recorded := OwnRecord(cfg, st, slot, now);
    var (run, reaction) := DriveFold(cfg, rng, st, slot, now);
    SettledAcks(cfg, recorded, slot, run, reaction, now);
  }

  lemma MoveKeepsAcks(g: Group, w: World, i: nat, m: Micro, next: World)
    requires WorldOk(g, w) && Moves(g, w, i, m, next) && Fitting(g, next)
    ensures AcksTrue(next)
  {
    hide WorldOk, Moves, ReplicaState.Enabled, ReplicaState.Apply, Justified, Sound, SubmittedOk;
    MovesTo(g, w, i, m, next);
    FittingFacts(g, w);
    SoundAt(g, w, i);
    StepAcks(g.configs[i], g.rngs[i], w[i], m);
    if m.Header? {
      HeaderArrives(g, w, i, m.from, m.decided);
    }
    forall a: nat, b: nat | a < |next| && b < |next|
      ensures |next[a].peerAcked| == |next| && next[a].peerAcked[b] <= next[b].contig
    {
      AcksAt(g, w, a, b);
      assert Grown(w[b], next[b]);
    }
  }

  /** Every step of every replica keeps the group's invariant. */
  lemma MoveKeepsWorld(g: Group, w: World, i: nat, m: Micro, next: World)
    requires WorldOk(g, w) && Moves(g, w, i, m, next)
    ensures WorldOk(g, next) && WorldGrown(w, next)
  {
    hide WorldOk, Moves, EachSound, EachSlot, MessagesTrue, PoolsTrue, EntriesTrue, AcksTrue, WorldGrown,
      ReplicaState.Enabled,
      ReplicaState.Apply, Justified, Sound, SubmittedOk;
    MovesTo(g, w, i, m, next);
    MoveKeepsSound(g, w, i, m, next);
    MoveKeepsSlots(g, w, i, m, next);
    MoveKeepsPools(g, w, i, m, next);
    MoveKeepsMessages(g, w, i, m, next);
    MoveKeepsEntries(g, w, i, m, next);
    MoveKeepsAcks(g, w, i, m, next);
    WorldFrom(g, next);
  }

  lemma WorldFrom(g: Group, w: World)
    requires Fitting(g, w) && EachSound(g, w) && EachSlot(g, w) && MessagesTrue(g, w) && PoolsTrue(g, w)
      && EntriesTrue(g, w) && AcksTrue(w)
    ensures WorldOk(g, w)
  {
  }

  lemma StartOk(g: Group)
    requires g.Valid()
    ensures WorldOk(g, StartWorld(g))
  {
    hide CI.Inv, Sound, Project, MsgTrue, WasSubmitted, EnteredTrue;
    var w := StartWorld(g);
    forall i: nat | i < |w| ensures Sound(g.configs[i], w[i]) && SubmittedOk(w[i]) {
      InitialSound(g.configs[i]);
    }
    forall s: Slot ensures CI.Inv(Project(g.ids, w, s)) {
      StartProjected(g, s);
      CS.InitInv(g.ids);
    }
  }

  lemma StartProjected(g: Group, s: Slot)
    requires g.Valid()
    ensures Project(g.ids, StartWorld(g), s) == C.Init(g.ids)
  {
    var c, d := Project(g.ids, StartWorld(g), s), C.Init(g.ids);
    assert c.net == {};
    forall i: nat | i < |g.ids| ensures c.nodes[i] == d.nodes[i] {
      assert StartWorld(g)[i] == Initial(g.configs[i]);
    }
    assert c.nodes == d.nodes;
  }

  /** Every state of every run satisfies the invariant. */
  lemma {:induction false} HistoryOk(g: Group, moves: seq<(nat, Micro)>, worlds: seq<World>, k: nat)
    requires IsHistory(g, moves, worlds) && k <= |moves|
    ensures WorldOk(g, worlds[k])
  {
    hide WorldOk, Moves;
    if k == 0 {
      StartOk(g);
    } else {
      HistoryOk(g, moves, worlds, k - 1);
      assert Moves(g, worlds[k - 1], moves[k - 1].0, moves[k - 1].1, worlds[k]);
      MoveKeepsWorld(g, worlds[k - 1], moves[k - 1].0, moves[k - 1].1, worlds[k]);
    }
  }
}
