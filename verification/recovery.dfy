/** Laggards can catch up. */
module Recovery {
  // A replica that lags behind can always be caught up, unless retained values were evicted
  // past the budget.

  import opened Types
  import opened Recorder
  import opened Proposer
  import opened SlotLogic
  import opened ReplicaState
  import opened ReplicaInvariant
  import opened Delivery
  import opened Retention
  import opened ReplicaRuns
  import opened ReplicaMoves
  import opened ReplicaRest
  import opened Projection
  import opened GroupRuns
  import opened GroupSteps

  lemma InstallFloor(cfg: Config, st: State, slot: Slot, run: RunState, reaction: Reaction, now: nat)
    requires cfg.me < |cfg.ids| && slot in st.slots
    ensures Settled(cfg, st, slot, run, reaction, now).gcFloor == st.gcFloor
  {
    hide Install, Kept, Moved, SamePool;
    if reaction.Choose? {
      InstallFields(cfg, st, slot, reaction.value, true, now);
    }
  }

  lemma ReplyFloor(cfg: Config, rng: Rng, st: State, slot: Slot, from: nat, reqStep: nat, step: nat,
        first: ReplyFirst, priorAgg: Option<Proposal>, now: nat)
    requires CanFold(cfg, st, slot) && from < cfg.N()
    ensures ReplyAt(cfg, rng, st, slot, from, reqStep, step, first, priorAgg, now).gcFloor == st.gcFloor
  {
    hide FoldReply, Settled;
    match Reconstitute(st.slots[slot].proposer.run, from, reqStep, first)
    case None =>
    case Some(p) =>
      var (run, reaction) := FoldReply(st.slots[slot].proposer.run, cfg.MySeat(), now, DrawsAt(rng, st.drawn, cfg.N()),
          from, reqStep, step, p, priorAgg);
      InstallFloor(cfg, st, slot, run, reaction, now);
  }

  lemma DriveFloor(cfg: Config, rng: Rng, st: State, slot: Slot, now: nat)
    requires CanDrive(cfg, st, slot)
    ensures DriveAt(cfg, rng, st, slot, now).gcFloor == st.gcFloor
  {
    hide FoldReply, Settled, OwnRecord, Emit, DriveSends;
    var recorded := OwnRecord(cfg, st, slot, now);
    var (run, reaction) := DriveFold(cfg, rng, st, slot, now);
    InstallFloor(cfg, recorded, slot, run, reaction, now);
  }

  lemma RecordFloor(cfg: Config, st: State, from: nat, slot: Slot, step: nat, p: Proposal, now: nat)
    requires CanRecord(cfg, st, from, slot, step)
    ensures RecordAt(cfg, st, from, slot, step, p, now).gcFloor == st.gcFloor
  {
    hide Recorded, Emit, NodeOf;
  }

  lemma DeliverFloor(st: State)
    requires st.contig + 1 in st.retained
    ensures DeliverNext(st).gcFloor == st.gcFloor
  {
    hide Filter, Commands, Without;
  }

  lemma SlotStepFloor(cfg: Config, rng: Rng, st: State, m: Micro)
    requires IsSlotStep(m) && SlotsEnabled(cfg, st, m)
    ensures
      var next := MoveSlots(cfg, rng, st, m);
      && (!m.FreeStep? && !m.EvictStep? ==> next.gcFloor == st.gcFloor)
      && (m.FreeStep? ==> next.gcFloor == st.gcFloor + 1 && forall j :: 0 <= j < |st.peerAcked| ==>
        st.gcFloor + 1 <= st.peerAcked[j])
  {
    hide Takeable, TotalBytes, RecordAt, ReplyAt, DriveAt, OpenSlot, Install, Retransmitted, Observed, DeliverNext,
      CanRecord, CanOpen,
      CanLearn, SamePool;
    match m
    case RecordStep(from, slot, step, p, now) => RecordFloor(cfg, st, from, slot, step, p, now);
    case ReplyStep(from, slot, reqStep, step, first, priorAgg, now) =>
      ReplyFloor(cfg, rng, st, slot, from, reqStep, step, first, priorAgg, now);
    case DriveStep(slot, now) => DriveFloor(cfg, rng, st, slot, now);
    case RetransmitStep(slot) =>
    case OpenStep(slot, cmds, asLeader, now) => OpenFields(cfg, rng, st, slot, cmds, asLeader, now);
    case LearnStep(slot, value, now) => InstallFields(cfg, st, slot, value, false, now);
    case DeliverStep => DeliverFloor(st);
    case FreeStep =>
    case EvictStep =>
    case ObserveStep(now) =>
  }

  lemma StepFloor(cfg: Config, rng: Rng, st: State, m: Micro)
    requires ReplicaState.Enabled(cfg, st, m)
    ensures
      var next := ReplicaState.Apply(cfg, rng, st, m);
      && (!m.FreeStep? && !m.EvictStep? ==> next.gcFloor == st.gcFloor)
      && (m.FreeStep? ==> next.gcFloor == st.gcFloor + 1 && forall j :: 0 <= j < |st.peerAcked| ==>
        st.gcFloor + 1 <= st.peerAcked[j])
  {
    hide SlotsEnabled, MoveSlots, RestEnabled, MoveRest;
    if IsSlotStep(m) {
      SlotStepFloor(cfg, rng, st, m);
    }
  }

  // ---- floors ----

  /** Nothing was freed that some replica has not delivered. */
  ghost predicate FloorsBehind(w: World) {
    forall i: nat, j: nat :: i < |w| && j < |w| ==> w[i].gcFloor <= w[j].contig
  }

  lemma MoveKeepsFloors(g: Group, w: World, i: nat, m: Micro, next: World)
    requires WorldOk(g, w) && Moves(g, w, i, m, next) && FloorsBehind(w) && !m.EvictStep?
    ensures FloorsBehind(next)
  {
    hide WorldOk, Moves, ReplicaState.Enabled, ReplicaState.Apply, Justified, Sound, SubmittedOk;
    MovesTo(g, w, i, m, next);
    StepFloor(g.configs[i], g.rngs[i], w[i], m);
    forall a: nat, b: nat | a < |next| && b < |next| ensures next[a].gcFloor <= next[b].contig {
      assert Grown(w[b], next[b]);
      AcksAt(g, w, a, b);
    }
  }

  ghost predicate NoEvictions(moves: seq<(nat, Micro)>) {
    forall k :: 0 <= k < |moves| ==> !moves[k].1.EvictStep?
  }

  /** Retention keeps a value until every replica has delivered it, in every run in which
      the budget's escape hatch does not fire. */
  lemma {:induction false} NothingFreedEarly(g: Group, moves: seq<(nat, Micro)>, worlds: seq<World>, k: nat)
    requires IsHistory(g, moves, worlds) && NoEvictions(moves) && k <= |moves|
    ensures FloorsBehind(worlds[k])
  {
    hide WorldOk, Moves, FloorsBehind;
    if k == 0 {
      FloorsAtStart(g);
    } else {
      NothingFreedEarly(g, moves, worlds, k - 1);
      HistoryOk(g, moves, worlds, k - 1);
      assert Moves(g, worlds[k - 1], moves[k - 1].0, moves[k - 1].1, worlds[k]);
      MoveKeepsFloors(g, worlds[k - 1], moves[k - 1].0, moves[k - 1].1, worlds[k]);
    }
  }

  lemma FloorsAtStart(g: Group)
    requires g.Valid()
    ensures FloorsBehind(StartWorld(g))
  {
  }

  // ---- answering ----

  /** From any delivered slot above the floor there is a chunk to answer with. */
  lemma {:induction false} ChunkExists(cfg: Config, st: State, from: Slot,
        values: seq<Bytes>) returns (chunk: seq<Bytes>)
    requires StorageOk(cfg, st) && st.gcFloor < from && from + |values| <= st.contig
    requires RetainedFrom(st, from, values) && BytesOf(values) < LEARN_CHUNK_BYTES
    ensures IsChunk(st, from, chunk)
    decreases st.contig - |values|
  {
    hide SlotOk;
    var slot := from + |values|;
    assert slot in st.retained;
    var wider := values + [st.retained[slot]];
    BytesOfAppend(values, st.retained[slot]);
    assert wider[..|wider| - 1] == values;
    RetainedMore(st, from, values);
    if BytesOf(wider) >= LEARN_CHUNK_BYTES || slot == st.contig {
      chunk := wider;
    } else {
      chunk := ChunkExists(cfg, st, from, wider);
    }
  }

  lemma RetainedMore(st: State, from: Slot, values: seq<Bytes>)
    requires RetainedFrom(st, from, values) && from + |values| in st.retained
    ensures RetainedFrom(st, from, values + [st.retained[from + |values|]])
  {
    var last := st.retained[from + |values|];
    var wider := values + [last];
    forall k | 0 <= k < |wider| ensures RetainedAs(st, from + k, wider[k]) {
      if k < |values| {
        assert wider[k] == values[k];
        assert RetainedAs(st, from + k, values[k]);
      } else {
        assert from + k == from + |values|;
      }
    }
  }

  /** Stragglers stay recoverable: in every such run, a Learn from a lagging replica to any
      replica ahead of it is answered with a nonempty run of decided values, the first of
      which is the very one it waits for and can take up. */
  lemma StragglerIsServed(g: Group, moves: seq<(nat, Micro)>, worlds: seq<World>, k: nat, i: nat,
        j: nat) returns (values: seq<Bytes>)
    requires IsHistory(g, moves, worlds) && NoEvictions(moves) && k <= |moves| && i < |worlds[k]| && j < |worlds[k]|
    requires worlds[k][j].contig < worlds[k][i].contig
    ensures i != j && g.Valid() && i < |g.configs| && j < |g.configs|
    ensures ReplicaState.Enabled(g.configs[i], worlds[k][i], AnswerStep(j, worlds[k][j].contig + 1, values))
      && values != []
    ensures worlds[k][j].contig + 1 !in worlds[k][j].retained ==>
      CanLearn(g.configs[j], worlds[k][j], worlds[k][j].contig + 1, values[0])
  {
    hide WorldOk, Moves, PoolOk, DeliveryOk, BudgetOk, SubmittedOk, StorageOk, IsChunk;
    HistoryOk(g, moves, worlds, k);
    NothingFreedEarly(g, moves, worlds, k);
    FittingFacts(g, worlds[k]);
    SoundAt(g, worlds[k], i);
    SoundAt(g, worlds[k], j);
    AcksAt(g, worlds[k], i, j);
    var from := worlds[k][j].contig + 1;
    assert worlds[k][i].gcFloor <= worlds[k][j].contig;
    NoBytes();
    values := ChunkExists(g.configs[i], worlds[k][i], from, []);
    ChunkNonempty(worlds[k][i], from, values);
    if from !in worlds[k][j].retained {
      NextIsLearnable(g.configs[j], worlds[k][j], values[0]);
    }
  }

  lemma NoBytes()
    ensures BytesOf([]) == 0
  {
  }

  lemma ChunkNonempty(st: State, from: Slot, values: seq<Bytes>)
    requires IsChunk(st, from, values)
    ensures values != []
  {
  }

  lemma NextIsLearnable(cfg: Config, st: State, value: Bytes)
    requires StorageOk(cfg, st) && st.contig + 1 !in st.retained
    requires cfg.N() > 1
    ensures CanLearn(cfg, st, st.contig + 1, value)
  {
    if st.contig + 1 in st.slots {
      SlotFacts(cfg, st, st.contig + 1);
    }
  }
}
