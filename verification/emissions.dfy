/** What a replica tells others. */
module Emissions {
  // Every message is true of the state of the replica that emits it.

  import opened Types
  import opened Recorder
  import opened Proposer
  import opened SlotLogic
  import opened Pooling
  import opened ReplicaState
  import opened ReplicaInvariant
  import opened ReplicaMoves
  import Wire
  import Batch

  /** Decisions told are in the log, and forwarded commands are held. */
  ghost predicate PayloadTrue(st: State, p: Wire.Payload) {
    match p
    case Decide(slot, value) => Logged(st, slot, value)
    case LearnReply(first, values) => forall k {:trigger values[k]} :: 0 <= k < |values| ==>
      Logged(st, first + k, values[k])
    case Forward(cmds) => forall k :: 0 <= k < |cmds| ==> Holds(st, cmds[k])
    case _ => true
  }

  ghost predicate Logged(st: State, slot: Slot, value: Bytes) {
    slot in st.log && st.log[slot] == value
  }

  ghost predicate Holds(st: State, cmd: Command) {
    cmd.id in st.pool && st.pool[cmd.id].data == cmd.data
  }

  /** Messages stay within the batch and chunk limits, but for one oversized element. */
  predicate PayloadSized(p: Wire.Payload) {
    match p
    case LearnReply(_, values) => values != [] ==> BytesOf(values[..|values| - 1]) < LEARN_CHUNK_BYTES
    case Forward(cmds) => |cmds| > 1 ==> Batch.CommandsSize(cmds) <= MAX_BATCH_BYTES_LIMIT
    case _ => true
  }

  /** A send by this replica to another, advertising at most its frontier, telling the truth. */
  ghost predicate TrueSend(cfg: Config, st: State, a: Action) {
    && a.Send? && a.to < cfg.N() && a.to != cfg.me && cfg.me < cfg.N()
    && a.message.from == cfg.ids[cfg.me] && a.message.decided <= st.contig && PayloadTrue(st, a.message.payload)
    && PayloadSized(a.message.payload)
  }

  ghost predicate Extends(st: State, next: State) {
    |st.actions| <= |next.actions| && next.actions[..|st.actions|] == st.actions
  }

  /** Whatever a step emits is a delivery, or a true send that advertises the whole frontier. */
  ghost predicate Emitted(cfg: Config, st: State, next: State) {
    && Extends(st, next)
    && forall k :: |st.actions| <= k < |next.actions| ==>
      next.actions[k].Deliver? || FrontierSend(cfg, next, next.actions[k])
  }

  ghost predicate FrontierSend(cfg: Config, st: State, a: Action) {
    TrueSend(cfg, st, a) && a.message.decided == st.contig
  }

  predicate IsSlotSend(a: Action) {
    a.Send? && (a.message.payload.Record? || a.message.payload.RecordReply?)
  }

  /** A step emits no consensus message. */
  ghost predicate NoSlotSends(st: State, next: State) {
    && Extends(st, next)
    && forall k :: |st.actions| <= k < |next.actions| ==> !IsSlotSend(next.actions[k])
  }

  lemma QuietEmits(cfg: Config, st: State, next: State)
    requires next.actions == st.actions
    ensures Emitted(cfg, st, next) && NoSlotSends(st, next)
  {
  }

  lemma ToOthersAre(cfg: Config, decided: Slot, payload: nat -> Wire.Payload, k: nat) returns (j: nat)
    requires cfg.me < |cfg.ids| && k < |ToOthers(cfg, decided, payload)|
    ensures j < cfg.N() && j != cfg.me
      && ToOthers(cfg, decided, payload)[k] == Send(j, Wire.Message(cfg.ids[cfg.me], decided, payload(j)))
  {
    var a := ToOthers(cfg, decided, payload)[k];
    SendsBelowAre(cfg, decided, payload, cfg.N(), a);
    j :| j < cfg.N() && j != cfg.me && a == Send(j, Wire.Message(cfg.ids[cfg.me], decided, payload(j)));
  }

  /** A broadcast of one kind of payload. */
  lemma BroadcastEmits(cfg: Config, st: State, mid: State, payload: nat -> Wire.Payload, decided: Slot)
    requires cfg.me < |cfg.ids| && mid.actions == st.actions && decided == mid.contig
    requires forall j: nat :: j < cfg.N() ==> PayloadTrue(mid, payload(j)) && PayloadSized(payload(j))
    ensures Emitted(cfg, st, Emit(mid, ToOthers(cfg, decided, payload)))
    ensures (forall j: nat :: j < cfg.N() ==> !payload(j).Record? && !payload(j).RecordReply?) ==>
      NoSlotSends(st, Emit(mid, ToOthers(cfg, decided, payload)))
  {
    hide PayloadTrue, PayloadSized, ToOthers, Emit;
    var sends := ToOthers(cfg, decided, payload);
    var next := Emit(mid, sends);
    forall k | |st.actions| <= k < |next.actions|
      ensures FrontierSend(cfg, next, next.actions[k])
      ensures exists j: nat :: j < cfg.N() && next.actions[k].message.payload == payload(j)
    {
      var j := ToOthersAre(cfg, decided, payload, k - |st.actions|);
      SamePayload(mid, next, payload(j));
    }
  }

  lemma SamePayload(st: State, next: State, p: Wire.Payload)
    requires PayloadTrue(st, p) && next.log == st.log && next.pool == st.pool
    ensures PayloadTrue(next, p)
  {
  }

  lemma OneEmits(cfg: Config, st: State, mid: State, a: Action)
    requires mid.actions == st.actions && FrontierSend(cfg, mid, a)
    ensures Emitted(cfg, st, Emit(mid, [a]))
    ensures !IsSlotSend(a) ==> NoSlotSends(st, Emit(mid, [a]))
  {
    hide Emit, PayloadTrue;
    SamePayload(mid, Emit(mid, [a]), a.message.payload);
  }

  // ---- handler by handler ----

  lemma InstallEmits(cfg: Config, st: State, slot: Slot, value: Bytes, mine: bool, now: nat)
    requires cfg.me < |cfg.ids|
    ensures Emitted(cfg, st, Install(cfg, st, slot, value, mine, now))
      && NoSlotSends(st, Install(cfg, st, slot, value, mine, now))
  {
    hide Install, ToOthers;
    InstallFields(cfg, st, slot, value, mine, now);
    InstallLogs(cfg, st, slot, value, mine, now);
    var next := Install(cfg, st, slot, value, mine, now);
    if mine {
      var mid := next.(actions := st.actions);
      BroadcastEmits(cfg, st, mid, DecideTo(slot, value), st.contig);
      assert Emit(mid, ToOthers(cfg, st.contig, DecideTo(slot, value))) == next;
    } else {
      QuietEmits(cfg, st, next);
    }
  }

  lemma InstallLogs(cfg: Config, st: State, slot: Slot, value: Bytes, mine: bool, now: nat)
    requires cfg.me < |cfg.ids|
    ensures Install(cfg, st, slot, value, mine, now).log == st.log[slot := value]
  {
    hide ToOthers, Commands, Release, NodeOf, SlotOr;
  }

  lemma SettledEmits(cfg: Config, st: State, slot: Slot, run: RunState, reaction: Reaction, now: nat)
    requires cfg.me < |cfg.ids| && slot in st.slots
    ensures Emitted(cfg, st, Settled(cfg, st, slot, run, reaction, now))
      && NoSlotSends(st, Settled(cfg, st, slot, run, reaction, now))
  {
    hide Install, Kept, Moved, Emitted, NoSlotSends;
    match reaction
    case Choose(value) => InstallEmits(cfg, st, slot, value, true, now);
    case Quiet => QuietEmits(cfg, st, Kept(st, slot, run));
    case Resend => QuietEmits(cfg, st, Moved(cfg, st, slot, run));
  }

  lemma ReplyEmits(cfg: Config, rng: Rng, st: State, slot: Slot, from: nat, reqStep: nat, step: nat,
        first: ReplyFirst, priorAgg: Option<Proposal>, now: nat)
    requires CanFold(cfg, st, slot) && from < cfg.N()
    ensures
      var next := ReplyAt(cfg, rng, st, slot, from, reqStep, step, first, priorAgg, now);
      Emitted(cfg, st, next) && NoSlotSends(st, next)
  {
    hide FoldReply, Settled, Emitted, NoSlotSends;
    match Reconstitute(st.slots[slot].proposer.run, from, reqStep, first)
    case None => QuietEmits(cfg, st, st);
    case Some(p) =>
      var (run, reaction) := FoldReply(st.slots[slot].proposer.run, cfg.MySeat(), now, DrawsAt(rng, st.drawn, cfg.N()),
          from, reqStep, step, p, priorAgg);
      SettledEmits(cfg, st, slot, run, reaction, now);
  }

  /** Driving emits the records of the step it leaves to be waited for, and nothing else of
      the consensus protocol. */
  ghost predicate DriveEmitted(cfg: Config, st: State, next: State, slot: Slot) {
    && Extends(st, next)
    && forall k :: |st.actions| <= k < |next.actions| && IsSlotSend(next.actions[k]) ==>
         && slot in next.slots && next.slots[slot].proposer.Running? && !next.slots[slot].proposer.run.needsSend
         && next.actions[k].to < cfg.N() && next.actions[k].to != cfg.me
         && next.actions[k].message.payload == RecordTo(slot, next.slots[slot].proposer.run)(next.actions[k].to)
  }

  lemma DriveEmits(cfg: Config, rng: Rng, st: State, slot: Slot, now: nat)
    requires CanDrive(cfg, st, slot)
    ensures var next := DriveAt(cfg, rng, st, slot, now); Emitted(cfg, st, next) && DriveEmitted(cfg, st, next, slot)
  {
    hide FoldReply, Settled, OwnRecord, Emitted, NoSlotSends, DriveEmitted, Emit, ToOthers;
    var recorded := OwnRecord(cfg, st, slot, now);
    var summary := Summarize(recorded.slots[slot].recorder.isr);
    var step := st.slots[slot].proposer.run.step;
    var (run, reaction) := FoldReply(recorded.slots[slot].proposer.run, cfg.MySeat(), now,
      DrawsAt(rng, recorded.drawn, cfg.N()),
        cfg.me, step, summary.step, summary.first, summary.priorAgg);
    var after := Settled(cfg, recorded, slot, run, reaction, now);
    SettledEmits(cfg, recorded, slot, run, reaction, now);
    SettledThenSends(cfg, st, recorded, after, slot);
  }

  lemma SettledThenSends(cfg: Config, st: State, recorded: State, after: State, slot: Slot)
    requires recorded.actions == st.actions && Emitted(cfg, recorded, after) && NoSlotSends(recorded, after)
      && cfg.me < |cfg.ids|
    ensures
      var next := Emit(after, DriveSends(cfg, after, slot));
      Emitted(cfg, st, next) && DriveEmitted(cfg, st, next, slot)
  {
    hide ToOthers, PayloadTrue, PayloadSized, Emit, RecordTo;
    var sends := DriveSends(cfg, after, slot);
    var next := Emit(after, sends);
    assert next.actions[..|st.actions|] == after.actions[..|st.actions|];
    forall k | |st.actions| <= k < |next.actions|
      ensures next.actions[k].Deliver? || FrontierSend(cfg, next, next.actions[k])
      ensures IsSlotSend(next.actions[k]) ==> k >= |after.actions|
    {
      if k < |after.actions| {
        assert next.actions[k] == after.actions[k];
        assert after.actions[k].Deliver? || FrontierSend(cfg, after, after.actions[k]);
        if after.actions[k].Send? {
          SamePayload(after, next, after.actions[k].message.payload);
        }
      } else {
        var run := after.slots[slot].proposer.run;
        var j := ToOthersAre(cfg, after.contig, RecordTo(slot, run), k - |after.actions|);
        RecordTells(next, slot, run, j);
      }
    }
    forall k | |after.actions| <= k < |next.actions| ensures DriveSend(cfg, next, slot, next.actions[k]) {
      var run := after.slots[slot].proposer.run;
      var j := ToOthersAre(cfg, after.contig, RecordTo(slot, run), k - |after.actions|);
    }
  }

  ghost predicate DriveSend(cfg: Config, next: State, slot: Slot, a: Action) {
    && slot in next.slots && next.slots[slot].proposer.Running? && !next.slots[slot].proposer.run.needsSend
    && a.Send? && a.to < cfg.N() && a.to != cfg.me
      && a.message.payload == RecordTo(slot, next.slots[slot].proposer.run)(a.to)
  }

  lemma RecordTells(st: State, slot: Slot, run: RunState, j: nat)
    ensures PayloadTrue(st, RecordTo(slot, run)(j)) && PayloadSized(RecordTo(slot, run)(j))
  {
  }

  lemma DecidedIsLogged(cfg: Config, st: State, slot: Slot)
    requires StorageOk(cfg, st) && LogOk(st) && slot in st.slots && st.slots[slot].recorder.Decided?
    ensures slot in st.log && st.log[slot] == st.slots[slot].recorder.value
  {
    SlotFacts(cfg, st, slot);
  }

  lemma RecordEmits(cfg: Config, st: State, from: nat, slot: Slot, step: nat, proposal: Proposal, now: nat)
    requires StorageOk(cfg, st) && LogOk(st) && CanRecord(cfg, st, from, slot, step)
    ensures var next := RecordAt(cfg, st, from, slot, step, proposal, now); Emitted(cfg, st, next)
    ensures slot in st.slots && st.slots[slot].recorder.Decided? ==>
      NoSlotSends(st, RecordAt(cfg, st, from, slot, step, proposal, now))
  {
    hide RecordAt, Recorded, Emit, NodeOf, StorageOk, LogOk;
    RecordAtIs(cfg, st, from, slot, step, proposal, now);
    if slot in st.slots && st.slots[slot].recorder.Decided? {
      DecidedIsLogged(cfg, st, slot);
      OneEmits(cfg, st, st, SendOne(cfg, st, from, Wire.Decide(slot, st.slots[slot].recorder.value)));
    } else {
      var recorded := Recorded(st, slot, step, proposal, now);
      var summary := Summarize(recorded.slots[slot].recorder.isr);
      OneEmits(cfg, st, recorded, SendOne(cfg, st, from,
        Wire.RecordReply(slot, step, summary.step, AnswerFirst(summary, step, proposal), summary.priorAgg)));
    }
  }

  lemma OpenEmits(cfg: Config, rng: Rng, st: State, slot: Slot, cmds: seq<Command>, asLeader: bool, now: nat)
    requires cfg.me < |cfg.ids|
    ensures OpenSlot(cfg, rng, st, slot, cmds, asLeader, now).actions == st.actions
  {
    hide Assign, NodeOf, SlotOr, Proposer.Start, DrawsAt;
  }

  lemma SlotStepEmits(cfg: Config, rng: Rng, st: State, m: Micro)
    requires StorageOk(cfg, st) && LogOk(st) && IsSlotStep(m) && SlotsEnabled(cfg, st, m)
    ensures Emitted(cfg, st, MoveSlots(cfg, rng, st, m))
    ensures !m.RecordStep? && !m.DriveStep? ==> NoSlotSends(st, MoveSlots(cfg, rng, st, m))
  {
    hide Takeable, TotalBytes, RecordAt, ReplyAt, DriveAt, OpenSlot, Install, Least, StorageOk, LogOk, Retransmitted,
      Observed,
      DeliverNext, FreeNext, CanRecord, CanOpen, CanLearn, Emitted, NoSlotSends, OnlySlot, SamePool;
    var next := MoveSlots(cfg, rng, st, m);
    match m
    case RecordStep(from, slot, step, proposal, now) => RecordEmits(cfg, st, from, slot, step, proposal, now);
    case ReplyStep(from, slot, reqStep, step, first, priorAgg, now) =>
      ReplyEmits(cfg, rng, st, slot, from, reqStep, step, first, priorAgg, now);
    case DriveStep(slot, now) => DriveEmits(cfg, rng, st, slot, now);
    case RetransmitStep(slot) => QuietEmits(cfg, st, next);
    case OpenStep(slot, cmds, asLeader, now) =>
      OpenEmits(cfg, rng, st, slot, cmds, asLeader, now);
      QuietEmits(cfg, st, next);
    case LearnStep(slot, value, now) => InstallEmits(cfg, st, slot, value, false, now);
    case DeliverStep => DeliverEmits(cfg, st);
    case FreeStep =>
      FreeEmits(st);
      QuietEmits(cfg, st, next);
    case EvictStep =>
      FreeEmits(st);
      QuietEmits(cfg, st, next);
    case ObserveStep(now) => QuietEmits(cfg, st, next);
  }

  lemma FreeEmits(st: State)
    ensures FreeNext(st).actions == st.actions
  {
  }

  lemma DeliverEmits(cfg: Config, st: State)
    requires st.contig + 1 in st.retained
    ensures Emitted(cfg, st, DeliverNext(st)) && NoSlotSends(st, DeliverNext(st))
  {
    hide Filter, Commands, Without;
  }

  // ---- the other steps ----

  lemma SubmitEmits(cfg: Config, st: State, data: Bytes, now: nat)
    requires cfg.Valid()
    ensures Emitted(cfg, st, Submitted(cfg, st, data, now)) && NoSlotSends(st, Submitted(cfg, st, data, now))
  {
    hide Emit, Emitted, NoSlotSends;
    var next := Submitted(cfg, st, data, now);
    if cfg.IsLeader() {
      QuietEmits(cfg, st, next);
    } else {
      var cmd := Command(OwnId(cfg, st.nextSeq + 1), data);
      var taken := st.(nextSeq := st.nextSeq + 1, submitted := st.submitted[st.nextSeq + 1 := data],
                       pool := st.pool[cmd.id := PoolEntry(data, None, now, 1)]);
      assert Holds(taken, cmd);
      OneEmits(cfg, st, taken, SendOne(cfg, st, 0, Wire.Forward([cmd])));
    }
  }

  /** A message of re-forwarded commands tells what the pool still holds. */
  lemma ChunkHeld(cfg: Config, st: State, chunks: seq<(nat, seq<Command>)>, now: nat, c: nat)
    requires cfg.Valid() && c < |chunks| && ChunkOk(cfg, st, chunks[c].0, chunks[c].1)
    ensures
      var next := Reforwarded(cfg, st, chunks, now);
      PayloadTrue(next, Wire.Forward(chunks[c].1)) && PayloadSized(Wire.Forward(chunks[c].1))
  {
    hide Emit, AllOf, Rides, ForwardTarget, Batch.CommandsSize;
    var next, cmds := Reforwarded(cfg, st, chunks, now), chunks[c].1;
    assert next.pool == Forwarded(st.pool, AllOf(chunks), now);
    forall k | 0 <= k < |cmds| ensures Holds(next, cmds[k]) {
      assert OwnUnassigned(cfg, st, cmds[k].id);
    }
  }

  lemma ForwardEmits(cfg: Config, st: State, chunks: seq<(nat, seq<Command>)>, now: nat)
    requires cfg.Valid() && Forwardable(cfg, st, chunks)
    ensures Emitted(cfg, st, Reforwarded(cfg, st, chunks, now)) && NoSlotSends(st, Reforwarded(cfg, st, chunks, now))
  {
    hide AllOf, Rides, Forwarded, PayloadTrue, PayloadSized, ChunkOk;
    var next := Reforwarded(cfg, st, chunks, now);
    forall k | |st.actions| <= k < |next.actions|
      ensures FrontierSend(cfg, next, next.actions[k]) && !IsSlotSend(next.actions[k])
    {
      var c := k - |st.actions|;
      ChunkHeld(cfg, st, chunks, now, c);
      ChunkTarget(cfg, st, chunks[c].0, chunks[c].1);
      assert next.actions[k] == SendOne(cfg, st, chunks[c].0, Wire.Forward(chunks[c].1));
    }
  }

  lemma ChunkTarget(cfg: Config, st: State, target: nat, cmds: seq<Command>)
    requires ChunkOk(cfg, st, target, cmds)
    ensures target < cfg.N() && target != cfg.me
  {
  }

  lemma ChunkHas(st: State, fromSlot: Slot, values: seq<Bytes>, value: Bytes, k: nat)
    requires IsChunk(st, fromSlot, values) && k < |values| && value == values[k]
    ensures fromSlot + k in st.retained && st.retained[fromSlot + k] == value
  {
    hide BytesOf;
  }

  lemma ChunkSized(st: State, fromSlot: Slot, values: seq<Bytes>)
    requires IsChunk(st, fromSlot, values)
    ensures values != [] && BytesOf(values[..|values| - 1]) < LEARN_CHUNK_BYTES
  {
    hide BytesOf;
  }

  lemma AnswerEmits(cfg: Config, st: State, to: nat, fromSlot: Slot, values: seq<Bytes>)
    requires LogOk(st) && IsChunk(st, fromSlot, values) && to < cfg.N() && to != cfg.me && cfg.me < cfg.N()
    ensures Emitted(cfg, st, Answered(cfg, st, to, fromSlot, values))
      && NoSlotSends(st, Answered(cfg, st, to, fromSlot, values))
  {
    hide Emit, BytesOf;
    ChunkSized(st, fromSlot, values);
    forall k {:trigger values[k]} | 0 <= k < |values| ensures Logged(st, fromSlot + k, values[k]) {
      ChunkHas(st, fromSlot, values, values[k], k);
    }
    OneEmits(cfg, st, st, SendOne(cfg, st, to, Wire.LearnReply(fromSlot, values)));
  }

  lemma RequestEmits(cfg: Config, st: State, to: nat, now: nat)
    requires to < cfg.N() && to != cfg.me && cfg.me < cfg.N()
    ensures Emitted(cfg, st, Requested(cfg, st, to, now)) && NoSlotSends(st, Requested(cfg, st, to, now))
  {
    hide Emit;
    OneEmits(cfg, st, st.(learning := Some((to, now))), SendOne(cfg, st, to, Wire.Learn(st.contig + 1)));
  }

  lemma PingEmits(cfg: Config, st: State, now: nat)
    requires cfg.me < |cfg.ids|
    ensures Emitted(cfg, st, Pinged(cfg, st, now)) && NoSlotSends(st, Pinged(cfg, st, now))
  {
    hide Emit, ToOthers;
    BroadcastEmits(cfg, st, st.(lastPing := now), PingTo(), st.contig);
  }

  lemma RestEmits(cfg: Config, st: State, m: Micro)
    requires cfg.Valid() && LogOk(st) && !IsSlotStep(m) && RestEnabled(cfg, st, m)
    ensures Emitted(cfg, st, MoveRest(cfg, st, m)) && NoSlotSends(st, MoveRest(cfg, st, m))
  {
    hide LogOk, TotalCost, IsChunk, Forwardable, Known, IsDelivered, Acked, SelfAcked, Submitted, Pooled, Reforwarded,
      Refreshed, Requested, Answered, LearnEnded, LearnTimedOut, Pinged, Emitted, NoSlotSends, SameStorage, SamePool;
    var next := MoveRest(cfg, st, m);
    if m.SubmitStep? {
      SubmitEmits(cfg, st, m.data, m.now);
    } else if m.ForwardStep? {
      ForwardEmits(cfg, st, m.chunks, m.now);
    } else if m.AnswerStep? {
      AnswerEmits(cfg, st, m.to, m.fromSlot, m.values);
    } else if m.RequestStep? {
      RequestEmits(cfg, st, m.to, m.now);
    } else if m.PingStep? {
      PingEmits(cfg, st, m.now);
    } else {
      QuietEmits(cfg, st, next);
    }
  }

  /** Every step emits only what is true, and consensus messages only when recording or driving. */
  lemma StepEmits(cfg: Config, rng: Rng, st: State, m: Micro)
    requires StorageOk(cfg, st) && LogOk(st) && ReplicaState.Enabled(cfg, st, m)
    ensures Emitted(cfg, st, ReplicaState.Apply(cfg, rng, st, m))
    ensures !m.RecordStep? && !m.DriveStep? ==> NoSlotSends(st, ReplicaState.Apply(cfg, rng, st, m))
  {
    hide StorageOk, LogOk, SlotsEnabled, MoveSlots, RestEnabled, MoveRest, Emitted, NoSlotSends;
    Counters(cfg, st);
    if IsSlotStep(m) {
      SlotStepEmits(cfg, rng, st, m);
    } else {
      RestEmits(cfg, st, m);
    }
  }
}
