/** What holds between the calls a replica serves, and how driving a proposer ends. */
module ReplicaRest {
  import opened Types
  import opened Recorder
  import opened Proposer
  import opened SlotLogic
  import opened Pooling
  import opened ReplicaState
  import opened ReplicaInvariant
  import opened Delivery
  import opened ReplicaRuns
  import opened ReplicaMoves
  import opened Retention
  import Consensus
  import ConsensusInvariant
  import Batch
  import Wire

  // ---- at rest ----

  /** A running proposer has sent its step and counted our own recorder's reply. */
  ghost predicate RestsAt(cfg: Config, st: State, s: Slot)
    requires s in st.slots
  {
    st.slots[s].proposer.Running? ==>
      var run := st.slots[s].proposer.run; !run.needsSend && cfg.me < |run.replied| && run.replied[cfg.me]
  }

  ghost predicate AtRestBut(cfg: Config, st: State, slot: Slot) {
    forall s :: s in st.slots && s != slot ==> RestsAt(cfg, st, s)
  }

  ghost predicate AtRest(cfg: Config, st: State) {
    forall s :: s in st.slots ==> RestsAt(cfg, st, s)
  }

  lemma RestShrinks(cfg: Config, st: State, next: State)
    requires AtRest(cfg, st) && Shrinks(st, next)
    ensures AtRest(cfg, next)
  {
    forall s | s in next.slots ensures RestsAt(cfg, next, s) {
      assert RestsAt(cfg, st, s);
    }
  }

  lemma RestSame(cfg: Config, st: State, next: State)
    requires AtRest(cfg, st) && next.slots == st.slots
    ensures AtRest(cfg, next)
  {
    forall s | s in next.slots ensures RestsAt(cfg, next, s) {
      assert RestsAt(cfg, st, s);
    }
  }

  lemma RestOne(cfg: Config, st: State, next: State, slot: Slot)
    requires AtRestBut(cfg, st, slot) && slot in next.slots && next.slots == st.slots[slot := next.slots[slot]]
    ensures AtRestBut(cfg, next, slot)
    ensures RestsAt(cfg, next, slot) ==> AtRest(cfg, next)
  {
    forall s | s in next.slots && s != slot ensures RestsAt(cfg, next, s) {
      assert RestsAt(cfg, st, s);
    }
  }

  lemma InstallRests(cfg: Config, st: State, slot: Slot, value: Bytes, mine: bool, now: nat)
    requires AtRestBut(cfg, st, slot) && cfg.me < |cfg.ids|
    ensures AtRest(cfg, Install(cfg, st, slot, value, mine, now))
  {
    hide Install, AtRestBut, AtRest;
    InstallFields(cfg, st, slot, value, mine, now);
    RestOne(cfg, st, Install(cfg, st, slot, value, mine, now), slot);
  }

  // ---- opening more ----

  /** Our proposer for the slot runs and sent its step at `now`. */
  ghost predicate Driven(st: State, s: Slot, now: nat) {
    s > st.contig && s in st.slots && st.slots[s].proposer.Running? && st.slots[s].proposer.run.sentAt == now
  }

  /** In a group of several, driving and opening change nothing but the slots driven. */
  ghost predicate OpensMore(st: State, next: State, now: nat) {
    && next.contig == st.contig && next.retained == st.retained && next.gcFloor == st.gcFloor
    && (forall s :: s in st.slots ==> s in next.slots)
    && (forall s :: s in next.slots ==> (s in st.slots && next.slots[s] == st.slots[s]) || Driven(next, s, now))
    && UnassignedIds(next.pool) <= UnassignedIds(st.pool)
  }

  /** One slot moved, or appeared. */
  ghost predicate OneMoved(st: State, next: State, slot: Slot) {
    slot in next.slots && next.slots == st.slots[slot := next.slots[slot]]
  }

  lemma OpensSame(st: State, next: State, now: nat)
    requires next.slots == st.slots && next.contig == st.contig && next.retained == st.retained
      && next.gcFloor == st.gcFloor
    requires next.pool == st.pool
    ensures OpensMore(st, next, now)
  {
  }

  lemma OneMovedTwice(a: State, b: State, c: State, slot: Slot)
    requires OneMoved(a, b, slot) && OneMoved(b, c, slot)
    ensures OneMoved(a, c, slot)
  {
  }

  lemma OpensTwice(a: State, b: State, c: State, now: nat)
    requires OpensMore(a, b, now) && OpensMore(b, c, now)
    ensures OpensMore(a, c, now)
  {
    forall s | s in c.slots ensures (s in a.slots && c.slots[s] == a.slots[s]) || Driven(c, s, now) {
      assert (s in b.slots && c.slots[s] == b.slots[s]) || Driven(c, s, now);
      if s in b.slots && c.slots[s] == b.slots[s] {
        assert (s in a.slots && b.slots[s] == a.slots[s]) || Driven(b, s, now);
      }
    }
  }

  lemma SweptSame(cfg: Config, st: State, next: State)
    requires Swept(cfg, st) && next.contig == st.contig && next.retained == st.retained
    ensures Swept(cfg, next)
  {
  }

  // ---- driving in a group of several ----

  /** A proposer about to be driven has counted nothing, or its own reply already. */
  ghost predicate DriveReady(cfg: Config, run: RunState) {
    run.replyCount == 0 || (cfg.me < |run.replied| && run.replied[cfg.me])
  }

  /** With more than one recorder to wait for, our own answer never decides: it is counted,
      or it takes the proposer to the later step our recorder is at. */
  lemma OwnFold(run: RunState, seat: Seat, now: nat, draws: seq<Draw>, replyStep: nat, first: Proposal,
        priorAgg: Option<Proposal>)
    requires seat.Valid() && seat.N() > 1 && Fits(run, seat.N()) && |draws| == seat.N() && replyStep >= run.step
    requires run.replyCount == 0 || run.replied[seat.idx]
    ensures
      var (after, reaction) := FoldReply(run, seat, now, draws, seat.idx, run.step, replyStep, first, priorAgg);
      && !reaction.Choose?
      && (reaction.Resend? ==>
        after.step == replyStep > run.step && after.needsSend && after.replyCount == 0 && after.sentAt == now)
      && (reaction.Quiet? ==>
            && seat.idx < |after.replied| && after.replied[seat.idx]
            && after.needsSend == run.needsSend && after.sentAt == run.sentAt)
  {
    hide Types.Max, StepComplete;
  }

  /** How many passes the drive loop may still take. */
  function PassesLeft(st: State, slot: Slot): nat {
    if slot in st.slots && st.slots[slot].proposer.Running? && st.slots[slot].proposer.run.needsSend then
      if st.slots[slot].recorder.Open? && st.slots[slot].recorder.isr.step > st.slots[slot].proposer.run.step then 2
        else 1
    else 0
  }

  /** Driving moved one proposer, at `now`, and nothing else. */
  ghost predicate DroveOnly(cfg: Config, st: State, next: State, slot: Slot, now: nat) {
    && next.contig == st.contig && next.retained == st.retained && next.gcFloor == st.gcFloor && SamePool(st, next)
    && next.pendingSince == st.pendingSince && next.maxOpen == st.maxOpen
    && slot in next.slots && next.slots == st.slots[slot := next.slots[slot]]
    && next.slots[slot].recorder.Open? && next.slots[slot].proposer.Running?
    && var run := next.slots[slot].proposer.run;
    && run.sentAt == now && DriveReady(cfg, run) && (run.needsSend || RestsAt(cfg, next, slot))
  }

  lemma DroveTwice(cfg: Config, a: State, b: State, c: State, slot: Slot, now: nat)
    requires DroveOnly(cfg, a, b, slot, now) && DroveOnly(cfg, b, c, slot, now)
    ensures DroveOnly(cfg, a, c, slot, now)
  {
  }

  lemma SenderHere(cfg: Config, st: State, slot: Slot)
    requires CanDrive(cfg, st, slot)
    ensures slot in st.slots && st.slots[slot].proposer.Running? && st.slots[slot].proposer.run.needsSend
  {
  }

  lemma DroveIsReady(cfg: Config, st: State, next: State, slot: Slot, now: nat)
    requires CanDrive(cfg, st, slot) && DriveReady(cfg, st.slots[slot].proposer.run)
    requires next == st || DroveOnly(cfg, st, next, slot, now)
    ensures slot in next.slots && next.slots[slot].proposer.Running? && DriveReady(cfg, next.slots[slot].proposer.run)
  {
  }

  lemma StillRuns(cfg: Config, st: State, next: State, slot: Slot, now: nat)
    requires DroveOnly(cfg, st, next, slot, now)
    ensures slot in next.slots && next.slots[slot].proposer.Running?
  {
  }

  /** Once the step is sent, the replica is at rest again. */
  lemma DroveToRest(cfg: Config, st: State, next: State, slot: Slot, now: nat)
    requires AtRestBut(cfg, st, slot) && Swept(cfg, st) && slot > st.contig
    requires DroveOnly(cfg, st, next, slot, now) && !next.slots[slot].proposer.run.needsSend
    ensures AtRest(cfg, next) && Swept(cfg, next) && OpensMore(st, next, now) && Driven(next, slot, now)
    ensures SamePool(st, next) && next.pendingSince == st.pendingSince && next.maxOpen == st.maxOpen
      && OneMoved(st, next, slot)
  {
    RestOne(cfg, st, next, slot);
    SweptSame(cfg, st, next);
  }

  /** A running proposer that is asked to send can be driven. */
  lemma CanDriveHere(cfg: Config, rng: Rng, trail: seq<Micro>, st: State, slot: Slot)
    requires Ran(cfg, rng, trail, st) && slot in st.slots && st.slots[slot].proposer.Running?
      && st.slots[slot].proposer.run.needsSend
    ensures CanDrive(cfg, st, slot)
  {
    hide Ran, StorageOk, PoolOk;
    RanStorage(cfg, rng, trail, st);
    Counters(cfg, st);
    SlotFacts(cfg, st, slot);
  }

  lemma OwnRecordAdvances(cfg: Config, st: State, slot: Slot, now: nat)
    requires CanDrive(cfg, st, slot)
    ensures
      var before := st.slots[slot];
      var recorded := OwnRecord(cfg, st, slot, now).slots[slot];
      && recorded.proposer.run == Consensus.SetSend(before.proposer.run, false, now)
      && recorded.recorder.isr.step ==
        (if before.recorder.isr.step > before.proposer.run.step then before.recorder.isr.step
        else before.proposer.run.step)
    ensures OwnRecord(cfg, st, slot, now).drawn == st.drawn
  {
    hide Consensus.HistRecord;
  }

  /** One pass: the proposer is left waiting with its own reply counted, or one catch-up to
      our own recorder further; the loop ends after at most two. */
  lemma DrivePassMany(cfg: Config, rng: Rng, st: State, slot: Slot, now: nat)
    requires cfg.N() > 1 && CanDrive(cfg, st, slot) && DriveReady(cfg, st.slots[slot].proposer.run)
    ensures !DriveFold(cfg, rng, st, slot, now).1.Choose?
    ensures
      var next := DriveAt(cfg, rng, st, slot, now);
      DroveOnly(cfg, st, next, slot, now) && PassesLeft(next, slot) < PassesLeft(st, slot)
  {
    hide OwnRecord, FoldReply, DriveAt, ToOthers, Kept, Moved, DroveOnly;
    DriveResult(cfg, rng, st, slot, now);
    OwnRecordAdvances(cfg, st, slot, now);
    var recorded := OwnRecord(cfg, st, slot, now);
    var summary := Summarize(recorded.slots[slot].recorder.isr);
    OwnFold(recorded.slots[slot].proposer.run, cfg.MySeat(), now, DrawsAt(rng, recorded.drawn, cfg.N()),
      summary.step, summary.first, summary.priorAgg);
    var (run, reaction) := DriveFold(cfg, rng, st, slot, now);
    if reaction.Resend? {
      StoredDrove(cfg, st, recorded, Moved(cfg, recorded, slot, run), slot, now);
    } else {
      var sends := ToOthers(cfg, recorded.contig, RecordTo(slot, run));
      StoredDrove(cfg, st, recorded, Emit(Kept(recorded, slot, run), sends), slot, now);
    }
  }

  lemma StoredDrove(cfg: Config, st: State, recorded: State, next: State, slot: Slot, now: nat)
    requires OnlySlot(st, recorded, slot) && SamePool(st, recorded) && recorded.maxOpen == st.maxOpen
    requires slot in next.slots && next.slots == recorded.slots[slot := next.slots[slot]] && SamePool(recorded, next)
    requires next.contig == recorded.contig && next.retained == recorded.retained && next.gcFloor == recorded.gcFloor
    requires next.pendingSince == recorded.pendingSince && next.maxOpen == recorded.maxOpen
    requires next.slots[slot].recorder.Open? && next.slots[slot].proposer.Running?
    requires
      var run := next.slots[slot].proposer.run;
      run.sentAt == now && DriveReady(cfg, run) && (run.needsSend || RestsAt(cfg, next, slot))
    ensures DroveOnly(cfg, st, next, slot, now)
  {
  }

  // ---- driving alone ----

  /** In a group of one, nothing is ahead of the frontier between calls. */
  ghost predicate NoneAhead(st: State) {
    st.maxOpen <= st.contig && forall s :: s in st.slots ==> s <= st.contig
  }

  /** Only the next slot to deliver is open. */
  ghost predicate OnlyAhead(st: State, slot: Slot) {
    slot == st.contig + 1 && st.maxOpen <= slot && forall s :: s in st.slots ==> s <= st.contig || s == slot
  }

  /** Everything of ours that rides in the slot is in the value decided for it. */
  ghost predicate NoneLose(pool: map<CommandId, PoolEntry>, slot: Slot, cmds: seq<Command>) {
    forall id :: id in pool && pool[id].proposedIn == Some(slot) ==> Rides(cmds, id)
  }

  lemma NoneReleased(pool: map<CommandId, PoolEntry>, slot: Slot, cmds: seq<Command>)
    requires NoneLose(pool, slot, cmds)
    ensures Release(pool, slot, cmds) == pool
  {
    hide Rides;
  }

  lemma SoloDelivered(cfg: Config, st: State, slot: Slot, value: Bytes, mine: bool, now: nat, next: State)
    requires OnlyAhead(st, slot) && cfg.me < |cfg.ids| && Shrinks(Install(cfg, st, slot, value, mine, now), next)
      && next.contig >= slot
    ensures NoneAhead(next)
  {
    hide Install;
    InstallFields(cfg, st, slot, value, mine, now);
  }

  lemma SoloKeepsIds(cfg: Config, st: State, slot: Slot, value: Bytes, mine: bool, now: nat, next: State)
    requires NoneLose(st.pool, slot, Commands(value)) && cfg.me < |cfg.ids|
      && Shrinks(Install(cfg, st, slot, value, mine, now), next)
    ensures UnassignedIds(next.pool) <= UnassignedIds(st.pool)
  {
    hide Install, Commands;
    InstallFields(cfg, st, slot, value, mine, now);
    NoneReleased(st.pool, slot, Commands(value));
  }

  /** The leader alone, just activated on a fresh register. */
  ghost predicate JustOpened(st: State, slot: Slot, value: Bytes) {
    && slot in st.slots && st.slots[slot].recorder == Open(Fresh) && st.slots[slot].proposer.Running?
    && var run := st.slots[slot].proposer.run;
    && run.step == 4 && run.priorities == [] && run.proposal.priority == PRIORITY_H && run.proposal.value == value
    && run.needsSend && run.replyCount == 0 && run.replied == [false] && run.bestFirst.None? && run.allFirstHigh
  }

  /** Alone, the first pass decides the value the proposer was opened with. */
  lemma DrivePassAlone(cfg: Config, rng: Rng, st: State, slot: Slot, value: Bytes, now: nat)
    requires cfg.N() == 1 && cfg.me == 0 && CanDrive(cfg, st, slot) && JustOpened(st, slot, value)
    ensures DriveFold(cfg, rng, st, slot, now).1 == Choose(value)
  {
    hide Consensus.HistRecord;
  }

  // ---- opening a slot ----

  /** A group of one may open only the next slot, on a fresh register, with nothing of ours
      riding there yet. */
  ghost predicate SoloReady(st: State, slot: Slot) {
    && slot == st.contig + 1 && st.maxOpen <= st.contig && (forall s :: s in st.slots ==> s <= st.contig || s == slot)
    && (slot in st.slots ==> st.slots[slot].recorder == Open(Fresh))
    && (slot !in st.slots ==> slot !in st.log)
    && forall id :: id in st.pool ==> st.pool[id].proposedIn != Some(slot)
  }

  lemma OpenFields(cfg: Config, rng: Rng, st: State, slot: Slot, cmds: seq<Command>, asLeader: bool, now: nat)
    requires cfg.me < |cfg.ids|
    ensures
      var next := OpenSlot(cfg, rng, st, slot, cmds, asLeader, now);
      var run := Proposer.Start(Batch.BatchBytes(cmds), cfg.ids[cfg.me], cfg.me, cfg.N(), cfg.IsLeader(), now,
        DrawsAt(rng, st.drawn, cfg.N()));
      && next.slots == st.slots[slot := SlotOr(st, slot, now).(recorder := NodeOf(st, slot).recorder,
        proposer := Running(run))]
      && next.pool == Assign(st.pool, cmds, slot) && next.maxOpen == (if asLeader then slot else st.maxOpen)
      && next.drawn == (if cfg.IsLeader() then st.drawn else st.drawn + cfg.N())
      && next.contig == st.contig && next.retained == st.retained && next.gcFloor == st.gcFloor
        && next.peerAcked == st.peerAcked
      && next.dedup == st.dedup && next.nextSeq == st.nextSeq && next.pendingSince == st.pendingSince
        && next.actions == st.actions
      && next.learning == st.learning && next.learnAttempts == st.learnAttempts && next.lastPing == st.lastPing
      && next.log == st.log
  {
    hide Assign, NodeOf, SlotOr, Proposer.Start, DrawsAt;
  }

  lemma StartIs(value: Bytes, me: ReplicaId, meIdx: nat, n: nat, leader: bool, now: nat, draws: seq<Draw>)
    requires meIdx < n == |draws|
    ensures
      var run := Proposer.Start(value, me, meIdx, n, leader, now, draws);
      && run.step == 4 && run.needsSend && run.replyCount == 0 && run.sentAt == now && run.replied == NoReplies(n)
        && run.proposal.value == value
      && (run.priorities == [] || |run.priorities| == n) && run.bestFirst.None? && run.allFirstHigh
      && (leader ==> run.priorities == [] && run.proposal.priority == PRIORITY_H)
  {
  }

  lemma AssignedIds(pool: map<CommandId, PoolEntry>, cmds: seq<Command>, slot: Slot)
    ensures UnassignedIds(Assign(pool, cmds, slot)) <= UnassignedIds(pool)
    ensures forall k :: 0 <= k < |cmds| && cmds[k].id in pool ==> cmds[k].id !in UnassignedIds(Assign(pool, cmds, slot))
  {
    forall k | 0 <= k < |cmds| && cmds[k].id in pool ensures cmds[k].id !in UnassignedIds(Assign(pool, cmds, slot)) {
      assert Rides(cmds, cmds[k].id);
    }
  }

  /** An opened slot is ready to be driven. */
  lemma OpenedCanDrive(cfg: Config, rng: Rng, st: State, slot: Slot, cmds: seq<Command>, asLeader: bool, now: nat)
    requires StorageOk(cfg, st) && LogOk(st) && CanOpen(cfg, st, slot, cmds, asLeader)
    ensures
      var next := OpenSlot(cfg, rng, st, slot, cmds, asLeader, now);
      && CanDrive(cfg, next, slot) && DriveReady(cfg, next.slots[slot].proposer.run) && Driven(next, slot, now)
  {
    hide OpenSlot, Proposer.Start, NodeOf, Assign, Top, DrawsAt, LogOk;
    OpenFields(cfg, rng, st, slot, cmds, asLeader, now);
    Counters(cfg, st);
    StartIs(Batch.BatchBytes(cmds), cfg.ids[cfg.me], cfg.me, cfg.N(), cfg.IsLeader(), now,
      DrawsAt(rng, st.drawn, cfg.N()));
    OpenedRecorder(cfg, st, slot, cmds, asLeader);
  }

  lemma OpenedRecorder(cfg: Config, st: State, slot: Slot, cmds: seq<Command>, asLeader: bool)
    requires StorageOk(cfg, st) && CanOpen(cfg, st, slot, cmds, asLeader)
    requires LogOk(st)
    ensures NodeOf(st, slot).recorder.Open? && NodeOf(st, slot).recorder.isr.WellFormed()
    ensures slot !in st.slots ==> slot !in st.log
  {
    if slot in st.slots {
      SlotFacts(cfg, st, slot);
    } else {
      assert slot !in st.retained;
    }
  }

  lemma OpenRests(cfg: Config, rng: Rng, st: State, slot: Slot, cmds: seq<Command>, asLeader: bool, now: nat)
    requires AtRest(cfg, st) && Swept(cfg, st) && slot > st.contig && cfg.me < |cfg.ids|
    ensures
      var next := OpenSlot(cfg, rng, st, slot, cmds, asLeader, now);
      AtRestBut(cfg, next, slot) && Swept(cfg, next) && OpensMore(st, next, now) && OneMoved(st, next, slot)
  {
    hide OpenSlot, Proposer.Start, NodeOf, Assign, DrawsAt, RestsAt, Swept;
    OpenFields(cfg, rng, st, slot, cmds, asLeader, now);
    var next := OpenSlot(cfg, rng, st, slot, cmds, asLeader, now);
    StartIs(Batch.BatchBytes(cmds), cfg.ids[cfg.me], cfg.me, cfg.N(), cfg.IsLeader(), now,
      DrawsAt(rng, st.drawn, cfg.N()));
    RestOne(cfg, st, next, slot);
    SweptSame(cfg, st, next);
    AssignedIds(st.pool, cmds, slot);
  }

  /** Alone, an opened slot decides its own batch, and nothing that rides in it loses. */
  lemma OpenAlone(cfg: Config, rng: Rng, st: State, slot: Slot, cmds: seq<Command>, asLeader: bool, now: nat)
    requires cfg.Valid() && cfg.N() == 1 && SoloReady(st, slot)
    ensures
      var next := OpenSlot(cfg, rng, st, slot, cmds, asLeader, now);
      && JustOpened(next, slot, Batch.BatchBytes(cmds)) && OnlyAhead(next, slot) && NoneLose(next.pool, slot, cmds)
  {
    hide OpenSlot, Proposer.Start, DrawsAt, Rides, Batch.BatchBytes;
    OpenFields(cfg, rng, st, slot, cmds, asLeader, now);
    StartIs(Batch.BatchBytes(cmds), cfg.ids[cfg.me], cfg.me, cfg.N(), cfg.IsLeader(), now,
      DrawsAt(rng, st.drawn, cfg.N()));
    assert NoReplies(1) == [false];
  }

  /** Batches taken from the pool fit the format. */
  lemma TakenFit(cfg: Config, st: State, cmds: seq<Command>)
    requires PoolOk(cfg, st) && Takeable(cfg, st, cmds)
    ensures Batch.CommandsFit(cmds)
  {
    hide Known, Top, AllTight, OwnKept, InWindow;
    Batch.EncodedSize(cmds);
    forall k | 0 <= k < |cmds| ensures Batch.CommandFits(cmds[k]) {
      assert Eligible(st, cmds[k].id);
      assert cmds[k].id in st.pool;
    }
  }

  // ---- opening as many slots as the pipeline allows ----

  /** Our running proposers ahead of the frontier. */
  ghost function RunningSlots(st: State): set<Slot> {
    set s | s in st.slots && s > st.contig && st.slots[s].proposer.Running?
  }

  /** The leader leaves batchable work waiting only for the pipeline. */
  ghost predicate Saturated(cfg: Config, st: State) {
    |RunningSlots(st)| >= cfg.pipeline || Top(st) + 1 > st.contig + cfg.pipeline || NoneEligible(st)
  }

  /** A leader has as many proposers running as the pipeline allows, or knows of a slot as far
      ahead as it may open, or every command it holds is in a proposal or more than 1024
      sequence numbers past what is delivered of its origin. */
  ghost predicate NoRoom(cfg: Config, st: State) {
    || |set s | s in st.slots && s > st.contig && st.slots[s].proposer.Running?| >= cfg.pipeline
    || st.maxOpen >= st.contig + cfg.pipeline
    || (exists s :: s in st.slots && s >= st.contig + cfg.pipeline)
    || forall id :: id in st.pool ==> HeldBack(st, id)
  }

  predicate HeldBack(st: State, id: CommandId)
    requires id in st.pool
  {
    var mark := if (id.origin, id.boot) in st.dedup then st.dedup[(id.origin, id.boot)].highWater else 0;
    st.pool[id].proposedIn.Some? || id.seqno > mark + 1024
  }

  lemma SaturatedIs(cfg: Config, st: State)
    requires cfg.pipeline >= 1
    ensures Saturated(cfg, st) <==> NoRoom(cfg, st)
  {
    assert RunningSlots(st) == set s | s in st.slots && s > st.contig && st.slots[s].proposer.Running?;
    if Top(st) + 1 > st.contig + cfg.pipeline {
      assert Top(st) >= st.contig + cfg.pipeline;
    }
    if st.maxOpen >= st.contig + cfg.pipeline {
      assert Top(st) >= st.maxOpen;
    }
    forall id | id in st.pool ensures Eligible(st, id) <==> !HeldBack(st, id) {
    }
  }

  lemma SaturatedMeans(cfg: Config, st: State)
    ensures Saturated(cfg, st) <==>
      |RunningSlots(st)| >= cfg.pipeline || Top(st) + 1 > st.contig + cfg.pipeline || NoneEligible(st)
  {
  }

  /** A full batch leaves no batchable command behind but those after all it takes, and takes no
      other. */
  lemma FullBatchTakes(cfg: Config, st: State, batch: seq<Command>, id: CommandId)
    requires FullBatch(cfg, st, batch)
    ensures Rides(batch, id) ==> id in st.pool && !HeldBack(st, id)
    ensures id in st.pool && !HeldBack(st, id) && !Rides(batch, id) ==>
      batch != [] && forall k :: 0 <= k < |batch| ==> IdLess(batch[k].id, id)
  {
    hide IdLess;
    var order :| InOrder(order, st.pool) && IsFill(cfg, EligibleOf(st, order), batch);
    var all := EligibleOf(st, order);
    if k: nat :| k < |batch| && batch[k].id == id {
      EligibleAre(st, order, k);
    } else if id in st.pool && !HeldBack(st, id) {
      EligibleAll(st, order, id);
      var n: nat :| n < |all| && all[n].id == id;
      forall k: nat | k < |batch| ensures IdLess(batch[k].id, id) {
        assert batch[k] == all[k];
        EligibleInOrder(st, order, k, n);
      }
    }
  }

  lemma SomeEligible(st: State, id: CommandId)
    requires Eligible(st, id)
    ensures !NoneEligible(st)
  {
  }

  /** Driving more proposers leaves no more room in the pipeline. */
  lemma SaturatedStays(cfg: Config, st: State, next: State, now: nat)
    requires Saturated(cfg, st) && OpensMore(st, next, now) && SamePool(st, next) && next.maxOpen == st.maxOpen
    ensures Saturated(cfg, next)
  {
    assert RunningSlots(st) <= RunningSlots(next);
    ConsensusInvariant.Subset(RunningSlots(st), RunningSlots(next));
    assert Top(st) <= Top(next);
    forall id ensures Eligible(st, id) == Eligible(next, id) {
    }
  }

  lemma SaturatedSame(cfg: Config, st: State, next: State)
    requires Saturated(cfg, st) && SameStorage(st, next) && SamePool(st, next)
    ensures Saturated(cfg, next)
  {
    assert RunningSlots(next) == RunningSlots(st);
    forall id ensures Eligible(st, id) == Eligible(next, id) {
    }
  }

  /** Alone and with nothing ahead, the next slot is ready to be opened. */
  lemma SoloFromTop(cfg: Config, rng: Rng, trail: seq<Micro>, st: State)
    requires Ran(cfg, rng, trail, st) && NoneAhead(st)
    ensures Top(st) == st.contig && SoloReady(st, st.contig + 1)
  {
    hide Ran, StorageOk, DeliveryOk, BudgetOk, OwnKept, Known, AllTight;
    RanSound(cfg, rng, trail, st);
    SoloNotLogged(cfg, st);
  }

  lemma SoloNotLogged(cfg: Config, st: State)
    requires StorageOk(cfg, st) && LogOk(st) && NoneAhead(st)
    ensures st.contig + 1 !in st.log
  {
  }

  /** Fields as they are once a batch is claimed for a slot, before its proposer starts. */
  function Claimed(st: State, cmds: seq<Command>, slot: Slot, asLeader: bool): State {
    st.(pool := Assign(st.pool, cmds, slot), maxOpen := if asLeader then slot else st.maxOpen)
  }

  lemma ClaimedIds(st: State, cmds: seq<Command>, slot: Slot)
    requires cmds != [] && forall k :: 0 <= k < |cmds| ==> Eligible(st, cmds[k].id)
    ensures UnassignedIds(Assign(st.pool, cmds, slot)) < UnassignedIds(st.pool)
  {
    AssignedIds(st.pool, cmds, slot);
    assert Eligible(st, cmds[0].id);
    assert cmds[0].id in UnassignedIds(st.pool);
  }

  lemma TakeableEligible(cfg: Config, st: State, cmds: seq<Command>)
    requires Takeable(cfg, st, cmds)
    ensures forall k :: 0 <= k < |cmds| ==> Eligible(st, cmds[k].id)
  {
  }

  lemma DecodedBatch(cmds: seq<Command>)
    requires Batch.CommandsFit(cmds)
    ensures Commands(Batch.BatchBytes(cmds)) == cmds
  {
    hide Batch.ParseBatch, Batch.BatchBytes;
    Batch.BatchRoundTrip(cmds);
  }

  /** What a slot's own record leaves for `DecideSlot` to start from. */
  lemma OwnRecordBase(cfg: Config, rng: Rng, trail: seq<Micro>, st: State, slot: Slot, now: nat)
    requires Ran(cfg, rng, trail, st) && CanDrive(cfg, st, slot) && AtRestBut(cfg, st, slot) && Swept(cfg, st)
    ensures
      var base := OwnRecord(cfg, st, slot, now);
      && StorageOk(cfg, base) && AtRestBut(cfg, base, slot) && Swept(cfg, base) && SamePool(st, base)
      && slot > base.gcFloor && slot in base.slots && base.slots[slot].recorder.Open?
        && (OnlyAhead(st, slot) ==> OnlyAhead(base, slot))
  {
    hide Ran, OwnRecord, StorageOk, LogOk, PoolOk, DeliveryOk, BudgetOk, RestsAt, Swept;
    RanSound(cfg, rng, trail, st);
    OwnRecordKeeps(cfg, st, slot, now);
    var base := OwnRecord(cfg, st, slot, now);
    RestOne(cfg, st, base, slot);
    SweptSame(cfg, st, base);
    SlotFacts(cfg, base, slot);
  }

  lemma NoneRunning(st: State)
    requires NoneAhead(st)
    ensures RunningSlots(st) == {}
  {
  }

  lemma OpenAhead(cfg: Config, st: State, slot: Slot, cmds: seq<Command>, asLeader: bool)
    requires StorageOk(cfg, st) && LogOk(st) && CanOpen(cfg, st, slot, cmds, asLeader)
    ensures slot > st.contig && (slot !in st.slots ==> slot !in st.log)
  {
    OpenedRecorder(cfg, st, slot, cmds, asLeader);
  }

  lemma OpenKeepsClaim(cfg: Config, rng: Rng, st: State, slot: Slot, cmds: seq<Command>, asLeader: bool, now: nat)
    requires cfg.me < |cfg.ids|
    ensures OpenSlot(cfg, rng, st, slot, cmds, asLeader, now).pool == Claimed(st, cmds, slot, asLeader).pool
    ensures OpenSlot(cfg, rng, st, slot, cmds, asLeader, now).pendingSince == st.pendingSince
    ensures OpenSlot(cfg, rng, st, slot, cmds, asLeader, now).contig == st.contig
  {
    hide OpenSlot;
    OpenFields(cfg, rng, st, slot, cmds, asLeader, now);
  }

  lemma RefreshLeads(cfg: Config, st: State, now: nat)
    ensures
      var next := Refreshed(st, now);
      && (AtRest(cfg, st) ==> AtRest(cfg, next)) && (Swept(cfg, st) ==> Swept(cfg, next))
        && (Saturated(cfg, st) ==> Saturated(cfg, next))
      && (NoneAhead(st) ==> NoneAhead(next)) && (NoneEligible(st) ==> NoneEligible(next)) && OpensMore(st, next, now)
        && next.pool == st.pool
  {
    hide Swept, AtRest;
    var next := Refreshed(st, now);
    if AtRest(cfg, st) {
      RestSame(cfg, st, next);
    }
    if Swept(cfg, st) {
      SweptSame(cfg, st, next);
    }
    assert RunningSlots(next) == RunningSlots(st);
    if NoneEligible(st) {
      forall id ensures !Eligible(next, id) {
        assert !Eligible(st, id);
      }
    }
  }

  // ---- between calls ----

  /** What every public call finds and leaves. */
  ghost predicate Ready(cfg: Config, st: State) {
    AtRest(cfg, st) && Swept(cfg, st) && PendingOk(st) && (cfg.N() == 1 ==> NoneAhead(st))
  }

  lemma InitialReady(cfg: Config)
    ensures Ready(cfg, Initial(cfg))
  {
  }

  lemma ReadySame(cfg: Config, st: State, next: State)
    requires Ready(cfg, st) && SameStorage(st, next) && SamePool(st, next) && next.pendingSince == st.pendingSince
    ensures Ready(cfg, next)
  {
    RestSame(cfg, st, next);
  }

  /** A reply is folded when our proposer for its slot is running and its first component
      can still be rebuilt. */
  predicate TakesReply(cfg: Config, st: State, from: nat, slot: Slot, reqStep: nat, first: ReplyFirst) {
    CanFold(cfg, st, slot) && from < cfg.N() && Reconstitute(st.slots[slot].proposer.run, from, reqStep, first).Some?
  }

  lemma TakesNone(cfg: Config, st: State, from: nat, slot: Slot, reqStep: nat, first: ReplyFirst)
    requires slot !in st.slots || !st.slots[slot].proposer.Running?
    ensures !TakesReply(cfg, st, from, slot, reqStep, first)
  {
  }

  /** A reply that would complete phase 3 with no prior aggregate at all. */
  predicate WouldStall(cfg: Config, st: State, from: nat, slot: Slot, reqStep: nat, step: nat, first: ReplyFirst,
        priorAgg: Option<Proposal>) {
    && CanFold(cfg, st, slot) && from < cfg.N()
    && match Reconstitute(st.slots[slot].proposer.run, from, reqStep, first)
       case None => false
       case Some(p) => Stalls(st.slots[slot].proposer.run, from, reqStep, step, p, priorAgg, cfg.Quorum())
  }

  predicate Stalls(run: RunState, from: nat, reqStep: nat, step: nat, first: Proposal, priorAgg: Option<Proposal>,
        quorum: nat)
    requires from < |run.replied|
  {
    var (folded, result) := Fold(run, from, reqStep, step, first, priorAgg, quorum);
    result.Quorum? && StepComplete(folded).1.Retry?
  }

  /** Another recorder's reply leaves a proposer at rest where it was, asks for a new step
      to be sent, or decides. */
  lemma OtherFold(run: RunState, seat: Seat, now: nat, draws: seq<Draw>, from: nat, reqStep: nat, step: nat,
        first: Proposal, priorAgg: Option<Proposal>)
    requires seat.Valid() && Fits(run, seat.N()) && |draws| == seat.N() && from < seat.N()
    requires !run.needsSend && run.replied[seat.idx]
      && !Stalls(run, from, reqStep, step, first, priorAgg, seat.Quorum())
    ensures
      var (after, reaction) := FoldReply(run, seat, now, draws, from, reqStep, step, first, priorAgg);
      && (reaction.Quiet? ==> !after.needsSend && seat.idx < |after.replied| && after.replied[seat.idx])
      && (reaction.Resend? ==> after.needsSend && after.replyCount == 0)
  {
    hide Types.Max;
  }

  lemma CanFoldHere(cfg: Config, rng: Rng, trail: seq<Micro>, st: State, slot: Slot)
    requires Ran(cfg, rng, trail, st) && slot in st.slots && st.slots[slot].proposer.Running?
    ensures CanFold(cfg, st, slot) && StorageOk(cfg, st) && st.slots[slot].recorder.Open? && slot > st.contig
      && slot > st.gcFloor
    ensures cfg.Valid()
  {
    hide Ran, StorageOk, PoolOk;
    RanStorage(cfg, rng, trail, st);
    Counters(cfg, st);
    SlotFacts(cfg, st, slot);
  }

  lemma FitsHere(cfg: Config, st: State, slot: Slot)
    requires CanFold(cfg, st, slot)
    ensures slot in st.slots && st.slots[slot].proposer.Running? && Fits(st.slots[slot].proposer.run, cfg.N())
      && cfg.me < cfg.N()
  {
  }

  lemma RestMeans(cfg: Config, st: State, slot: Slot)
    requires slot in st.slots && RestsAt(cfg, st, slot) && st.slots[slot].proposer.Running?
    ensures var run := st.slots[slot].proposer.run; !run.needsSend && cfg.me < |run.replied| && run.replied[cfg.me]
  {
  }

  lemma ButOne(cfg: Config, st: State, slot: Slot)
    requires AtRest(cfg, st)
    ensures AtRestBut(cfg, st, slot)
    ensures slot in st.slots ==> RestsAt(cfg, st, slot)
  {
  }

  /** The answer to a reply, by what its fold asks for. */
  lemma ReplyResult(cfg: Config, rng: Rng, st: State, slot: Slot, from: nat, reqStep: nat, step: nat,
        first: ReplyFirst, p: Proposal, priorAgg: Option<Proposal>, now: nat)
    requires CanFold(cfg, st, slot) && from < cfg.N()
      && Reconstitute(st.slots[slot].proposer.run, from, reqStep, first) == Some(p)
    ensures
      var (run, reaction) := FoldReply(st.slots[slot].proposer.run, cfg.MySeat(), now, DrawsAt(rng, st.drawn, cfg.N()),
          from, reqStep, step, p, priorAgg);
      var next := ReplyAt(cfg, rng, st, slot, from, reqStep, step, first, priorAgg, now);
      match reaction
      case Choose(value) => next == Install(cfg, st, slot, value, true, now)
      case Resend => next == Moved(cfg, st, slot, run)
      case Quiet => next == Kept(st, slot, run)
  {
    hide FoldReply, Install, Moved, Kept;
  }

  /** A moved proposer is ready to be driven; the rest of the replica is at rest. */
  lemma MovedIsReady(cfg: Config, st: State, slot: Slot, run: RunState)
    requires AtRest(cfg, st) && Swept(cfg, st) && slot in st.slots && run.replyCount == 0
    ensures
      var next := Moved(cfg, st, slot, run);
      && AtRestBut(cfg, next, slot) && Swept(cfg, next) && DriveReady(cfg, next.slots[slot].proposer.run)
      && next.contig == st.contig && SamePool(st, next) && next.pendingSince == st.pendingSince
  {
    hide Moved, RestsAt, Swept;
    var next := Moved(cfg, st, slot, run);
    ButOne(cfg, st, slot);
    RestOne(cfg, st, next, slot);
    SweptSame(cfg, st, next);
  }

  lemma KeptIsReady(cfg: Config, st: State, slot: Slot, run: RunState)
    requires Ready(cfg, st) && slot in st.slots && slot > st.contig && cfg.N() > 1
    requires !run.needsSend && cfg.me < |run.replied| && run.replied[cfg.me]
    ensures Ready(cfg, Kept(st, slot, run))
  {
    hide Kept, Swept;
    var next := Kept(st, slot, run);
    ButOne(cfg, st, slot);
    RestOne(cfg, st, next, slot);
    SweptSame(cfg, st, next);
    SamePending(st, next);
  }

  lemma DroveReady(cfg: Config, st: State, next: State)
    requires AtRest(cfg, next) && Swept(cfg, next) && cfg.N() > 1 && PendingOk(st) && SamePool(st, next)
      && next.pendingSince == st.pendingSince
    ensures Ready(cfg, next)
  {
    SamePending(st, next);
  }

  // ---- messages ----

  /** Premise on what others send: replies that complete a step stem from real recorders, so
      they never stall phase 3, and forwarded ids were given out by their origins. */
  ghost predicate HonestMessage(cfg: Config, st: State, from: nat, message: Wire.Message) {
    match message.payload
    case RecordReply(slot, reqStep, step, first, priorAgg) => !WouldStall(cfg, st, from, slot, reqStep, step, first,
      priorAgg)
    case Forward(commands) => AllKnown(cfg, st, commands)
    case _ => true
  }

  ghost predicate AllKnown(cfg: Config, st: State, commands: seq<Command>) {
    forall k :: 0 <= k < |commands| ==> Known(cfg, st, commands[k].id) && Batch.IdFits(commands[k].id)
  }

  /** What a message brings about besides steps of the replica's own accord: an invocation in
      reach of our window is recorded and answered, a reply to a step in progress is folded
      in, an acceptable decision is installed, forwarded commands are pooled, a request for
      decided values we hold is answered. */
  ghost predicate TookUp(cfg: Config, st: State, from: nat, message: Wire.Message, now: nat, before: seq<Micro>,
        after: seq<Micro>) {
    match message.payload
    case Record(slot, step, proposal) =>
      var inReach := step >= 4 && st.gcFloor < slot <= st.contig + 4 * cfg.pipeline + 64;
      LocalSince(before + if inReach then [RecordStep(from, slot, step, proposal, now)] else [], after)
    case RecordReply(slot, reqStep, step, first, priorAgg) =>
      var taken := TakesReply(cfg, st, from, slot, reqStep, first);
      LocalSince(before + if taken then [ReplyStep(from, slot, reqStep, step, first, priorAgg, now)] else [], after)
    case Decide(slot, value) =>
      LocalSince(before + if CanLearn(cfg, st, slot, value) then [LearnStep(slot, value, now)] else [], after)
    case Forward(commands) => LocalSince(before + TakesUp(cfg, st, commands, now), after)
    case Learn(fromSlot) =>
      if st.gcFloor < fromSlot <= st.contig then AnswersFrom(st, from, fromSlot, before, after)
        else LocalSince(before, after)
    case LearnReply(_, _) => before + [EndLearn] <= after
    case Ping => LocalSince(before, after)
  }

  ghost predicate AnswersFrom(st: State, from: nat, fromSlot: Slot, before: seq<Micro>, after: seq<Micro>) {
    && |before| < |after| && after[|before|].AnswerStep? && var values := after[|before|].values;
    && IsChunk(st, fromSlot, values) && LocalSince(before + [AnswerStep(from, fromSlot, values)], after)
  }

  lemma TookUpMore(cfg: Config, st: State, from: nat, message: Wire.Message, now: nat, before: seq<Micro>,
        mid: seq<Micro>, after: seq<Micro>)
    requires TookUp(cfg, st, from, message, now, before, mid) && LocalSince(mid, after)
    ensures TookUp(cfg, st, from, message, now, before, after)
  {
    hide TakesUp, CanLearn, TakesReply, IsChunk;
  }

  /** A run of decided values that starts no later than the slot due next is delivered to
      its end. */
  predicate CaughtUp(message: Wire.Message, contig: Slot, nextContig: Slot) {
    message.payload.LearnReply? ==>
      && nextContig >= contig
      && (message.payload.firstSlot <= contig + 1 ==>
        nextContig + 1 >= message.payload.firstSlot + |message.payload.values|)
  }

  /** Whoever is ahead has been asked, or someone was lately. */
  predicate Asking(cfg: Config, st: State, decided: Slot, now: nat) {
    decided > st.contig ==> st.learning.Some? && SaturatingSub(now, st.learning.value.1) < cfg.retransmitDelay
  }

  lemma HonestSame(cfg: Config, st: State, next: State, from: nat, message: Wire.Message)
    requires HonestMessage(cfg, st, from, message) && SameStorage(st, next) && next.nextSeq == st.nextSeq
    ensures HonestMessage(cfg, next, from, message)
  {
    hide Stalls, Reconstitute;
  }

  function SaturatingSub(a: nat, b: nat): nat {
    if a > b then a - b else 0
  }

  lemma RetainedRun(cfg: Config, st: State)
    requires StorageOk(cfg, st)
    ensures forall s :: st.gcFloor < s <= st.contig ==> s in st.retained
  {
  }

  lemma {:induction false} BytesOfAppend(values: seq<Bytes>, value: Bytes)
    ensures BytesOf(values + [value]) == BytesOf(values) + |value| && (values + [value])[..|values|] == values
  {
  }

  lemma PooledRests(cfg: Config, st: State, cmd: Command, now: nat)
    requires AtRest(cfg, st) && Swept(cfg, st)
    ensures AtRest(cfg, Pooled(st, cmd, now)) && Swept(cfg, Pooled(st, cmd, now))
      && Pooled(st, cmd, now).nextSeq == st.nextSeq
  {
    hide Swept, AtRest;
    RestSame(cfg, st, Pooled(st, cmd, now));
    SweptSame(cfg, st, Pooled(st, cmd, now));
  }

  /** A forwarded command that is not taken up: delivered or held already, too large, or
      beyond what the pool has room for. */
  ghost predicate Refused(cfg: Config, st: State, cmd: Command) {
    IsDelivered(st.dedup, cmd.id) || cmd.id in st.pool || |cmd.data| > MAX_COMMAND_BYTES
      || TotalCost(st.pool) + Cost(|cmd.data|) > cfg.maxPoolBytes
  }

  /** The steps that take up a forwarded list: each command in turn, unless it is refused. */
  ghost function TakesUp(cfg: Config, st: State, commands: seq<Command>, now: nat): seq<Micro>
    decreases |commands|
  {
    if commands == [] then []
    else if Refused(cfg, st, commands[0]) then TakesUp(cfg, st, commands[1..], now)
    else [PoolStep(commands[0], now)] + TakesUp(cfg, Pooled(st, commands[0], now), commands[1..], now)
  }

  lemma TakesNext(cfg: Config, st: State, commands: seq<Command>, k: nat, now: nat)
    requires k < |commands|
    ensures
      var cmd, rest := commands[k], commands[k + 1..];
      TakesUp(cfg, st, commands[k..], now) ==
      if Refused(cfg, st, cmd) then TakesUp(cfg, st, rest, now)
        else [PoolStep(cmd, now)] + TakesUp(cfg, Pooled(st, cmd, now), rest, now)
  {
    hide Refused, Pooled;
    assert commands[k..][1..] == commands[k + 1..];
  }

  lemma OneMoreStep(a: seq<Micro>, m: Micro, b: seq<Micro>)
    ensures a + [m] + b == a + ([m] + b)
  {
  }

  /** What the commands of a list would cost. */
  function CostOf(commands: seq<Command>): nat {
    if commands == [] then 0 else Cost(|commands[0].data|) + CostOf(commands[1..])
  }

  ghost predicate TakenBy(steps: seq<Micro>, cmd: Command, now: nat) {
    exists k :: 0 <= k < |steps| && steps[k] == PoolStep(cmd, now)
  }

  lemma TakenLater(m: Micro, steps: seq<Micro>, cmd: Command, now: nat)
    requires TakenBy(steps, cmd, now)
    ensures TakenBy([m] + steps, cmd, now)
  {
    var k :| 0 <= k < |steps| && steps[k] == PoolStep(cmd, now);
    assert ([m] + steps)[k + 1] == PoolStep(cmd, now);
  }

  /** With room for the whole list, every command of it is taken up that is neither delivered
      nor held, is no repetition within the list, and is no larger than a command may be. */
  lemma {:induction false} TakesUpAll(cfg: Config, st: State, commands: seq<Command>, now: nat, k: nat)
    requires TotalCost(st.pool) + CostOf(commands) <= cfg.maxPoolBytes && k < |commands|
    requires !IsDelivered(st.dedup, commands[k].id) && commands[k].id !in st.pool
      && |commands[k].data| <= MAX_COMMAND_BYTES
    requires forall j :: 0 <= j < k ==> commands[j].id != commands[k].id
    ensures TakenBy(TakesUp(cfg, st, commands, now), commands[k], now)
    decreases |commands|
  {
    hide TotalCost, IsDelivered;
    var first, rest := commands[0], commands[1..];
    var refused := Refused(cfg, st, first);
    if k == 0 {
      assert TakesUp(cfg, st, commands, now)[0] == PoolStep(first, now);
    } else {
      assert rest[k - 1] == commands[k];
      forall j | 0 <= j < k - 1 ensures rest[j].id != rest[k - 1].id {
        assert rest[j] == commands[j + 1];
      }
      if refused {
        TakesUpAll(cfg, st, rest, now, k - 1);
      } else {
        PooledCosts(cfg, st, first, now);
        TakesUpAll(cfg, Pooled(st, first, now), rest, now, k - 1);
        TakenLater(PoolStep(first, now), TakesUp(cfg, Pooled(st, first, now), rest, now), commands[k], now);
      }
    }
  }

  lemma PooledCosts(cfg: Config, st: State, cmd: Command, now: nat)
    requires !Refused(cfg, st, cmd)
    ensures TotalCost(Pooled(st, cmd, now).pool) == TotalCost(st.pool) + Cost(|cmd.data|)
    ensures Pooled(st, cmd, now).pool.Keys == st.pool.Keys + {cmd.id} && Pooled(st, cmd, now).dedup == st.dedup
  {
    hide TotalCost;
    TotalCostInsert(st.pool, cmd.id, NewEntry(cmd.data, now));
  }

  /** Nothing beyond a command of the list is taken up, and no command that must be refused. */
  lemma {:induction false} TakesUpOnly(cfg: Config, st: State, commands: seq<Command>, now: nat, i: nat)
    requires i < |TakesUp(cfg, st, commands, now)|
    ensures
      var m := TakesUp(cfg, st, commands, now)[i];
      && m.PoolStep? && m.now == now && m.cmd in commands && !IsDelivered(st.dedup, m.cmd.id)
      && m.cmd.id !in st.pool && |m.cmd.data| <= MAX_COMMAND_BYTES
    decreases |commands|
  {
    hide TotalCost, IsDelivered;
    if Refused(cfg, st, commands[0]) {
      TakesUpOnly(cfg, st, commands[1..], now, i);
    } else if i > 0 {
      TakesUpOnly(cfg, Pooled(st, commands[0], now), commands[1..], now, i - 1);
    }
  }

  lemma TakesUpNone(cfg: Config, st: State, now: nat)
    ensures TakesUp(cfg, st, [], now) == []
  {
  }

  /** The value of the slot due next is always taken up. */
  lemma DueIsLearned(cfg: Config, st: State, value: Bytes)
    requires StorageOk(cfg, st) && Swept(cfg, st) && cfg.N() > 1
    ensures CanLearn(cfg, st, st.contig + 1, value)
  {
    if st.contig + 1 in st.slots {
      assert SlotOk(cfg, st, st.contig + 1);
    }
  }

  lemma OpensContig(st: State, next: State, now: nat)
    requires OpensMore(st, next, now)
    ensures next.contig == st.contig
  {
  }

  lemma AllKnownSame(cfg: Config, st: State, next: State, commands: seq<Command>)
    requires AllKnown(cfg, st, commands) && next.nextSeq == st.nextSeq
    ensures AllKnown(cfg, next, commands)
  {
  }

  lemma SubmittedRests(cfg: Config, st: State, data: Bytes, now: nat)
    requires Ready(cfg, st) && cfg.me < |cfg.ids|
    ensures
      var next := Submitted(cfg, st, data, now);
      AtRest(cfg, next) && Swept(cfg, next) && (cfg.N() == 1 ==> NoneAhead(next))
  {
    hide Swept, Submitted, AtRest;
    RestSame(cfg, st, Submitted(cfg, st, data, now));
    SweptSame(cfg, st, Submitted(cfg, st, data, now));
  }

  lemma DistinctIds(cfg: Config, k: nat)
    requires cfg.Valid() && k < cfg.N()
    ensures forall j :: 0 <= j < cfg.N() && cfg.ids[j] == cfg.ids[k] ==> j == k
  {
  }

  lemma Several(cfg: Config, rng: Rng, trail: seq<Micro>, st: State, from: nat)
    requires Ran(cfg, rng, trail, st) && from < cfg.N() && from != cfg.me
    ensures cfg.N() > 1
  {
    hide Ran;
    Seated(cfg, rng, trail, st);
  }

  lemma RequestedReady(cfg: Config, st: State, to: nat, now: nat)
    requires Ready(cfg, st) && cfg.me < |cfg.ids|
    ensures Ready(cfg, Requested(cfg, st, to, now))
  {
    hide Ready;
    ReadySame(cfg, st, Requested(cfg, st, to, now));
  }

  lemma AnsweredReady(cfg: Config, st: State, to: nat, fromSlot: Slot, values: seq<Bytes>)
    requires Ready(cfg, st) && cfg.me < |cfg.ids|
    ensures Ready(cfg, Answered(cfg, st, to, fromSlot, values))
  {
    hide Ready;
    ReadySame(cfg, st, Answered(cfg, st, to, fromSlot, values));
  }

  lemma RequestCaused(from: nat, message: Wire.Message, before: seq<Micro>, after: seq<Micro>, now: nat)
    requires after == before || after == before + [RequestStep(from, now)]
    ensures CausedSince(from, message, before, after)
  {
  }

  lemma ReplyCaused(from: nat, message: Wire.Message, before: seq<Micro>, after: seq<Micro>, slot: Slot, reqStep: nat,
        step: nat, first: ReplyFirst, priorAgg: Option<Proposal>, now: nat)
    requires message.payload == Wire.RecordReply(slot, reqStep, step, first, priorAgg)
    requires after == before || LocalSince(before + [ReplyStep(from, slot, reqStep, step, first, priorAgg, now)], after)
    ensures CausedSince(from, message, before, after)
  {
    var m := ReplyStep(from, slot, reqStep, step, first, priorAgg, now);
    if after != before {
      CausedOne(from, message, before, m);
      LocalIsCaused(from, message, before + [m], after);
      CausedMore(from, message, before, before + [m], after);
    }
  }

  lemma ReadyShrinks(cfg: Config, st: State, next: State)
    requires Ready(cfg, st) && Shrinks(st, next) && SamePool(st, next) && next.contig == st.contig
      && next.pendingSince == st.pendingSince
    requires Collected(cfg, next)
    ensures Ready(cfg, next)
  {
    hide AtRest, Collected;
    RestShrinks(cfg, st, next);
    SweptAtLast(cfg, st, next);
    SamePending(st, next);
  }

  lemma RecordReady(cfg: Config, rng: Rng, trail: seq<Micro>, st: State, from: nat, slot: Slot, step: nat,
        proposal: Proposal, now: nat)
    requires Ran(cfg, rng, trail, st) && Ready(cfg, st) && CanRecord(cfg, st, from, slot, step) && cfg.N() > 1
    ensures Ready(cfg, RecordAt(cfg, st, from, slot, step, proposal, now))
  {
    hide Ran, Ready, RecordAt, Recorded, NodeOf;
    Seated(cfg, rng, trail, st);
    RecordAtIs(cfg, st, from, slot, step, proposal, now);
    var next := RecordAt(cfg, st, from, slot, step, proposal, now);
    if slot in st.slots && st.slots[slot].recorder.Decided? {
      ReadySame(cfg, st, next);
    } else {
      RecordedReady(cfg, st, slot, step, proposal, now);
      ReadySame(cfg, Recorded(st, slot, step, proposal, now), next);
    }
  }

  lemma RecordedReady(cfg: Config, st: State, slot: Slot, step: nat, proposal: Proposal, now: nat)
    requires Ready(cfg, st) && cfg.N() > 1 && step >= 4
    requires NodeOf(st, slot).recorder.Open? && NodeOf(st, slot).recorder.isr.WellFormed()
    ensures Ready(cfg, Recorded(st, slot, step, proposal, now))
  {
    hide Recorded, Swept;
    var next := Recorded(st, slot, step, proposal, now);
    ButOne(cfg, st, slot);
    RestOne(cfg, st, next, slot);
    SweptSame(cfg, st, next);
    SamePending(st, next);
  }

  /** The next id to give out is not held. */
  lemma NextIsFresh(cfg: Config, st: State)
    requires PoolOk(cfg, st)
    ensures OwnId(cfg, st.nextSeq + 1) !in st.pool
  {
    hide Top, AllTight, OwnKept;
  }

  lemma SubmittedFields(cfg: Config, st: State, data: Bytes, now: nat)
    requires cfg.me < |cfg.ids|
    ensures
      var next := Submitted(cfg, st, data, now);
      var id := OwnId(cfg, st.nextSeq + 1);
      && next.pool == st.pool[id := PoolEntry(data, None, now, if cfg.IsLeader() then 0 else 1)]
      && next.actions == st.actions + (if cfg.IsLeader() then []
        else [SendOne(cfg, st, 0, Wire.Forward([Command(id, data)]))])
      && next.pendingSince == st.pendingSince && next.learning == st.learning && next.learnAttempts == st.learnAttempts
      && next.lastPing == st.lastPing && next.drawn == st.drawn
  {
  }
}
