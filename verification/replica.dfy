/** One member of the group, as the program keeps and updates it. */
module Replica {
  import opened Types
  import opened Recorder
  import opened Proposer
  import opened SlotLogic
  import opened Pooling
  import opened ReplicaState
  import opened ReplicaInvariant
  import opened ReplicaRuns
  import opened ReplicaMoves
  import opened ReplicaRest
  import opened Deadlines
  import opened Emissions
  import opened Announcements
  import opened Wakeups
  import opened Delivery
  import opened Retention
  import opened Riding
  import Calls
  import Consensus
  import Wire
  import Batch

  datatype SubmitResult = Accepted(id: CommandId) | PoolFull | CommandTooLarge

  class Replica {
    const cfg: Config
    const rng: Rng
    var slots: map<Slot, SlotState>
    var contig: Slot
    var retained: map<Slot, Bytes>
    var retainedBytes: nat
    var gcFloor: Slot
    var peerAcked: seq<Slot>
    const pool: Pool
    const dedup: Dedup
    var nextSeq: nat
    var maxOpen: Slot
    var pendingSince: Option<nat>
    var learning: Option<(nat, nat)>
    var learnAttempts: nat
    var lastPing: nat
    var drawn: nat
    var actions: seq<Action>

    /** The steps taken so far, the state they lead to, and how many actions were drained,
        which only `PollAction` changes. */
    ghost var trail: seq<Micro>
    ghost var state: State
    ghost var polled: nat

    /** The fields hold what `st` says. */
    ghost predicate Tracks(st: State)
      reads this, pool, dedup
    {
      && slots == st.slots && contig == st.contig && retained == st.retained && gcFloor == st.gcFloor
        && peerAcked == st.peerAcked
      && pool.entries == st.pool && dedup.perOrigin == st.dedup && nextSeq == st.nextSeq && maxOpen == st.maxOpen
      && pendingSince == st.pendingSince && learning == st.learning && learnAttempts == st.learnAttempts
      && lastPing == st.lastPing && drawn == st.drawn
      && polled <= |st.actions| && actions == st.actions[polled..]
      && retainedBytes == TotalBytes(st.retained) && pool.Valid()
    }

    /** The fields are those of a state reached by possible steps. */
    ghost predicate Valid()
      reads this, pool, dedup
    {
      Ran(cfg, rng, trail, state) && Tracks(state)
    }

    constructor (cfg: Config, rng: Rng)
      requires cfg.Valid()
      ensures Valid() && Ready(cfg, state) && this.cfg == cfg && this.rng == rng && state == Initial(cfg) && trail == []
      ensures fresh(pool) && fresh(dedup)
    {
      this.cfg, this.rng := cfg, rng;
      slots, contig := map[], 0;
      retained, retainedBytes, gcFloor := map[], 0, 0;
      peerAcked := seq(cfg.N(), _ => 0);
      pool := new Pool();
      dedup := new Dedup();
      nextSeq, maxOpen := 0, 0;
      pendingSince, learning := None, None;
      learnAttempts, lastPing, drawn := 0, 0, 0;
      actions := [];
      trail, state, polled := [], Initial(cfg), 0;
      RanNothing(cfg, rng);
      InitialReady(cfg);
      assert Sizes(map[]) == map[];
    }

    /** The fields hold the outcome of one more step. */
    ghost method Advance(m: Micro, next: State)
      requires Ran(cfg, rng, trail + [m], next) && Tracks(next)
      modifies this`trail, this`state
      ensures Valid() && state == next && trail == old(trail) + [m]
    {
      hide Ran, TotalBytes, TotalCost;
      trail, state := trail + [m], next;
    }

    /** Drains the next pending effect. */
    method PollAction() returns (a: Option<Action>)
      requires Valid()
      modifies this`actions, this`polled
      ensures Valid()
      ensures old(actions) == [] ==> a == None && actions == []
      ensures old(actions) != [] ==> a == Some(old(actions)[0]) && actions == old(actions)[1..]
    {
      hide Ran;
      if actions == [] {
        return None;
      }
      a := Some(actions[0]);
      actions := actions[1..];
      polled := polled + 1;
    }

    method RefreshPending(now: nat)
      requires Valid()
      modifies this
      ensures polled == old(polled)
      ensures Valid() && state == Refreshed(old(state), now) && trail == old(trail) + [RefreshStep(now)]
      ensures if forall id :: id in pool.entries ==> pool.entries[id].proposedIn.Some? then pendingSince == None
        else pendingSince == if old(pendingSince).Some? then old(pendingSince) else Some(now)
    {
      hide Ran;
      RanRefresh(cfg, rng, trail, state, now);
      var any := pool.HasUnassigned();
      if any {
        if pendingSince.None? {
          pendingSince := Some(now);
        }
      } else {
        pendingSince := None;
      }
      trail, state := trail + [RefreshStep(now)], Refreshed(state, now);
    }

    method SendTo(to: nat, payload: Wire.Payload)
      requires cfg.me < |cfg.ids|
      modifies this`actions
      ensures actions == old(actions) + [Send(to, Wire.Message(cfg.ids[cfg.me], contig, payload))]
    {
      actions := actions + [Send(to, Wire.Message(cfg.ids[cfg.me], contig, payload))];
    }

    method NoteHeader(from: nat, decided: Slot)
      requires Valid() && from < |peerAcked| == cfg.N() && from != cfg.me
      modifies this`peerAcked, this`state, this`trail
      ensures Valid() && state == Acked(old(state), from, decided) && trail == old(trail) + [Header(from, decided)]
    {
      hide Ran;
      RanHeader(cfg, rng, trail, state, from, decided);
      if peerAcked[from] < decided {
        peerAcked := peerAcked[from := decided];
      }
      trail, state := trail + [Header(from, decided)], Acked(state, from, decided);
    }

    method NoteOwnFrontier()
      requires Valid() && cfg.me < |peerAcked| == cfg.N()
      modifies this`peerAcked, this`state, this`trail
      ensures Valid() && state == SelfAcked(cfg, old(state)) && trail == old(trail) + [AckSelf]
    {
      hide Ran;
      RanAckSelf(cfg, rng, trail, state);
      peerAcked := peerAcked[cfg.me := contig];
      trail, state := trail + [AckSelf], SelfAcked(cfg, state);
    }

    /** Marks a batch's commands delivered; those that were not are taken out of the pool
        and returned, in batch order. */
    method TakeUndelivered(batch: seq<Command>) returns (commands: seq<Command>)
      requires pool.Valid()
      modifies pool, dedup
      ensures pool.Valid() && pool.entries == Without(old(pool.entries), commands)
      ensures (dedup.perOrigin, commands) == Filter(old(dedup.perOrigin), batch)
    {
      hide Filter, Without, TotalCost;
      commands := [];
      FilterNone(dedup.perOrigin);
      WithoutNone(pool.entries);
      for i := 0 to |batch|
        invariant (dedup.perOrigin, commands) == Filter(old(dedup.perOrigin), batch[..i])
        invariant pool.entries == Without(old(pool.entries), commands) && pool.Valid()
      {
        FilterOne(old(dedup.perOrigin), batch, i);
        WithoutOne(old(pool.entries), commands, batch[i]);
        var isNew := dedup.Mark(batch[i].id);
        if isNew {
          pool.Remove(batch[i].id);
          commands := commands + [batch[i]];
        }
      }
      assert batch[..|batch|] == batch;
    }

    /** Delivers the next slot: its commands that were not delivered before, in batch order. */
    method DeliverOne()
      requires Valid() && contig + 1 in retained
      modifies this, pool, dedup
      ensures polled == old(polled)
      ensures Valid() && state == DeliverNext(old(state)) && trail == old(trail) + [DeliverStep]
    {
      hide Ran, Filter, Without, TotalBytes, TotalCost, Commands, Batch.ParseBatch;
      CommandsDecoded(retained[contig + 1]);
      RanDeliver(cfg, rng, trail, state);
      var decoded := Batch.DecodeBatch(retained[contig + 1]);
      var batch := decoded.GetOr([]);
      var commands := TakeUndelivered(batch);
      QueueGrows(state.actions, polled, [Deliver(contig + 1, commands)]);
      contig := contig + 1;
      actions := actions + [Deliver(contig, commands)];
      trail, state := trail + [DeliverStep], DeliverNext(state);
    }

    /** Drops the slot just above the floor and its retained value. */
    method RaiseFloor()
      requires retainedBytes == TotalBytes(retained)
      modifies this`gcFloor, this`retained, this`retainedBytes, this`slots
      ensures gcFloor == old(gcFloor) + 1 && retained == old(retained) - {gcFloor} && slots == old(slots) - {gcFloor}
      ensures retainedBytes == TotalBytes(retained)
    {
      hide TotalBytes;
      gcFloor := gcFloor + 1;
      if gcFloor in retained {
        BytesWithout(retained, gcFloor);
        retainedBytes := retainedBytes - |retained[gcFloor]|;
        retained := retained - {gcFloor};
      } else {
        assert retained - {gcFloor} == retained;
      }
      slots := slots - {gcFloor};
    }

    method FreeOne(ghost m: Micro)
      requires Valid() && Ran(cfg, rng, trail + [m], FreeNext(state))
      modifies this
      ensures polled == old(polled)
      ensures Valid() && state == FreeNext(old(state)) && trail == old(trail) + [m]
    {
      hide Ran, TotalBytes, TotalCost;
      RaiseFloor();
      trail, state := trail + [m], FreeNext(state);
    }

    /** The smallest retained slot. */
    method OldestRetained() returns (oldest: Option<Slot>)
      ensures oldest.None? ==> retained == map[]
      ensures oldest.Some? ==> oldest.value in retained && forall s :: s in retained ==> oldest.value <= s
    {
      oldest := None;
      var rest := retained.Keys;
      while rest != {}
        invariant rest <= retained.Keys
        invariant oldest.None? ==> rest == retained.Keys
        invariant oldest.Some? ==>
          oldest.value in retained && forall s :: s in retained ==> s in rest || oldest.value <= s
        decreases rest
      {
        var s :| s in rest;
        if oldest.None? || s < oldest.value {
          oldest := Some(s);
        }
        rest := rest - {s};
      }
    }

    /** Frees what every replica has acknowledged; past the retention budget, also the
        oldest delivered values. */
    method MaybeGc()
      requires Valid()
      modifies this
      ensures polled == old(polled)
      ensures Valid() && Shrinks(old(state), state) && SamePool(old(state), state)
      ensures LocalSince(old(trail), trail)
      ensures state.contig == old(state.contig) && state.pendingSince == old(state.pendingSince)
      ensures Collected(cfg, state) && FreedAcked(cfg, state) && state.learning == old(state.learning)
    {
      hide Ran, TotalBytes, TotalCost, Shrinks, SameStorage, StorageOk;
      Seated(cfg, rng, trail, state);
      NoteOwnFrontier();
      SameShrinks(old(state), state);
      FreeAcknowledged();
      ShrinksMore(old(state), SelfAcked(cfg, old(state)), state);
      ghost var freed := state;
      EvictPastBudget();
      ShrinksMore(old(state), freed, state);
    }

    method FreeAcknowledged()
      requires Valid() && cfg.me < |peerAcked| == cfg.N() && peerAcked[cfg.me] == contig
      modifies this
      ensures polled == old(polled)
      ensures Valid() && Shrinks(old(state), state) && SamePool(old(state), state)
      ensures LocalSince(old(trail), trail)
      ensures state.contig == old(state.contig) && state.pendingSince == old(state.pendingSince)
      ensures peerAcked == old(peerAcked) && Least(peerAcked) <= gcFloor && learning == old(learning)
    {
      hide Ran, TotalBytes, TotalCost, Shrinks, SameStorage, StorageOk;
      var floor := Least(peerAcked);
      SameShrinks(state, state);
      LocalNone(trail);
      while gcFloor < floor
        invariant polled == old(polled)
        invariant Valid() && Shrinks(old(state), state) && SamePool(old(state), state) && LocalSince(old(trail), trail)
        invariant contig == old(contig) && pendingSince == old(pendingSince) && peerAcked == old(peerAcked)
          && learning == old(learning)
        decreases floor - gcFloor
      {
        RanFree(cfg, rng, trail, state);
        FreeShrinks(state);
        ShrinksMore(old(state), state, FreeNext(state));
        FreeOne(FreeStep);
      }
    }

    method EvictPastBudget()
      requires Valid()
      modifies this
      ensures polled == old(polled)
      ensures Valid() && Shrinks(old(state), state) && SamePool(old(state), state)
      ensures LocalSince(old(trail), trail)
      ensures state.contig == old(state.contig) && state.pendingSince == old(state.pendingSince)
        && Collected(cfg, state)
      ensures peerAcked == old(peerAcked) && gcFloor >= old(gcFloor) && learning == old(learning)
    {
      hide Ran, TotalBytes, TotalCost, Shrinks, SameStorage, StorageOk;
      SameShrinks(state, state);
      LocalNone(trail);
      while retainedBytes > cfg.maxRetainedBytes
        invariant polled == old(polled)
        invariant Valid() && Shrinks(old(state), state) && SamePool(old(state), state) && LocalSince(old(trail), trail)
        invariant contig == old(contig) && pendingSince == old(pendingSince) && learning == old(learning)
        invariant peerAcked == old(peerAcked) && gcFloor >= old(gcFloor)
        decreases retained.Keys
      {
        var oldest := OldestRetained();
        if oldest.None? || oldest.value > contig {
          break;
        }
        RanStorage(cfg, rng, trail, state);
        OldestIsNext(cfg, state, oldest.value);
        RanEvict(cfg, rng, trail, state);
        FreeShrinks(state);
        ShrinksMore(old(state), state, FreeNext(state));
        FreeOne(EvictStep);
      }
    }

    method FinishDelivery(now: nat)
      requires Valid() && contig + 1 !in retained
      modifies this
      ensures polled == old(polled)
      ensures Valid() && Shrinks(old(state), state) && contig == old(contig) && Swept(cfg, state) && PendingOk(state)
      ensures LocalSince(old(trail), trail) && FreedAcked(cfg, state)
    {
      hide Ran, TotalBytes, TotalCost, Shrinks, SamePool, PendingOk, Swept, Collected, StorageOk, Refreshed,
        SelfAcked, FreedAcked;
      Seated(cfg, rng, trail, state);
      NoteOwnFrontier();
      SameShrinks(old(state), state);
      RefreshedIsPending(state, now);
      SameShrinks(state, Refreshed(state, now));
      ShrinksMore(old(state), state, Refreshed(state, now));
      RefreshPending(now);
      ghost var before := state;
      MaybeGc();
      ShrinksMore(old(state), before, state);
      SweptAtLast(cfg, before, state);
      SamePending(before, state);
    }

    /** Delivers every slot whose turn has come, in order, then frees what may go. */
    method TryDeliver(now: nat)
      requires Valid()
      modifies this, pool, dedup
      ensures polled == old(polled)
      ensures Valid() && Shrinks(old(state), state) && Swept(cfg, state) && PendingOk(state)
      ensures LocalSince(old(trail), trail) && FreedAcked(cfg, state)
      ensures old(state.contig + 1 in state.retained) ==> state.contig > old(state.contig)
    {
      hide Ran, TotalBytes, TotalCost, Shrinks, SameStorage, SamePool, DeliverNext, PendingOk, FreedAcked;
      ghost var top := LargestKey(retained.Keys, contig);
      SameShrinks(state, state);
      LocalNone(trail);
      while contig + 1 in retained
        invariant polled == old(polled)
        invariant Valid() && Shrinks(old(state), state) && retained == old(retained) && LocalSince(old(trail), trail)
        invariant contig >= old(contig)
          && (contig == old(contig) ==> old(contig) + 1 !in old(retained) || contig + 1 in retained)
        decreases top - contig
      {
        DeliverShrinks(state);
        DeliverMoves(state);
        ShrinksMore(old(state), state, DeliverNext(state));
        DeliverOne();
      }
      ghost var delivered := state;
      FinishDelivery(now);
      ShrinksMore(old(state), delivered, state);
    }

    // ---- recorder role ----

    /** A message to every other replica, in schedule order. */
    method Broadcast(payload: nat -> Wire.Payload)
      requires cfg.me < |cfg.ids|
      modifies this`actions
      ensures actions == old(actions) + ToOthers(cfg, contig, payload)
    {
      for idx := 0 to cfg.N()
        invariant actions == old(actions) + SendsBelow(cfg, contig, payload, idx)
      {
        if idx != cfg.me {
          SendTo(idx, payload(idx));
        }
      }
    }

    method OnRecord(now: nat, from: nat, slot: Slot, step: nat, proposal: Proposal)
      requires Valid() && from < cfg.N() && from != cfg.me
      modifies this
      ensures polled == old(polled)
      ensures Valid()
      ensures
        if slot <= old(gcFloor) || step < 4 || slot > old(contig) + cfg.AheadWindow()
          then state == old(state) && trail == old(trail)
        else
          && CanRecord(cfg, old(state), from, slot, step)
            && state == RecordAt(cfg, old(state), from, slot, step, proposal, now)
          && trail == old(trail) + [RecordStep(from, slot, step, proposal, now)]
          && RecordAnswered(old(state), state, from, slot, step, proposal)
    {
      hide Ran, Tracks, CanRecord, RecordAt, RecordAnswered;
      FloorsAre(state);
      if slot <= gcFloor || step < 4 {
        return;
      }
      if slot > contig + cfg.AheadWindow() {
        return;
      }
      CanRecordHere(cfg, rng, trail, state, from, slot, step);
      RanRecord(cfg, rng, trail, state, from, slot, step, proposal, now);
      RecordIsAnswered(cfg, state, from, slot, step, proposal, now);
      Respond(now, from, slot, step, proposal);
      Advance(RecordStep(from, slot, step, proposal, now), RecordAt(cfg, state, from, slot, step, proposal, now));
    }

    lemma FloorsAre(st: State)
      requires Tracks(st)
      ensures gcFloor == st.gcFloor && contig == st.contig
    {
    }

    /** A decided slot is answered with its decision, an open one with its register. */
    method Respond(now: nat, from: nat, slot: Slot, step: nat, proposal: Proposal)
      requires Tracks(state) && CanRecord(cfg, state, from, slot, step)
      modifies this`slots, this`actions
      ensures Tracks(RecordAt(cfg, state, from, slot, step, proposal, now))
    {
      hide TotalBytes, TotalCost, RecordAt, Recorded, NodeOf, AnswerFirst;
      RecordAtIs(cfg, state, from, slot, step, proposal, now);
      if slot in slots && slots[slot].recorder.Decided? {
        var decide := Wire.Decide(slot, slots[slot].recorder.value);
        QueueGrows(state.actions, polled, [SendOne(cfg, state, from, decide)]);
        SendTo(from, decide);
      } else {
        var reply := Answer(now, slot, step, proposal);
        QueueGrows(state.actions, polled, [SendOne(cfg, state, from, reply)]);
        SendTo(from, reply);
      }
    }

    /** An open recorder, created when the slot is new, takes the invocation; only a change
        counts as progress. */
    method Answer(now: nat, slot: Slot, step: nat, proposal: Proposal) returns (reply: Wire.Payload)
      requires Tracks(state) && step >= 4 && (slot !in state.slots ==> slot !in state.log)
      requires NodeOf(state, slot).recorder.Open? && NodeOf(state, slot).recorder.isr.WellFormed()
      modifies this`slots
      ensures
        var recorded := Recorded(state, slot, step, proposal, now);
        var summary := Summarize(recorded.slots[slot].recorder.isr);
        && Tracks(recorded)
        && reply == Wire.RecordReply(slot, step, summary.step, AnswerFirst(summary, step, proposal), summary.priorAgg)
    {
      hide TotalBytes, TotalCost, Recorder.Record, AnswerFirst, Recorded, NodeOf;
      RecordedIs(state, slot, step, proposal, now);
      ghost var recorded := Recorded(state, slot, step, proposal, now);
      var s := if slot in slots then slots[slot] else NewSlot(now);
      var after := Recorder.Record(s.recorder.isr, step, proposal);
      slots := slots[slot := s.(recorder := Open(after), lastProgress := if after != s.recorder.isr then now
        else s.lastProgress)];
      var summary := Summarize(after);
      reply := Wire.RecordReply(slot, step, summary.step, AnswerFirst(summary, step, proposal), summary.priorAgg);
    }

    // ---- proposer role ----

    /** Drives a proposer through one pass of its current step: records locally, folds our
        own recorder's answer in, and broadcasts unless that moved the proposer on. A pass
        that decides leaves the rest of the step to `DecideSlot`. */
    method DrivePass(now: nat, slot: Slot) returns (decided: Option<Bytes>)
      requires Valid() && CanDrive(cfg, state, slot)
      modifies this
      ensures polled == old(polled)
      ensures decided.None? ==>
        Valid() && state == DriveAt(cfg, rng, old(state), slot, now) && trail == old(trail) + [DriveStep(slot, now)]
      ensures decided.Some? <==> DriveFold(cfg, rng, old(state), slot, now).1.Choose?
      ensures decided.Some? ==>
        && DriveFold(cfg, rng, old(state), slot, now).1 == Choose(decided.value)
        && state == old(state) && trail == old(trail) && Tracks(OwnRecord(cfg, old(state), slot, now))
        && DriveAt(cfg, rng, old(state), slot, now) ==
          Install(cfg, OwnRecord(cfg, old(state), slot, now), slot, decided.value, true, now)
    {
      hide Ran, Tracks, DriveAt, DriveFold, Install, OwnRecord, Kept, Moved, ToOthers, Emit, CanDrive;
      Seated(cfg, rng, trail, state);
      RecordedSlotIn(cfg, state, slot, now);
      RanDrive(cfg, rng, trail, state, slot, now);
      DriveResult(cfg, rng, state, slot, now);
      ghost var next := DriveAt(cfg, rng, state, slot, now);
      ghost var recorded := OwnRecord(cfg, state, slot, now);
      var after, reaction := FoldOwn(now, slot);
      match reaction {
        case Choose(value) => return Some(value);
        case Resend =>
          StoreMoved(slot, after, recorded);
        case Quiet =>
          StoreAndSend(slot, after, recorded);
      }
      Advance(DriveStep(slot, now), next);
      return None;
    }

    /** The proposer's current step, recorded at our own recorder, and what its answer makes
        of the proposer. */
    method FoldOwn(now: nat, slot: Slot) returns (after: RunState, reaction: Reaction)
      requires Tracks(state) && CanDrive(cfg, state, slot)
      modifies this`slots
      ensures Tracks(OwnRecord(cfg, state, slot, now)) && (after, reaction) == DriveFold(cfg, rng, state, slot, now)
    {
      hide TotalBytes, TotalCost, Recorder.Record, Consensus.HistRecord, FoldReply;
      var s := slots[slot];
      var run := s.proposer.run.(needsSend := false, sentAt := now);
      var mine := ProposalFor(run.proposal, run.priorities, cfg.me);
      RecordKeepsWellFormed(s.recorder.isr, run.step, mine);
      var isr := Recorder.Record(s.recorder.isr, run.step, mine);
      slots := slots[slot := s.(recorder := Open(isr), proposer := Running(run))];
      var summary := Summarize(isr);
      var (folded, outcome) := FoldReply(run, cfg.MySeat(), now, DrawsAt(rng, drawn, cfg.N()),
          cfg.me, run.step, summary.step, summary.first, summary.priorAgg);
      return folded, outcome;
    }

    method StoreKept(slot: Slot, run: RunState, ghost st: State)
      requires Tracks(st) && slot in st.slots
      modifies this`slots
      ensures Tracks(Kept(st, slot, run))
    {
      hide TotalBytes, TotalCost;
      slots := slots[slot := slots[slot].(proposer := Running(run))];
    }

    method StoreAndSend(slot: Slot, run: RunState, ghost st: State)
      requires Tracks(st) && slot in st.slots && cfg.me < |cfg.ids|
      modifies this`slots, this`actions
      ensures Tracks(Emit(Kept(st, slot, run), ToOthers(cfg, st.contig, RecordTo(slot, run))))
    {
      hide TotalBytes, TotalCost, Kept, ToOthers;
      QueueGrows(st.actions, polled, ToOthers(cfg, contig, RecordTo(slot, run)));
      StoreKept(slot, run, st);
      Broadcast(RecordTo(slot, run));
    }

    method StoreMoved(slot: Slot, run: RunState, ghost st: State)
      requires Tracks(st) && slot in st.slots
      modifies this`slots, this`drawn
      ensures Tracks(Moved(cfg, st, slot, run))
    {
      hide TotalBytes, TotalCost, NodeOf;
      slots := slots[slot := slots[slot].(proposer := Running(run))];
      if Randomizes(run.step, cfg.IsLeader()) {
        drawn := drawn + cfg.N();
      }
    }

    // ---- decisions ----

    /** Commands of ours that rode in a slot but are not among the winners become
        re-batchable. */
    method ReleaseLosers(slot: Slot, winners: seq<Command>)
      requires pool.Valid()
      modifies pool
      ensures pool.Valid() && pool.entries == Release(old(pool.entries), slot, winners)
      ensures pool.entries.Keys == old(pool.entries).Keys
      ensures forall id :: id in pool.entries ==>
        var lost := old(pool.entries)[id].proposedIn == Some(slot) && forall k :: 0 <= k < |winners| ==>
          winners[k].id != id;
        pool.entries[id] == if lost then old(pool.entries)[id].(proposedIn := None) else old(pool.entries)[id]
    {
      hide TotalCost;
      var rest := pool.entries.Keys;
      while rest != {}
        invariant pool.entries.Keys == old(pool.entries).Keys && pool.bytes == old(pool.bytes)
        invariant rest <= pool.entries.Keys
        invariant forall id :: id in rest ==> pool.entries[id] == old(pool.entries)[id]
        invariant forall id :: id in pool.entries && id !in rest ==>
          pool.entries[id] == Release(old(pool.entries), slot, winners)[id]
        decreases rest
      {
        var id :| id in rest;
        if pool.entries[id].proposedIn == Some(slot) && !Rides(winners, id) {
          pool.entries := pool.entries[id := pool.entries[id].(proposedIn := None)];
        }
        rest := rest - {id};
      }
      TotalCostSame(old(pool.entries), pool.entries);
      assert pool.entries == Release(old(pool.entries), slot, winners);
    }

    method Retain(slot: Slot, value: Bytes)
      requires retainedBytes == TotalBytes(retained) && slot !in retained
      modifies this`retained, this`retainedBytes
      ensures retained == old(retained)[slot := value] && retainedBytes == TotalBytes(retained)
    {
      hide TotalBytes;
      BytesWith(retained, slot, value);
      if slot !in retained {
        retainedBytes := retainedBytes + |value|;
      }
      retained := retained[slot := value];
    }

    /** Installs a decided value: the slot settles, the value is retained, the others are
        told if the decision is ours, and our losing commands are released. */
    method InstallDecision(now: nat, slot: Slot, value: Bytes, isDecider: bool, ghost base: State, ghost m: Micro)
      requires Tracks(base) && slot !in base.retained && cfg.me < |cfg.ids|
      requires Ran(cfg, rng, trail + [m], Install(cfg, base, slot, value, isDecider, now))
      modifies this, pool
      ensures polled == old(polled)
      ensures Valid() && state == Install(cfg, base, slot, value, isDecider, now) && trail == old(trail) + [m]
    {
      hide Ran, Tracks, TotalBytes, TotalCost, Install, Release, ToOthers, Commands, SlotOr, NewSlot;
      StoreDecision(now, slot, value, isDecider, base);
      Advance(m, Install(cfg, base, slot, value, isDecider, now));
    }

    method StoreDecision(now: nat, slot: Slot, value: Bytes, isDecider: bool, ghost base: State)
      requires Tracks(base) && slot !in base.retained && cfg.me < |cfg.ids|
      modifies this`slots, this`retained, this`retainedBytes, this`actions, pool
      ensures Tracks(Install(cfg, base, slot, value, isDecider, now))
    {
      hide Ran, TotalBytes, TotalCost, Install, Release, ToOthers, Commands, Batch.ParseBatch, Rides, NodeOf;
      InstallFields(cfg, base, slot, value, isDecider, now);
      var s := if slot in slots then slots[slot] else NewSlot(now);
      slots := slots[slot := s.(recorder := RecorderSlot.Decided(value), proposer := Done)];
      Retain(slot, value);
      if isDecider {
        QueueGrows(base.actions, polled, ToOthers(cfg, contig, DecideTo(slot, value)));
        Broadcast(DecideTo(slot, value));
      }
      var decoded := Batch.DecodeBatch(value);
      CommandsDecoded(value);
      ReleaseLosers(slot, decoded.GetOr([]));
    }

    // ---- command pool ----

    /** The ids of the pool in ascending order, the order a sorted map is scanned in. */
    method SortedIds() returns (ids: seq<CommandId>)
      ensures InOrder(ids, pool.entries)
    {
      ids := [];
      var rest := pool.entries.Keys;
      while rest != {}
        invariant rest <= pool.entries.Keys
        invariant forall j, k :: 0 <= j < k < |ids| ==> IdLess(ids[j], ids[k])
        invariant forall k :: 0 <= k < |ids| ==> ids[k] in pool.entries
        invariant forall k, id :: 0 <= k < |ids| && id in rest ==> IdLess(ids[k], id)
        invariant forall id :: id in pool.entries ==> id in rest || id in ids
        decreases rest
      {
        var least := LeastId(rest);
        ids := ids + [least];
        rest := rest - {least};
      }
    }

    static method LeastId(s: set<CommandId>) returns (least: CommandId)
      requires s != {}
      ensures least in s && forall id :: id in s && id != least ==> IdLess(least, id)
    {
      least :| least in s;
      var rest := s - {least};
      while rest != {}
        invariant rest <= s && least in s
        invariant forall id :: id in s && id !in rest && id != least ==> IdLess(least, id)
        decreases rest
      {
        var id :| id in rest;
        if IdLess(id, least) {
          least := id;
        }
        rest := rest - {id};
      }
    }

    /** Claims unassigned pool commands for a slot, lowest id first, up to the batch limit. */
    method TakeUnassignedBatch(slot: Slot) returns (batch: seq<Command>, ghost order: seq<CommandId>)
      requires Tracks(state) && cfg.Valid()
      modifies pool
      ensures pool.Valid() && pool.entries == Assign(state.pool, batch, slot)
      ensures InOrder(order, state.pool) && IsFill(cfg, EligibleOf(state, order), batch)
      ensures Takeable(cfg, state, batch) && (batch == [] ==> NoneEligible(state))
    {
      hide TotalBytes, TotalCost;
      var ids := SortedIds();
      order := ids;
      batch := Fill(ids);
      FillTakes(cfg, state, ids, batch);
      AssignTo(batch, slot);
    }

    method Fill(ids: seq<CommandId>) returns (batch: seq<Command>)
      requires Tracks(state) && InOrder(ids, state.pool) && cfg.maxBatchBytes >= 1
      ensures IsFill(cfg, EligibleOf(state, ids), batch)
    {
      hide TotalBytes, TotalCost, Filling, IsFill, Batch.CommandsSize, HighWater, IdLess;
      FillsFromNothing(cfg);
      ghost var all := EligibleOf(state, ids);
      batch := [];
      var bytes := 0;
      for k := 0 to |ids|
        invariant batch == EligibleOf(state, ids[..k]) && bytes == Batch.CommandsSize(batch) && Filling(cfg, batch)
      {
        var id := ids[k];
        EligibleStep(state, ids, k);
        EligiblePrefix(state, ids, k + 1);
        if pool.entries[id].proposedIn.Some? {
          continue;
        }
        if id.seqno > HighWater(dedup.perOrigin, id.origin, id.boot) + DEDUP_WINDOW {
          continue;
        }
        var cmd := Command(id, pool.entries[id].data);
        var cost := |cmd.data| + COMMAND_WIRE_OVERHEAD;
        SizeAppend(batch, cmd);
        if batch != [] && bytes + cost > cfg.maxBatchBytes {
          FillStops(cfg, all, batch, cmd);
          return;
        }
        FillGrows(cfg, all, batch, cmd);
        bytes := bytes + cost;
        batch := batch + [cmd];
        if bytes >= cfg.maxBatchBytes {
          return;
        }
      }
      assert ids[..|ids|] == ids;
      FillEnds(cfg, all);
    }

    method AssignTo(batch: seq<Command>, slot: Slot)
      requires pool.Valid() && forall k :: 0 <= k < |batch| ==> batch[k].id in pool.entries
      modifies pool
      ensures pool.Valid() && pool.entries == Assign(old(pool.entries), batch, slot)
    {
      hide TotalCost, Assign;
      AssignNone(pool.entries, slot);
      for k := 0 to |batch|
        invariant pool.entries == Assign(old(pool.entries), batch[..k], slot) && pool.bytes == old(pool.bytes)
      {
        AssignOne(old(pool.entries), batch[..k], batch[k], slot);
        assert batch[..k] + [batch[k]] == batch[..k + 1];
        pool.entries := pool.entries[batch[k].id := pool.entries[batch[k].id].(proposedIn := Some(slot))];
      }
      assert batch[..|batch|] == batch;
      AssignKeeps(old(pool.entries), batch, slot);
    }

    // ---- driving, deciding, opening ----

    /** Transmits the proposer's current step. In a group of several this ends with the step
        broadcast and our own reply counted; alone, it decides. */
    method Drive(now: nat, slot: Slot, ghost cmds: seq<Command>)
      requires Valid() && CanDrive(cfg, state, slot) && AtRestBut(cfg, state, slot) && Swept(cfg, state)
        && slot > state.contig
      requires cfg.N() > 1 ==> DriveReady(cfg, state.slots[slot].proposer.run)
      requires cfg.N() == 1 ==>
        JustOpened(state, slot, Batch.BatchBytes(cmds)) && Batch.CommandsFit(cmds) && OnlyAhead(state, slot)
          && NoneLose(state.pool, slot, cmds)
      modifies this, pool, dedup
      ensures polled == old(polled)
      ensures Valid() && AtRest(cfg, state) && Swept(cfg, state) && LocalSince(old(trail), trail)
      ensures UnassignedIds(pool.entries) <= old(UnassignedIds(pool.entries))
      ensures cfg.N() == 1 ==> NoneAhead(state) && PendingOk(state)
      ensures cfg.N() > 1 ==>
        && OpensMore(old(state), state, now) && Driven(state, slot, now) && OneMoved(old(state), state, slot)
        && SamePool(old(state), state) && state.pendingSince == old(state.pendingSince)
          && state.maxOpen == old(state.maxOpen)
      ensures cfg.N() > 1 ==> Extends(old(state), state) && JustSent(cfg, old(state), state, slot)
      decreases if cfg.N() == 1 then UnassignedIds(pool.entries) else {}, if cfg.N() == 1 then 2 else 0
    {
      hide Ran, Tracks, StorageOk, DriveAt, Install, OwnRecord, AtRest, AtRestBut, Swept, OpensMore, DriveReady,
        JustOpened, Batch.BatchBytes,
        CanDrive, LocalSince, OnlyAhead, NoneLose, NoneAhead, PendingOk, Commands, UnassignedIds, Batch.CommandsFit,
        CanLearn, Extends, JustSent;
      ghost var base := OwnRecord(cfg, state, slot, now);
      OwnRecordBase(cfg, rng, trail, state, slot, now);
      RanDrive(cfg, rng, trail, state, slot, now);
      if cfg.N() == 1 {
        DecodedBatch(cmds);
      }
      PoolIs(state);
      Seated(cfg, rng, trail, state);
      var decided := Transmit(now, slot, cmds);
      PoolIs(if decided.Some? then base else state);
      if decided.Some? {
        ghost var before := trail;
        DecideSlot(now, slot, decided.value, true, base, DriveStep(slot, now));
        LocalOne(before, DriveStep(slot, now));
        LocalMore(before, before + [DriveStep(slot, now)], trail);
      }
    }

    /** The loop of `Drive`: passes until the step is broadcast or decides. */
    method Transmit(now: nat, slot: Slot, ghost cmds: seq<Command>) returns (decided: Option<Bytes>)
      requires Valid() && CanDrive(cfg, state, slot) && AtRestBut(cfg, state, slot) && Swept(cfg, state)
        && slot > state.contig
      requires cfg.N() > 1 ==> DriveReady(cfg, state.slots[slot].proposer.run)
      requires cfg.N() == 1 ==> JustOpened(state, slot, Batch.BatchBytes(cmds))
      modifies this
      ensures polled == old(polled)
      ensures decided.Some? <==> cfg.N() == 1
      ensures decided.None? ==>
        && Valid() && AtRest(cfg, state) && Swept(cfg, state) && LocalSince(old(trail), trail)
        && Extends(old(state), state) && JustSent(cfg, old(state), state, slot)
        && OpensMore(old(state), state, now) && Driven(state, slot, now) && OneMoved(old(state), state, slot)
        && SamePool(old(state), state) && state.pendingSince == old(state.pendingSince)
          && state.maxOpen == old(state.maxOpen)
      ensures decided.Some? ==>
        && decided.value == Batch.BatchBytes(cmds)
        && state == old(state) && trail == old(trail) && Tracks(OwnRecord(cfg, old(state), slot, now))
        && DriveAt(cfg, rng, old(state), slot, now) ==
          Install(cfg, OwnRecord(cfg, old(state), slot, now), slot, decided.value, true, now)
    {
      hide Ran, Tracks, StorageOk, DriveAt, DriveFold, Install, OwnRecord, AtRest, AtRestBut, Swept, OpensMore,
        PassesLeft, DriveReady,
        JustOpened, Batch.BatchBytes, DroveOnly, CanDrive, LocalSince, OneMoved, Extends, JustSent;
      LocalNone(trail);
      ExtendsSame(state, state);
      Seated(cfg, rng, trail, state);
      SenderHere(cfg, state, slot);
      var more := true;
      while more
        invariant polled == old(polled)
        invariant Valid() && LocalSince(old(trail), trail) && slot in state.slots && state.slots[slot].proposer.Running?
        invariant more == state.slots[slot].proposer.run.needsSend
        invariant Extends(old(state), state) && (!more ==> JustSent(cfg, old(state), state, slot))
        invariant (state == old(state) && trail == old(trail))
          || (cfg.N() > 1 && DroveOnly(cfg, old(state), state, slot, now))
        decreases PassesLeft(state, slot)
      {
        CanDriveHere(cfg, rng, trail, state, slot);
        if cfg.N() > 1 {
          DroveIsReady(cfg, old(state), state, slot, now);
          DrivePassMany(cfg, rng, state, slot, now);
        } else {
          DrivePassAlone(cfg, rng, state, slot, Batch.BatchBytes(cmds), now);
        }
        ghost var before, done := state, trail;
        PassTells(cfg, rng, trail, state, slot, now);
        decided := DrivePass(now, slot);
        if decided.Some? {
          return;
        }
        LocalOne(done, DriveStep(slot, now));
        LocalMore(old(trail), done, trail);
        if before != old(state) {
          DroveTwice(cfg, old(state), before, state, slot, now);
        }
        StillRuns(cfg, before, state, slot, now);
        more := NeedsSend(slot);
        ExtendsOn(old(state), before, state);
        if !more {
          SentLater(cfg, old(state), before, state, slot);
        }
      }
      decided := None;
      DroveToRest(cfg, old(state), state, slot, now);
    }

    method NeedsSend(slot: Slot) returns (r: bool)
      requires Valid() && slot in state.slots && state.slots[slot].proposer.Running?
      ensures r == state.slots[slot].proposer.run.needsSend
    {
      hide Ran, TotalBytes, TotalCost;
      r := slots[slot].proposer.run.needsSend;
    }

    /** Installs a decided value for a slot and runs everything downstream: dissemination,
        pool bookkeeping, in-order delivery, freeing and leader pipelining. A value from
        elsewhere is taken exactly when the slot is neither freed nor decided and the value
        is due next or fits the budget. */
    method DecideSlot(now: nat, slot: Slot, value: Bytes, isDecider: bool, ghost base: State, ghost m: Micro)
      requires Ran(cfg, rng, trail, state) && Tracks(base)
      requires StorageOk(cfg, base) && AtRestBut(cfg, base, slot) && Swept(cfg, base)
      requires isDecider ==>
        && slot > base.gcFloor && slot in base.slots && base.slots[slot].recorder.Open?
        && Ran(cfg, rng, trail + [m], Install(cfg, base, slot, value, true, now))
      requires !isDecider ==>
        base == state && m == LearnStep(slot, value, now) && cfg.N() > 1 && AtRest(cfg, base) && PendingOk(base)
      requires cfg.N() == 1 ==> OnlyAhead(base, slot) && NoneLose(base.pool, slot, Commands(value))
      modifies this, pool, dedup
      ensures polled == old(polled)
      ensures Valid() && AtRest(cfg, state) && Swept(cfg, state) && PendingOk(state)
      ensures isDecider || CanLearn(cfg, base, slot, value) ==> LocalSince(old(trail) + [m], trail)
      ensures !isDecider && !CanLearn(cfg, base, slot, value) ==> state == base && trail == old(trail)
      ensures isDecider || CanLearn(cfg, base, slot, value) ==> (cfg.IsLeader() ==> Saturated(cfg, state))
      ensures isDecider ==> OthersTold(cfg, |base.actions|, state, Wire.Decide(slot, value))
      ensures cfg.N() > 1 ==> state.contig >= base.contig
      ensures cfg.N() > 1 && (isDecider || CanLearn(cfg, base, slot, value)) && slot == base.contig + 1 ==>
        state.contig >= slot
      ensures cfg.N() == 1 ==> NoneAhead(state) && UnassignedIds(pool.entries) <= old(UnassignedIds(pool.entries))
      decreases if cfg.N() == 1 then UnassignedIds(pool.entries) else {}, if cfg.N() == 1 then 1 else 3
    {
      hide Ran, Tracks, StorageOk, AtRest, AtRestBut, Swept, CanLearn, PendingOk, LocalSince, Install, OnlyAhead,
        NoneLose, NoneAhead,
        Shrinks, TotalBytes, Refreshed, Commands, UnassignedIds, Saturated, OpensMore, OthersTold, Extends;
      Seated(cfg, rng, trail, state);
      PoolIs(base);
      var proceed := Accepts(slot, value, isDecider, base);
      if !proceed {
        return;
      }
      if !isDecider {
        RanLearn(cfg, rng, trail, state, slot, value, now);
      }
      InstallDecision(now, slot, value, isDecider, base, m);
      ghost var inst, installed := state, trail;
      Downstream(now, slot, value, isDecider, base);
      ghost var settled, since := state, trail;
      PoolIs(state);
      MaybeOpenSlots(now);
      LocalMore(installed, since, trail);
      if cfg.N() > 1 {
        OpensContig(settled, state, now);
      }
      if isDecider {
        InstallTellsAll(cfg, base, slot, value, now);
        LocalGrows(installed, trail);
        Calls.LaterExtends(cfg, rng, installed, inst, trail, state);
        OthersToldStays(cfg, |base.actions|, inst, state, Wire.Decide(slot, value));
      }
    }

    /** After a decision is installed: delivery and freeing, back to rest. */
    method Downstream(now: nat, slot: Slot, value: Bytes, isDecider: bool, ghost base: State)
      requires Valid() && cfg.me < |cfg.ids| && state == Install(cfg, base, slot, value, isDecider, now)
      requires AtRestBut(cfg, base, slot)
      requires cfg.N() == 1 ==> OnlyAhead(base, slot) && NoneLose(base.pool, slot, Commands(value))
      modifies this, pool, dedup
      ensures polled == old(polled)
      ensures Valid() && AtRest(cfg, state) && Swept(cfg, state) && PendingOk(state) && LocalSince(old(trail), trail)
      ensures state.contig >= base.contig && (slot == base.contig + 1 ==> state.contig >= slot)
      ensures cfg.N() == 1 ==> NoneAhead(state) && UnassignedIds(state.pool) <= UnassignedIds(base.pool)
    {
      hide Ran, Tracks, StorageOk, AtRest, AtRestBut, Swept, PendingOk, LocalSince, Install, NoneLose, NoneAhead,
        Shrinks, Refreshed, Commands,
        UnassignedIds;
      ghost var inst, before := state, trail;
      InstallRests(cfg, base, slot, value, isDecider, now);
      InstallFields(cfg, base, slot, value, isDecider, now);
      RefreshPending(now);
      LocalOne(before, RefreshStep(now));
      ghost var refreshed, since := state, trail;
      SameShrinks(inst, refreshed);
      TryDeliver(now);
      LocalMore(before, since, trail);
      ShrinksMore(inst, refreshed, state);
      RestShrinks(cfg, inst, state);
      if cfg.N() == 1 {
        SoloDelivered(cfg, base, slot, value, isDecider, now, state);
        SoloKeepsIds(cfg, base, slot, value, isDecider, now, state);
      }
    }

    /** The checks that drop a decided value. */
    method Accepts(slot: Slot, value: Bytes, isDecider: bool, ghost base: State) returns (ok: bool)
      requires Tracks(base) && StorageOk(cfg, base)
      requires isDecider ==> slot > base.gcFloor && slot in base.slots && base.slots[slot].recorder.Open?
      requires !isDecider ==> cfg.N() > 1
      modifies this`slots
      ensures Tracks(base) && (ok <==> isDecider || CanLearn(cfg, base, slot, value))
      ensures ok ==> slot !in base.retained
    {
      hide TotalBytes, TotalCost;
      if slot <= gcFloor {
        return false;
      }
      if !isDecider && slot > contig + 1 && retainedBytes + |value| > cfg.maxRetainedBytes {
        return false;
      }
      if slot in slots && slots[slot].recorder.Decided? {
        assert SlotOk(cfg, base, slot);
        slots := slots[slot := slots[slot].(proposer := Done)];
        return false;
      }
      return true;
    }

    /** The pool's entries are what the state says. */
    lemma PoolIs(st: State)
      requires Tracks(st)
      ensures pool.entries == st.pool && contig == st.contig && maxOpen == st.maxOpen
    {
    }

    /** Starts this replica's proposer for a slot with the batch claimed for it, and drives
        it. Callers only ever activate an idle, undecided slot. */
    method Activate(now: nat, slot: Slot, value: Bytes, ghost cmds: seq<Command>, ghost asLeader: bool)
      requires Ran(cfg, rng, trail, state) && Tracks(Claimed(state, cmds, slot, asLeader))
        && value == Batch.BatchBytes(cmds)
      requires Takeable(cfg, state, cmds) && CanOpen(cfg, state, slot, cmds, asLeader) && AtRest(cfg, state)
        && Swept(cfg, state)
      requires cfg.N() == 1 ==> SoloReady(state, slot)
      modifies this, pool, dedup
      ensures polled == old(polled)
      ensures Valid() && AtRest(cfg, state) && Swept(cfg, state) && LocalSince(old(trail), trail)
      ensures Opened(old(trail), trail) && trail[|old(trail)|] == OpenStep(slot, cmds, asLeader, now)
      ensures UnassignedIds(pool.entries) <= old(UnassignedIds(pool.entries))
      ensures cfg.N() == 1 ==> NoneAhead(state) && PendingOk(state)
      ensures cfg.N() > 1 ==>
        && OpensMore(old(state), state, now) && Driven(state, slot, now) && OneMoved(old(state), state, slot)
        && state.pendingSince == old(state.pendingSince)
      decreases if cfg.N() == 1 then UnassignedIds(pool.entries) else {}, if cfg.N() == 1 then 3 else 1
    {
      hide Ran, Tracks, StorageOk, LogOk, PoolOk, DeliveryOk, BudgetOk, AtRest, AtRestBut, Swept, PendingOk,
        LocalSince, OpensMore, Driven,
        UnassignedIds, Takeable, CanOpen, SoloReady, OpenSlot, JustOpened, OnlyAhead, NoneLose, NoneAhead, CanDrive,
          DriveReady,
        Batch.BatchBytes, Claimed, Batch.CommandsFit, OneMoved;
      ghost var st, before := state, trail;
      RanSound(cfg, rng, trail, state);
      Seated(cfg, rng, trail, state);
      RanOpen(cfg, rng, trail, state, slot, cmds, asLeader, now);
      OpenedCanDrive(cfg, rng, state, slot, cmds, asLeader, now);
      OpenAhead(cfg, state, slot, cmds, asLeader);
      OpenRests(cfg, rng, state, slot, cmds, asLeader, now);
      TakenFit(cfg, state, cmds);
      if cfg.N() == 1 {
        OpenAlone(cfg, rng, state, slot, cmds, asLeader, now);
      }
      PoolIs(Claimed(state, cmds, slot, asLeader));
      StoreStart(now, slot, value, cmds, asLeader);
      OpenKeepsClaim(cfg, rng, state, slot, cmds, asLeader, now);
      Advance(OpenStep(slot, cmds, asLeader, now), OpenSlot(cfg, rng, state, slot, cmds, asLeader, now));
      LocalOne(before, OpenStep(slot, cmds, asLeader, now));
      ghost var started, since := state, trail;
      PoolIs(state);
      Drive(now, slot, cmds);
      LocalMore(before, since, trail);
      OpenedFirst(before, since, trail, slot, cmds, asLeader, now);
      if cfg.N() > 1 {
        OpensTwice(st, started, state, now);
        OneMovedTwice(st, started, state, slot);
      }
    }

    method StoreStart(now: nat, slot: Slot, value: Bytes, ghost cmds: seq<Command>, ghost asLeader: bool)
      requires Tracks(Claimed(state, cmds, slot, asLeader)) && value == Batch.BatchBytes(cmds) && cfg.me < |cfg.ids|
      requires slot !in state.slots ==> slot !in state.log
      modifies this`slots, this`drawn
      ensures Tracks(OpenSlot(cfg, rng, state, slot, cmds, asLeader, now))
    {
      hide OpenSlot, Assign, Proposer.Start, TotalBytes, TotalCost, Batch.BatchBytes, NodeOf;
      OpenFields(cfg, rng, state, slot, cmds, asLeader, now);
      NodeHere(state, slot, now);
      var s := if slot in slots then slots[slot] else NewSlot(now);
      var run := Proposer.Start(value, cfg.ids[cfg.me], cfg.me, cfg.N(), cfg.IsLeader(), now,
        DrawsAt(rng, drawn, cfg.N()));
      slots := slots[slot := s.(proposer := Running(run))];
      if !cfg.IsLeader() {
        drawn := drawn + cfg.N();
      }
    }

    /** How many of our proposers are running ahead of the frontier. */
    method CountRunning() returns (n: nat)
      requires Tracks(state)
      ensures n == |RunningSlots(state)|
    {
      hide TotalBytes, TotalCost;
      n := 0;
      var rest := slots.Keys;
      ghost var seen: set<Slot> := {};
      while rest != {}
        invariant rest <= slots.Keys && n == |seen| && seen <= RunningSlots(state)
        invariant forall s :: s in RunningSlots(state) <==> s in seen || (s in rest && s in RunningSlots(state))
        invariant seen !! rest
        decreases rest
      {
        var s :| s in rest;
        if s > contig && slots[s].proposer.Running? {
          n := n + 1;
          seen := seen + {s};
        }
        rest := rest - {s};
      }
      assert seen == RunningSlots(state);
    }

    /** Leader only: opens new slots, up to the pipeline depth, for pool commands that ride
        in no open proposal. */
    method MaybeOpenSlots(now: nat)
      requires Valid() && AtRest(cfg, state) && Swept(cfg, state) && (cfg.N() == 1 ==> NoneAhead(state))
      modifies this, pool, dedup
      ensures polled == old(polled)
      ensures Valid() && AtRest(cfg, state) && Swept(cfg, state) && LocalSince(old(trail), trail)
      ensures UnassignedIds(pool.entries) <= old(UnassignedIds(pool.entries))
      ensures cfg.IsLeader() ==> PendingOk(state) && Saturated(cfg, state)
      ensures !cfg.IsLeader() ==> state == old(state) && trail == old(trail)
      ensures cfg.N() == 1 ==> NoneAhead(state) && NoneEligible(state)
      ensures cfg.N() > 1 ==> OpensMore(old(state), state, now)
      ensures UnassignedIds(old(state.pool)) == {} ==> state.slots == old(state.slots)
      ensures cfg.IsLeader() && Saturated(cfg, old(state)) ==> state == Refreshed(old(state), now)
      decreases if cfg.N() == 1 then UnassignedIds(pool.entries) else {}, if cfg.N() == 1 then 0 else 2
    {
      hide Ran, Tracks, AtRest, Swept, PendingOk, LocalSince, OpensMore, UnassignedIds, NoneAhead, Saturated,
        NoneEligible, SamePool, Refreshed;
      Seated(cfg, rng, trail, state);
      LocalNone(trail);
      PoolIs(state);
      OpensSame(state, state, now);
      if !cfg.IsLeader() {
        return;
      }
      var more := true;
      while more
        invariant polled == old(polled)
        invariant Valid() && AtRest(cfg, state) && Swept(cfg, state) && LocalSince(old(trail), trail)
        invariant UnassignedIds(pool.entries) <= old(UnassignedIds(pool.entries))
        invariant UnassignedIds(old(state.pool)) == {} ==> state.slots == old(state.slots)
        invariant Saturated(cfg, old(state)) ==> state == old(state)
        invariant cfg.N() == 1 ==> NoneAhead(state)
        invariant cfg.N() > 1 ==> OpensMore(old(state), state, now)
        invariant !more ==> Saturated(cfg, state) && (cfg.N() == 1 ==> NoneEligible(state))
        decreases UnassignedIds(pool.entries), more
      {
        ghost var st, before := state, trail;
        more := OpenOne(now);
        LocalMore(old(trail), before, trail);
        if cfg.N() > 1 {
          OpensTwice(old(state), st, state, now);
        }
      }
      ghost var st, before := state, trail;
      PoolIs(state);
      RefreshPending(now);
      LocalOne(before, RefreshStep(now));
      LocalMore(old(trail), before, trail);
      RefreshedIsPending(st, now);
      RefreshLeads(cfg, st, now);
      PoolIs(state);
      if cfg.N() > 1 {
        OpensTwice(old(state), st, state, now);
      }
    }

    /** Opens one more slot, if the pipeline and the pool allow. */
    method OpenOne(now: nat) returns (more: bool)
      requires Valid() && cfg.IsLeader() && AtRest(cfg, state) && Swept(cfg, state)
        && (cfg.N() == 1 ==> NoneAhead(state))
      modifies this, pool, dedup
      ensures polled == old(polled)
      ensures Valid() && AtRest(cfg, state) && Swept(cfg, state) && LocalSince(old(trail), trail)
      ensures cfg.N() == 1 ==> NoneAhead(state)
      ensures cfg.N() > 1 ==> OpensMore(old(state), state, now)
      ensures more ==> UnassignedIds(pool.entries) < old(UnassignedIds(pool.entries)) && !Saturated(cfg, old(state))
      ensures more ==>
        && Opened(old(trail), trail) && trail[|old(trail)|].slot == Top(old(state)) + 1
        && FullBatch(cfg, old(state), trail[|old(trail)|].cmds)
      ensures !more ==> state == old(state) && trail == old(trail) && pool.entries == old(pool.entries)
      ensures !more ==> Saturated(cfg, state) && (cfg.N() == 1 ==> NoneEligible(state))
      decreases if cfg.N() == 1 then UnassignedIds(pool.entries) else {}, if cfg.N() == 1 then 0 else 2, 0
    {
      hide Ran, AtRest, Swept, LocalSince, OpensMore, NoneAhead, NoneEligible, TotalBytes, TotalCost, Takeable,
        Eligible, UnassignedIds, Saturated,
        RunningSlots, Assign, SoloReady, IsFill, InOrder, EligibleOf;
      Seated(cfg, rng, trail, state);
      LocalNone(trail);
      OpensSame(state, state, now);
      SaturatedMeans(cfg, state);
      var running := CountRunning();
      if cfg.N() == 1 {
        NoneRunning(state);
        SoloFromTop(cfg, rng, trail, state);
      }
      if running >= cfg.pipeline {
        return false;
      }
      var slot := LargestKey(slots.Keys, if maxOpen > contig then maxOpen else contig) + 1;
      if slot > contig + cfg.pipeline {
        return false;
      }
      var batch, order := TakeUnassignedBatch(slot);
      if batch == [] {
        AssignNone(state.pool, slot);
        return false;
      }
      TakeableEligible(cfg, state, batch);
      SomeEligible(state, batch[0].id);
      ClaimedIds(state, batch, slot);
      maxOpen := slot;
      var value := Batch.EncodeBatch(batch);
      Activate(now, slot, value, batch, true);
      return true;
    }

    // ---- proposer role: replies ----

    /** Folds a recorder's reply into the proposer it answers. An elided first component is
        rebuilt from what this step sent; a stale one is dropped. */
    method OnRecordReply(now: nat, from: nat, slot: Slot, reqStep: nat, step: nat, first: ReplyFirst,
          priorAgg: Option<Proposal>)
      requires Valid() && Ready(cfg, state) && from < cfg.N() && from != cfg.me
      requires !WouldStall(cfg, state, from, slot, reqStep, step, first, priorAgg)
      modifies this, pool, dedup
      ensures polled == old(polled)
      ensures Valid() && Ready(cfg, state)
      ensures
        if TakesReply(cfg, old(state), from, slot, reqStep, first) then
          LocalSince(old(trail) + [ReplyStep(from, slot, reqStep, step, first, priorAgg, now)], trail)
        else state == old(state) && trail == old(trail)
    {
      hide Ran, Tracks, StorageOk, AtRest, AtRestBut, RestsAt, Swept, PendingOk, NoneAhead, LocalSince, CanFold,
        CanDrive, Install, Moved, Kept,
        FoldReply, DriveReady, OpensMore, ReplyAt, Stalls, OnlyAhead, NoneLose, UnassignedIds, Commands;
      PoolIs(state);
      SlotsAre();
      if slot !in slots || !slots[slot].proposer.Running? {
        TakesNone(cfg, state, from, slot, reqStep, first);
        return;
      }
      CanFoldHere(cfg, rng, trail, state, slot);
      FitsHere(cfg, state, slot);
      ButOne(cfg, state, slot);
      RestMeans(cfg, state, slot);
      var run := slots[slot].proposer.run;
      var rebuilt := Reconstitute(run, from, reqStep, first);
      if rebuilt.None? {
        return;
      }
      var (after, reaction) := FoldReply(run, cfg.MySeat(), now, DrawsAt(rng, drawn, cfg.N()),
          from, reqStep, step, rebuilt.value, priorAgg);
      OtherFold(run, cfg.MySeat(), now, DrawsAt(rng, drawn, cfg.N()), from, reqStep, step, rebuilt.value, priorAgg);
      ReplyResult(cfg, rng, state, slot, from, reqStep, step, first, rebuilt.value, priorAgg, now);
      RanReply(cfg, rng, trail, state, from, slot, reqStep, step, first, priorAgg, now);
      ghost var m := ReplyStep(from, slot, reqStep, step, first, priorAgg, now);
      ghost var st, before := state, trail;
      match reaction {
        case Choose(value) =>
          DecideSlot(now, slot, value, true, state, m);
        case Resend =>
          MovedIsReady(cfg, state, slot, after);
          StoreMoved(slot, after, state);
          Advance(m, Moved(cfg, state, slot, after));
          CanDriveHere(cfg, rng, trail, state, slot);
          Drive(now, slot, []);
          DroveReady(cfg, st, state);
        case Quiet =>
          KeptIsReady(cfg, state, slot, after);
          StoreKept(slot, after, state);
          Advance(m, Kept(state, slot, after));
          LocalNone(trail);
      }
    }

    lemma SlotsAre()
      requires Tracks(state)
      ensures slots == state.slots && drawn == state.drawn
    {
    }

    // ---- forwarded commands ----

    /** Takes up what is neither delivered nor held already and fits; the rest is dropped, as
        its origin keeps forwarding it. */
    method OnForward(now: nat, ghost from: nat, ghost message: Wire.Message, commands: seq<Command>)
      requires Valid() && Ready(cfg, state) && cfg.N() > 1 && AllKnown(cfg, state, commands)
      requires message.payload == Wire.Forward(commands)
      modifies this, pool, dedup
      ensures polled == old(polled)
      ensures Valid() && Ready(cfg, state) && CausedSince(from, message, old(trail), trail)
      ensures LocalSince(old(trail) + TakesUp(cfg, old(state), commands, now), trail)
      ensures cfg.IsLeader() ==> Saturated(cfg, state)
    {
      hide Ran, Tracks, AtRest, Swept, PendingOk, CausedSince, LocalSince, AllKnown, OpensMore, UnassignedIds,
        Refreshed, TakesUp, Saturated;
      PoolAll(now, from, message, commands);
      ghost var st, taken := state, trail;
      RefreshPending(now);
      RefreshedIsPending(st, now);
      RefreshLeads(cfg, st, now);
      LocalOne(taken, RefreshStep(now));
      ghost var since := trail;
      MaybeOpenSlots(now);
      LocalMore(taken, since, trail);
      LocalIsCaused(from, message, taken, trail);
      CausedMore(from, message, old(trail), taken, trail);
    }

    method PoolAll(now: nat, ghost from: nat, ghost message: Wire.Message, commands: seq<Command>)
      requires Valid() && AtRest(cfg, state) && Swept(cfg, state) && cfg.N() > 1 && AllKnown(cfg, state, commands)
      requires message.payload == Wire.Forward(commands)
      modifies this`trail, this`state, pool
      ensures Valid() && AtRest(cfg, state) && Swept(cfg, state) && CausedSince(from, message, old(trail), trail)
      ensures trail == old(trail) + TakesUp(cfg, old(state), commands, now)
    {
      hide Ran, Tracks, AtRest, Swept, CausedSince, LocalSince, AllKnown, TakesUp, Refused, Pooled;
      LocalNone(trail);
      LocalIsCaused(from, message, trail, trail);
      assert commands[0..] == commands;
      for k := 0 to |commands|
        invariant Valid() && AtRest(cfg, state) && Swept(cfg, state) && AllKnown(cfg, state, commands)
        invariant CausedSince(from, message, old(trail), trail)
        invariant trail + TakesUp(cfg, state, commands[k..], now) ==
          old(trail) + TakesUp(cfg, old(state), commands, now)
      {
        ghost var before := trail;
        TakesNext(cfg, state, commands, k, now);
        PoolIfRoom(now, commands[k], from, message, commands);
        CausedMore(from, message, old(trail), before, trail);
        OneMoreStep(before, PoolStep(commands[k], now), TakesUp(cfg, state, commands[k + 1..], now));
      }
      TakesUpNone(cfg, state, now);
      assert commands[|commands|..] == [];
    }

    method PoolIfRoom(now: nat, cmd: Command, ghost from: nat, ghost message: Wire.Message,
          ghost commands: seq<Command>)
      requires Valid() && AtRest(cfg, state) && Swept(cfg, state) && cfg.N() > 1 && AllKnown(cfg, state, commands)
      requires message.payload == Wire.Forward(commands) && cmd in commands
      modifies this`trail, this`state, pool
      ensures Valid() && AtRest(cfg, state) && Swept(cfg, state) && AllKnown(cfg, state, commands)
      ensures CausedSince(from, message, old(trail), trail)
      ensures
        if Refused(cfg, old(state), cmd) then state == old(state) && trail == old(trail)
        else state == Pooled(old(state), cmd, now) && trail == old(trail) + [PoolStep(cmd, now)]
    {
      hide Ran, AtRest, Swept, Known, TotalBytes, TotalCost, Batch.IdFits, IsDelivered;
      LocalNone(trail);
      LocalIsCaused(from, message, trail, trail);
      if IsDelivered(dedup.perOrigin, cmd.id) || cmd.id in pool.entries {
        return;
      }
      if |cmd.data| > MAX_COMMAND_BYTES || pool.bytes + Cost(|cmd.data|) > cfg.maxPoolBytes {
        return;
      }
      RanPool(cfg, rng, trail, state, cmd, now);
      PooledRests(cfg, state, cmd, now);
      AllKnownSame(cfg, state, Pooled(state, cmd, now), commands);
      CausedOne(from, message, trail, PoolStep(cmd, now));
      pool.Insert(cmd.id, cmd.data, now);
      Advance(PoolStep(cmd, now), Pooled(state, cmd, now));
    }

    // ---- catch-up ----

    method MaybeRequestLearn(now: nat, to: nat, decided: Slot)
      requires Valid() && to < cfg.N() && to != cfg.me
      modifies this`actions, this`learning, this`trail, this`state
      ensures Valid()
      ensures
        if decided <= old(state.contig)
           || (old(state.learning).Some? && SaturatingSub(now, old(state.learning).value.1) < cfg.retransmitDelay)
        then state == old(state) && trail == old(trail)
        else state == Requested(cfg, old(state), to, now) && trail == old(trail) + [RequestStep(to, now)]
    {
      hide Ran, TotalBytes, TotalCost;
      Seated(cfg, rng, trail, state);
      if decided <= contig {
        return;
      }
      if learning.Some? && SaturatingSub(now, learning.value.1) < cfg.retransmitDelay {
        return;
      }
      RanRequest(cfg, rng, trail, state, to, now);
      learning := Some((to, now));
      QueueGrows(state.actions, polled, [SendOne(cfg, state, to, Wire.Learn(contig + 1))]);
      SendTo(to, Wire.Learn(contig + 1));
      Advance(RequestStep(to, now), Requested(cfg, state, to, now));
    }

    /** Answers with the retained values from a slot on, up to the chunk size; what was freed
        or is not delivered yet is not answered. The retained values are contiguous, so the
        lookups never fail. */
    method OnLearn(from: nat, fromSlot: Slot)
      requires Valid() && from < cfg.N() && from != cfg.me
      modifies this`actions, this`trail, this`state
      ensures Valid()
      ensures
        if fromSlot <= old(state.gcFloor) || fromSlot > old(state.contig)
          then state == old(state) && trail == old(trail)
        else
          |trail| == |old(trail)| + 1 && trail[|old(trail)|].AnswerStep? && var values := trail[|old(trail)|].values;
          && IsChunk(old(state), fromSlot, values) && state == Answered(cfg, old(state), from, fromSlot, values)
          && trail == old(trail) + [AnswerStep(from, fromSlot, values)]
    {
      hide Ran, TotalBytes, TotalCost, IsChunk;
      Seated(cfg, rng, trail, state);
      if fromSlot <= gcFloor || fromSlot > contig || fromSlot == 0 {
        return;
      }
      var values := Chunk(fromSlot);
      RanAnswer(cfg, rng, trail, state, from, fromSlot, values);
      QueueGrows(state.actions, polled, [SendOne(cfg, state, from, Wire.LearnReply(fromSlot, values))]);
      SendTo(from, Wire.LearnReply(fromSlot, values));
      Advance(AnswerStep(from, fromSlot, values), Answered(cfg, state, from, fromSlot, values));
    }

    method Chunk(fromSlot: Slot) returns (values: seq<Bytes>)
      requires Valid() && state.gcFloor < fromSlot <= state.contig
      ensures IsChunk(state, fromSlot, values)
    {
      hide Ran, TotalBytes, TotalCost, StorageOk;
      RanStorage(cfg, rng, trail, state);
      RetainedRun(cfg, state);
      values := [];
      var bytes := 0;
      var slot := fromSlot;
      while slot <= contig
        invariant fromSlot <= slot <= contig + 1 && |values| == slot - fromSlot
        invariant forall k :: 0 <= k < |values| ==> fromSlot + k in retained && values[k] == retained[fromSlot + k]
        invariant bytes == BytesOf(values)
        invariant values != [] ==> bytes < LEARN_CHUNK_BYTES && BytesOf(values[..|values| - 1]) < LEARN_CHUNK_BYTES
      {
        var value := retained[slot];
        BytesOfAppend(values, value);
        bytes := bytes + |value|;
        values := values + [value];
        if bytes >= LEARN_CHUNK_BYTES {
          return;
        }
        slot := slot + 1;
      }
    }

    method EndRequest()
      requires Valid() && cfg.N() > 1
      modifies this`learning, this`trail, this`state
      ensures Valid() && state == LearnEnded(old(state)) && trail == old(trail) + [EndLearn]
    {
      hide Ran, TotalBytes, TotalCost;
      RanEndLearn(cfg, rng, trail, state);
      learning := None;
      Advance(EndLearn, LearnEnded(state));
    }

    /** Takes up a run of decided values, one slot after the other. A run that starts no later
        than the slot due next is delivered to its end. */
    method OnLearnReply(now: nat, ghost from: nat, ghost message: Wire.Message, firstSlot: Slot, values: seq<Bytes>)
      requires Valid() && Ready(cfg, state) && cfg.N() > 1 && message.payload == Wire.LearnReply(firstSlot, values)
      modifies this, pool, dedup
      ensures polled == old(polled)
      ensures Valid() && Ready(cfg, state) && CausedSince(from, message, old(trail), trail)
      ensures old(trail) + [EndLearn] <= trail && CaughtUp(message, old(state.contig), state.contig)
    {
      hide Ran, Tracks, Ready, CausedSince, LearnEnded, CanLearn, Saturated, LocalSince;
      ReadySame(cfg, state, LearnEnded(state));
      CausedOne(from, message, trail, EndLearn);
      EndRequest();
      for offset := 0 to |values|
        invariant polled == old(polled)
        invariant Valid() && Ready(cfg, state) && CausedSince(from, message, old(trail), trail)
        invariant old(trail) + [EndLearn] <= trail && state.contig >= old(state.contig)
        invariant firstSlot <= old(state.contig) + 1 ==> state.contig + 1 >= firstSlot + offset
      {
        ghost var before := trail;
        LearnDecision(now, from, message, firstSlot + offset, values[offset]);
        CausedMore(from, message, old(trail), before, trail);
        CausedGrows(from, message, before, trail);
      }
    }

    /** A decision learned from another replica. */
    method LearnDecision(now: nat, ghost from: nat, ghost message: Wire.Message, slot: Slot, value: Bytes)
      requires Valid() && Ready(cfg, state) && cfg.N() > 1 && CarriesDecision(message.payload, slot, value)
      modifies this, pool, dedup
      ensures polled == old(polled)
      ensures Valid() && Ready(cfg, state) && CausedSince(from, message, old(trail), trail)
      ensures
        if CanLearn(cfg, old(state), slot, value)
        then LocalSince(old(trail) + [LearnStep(slot, value, now)], trail) && (cfg.IsLeader() ==> Saturated(cfg, state))
        else state == old(state) && trail == old(trail)
      ensures state.contig >= old(state.contig) && (slot == old(state.contig) + 1 ==> state.contig >= slot)
    {
      hide Ran, Tracks, AtRest, AtRestBut, Swept, PendingOk, NoneAhead, CausedSince, LocalSince, CanLearn, StorageOk,
        PoolOk, UnassignedIds, Install,
        Saturated;
      RanStorage(cfg, rng, trail, state);
      DueIsLearned(cfg, state, value);
      ButOne(cfg, state, slot);
      ghost var m := LearnStep(slot, value, now);
      ghost var st, before := state, trail;
      DecideSlot(now, slot, value, false, state, m);
      if CanLearn(cfg, st, slot, value) {
        CausedOne(from, message, before, m);
        LocalIsCaused(from, message, before + [m], trail);
        CausedMore(from, message, before, before + [m], trail);
      } else {
        LocalNone(before);
        LocalIsCaused(from, message, before, trail);
      }
    }

    // ---- the interface ----

    /** Submits a command: too large or over the pool limit is refused; otherwise it takes
        the next sequence number, waits in the pool, and is batched by the leader or
        forwarded to it. */
    method Submit(now: nat, data: Bytes) returns (r: SubmitResult)
      requires Valid() && Ready(cfg, state) && nextSeq < U64_MAX
      modifies this, pool, dedup
      ensures polled == old(polled)
      ensures Valid() && Ready(cfg, state)
      ensures |data| > MAX_COMMAND_BYTES ==> r == CommandTooLarge
      ensures |data| <= MAX_COMMAND_BYTES && old(TotalCost(state.pool)) + Cost(|data|) > cfg.maxPoolBytes ==>
        r == PoolFull
      ensures |data| <= MAX_COMMAND_BYTES && old(TotalCost(state.pool)) + Cost(|data|) <= cfg.maxPoolBytes ==>
        cfg.me < |cfg.ids| && r == Accepted(OwnId(cfg, old(nextSeq) + 1))
          && LocalSince(old(trail) + [SubmitStep(data, now)], trail)
      ensures !r.Accepted? ==> state == old(state) && trail == old(trail)
      ensures r.Accepted? && cfg.IsLeader() ==> Saturated(cfg, state)
      ensures r.Accepted? && !cfg.IsLeader() ==>
        && ToldSince(|old(state.actions)|, state, 0, Wire.Forward([Command(OwnId(cfg, old(nextSeq) + 1), data)]))
        && OwnId(cfg, old(nextSeq) + 1) in state.pool
        && state.pool[OwnId(cfg, old(nextSeq) + 1)] == PoolEntry(data, None, now, 1)
    {
      hide Ran, Tracks, AtRest, Swept, PendingOk, NoneAhead, LocalSince, Submitted, Refreshed, OpensMore, Saturated,
        UnassignedIds, TotalCost, ToldSince, Extends;
      Seated(cfg, rng, trail, state);
      PoolCosts();
      if |data| > MAX_COMMAND_BYTES {
        return CommandTooLarge;
      }
      if pool.bytes + Cost(|data|) > cfg.maxPoolBytes {
        return PoolFull;
      }
      RanSubmit(cfg, rng, trail, state, data, now);
      SubmittedRests(cfg, state, data, now);
      var id := OwnId(cfg, nextSeq + 1);
      StoreSubmission(now, data);
      Advance(SubmitStep(data, now), Submitted(cfg, state, data, now));
      ghost var taken := trail;
      LocalNone(trail);
      if cfg.IsLeader() {
        MaybeOpenSlots(now);
      } else {
        SubmitTells(cfg, old(state), data, now);
      }
      ghost var st, since := state, trail;
      RefreshPending(now);
      RefreshedIsPending(st, now);
      RefreshLeads(cfg, st, now);
      LocalOne(since, RefreshStep(now));
      LocalMore(taken, since, trail);
      if !cfg.IsLeader() {
        SameActions(st, state, |old(state.actions)|, 0, Wire.Forward([Command(id, data)]));
      }
      return Accepted(id);
    }

    lemma PoolCosts()
      requires Tracks(state)
      ensures pool.bytes == TotalCost(state.pool) && nextSeq == state.nextSeq
    {
    }

    method StoreSubmission(now: nat, data: Bytes)
      requires Valid() && cfg.me < |cfg.ids| && cfg.Valid()
      modifies this`nextSeq, this`actions, pool
      ensures Tracks(Submitted(cfg, state, data, now))
    {
      hide Ran, TotalBytes, TotalCost, PoolOk, StorageOk, ForwardTarget, Submitted;
      RanStorage(cfg, rng, trail, state);
      NextIsFresh(cfg, state);
      TargetOk(cfg, 0);
      SubmittedFields(cfg, state, data, now);
      nextSeq := nextSeq + 1;
      var id := OwnId(cfg, nextSeq);
      PoolOwn(id, data, now);
      if !cfg.IsLeader() {
        var target := ForwardTarget(cfg, 0);
        QueueGrows(state.actions, polled, [SendOne(cfg, state, target, Wire.Forward([Command(id, data)]))]);
        SendTo(target, Wire.Forward([Command(id, data)]));
      }
    }

    /** Pools our own command, counted as forwarded once unless we lead. */
    method PoolOwn(id: CommandId, data: Bytes, now: nat)
      requires pool.Valid() && id !in pool.entries
      modifies pool
      ensures pool.Valid()
        && pool.entries == old(pool.entries)[id := PoolEntry(data, None, now, if cfg.IsLeader() then 0 else 1)]
    {
      hide TotalCost;
      pool.Insert(id, data, now);
      if !cfg.IsLeader() {
        var entry := pool.entries[id].(lastForward := now, forwardAttempts := 1);
        TotalCostSame(pool.entries, pool.entries[id := entry]);
        pool.entries := pool.entries[id := entry];
      }
    }

    /** The schedule index of a replica id. */
    method IndexOf(id: ReplicaId) returns (idx: Option<nat>)
      requires cfg.Valid()
      ensures idx.Some? ==> idx.value < cfg.N() && cfg.ids[idx.value] == id
      ensures idx.None? ==> id !in cfg.ids
    {
      var lo, hi := 0, cfg.N();
      while lo < hi
        invariant lo <= hi <= cfg.N()
        invariant forall k :: 0 <= k < lo ==> cfg.ids[k] < id
        invariant forall k :: hi <= k < cfg.N() ==> cfg.ids[k] > id
      {
        var mid := (lo + hi) / 2;
        if cfg.ids[mid] == id {
          return Some(mid);
        } else if cfg.ids[mid] < id {
          lo := mid + 1;
        } else {
          hi := mid;
        }
      }
      return None;
    }

    /** Feeds a message into the replica. Messages from unknown replicas are ignored. Afterwards
        nothing that every replica has acknowledged is held, and what is retained is within the
        budget, but for our own decisions ahead. */
    method Receive(now: nat, message: Wire.Message)
      requires Valid() && Ready(cfg, state)
      requires forall from :: 0 <= from < cfg.N() && cfg.ids[from] == message.from ==>
        HonestMessage(cfg, state, from, message)
      modifies this, pool, dedup
      ensures polled == old(polled)
      ensures Valid() && Ready(cfg, state)
      ensures message.from !in cfg.ids || (cfg.me < cfg.N() && message.from == cfg.ids[cfg.me]) ==>
        state == old(state) && trail == old(trail)
      ensures forall from :: 0 <= from < cfg.N() && cfg.ids[from] == message.from && from != cfg.me ==>
        && CausedSince(from, message, old(trail) + [Header(from, message.decided)], trail)
        && from < |old(state.peerAcked)| && var noted := Acked(old(state), from, message.decided);
        && TookUp(cfg, noted, from, message, now, old(trail) + [Header(from, message.decided)], trail)
        && CaughtUp(message, old(state.contig), state.contig) && Asking(cfg, state, message.decided, now)
          && FreedAcked(cfg, state)
      ensures retainedBytes <= cfg.maxRetainedBytes + TotalBytes(OwnAhead(state))
    {
      hide Ran, Tracks, Ready, CausedSince, HonestMessage, Acked, OwnAhead, TotalBytes, FreedAcked, TookUp, Asking,
        LocalSince;
      Seated(cfg, rng, trail, state);
      AckedAre(state);
      var idx := IndexOf(message.from);
      if idx.None? || idx.value == cfg.me {
        WithinBudget();
        return;
      }
      var from := idx.value;
      DistinctIds(cfg, from);
      ghost var st, before := state, trail;
      NoteHeader(from, message.decided);
      ReadySame(cfg, st, state);
      HonestSame(cfg, st, state, from, message);
      ghost var noted := trail;
      Dispatch(now, from, message);
      ghost var since := trail;
      AskAndFree(now, from, message);
      CausedMore(from, message, noted, since, trail);
      TookUpMore(cfg, Acked(st, from, message.decided), from, message, now, noted, since, trail);
      WithinBudget();
    }

    /** The end of every message: asks for what the sender is ahead by, and frees. */
    method AskAndFree(now: nat, from: nat, message: Wire.Message)
      requires Valid() && Ready(cfg, state) && from < cfg.N() && from != cfg.me && cfg.me < cfg.N()
      modifies this
      ensures polled == old(polled)
      ensures Valid() && Ready(cfg, state) && CausedSince(from, message, old(trail), trail) && FreedAcked(cfg, state)
      ensures LocalSince(old(trail), trail) && state.contig == old(state.contig)
        && Asking(cfg, state, message.decided, now)
    {
      hide Ran, Tracks, Ready, CausedSince, LocalSince, Requested, Shrinks, Collected, SamePool, FreedAcked;
      ghost var st, before := state, trail;
      Seated(cfg, rng, trail, state);
      MaybeRequestLearn(now, from, message.decided);
      RequestedReady(cfg, st, from, now);
      RequestCaused(from, message, before, trail, now);
      RequestIsLocal(before, trail, from, now);
      Asked(cfg, st, state, from, message.decided, now);
      ghost var asked, since := state, trail;
      MaybeGc();
      LocalMore(before, since, trail);
      ReadyShrinks(cfg, asked, state);
      LocalIsCaused(from, message, since, trail);
      CausedMore(from, message, before, since, trail);
    }

    lemma AckedAre(st: State)
      requires Tracks(st)
      ensures peerAcked == st.peerAcked
    {
    }

    lemma WithinBudget()
      requires Valid() && Ready(cfg, state)
      ensures retainedBytes <= cfg.maxRetainedBytes + TotalBytes(OwnAhead(state))
    {
      hide Ran, StorageOk, LogOk, PoolOk, DeliveryOk, BudgetOk, AtRest, PendingOk, NoneAhead, Swept, OwnAhead;
      RanSound(cfg, rng, trail, state);
      SweptIsBounded(cfg, state);
    }

    /** Hands a message to the handler of its kind. */
    method Dispatch(now: nat, from: nat, message: Wire.Message)
      requires Valid() && Ready(cfg, state) && from < cfg.N() && from != cfg.me
        && HonestMessage(cfg, state, from, message)
      modifies this, pool, dedup
      ensures polled == old(polled)
      ensures Valid() && Ready(cfg, state) && CausedSince(from, message, old(trail), trail)
      ensures TookUp(cfg, old(state), from, message, now, old(trail), trail)
        && CaughtUp(message, old(state.contig), state.contig)
    {
      hide Ran, Tracks, CausedSince, LocalSince, Ready, RecordAt, CanLearn, TakesReply, TakesUp, IsChunk, Saturated,
        Answered;
      ghost var st, before := state, trail;
      LocalNone(trail);
      LocalIsCaused(from, message, trail, trail);
      Several(cfg, rng, trail, state, from);
      Seated(cfg, rng, trail, state);
      FloorsAre(state);
      assert before + [] == before;
      match message.payload
      case Record(slot, step, proposal) =>
        OnRecord(now, from, slot, step, proposal);
        if trail != before {
          RecordReady(cfg, rng, before, st, from, slot, step, proposal, now);
          CausedOne(from, message, before, RecordStep(from, slot, step, proposal, now));
        }
        LocalNone(trail);
      case RecordReply(slot, reqStep, step, first, priorAgg) =>
        OnRecordReply(now, from, slot, reqStep, step, first, priorAgg);
        ReplyCaused(from, message, before, trail, slot, reqStep, step, first, priorAgg, now);
      case Decide(slot, value) => LearnDecision(now, from, message, slot, value);
      case Forward(commands) => OnForward(now, from, message, commands);
      case Learn(fromSlot) =>
        OnLearn(from, fromSlot);
        if trail != before {
          AnsweredReady(cfg, st, from, fromSlot, trail[|before|].values);
          CausedOne(from, message, before, AnswerStep(from, fromSlot, trail[|before|].values));
        }
        LocalNone(trail);
      case LearnReply(firstSlot, values) => OnLearnReply(now, from, message, firstSlot, values);
      case Ping =>
    }

    // ---- timers ----

    method AnyBeyond() returns (r: bool)
      requires Tracks(state)
      ensures r == Beyond(state)
    {
      hide TotalBytes, TotalCost;
      var rest := slots.Keys;
      while rest != {}
        invariant rest <= slots.Keys && forall s :: s in slots && s !in rest ==> s <= contig
        decreases rest
      {
        var s :| s in rest;
        if s > contig {
          return true;
        }
        rest := rest - {s};
      }
      return false;
    }

    /** Observes the frontier slot when something needs it decided: pending commands, or
        slots beyond it that delivery is stuck behind. */
    method EnsureFrontierObserved(now: nat)
      requires Valid() && Ready(cfg, state)
      modifies this`slots, this`trail, this`state
      ensures Valid() && AtRest(cfg, state) && Swept(cfg, state) && PendingOk(state) && CalmFrontier(state)
      ensures LocalSince(old(trail), trail) && (cfg.N() == 1 ==> SoloFrontier(state, now))
      ensures
        if old(state.contig) + 1 !in old(state.slots) && (Beyond(old(state)) || old(state.pendingSince).Some?)
        then state == Observed(old(state), now) else state == old(state)
    {
      hide Ran, Tracks, AtRest, Swept, PendingOk, LocalSince, SoloFrontier, Observed, Beyond, NoneAhead, CalmFrontier,
        FrontierServed;
      LocalNone(trail);
      PoolIs(state);
      SlotsAre();
      PendingIs();
      if cfg.N() == 1 {
        ObservedSolo(cfg, rng, trail, state, now);
      }
      CalmIsServed(state);
      if contig + 1 in slots {
        CalmObserved(state);
        return;
      }
      var beyond := AnyBeyond();
      if beyond || pendingSince.Some? {
        RanObserve(cfg, rng, trail, state, now);
        ObservedReady(cfg, state, now);
        LocalOne(trail, ObserveStep(now));
        StoreObserved(now);
        Advance(ObserveStep(now), Observed(state, now));
      } else {
        CalmObserved(state);
      }
    }

    lemma PendingIs()
      requires Tracks(state)
      ensures pendingSince == state.pendingSince && learning == state.learning && lastPing == state.lastPing
    {
    }

    method StoreObserved(now: nat)
      requires Tracks(state)
      modifies this`slots
      ensures Tracks(Observed(state, now))
    {
      hide TotalBytes, TotalCost;
      slots := slots[contig + 1 := NewSlot(now)];
    }

    /** The slots whose hedging deadline has passed, lowest first. */
    method DueSlots(now: nat) returns (due: seq<Slot>)
      requires Tracks(state)
      ensures forall s :: s in due <==> Due(cfg, state, s, now)
      ensures forall j, k :: 0 <= j < k < |due| ==> due[j] < due[k]
    {
      hide TotalBytes, TotalCost, HedgeAt;
      due := [];
      var rest := slots.Keys;
      while rest != {}
        invariant rest <= slots.Keys
        invariant forall s :: s in due ==> Due(cfg, state, s, now) && s !in rest && forall r :: r in rest ==> s < r
        invariant forall s :: Due(cfg, state, s, now) ==> s in due || s in rest
        invariant forall j, k :: 0 <= j < k < |due| ==> due[j] < due[k]
        decreases rest
      {
        var s := LeastSlot(rest);
        assert forall k :: 0 <= k < |due| ==> due[k] in due;
        if s > contig && slots[s].proposer.Idle? && slots[s].recorder.Open? && now >= HedgeAt(cfg, slots[s]) {
          due := due + [s];
        }
        rest := rest - {s};
      }
    }

    static method LeastSlot(s: set<Slot>) returns (least: Slot)
      requires s != {}
      ensures least in s && forall k :: k in s ==> least <= k
    {
      least :| least in s;
      var rest := s - {least};
      while rest != {}
        invariant rest <= s && least in s && forall k :: k in s && k !in rest ==> least <= k
        decreases rest
      {
        var k :| k in rest;
        if k < least {
          least := k;
        }
        rest := rest - {k};
      }
    }

    /** Activates this replica's proposer for the slots whose hedging deadline has passed;
        the lowest takes the pending commands. */
    method HedgeActivateDue(now: nat)
      requires Valid() && AtRest(cfg, state) && Swept(cfg, state) && PendingOk(state)
        && (cfg.N() == 1 ==> SoloFrontier(state, now))
      modifies this, pool, dedup
      ensures polled == old(polled)
      ensures Valid() && AtRest(cfg, state) && Swept(cfg, state) && PendingOk(state) && LocalSince(old(trail), trail)
      ensures cfg.N() == 1 ==> NoneAhead(state)
      ensures cfg.N() > 1 ==> OpensMore(old(state), state, now) && IdlesServed(cfg, state, now)
      ensures cfg.N() > 1 && !Beyond(old(state)) ==> state.slots == old(state.slots)
      ensures forall s :: Due(cfg, old(state), s, now) ==>
        && Opened(old(trail), trail) && trail[|old(trail)|].slot <= s
          && Due(cfg, old(state), trail[|old(trail)|].slot, now)
        && FullBatch(cfg, old(state), trail[|old(trail)|].cmds)
      ensures (forall s :: !Due(cfg, old(state), s, now)) ==> state == Refreshed(old(state), now)
    {
      hide Ran, Tracks, AtRest, Swept, PendingOk, LocalSince, OpensMore, UnassignedIds, NoneAhead, HedgeAt, Takeable,
        Claimed, InOrder, IsFill,
        EligibleOf, SoloReady, SoloFrontier, IdlesServed, Refreshed, Driven, FullBatch;
      Seated(cfg, rng, trail, state);
      LocalNone(trail);
      OpensSame(state, state, now);
      HalfOf(state);
      var due := DueSlots(now);
      DueBeyond(cfg, state, due, now);
      if cfg.N() == 1 {
        LeaderIsDue(cfg, state, now);
        SoloFrontierIs(state, now);
        OnlyOneDue(cfg, state, due, now);
      }
      for i := 0 to |due|
        invariant polled == old(polled)
        invariant Valid() && AtRest(cfg, state) && Swept(cfg, state) && LocalSince(old(trail), trail)
        invariant HalfPending(state)
        invariant cfg.N() == 1 ==> |due| <= 1 && if i == 0 then state == old(state) else NoneAhead(state)
        invariant cfg.N() > 1 ==> OpensMore(old(state), state, now)
        invariant cfg.N() > 1 ==> forall j :: i <= j < |due| ==> Due(cfg, state, due[j], now)
        invariant cfg.N() > 1 ==>
          forall j :: 0 <= j < i ==> due[j] in state.slots && state.slots[due[j]].proposer.Running?
        invariant |due| == 0 ==> state == old(state)
        invariant
          if i == 0 then state == old(state) && trail == old(trail)
          else
            && Opened(old(trail), trail) && trail[|old(trail)|].slot == due[0]
            && FullBatch(cfg, old(state), trail[|old(trail)|].cmds)
      {
        ghost var st, before := state, trail;
        ActivateDue(now, due[i]);
        LocalMore(old(trail), before, trail);
        OpenedStays(old(trail), before, trail);
        if cfg.N() > 1 {
          OpensTwice(old(state), st, state, now);
          OthersStay(cfg, st, state, due, i, now);
        }
      }
      ghost var st, before := state, trail;
      if cfg.N() > 1 {
        NoneDueNow(cfg, old(state), state, due, now);
      } else {
        assert |due| == 0 ==> NoneAhead(state);
      }
      SettlePending(now);
      RefreshedIsPending(st, now);
      RefreshLeads(cfg, st, now);
      LocalOne(before, RefreshStep(now));
      LocalMore(old(trail), before, trail);
      if cfg.N() > 1 {
        IdlesStayServed(cfg, st, state, now);
        OpensTwice(old(state), st, state, now);
      }
    }

    /** One due slot is activated with the commands claimed for it. */
    method ActivateDue(now: nat, slot: Slot)
      requires Valid() && AtRest(cfg, state) && Swept(cfg, state) && Due(cfg, state, slot, now) && HalfPending(state)
      requires cfg.N() == 1 ==> SoloReady(state, slot)
      modifies this, pool, dedup
      ensures polled == old(polled)
      ensures Valid() && AtRest(cfg, state) && Swept(cfg, state) && LocalSince(old(trail), trail) && HalfPending(state)
      ensures Opened(old(trail), trail) && trail[|old(trail)|].slot == slot
        && FullBatch(cfg, old(state), trail[|old(trail)|].cmds)
      ensures cfg.N() == 1 ==> NoneAhead(state)
      ensures cfg.N() > 1 ==>
        OpensMore(old(state), state, now) && Driven(state, slot, now) && OneMoved(old(state), state, slot)
    {
      hide Ran, AtRest, Swept, PendingOk, LocalSince, OpensMore, UnassignedIds, NoneAhead, HedgeAt, Takeable, InOrder,
        IsFill,
        EligibleOf, SoloReady, Driven, OneMoved, TotalBytes, TotalCost, Assign, HalfPending, Eligible;
      Seated(cfg, rng, trail, state);
      ghost var st := state;
      var batch, order := TakeUnassignedBatch(slot);
      var value := Batch.EncodeBatch(batch);
      Activate(now, slot, value, batch, false);
      HalfStays(cfg, st, state, now);
    }

    /** Stops waiting once nothing is left to propose. */
    method SettlePending(now: nat)
      requires Valid() && HalfPending(state)
      modifies this`pendingSince, this`trail, this`state
      ensures Valid() && state == Refreshed(old(state), now) && trail == old(trail) + [RefreshStep(now)]
    {
      hide Ran, TotalBytes, TotalCost;
      RanRefresh(cfg, rng, trail, state, now);
      HalfRefresh(state, now);
      var any := pool.HasUnassigned();
      if !any {
        pendingSince := None;
      }
      Advance(RefreshStep(now), Refreshed(state, now));
    }

    method StaleSlots(now: nat) returns (stale: seq<Slot>)
      requires Tracks(state)
      ensures forall s :: s in stale <==> Stale(cfg, state, s, now)
      ensures forall j, k :: 0 <= j < k < |stale| ==> stale[j] < stale[k]
    {
      hide TotalBytes, TotalCost, SaturatingSub;
      stale := [];
      var rest := slots.Keys;
      while rest != {}
        invariant rest <= slots.Keys
        invariant forall s :: s in stale ==> Stale(cfg, state, s, now) && s !in rest && forall r :: r in rest ==> s < r
        invariant forall s :: Stale(cfg, state, s, now) ==> s in stale || s in rest
        invariant forall j, k :: 0 <= j < k < |stale| ==> stale[j] < stale[k]
        decreases rest
      {
        var s := LeastSlot(rest);
        assert forall k :: 0 <= k < |stale| ==> stale[k] in stale;
        if s > contig && slots[s].proposer.Running?
          && SaturatingSub(now, slots[s].proposer.run.sentAt) >= cfg.retransmitDelay {
          stale := stale + [s];
        }
        rest := rest - {s};
      }
    }

    /** Drives the proposers that have waited long enough for replies once more; what they
        send is what they sent before. */
    method RetransmitDue(now: nat)
      requires Valid() && AtRest(cfg, state) && Swept(cfg, state) && (cfg.N() == 1 ==> NoneAhead(state))
      modifies this, pool, dedup
      ensures polled == old(polled)
      ensures Valid() && AtRest(cfg, state) && Swept(cfg, state) && LocalSince(old(trail), trail)
      ensures cfg.N() == 1 ==> state == old(state)
      ensures cfg.N() > 1 ==> OpensMore(old(state), state, now) && RunsServed(cfg, state, now)
      ensures SamePool(old(state), state) && state.pendingSince == old(state.pendingSince)
        && state.maxOpen == old(state.maxOpen)
      ensures !Beyond(old(state)) ==> state == old(state)
      ensures (forall s :: !Stale(cfg, old(state), s, now)) ==> state == old(state)
      ensures forall s :: Stale(cfg, old(state), s, now) ==> JustSent(cfg, old(state), state, s)
    {
      hide Ran, Tracks, AtRest, Swept, LocalSince, OpensMore, Driven, NoneAhead, Stale, RunsServed, Beyond, SamePool,
        Extends, JustSent;
      Seated(cfg, rng, trail, state);
      LocalNone(trail);
      OpensSame(state, state, now);
      SamePoolSelf(state);
      ExtendsSame(state, state);
      var stale := StaleSlots(now);
      StaleListed(cfg, state, stale, now);
      assert stale != [] ==> Stale(cfg, old(state), stale[0], now);
      if cfg.N() == 1 {
        NoneStaleAlone(cfg, state, stale, now);
      }
      for i := 0 to |stale|
        invariant polled == old(polled)
        invariant Valid() && AtRest(cfg, state) && Swept(cfg, state) && LocalSince(old(trail), trail)
        invariant SamePool(old(state), state) && state.pendingSince == old(state.pendingSince)
          && OpensMore(old(state), state, now)
        invariant state.maxOpen == old(state.maxOpen)
        invariant forall j :: i <= j < |stale| ==> Stale(cfg, state, stale[j], now)
        invariant forall j :: 0 <= j < i ==> Driven(state, stale[j], now)
        invariant Extends(old(state), state) && forall j :: 0 <= j < i ==> JustSent(cfg, old(state), state, stale[j])
        invariant |stale| == 0 ==> state == old(state)
      {
        ghost var st, before := state, trail;
        StaleFolds(cfg, rng, trail, state, stale[i], now);
        Retransmit(now, stale[i]);
        LocalMore(old(trail), before, trail);
        OpensTwice(old(state), st, state, now);
        SamePoolTwice(old(state), st, state);
        OthersStale(cfg, st, state, stale, i, now);
        OthersSent(cfg, old(state), st, state, stale, i);
      }
      NoneStaleNow(cfg, old(state), state, stale, now);
    }

    method Retransmit(now: nat, slot: Slot)
      requires Valid() && AtRest(cfg, state) && Swept(cfg, state) && cfg.N() > 1 && CanFold(cfg, state, slot)
        && slot > state.contig
      modifies this, pool, dedup
      ensures polled == old(polled)
      ensures Valid() && AtRest(cfg, state) && Swept(cfg, state) && LocalSince(old(trail), trail)
      ensures OpensMore(old(state), state, now) && Driven(state, slot, now) && OneMoved(old(state), state, slot)
      ensures SamePool(old(state), state) && state.pendingSince == old(state.pendingSince)
        && state.maxOpen == old(state.maxOpen)
      ensures Extends(old(state), state) && JustSent(cfg, old(state), state, slot)
    {
      hide Ran, Tracks, AtRest, AtRestBut, Swept, LocalSince, OpensMore, Driven, OneMoved, Retransmitted, CanDrive,
        DriveReady, SamePool, Extends, JustSent;
      ghost var st, before := state, trail;
      FitsHere(cfg, state, slot);
      RetransmitReady(cfg, state, slot);
      RanRetransmit(cfg, rng, trail, state, slot);
      StoreRetransmit(slot);
      Advance(RetransmitStep(slot), Retransmitted(state, slot));
      LocalOne(before, RetransmitStep(slot));
      ghost var mid, since := state, trail;
      CanDriveHere(cfg, rng, trail, state, slot);
      Drive(now, slot, []);
      LocalMore(before, since, trail);
      SamePoolTwice(st, mid, state);
      SamePoolMeans(st, mid);
      RedrivenOpens(st, mid, state, slot, now);
      RetransmittedOne(st, mid, state, slot);
      ExtendsSame(st, mid);
      ExtendsOn(st, mid, state);
      SentLater(cfg, st, mid, state, slot);
    }

    method StoreRetransmit(slot: Slot)
      requires Tracks(state) && slot in state.slots && state.slots[slot].proposer.Running?
      modifies this`slots
      ensures Tracks(Retransmitted(state, slot))
    {
      hide TotalBytes, TotalCost;
      var run := slots[slot].proposer.run;
      slots := slots[slot := slots[slot].(proposer := Running(run.(needsSend := true)))];
    }

    /** Forwards again every command of ours that still rides nowhere and whose interval has
        passed: each exactly once, to the next target in its rotation, in batch-bounded
        messages. */
    method ReforwardDue(now: nat)
      requires Valid() && Ready(cfg, state)
      modifies this`actions, this`trail, this`state, pool
      ensures Valid() && Ready(cfg, state) && ForwardsServed(cfg, state, now) && LocalSince(old(trail), trail)
      ensures SameStorage(old(state), state) && state.pendingSince == old(state.pendingSince)
      ensures cfg.IsLeader() ==> state == old(state)
      ensures !cfg.IsLeader() ==>
        |trail| == |old(trail)| + 1 && trail[|old(trail)|].ForwardStep? && cfg.me < |cfg.ids|
          && var chunks := trail[|old(trail)|].chunks;
        && trail == old(trail) + [ForwardStep(chunks, now)]
        && Forwardable(cfg, old(state), chunks) && state == Reforwarded(cfg, old(state), chunks, now)
        && ForwardsEach(cfg, old(state), chunks, now) && forall id :: Rides(AllOf(chunks), id) <==>
          ForwardDue(cfg, old(state), id, now)
      ensures !cfg.IsLeader() ==>
        forall id :: ForwardDue(cfg, old(state), id, now) ==> ForwardedNow(cfg, old(state), state, id, now)
    {
      hide Ran, Ready, Tracks, ForwardsServed, LocalSince, Forwardable, ForwardDue, ForwardsEach, Rides, AllOf,
        Reforwarded, ForwardedNow;
      Seated(cfg, rng, trail, state);
      LocalNone(trail);
      if cfg.IsLeader() {
        LeaderForwards(cfg, state, now);
        return;
      }
      var chunks := Gather(now);
      RanForward(cfg, rng, trail, state, chunks, now);
      LocalOne(trail, ForwardStep(chunks, now));
      ForwardedServes(cfg, state, chunks, now);
      ForwardedReady(cfg, state, chunks, now);
      forall id | ForwardDue(cfg, state, id, now)
        ensures ForwardedNow(cfg, state, Reforwarded(cfg, state, chunks, now), id, now)
      {
        ReforwardMeans(cfg, state, chunks, now, id);
      }
      SendChunks(chunks, now);
      Advance(ForwardStep(chunks, now), Reforwarded(cfg, state, chunks, now));
    }

    /** The fields but for the pool's entries hold what the state says. */
    ghost predicate TracksBut(entries: map<CommandId, PoolEntry>)
      reads this, pool, dedup
    {
      Tracks(state.(pool := entries))
    }

    method SendChunks(chunks: seq<(nat, seq<Command>)>, now: nat)
      requires cfg.me < |cfg.ids| && TracksBut(Forwarded(state.pool, AllOf(chunks), now))
      modifies this`actions
      ensures Tracks(Reforwarded(cfg, state, chunks, now))
    {
      hide TotalBytes, TotalCost, AllOf, Forwarded, Rides;
      for c := 0 to |chunks|
        invariant actions == old(actions) + ChunkSends(cfg, state, chunks)[..c]
      {
        SendTo(chunks[c].0, Wire.Forward(chunks[c].1));
      }
      QueueGrows(state.actions, polled, ChunkSends(cfg, state, chunks));
    }

    method Gather(now: nat) returns (chunks: seq<(nat, seq<Command>)>)
      requires Tracks(state) && cfg.Valid() && cfg.N() > 1
      modifies pool
      ensures TracksBut(Forwarded(state.pool, AllOf(chunks), now)) && Forwardable(cfg, state, chunks)
      ensures ForwardsEach(cfg, state, chunks, now) && forall id :: Rides(AllOf(chunks), id) <==>
        ForwardDue(cfg, state, id, now)
    {
      hide TotalBytes, TotalCost, AllOf, Forwarded, Rides, Forwardable, Placed, OpenOk, InOrder, ForwardDue, DueOf,
        SendsEach;
      var ids := SortedIds();
      chunks := [];
      var open: Open, sizes: map<nat, nat> := map[], map[];
      ghost var done: seq<Command> := [];
      NothingPlaced(cfg, state, now);
      for k := 0 to |ids|
        invariant Placed(cfg, state, done, chunks, open) && Forwardable(cfg, state, chunks) && OpenOk(cfg, state, open)
        invariant sizes.Keys == open.Keys && forall t :: t in open ==> sizes[t] == Batch.CommandsSize(open[t])
        invariant TracksBut(Forwarded(state.pool, done, now)) && done == DueOf(cfg, state, ids[..k], now)
        invariant forall id :: Rides(done, id) <==> id in ids[..k] && ForwardDue(cfg, state, id, now)
      {
        ghost var before := done;
        NextInOrder(state.pool, ids, k);
        chunks, open, sizes, done := Place(ids[k], now, chunks, open, sizes, done);
        OneMorePlaced(cfg, state, before, done, ids, k, now);
      }
      assert ids[..|ids|] == ids;
      DueIsHeld(cfg, state, ids, now);
      chunks := Flush(chunks, open, done);
      ForwardedSame(state.pool, done, AllOf(chunks), now);
    }

    /** Puts one command, if it is due, into the message under construction for its target. */
    method Place(id: CommandId, now: nat, chunks0: seq<(nat, seq<Command>)>, open0: Open, sizes0: map<nat, nat>,
          ghost done0: seq<Command>)
      returns (chunks: seq<(nat, seq<Command>)>, open: Open, sizes: map<nat, nat>, ghost done: seq<Command>)
      requires cfg.Valid() && cfg.N() > 1 && TracksBut(Forwarded(state.pool, done0, now)) && id in state.pool
        && !Rides(done0, id)
      requires Placed(cfg, state, done0, chunks0, open0) && Forwardable(cfg, state, chunks0)
        && OpenOk(cfg, state, open0)
      requires sizes0.Keys == open0.Keys && forall t :: t in open0 ==> sizes0[t] == Batch.CommandsSize(open0[t])
      modifies pool
      ensures Placed(cfg, state, done, chunks, open) && Forwardable(cfg, state, chunks) && OpenOk(cfg, state, open)
      ensures sizes.Keys == open.Keys && forall t :: t in open ==> sizes[t] == Batch.CommandsSize(open[t])
      ensures TracksBut(Forwarded(state.pool, done, now))
      ensures if ForwardDue(cfg, state, id, now) then done == done0 + [Command(id, state.pool[id].data)]
        else done == done0
    {
      hide TotalBytes, TotalCost, AllOf, Forwarded, Rides, Forwardable, Placed, OpenOk, ForwardTarget, SaturatingSub,
        ChunkOk;
      chunks, open, sizes, done := chunks0, open0, sizes0, done0;
      ghost var cmd := Command(id, state.pool[id].data);
      ForwardedOne(state.pool, done0, cmd, now);
      var entry := pool.entries[id];
      if id.origin != cfg.ids[cfg.me] || id.boot != cfg.boot || entry.proposedIn.Some? {
        return;
      }
      if SaturatingSub(now, entry.lastForward) < cfg.ForwardInterval() {
        return;
      }
      var target := ForwardTarget(cfg, entry.forwardAttempts);
      chunks, open, sizes := AddTo(target, Command(id, entry.data), chunks0, open0, sizes0, done0);
      done := done0 + [cmd];
      TotalCostSame(pool.entries,
        pool.entries[id := entry.(lastForward := now, forwardAttempts := entry.forwardAttempts + 1)]);
      pool.entries := pool.entries[id := entry.(lastForward := now, forwardAttempts := entry.forwardAttempts + 1)];
    }

    method AddTo(target: nat, cmd: Command, chunks0: seq<(nat, seq<Command>)>, open0: Open, sizes0: map<nat, nat>,
          ghost done0: seq<Command>)
      returns (chunks: seq<(nat, seq<Command>)>, open: Open, sizes: map<nat, nat>)
      requires cfg.Valid() && cfg.N() > 1 && OwnUnassigned(cfg, state, cmd.id) && cmd.data == state.pool[cmd.id].data
      requires target == ForwardTarget(cfg, state.pool[cmd.id].forwardAttempts)
      requires Placed(cfg, state, done0, chunks0, open0) && Forwardable(cfg, state, chunks0)
        && OpenOk(cfg, state, open0)
      requires sizes0.Keys == open0.Keys && forall t :: t in open0 ==> sizes0[t] == Batch.CommandsSize(open0[t])
      ensures Placed(cfg, state, done0 + [cmd], chunks, open) && Forwardable(cfg, state, chunks)
        && OpenOk(cfg, state, open)
      ensures sizes.Keys == open.Keys && forall t :: t in open ==> sizes[t] == Batch.CommandsSize(open[t])
    {
      hide AllOf, Rides, Forwardable, Placed, OpenOk, ForwardTarget, ChunkOk, OwnUnassigned, Batch.CommandsSize;
      chunks, open, sizes := chunks0, open0, sizes0;
      NoSize();
      if target !in open {
        PlacedFresh(cfg, state, done0, chunks, open, target);
        OpenUpdate(cfg, state, open, target, []);
        open, sizes := open[target := []], sizes[target := 0];
      }
      var cost := |cmd.data| + COMMAND_WIRE_OVERHEAD;
      SizeAppend(open[target], cmd);
      if open[target] != [] && sizes[target] + cost > cfg.maxBatchBytes {
        OpenHas(cfg, state, open, target);
        PlacedFlush(cfg, state, done0, chunks, open, target);
        ForwardableAppend(cfg, state, chunks, target, open[target]);
        OpenUpdate(cfg, state, open, target, []);
        chunks := chunks + [(target, open[target])];
        open, sizes := open[target := []], sizes[target := 0];
        SizeAppend([], cmd);
      } else if open[target] != [] {
        OpenHas(cfg, state, open, target);
      }
      ChunkGrows(cfg, state, target, open[target], cmd);
      PlacedAdd(cfg, state, done0, chunks, open, target, cmd);
      OpenUpdate(cfg, state, open, target, open[target] + [cmd]);
      sizes := sizes[target := sizes[target] + cost];
      open := open[target := open[target] + [cmd]];
    }

    /** Closes the messages still under construction, in target order. */
    method Flush(chunks0: seq<(nat, seq<Command>)>, open0: Open, ghost done: seq<Command>) returns (chunks: seq<(nat,
          seq<Command>)>)
      requires Placed(cfg, state, done, chunks0, open0) && Forwardable(cfg, state, chunks0) && OpenOk(cfg, state, open0)
      ensures Forwardable(cfg, state, chunks) && SendsEach(cfg, state, done, chunks)
      ensures forall id :: Rides(done, id) <==> Rides(AllOf(chunks), id)
    {
      hide AllOf, Rides, Forwardable, Placed, OpenOk, ChunkOk, SendsEach;
      chunks := chunks0;
      ghost var open: Open := open0;
      for t := 0 to cfg.N()
        invariant Placed(cfg, state, done, chunks, open) && Forwardable(cfg, state, chunks) && OpenOk(cfg, state, open)
        invariant forall u :: u in open0 && u >= t ==> u in open && open[u] == open0[u]
        invariant open.Keys == open0.Keys && forall u :: u in open && u < t ==> open[u] == []
      {
        if t in open0 && open0[t] != [] {
          OpenHas(cfg, state, open, t);
          PlacedFlush(cfg, state, done, chunks, open, t);
          ForwardableAppend(cfg, state, chunks, t, open[t]);
          OpenUpdate(cfg, state, open, t, []);
          chunks := chunks + [(t, open0[t])];
          open := open[t := []];
        }
      }
      PlacedAll(cfg, state, done, chunks, open);
    }

    /** The other replicas that have advertised more than is delivered here. */
    method PeersAhead() returns (ahead: seq<nat>)
      requires Tracks(state) && |state.peerAcked| == cfg.N()
      ensures ahead == AheadBelow(state.peerAcked, state.contig, cfg.me, cfg.N())
    {
      hide TotalBytes, TotalCost;
      ahead := [];
      for idx := 0 to cfg.N()
        invariant ahead == AheadBelow(state.peerAcked, state.contig, cfg.me, idx)
      {
        if idx != cfg.me && peerAcked[idx] > contig {
          ahead := ahead + [idx];
        }
      }
    }

    /** Gives up on a Learn request that went unanswered, and asks the next in turn of the
        replicas that are ahead. */
    method LearnTick(now: nat)
      requires Valid() && Ready(cfg, state)
      modifies this`actions, this`learning, this`learnAttempts, this`trail, this`state
      ensures Valid() && Ready(cfg, state) && LearnServed(cfg, state, now) && LocalSince(old(trail), trail)
      ensures cfg.me < |cfg.ids| && |old(state.peerAcked)| == cfg.N() && state == LearnTicked(cfg, old(state), now)
      ensures Retries(cfg, old(state), now, state)
    {
      hide Ran, Tracks, Ready, LocalSince, LearnTimedOut, AskedNext, SaturatingSub, Retries;
      Seated(cfg, rng, trail, state);
      TickRetries(cfg, state, now);
      LocalNone(trail);
      PendingIs();
      if learning.Some? && SaturatingSub(now, learning.value.1) >= cfg.retransmitDelay {
        LocalOne(trail, TimeoutLearn);
        TimedOutReady(cfg, state);
        GiveUp();
      }
      ghost var before := trail;
      AskNext(now);
      LocalMore(old(trail), before, trail);
    }

    method AskNext(now: nat)
      requires Valid() && Ready(cfg, state) && !LearnExpired(cfg, state, now)
      modifies this`actions, this`learning, this`trail, this`state
      ensures Valid() && Ready(cfg, state) && LearnServed(cfg, state, now) && LocalSince(old(trail), trail)
      ensures cfg.me < |cfg.ids| && |old(state.peerAcked)| == cfg.N() && state == AskedNext(cfg, old(state), now)
    {
      hide Ran, Tracks, Ready, LocalSince, Requested, SaturatingSub;
      Seated(cfg, rng, trail, state);
      LocalNone(trail);
      LearnerIs();
      if learning.Some? {
        return;
      }
      var candidates := PeersAhead();
      if candidates == [] {
        NobodyAhead(cfg, state);
        return;
      }
      var idx := candidates[learnAttempts % |candidates|];
      assert idx in candidates;
      AckedAre(state);
      RequestedReady(cfg, state, idx, now);
      JustAsked(cfg, state, idx, now);
      LocalOne(trail, RequestStep(idx, now));
      MaybeRequestLearn(now, idx, peerAcked[idx]);
    }

    lemma LearnerIs()
      requires Tracks(state)
      ensures learning == state.learning && learnAttempts == state.learnAttempts
    {
    }

    method GiveUp()
      requires Valid() && state.learning.Some?
      modifies this`learning, this`learnAttempts, this`trail, this`state
      ensures Valid() && state == LearnTimedOut(old(state)) && trail == old(trail) + [TimeoutLearn]
    {
      hide Ran, TotalBytes, TotalCost;
      RanTimeout(cfg, rng, trail, state);
      learning := None;
      learnAttempts := learnAttempts + 1;
      Advance(TimeoutLearn, LearnTimedOut(state));
    }

    /** A heartbeat to every other replica. */
    method PingTick(now: nat)
      requires Valid() && Ready(cfg, state)
      modifies this`actions, this`lastPing, this`trail, this`state
      ensures Valid() && Ready(cfg, state) && PingServed(cfg, state, now) && LocalSince(old(trail), trail)
      ensures cfg.me < |cfg.ids|
      ensures
        if cfg.N() > 1 && SaturatingSub(now, old(state.lastPing)) >= PING_INTERVAL
          then state == Pinged(cfg, old(state), now) && OthersTold(cfg, |old(state.actions)|, state, Wire.Ping)
        else state == old(state)
      ensures SameStorage(old(state), state) && SamePool(old(state), state)
        && state.pendingSince == old(state.pendingSince)
      ensures state.learning == old(state.learning) && state.peerAcked == old(state.peerAcked)
    {
      hide Ran, Tracks, Ready, LocalSince, Pinged, OthersTold;
      Seated(cfg, rng, trail, state);
      LocalNone(trail);
      PendingIs();
      PingTells(cfg, state, now);
      if cfg.N() == 1 {
        return;
      }
      if SaturatingSub(now, lastPing) >= PING_INTERVAL {
        RanPing(cfg, rng, trail, state, now);
        PingedReady(cfg, state, now);
        LocalOne(trail, PingStep(now));
        StorePing(now);
        Advance(PingStep(now), Pinged(cfg, state, now));
      }
    }

    method StorePing(now: nat)
      requires Tracks(state) && cfg.me < |cfg.ids|
      modifies this`actions, this`lastPing
      ensures Tracks(Pinged(cfg, state, now))
    {
      hide TotalBytes, TotalCost, ToOthers;
      lastPing := now;
      QueueGrows(state.actions, polled, ToOthers(cfg, contig, PingTo()));
      Broadcast(PingTo());
    }

    /** The part of a tick about slots: the frontier is observed, due slots are activated,
        opened, and driven again. */
    method ServeSlots(now: nat)
      requires Valid() && Ready(cfg, state)
      modifies this, pool, dedup
      ensures polled == old(polled)
      ensures Valid() && Ready(cfg, state) && LocalSince(old(trail), trail)
      ensures SlotsServed(cfg, state, now) && FrontierServed(state)
      ensures cfg.IsLeader() ==> Saturated(cfg, state)
      ensures AtEase(cfg, old(state), now) ==> state == old(state)
    {
      hide Ran, Tracks, AtRest, Swept, PendingOk, NoneAhead, LocalSince, SlotsServed, FrontierServed, RideOk,
        SamePool, OpensMore, IdlesServed,
        RunsServed, CalmFrontier, SoloFrontier, Saturated, NoneEligible, UnassignedIds, Beyond, AtEase, Stale, Due,
        Refreshed, JustSent;
      Seated(cfg, rng, trail, state);
      if AtEase(cfg, state, now) {
        AtEaseIs(cfg, state, now);
        RefreshedSame(state, now);
      }
      EnsureFrontierObserved(now);
      ghost var observed, t1 := state, trail;
      HedgeActivateDue(now);
      LocalMore(old(trail), t1, trail);
      ghost var hedged, t2 := state, trail;
      MaybeOpenSlots(now);
      LocalMore(old(trail), t2, trail);
      ghost var led, t3 := state, trail;
      RetransmitDue(now);
      LocalMore(old(trail), t3, trail);
      SamePoolMeans(led, state);
      SamePending(led, state);
      if cfg.N() == 1 {
        AloneServed(cfg, state, now);
        Calls.LoneRides(cfg, rng, trail, state);
        AloneNonePending(cfg, rng, trail, state);
      } else {
        IdlesStayServed(cfg, hedged, led, now);
        IdlesStayServed(cfg, led, state, now);
        BothServed(cfg, state, now);
        if cfg.IsLeader() {
          SaturatedStays(cfg, led, state, now);
        }
        CalmStays(observed, hedged, now);
        CalmStays(hedged, led, now);
        CalmStays(led, state, now);
        CalmIsServed(state);
      }
    }

    /** Advances time-driven work. Afterwards no deadline lies at or before `now`: a caller
        sleeping exactly until each wakeup makes progress, and a leader leaves batchable work
        waiting only for the pipeline. */
    method Tick(now: nat)
      requires Valid() && Ready(cfg, state)
      modifies this, pool, dedup
      ensures polled == old(polled)
      ensures Valid() && Ready(cfg, state) && LocalSince(old(trail), trail)
      ensures now < U64_MAX ==> (forall d: nat :: IsDeadline(cfg, state, d) ==> d > now) && !HasWork(cfg, state, now)
      ensures cfg.IsLeader() ==> Saturated(cfg, state)
      ensures AtEase(cfg, old(state), now) ==> state == old(state)
    {
      hide Ran, Tracks, AtRest, Swept, PendingOk, NoneAhead, LocalSince, SlotsServed, FrontierServed, ForwardsServed,
        LearnServed, PingServed, IsDeadline, SamePool, SameStorage, Saturated, LearnTicked, AtEase, HasWork, Retries,
        OthersTold, ForwardDue, LearnExpired, Behind, Forwardable, ForwardsEach, Rides, AllOf, Reforwarded, Stale, Due;
      Seated(cfg, rng, trail, state);
      if AtEase(cfg, state, now) {
        AtEaseIs(cfg, state, now);
        AckedAre(state);
        AsksNothing(cfg, state, now);
      }
      ServeSlots(now);
      ghost var served, t1 := state, trail;
      ReforwardDue(now);
      if AtEase(cfg, old(state), now) && !cfg.IsLeader() {
        ReforwardsNothing(cfg, served, trail[|t1|].chunks, now);
      }
      LocalMore(old(trail), t1, trail);
      ghost var forwarded, t2 := state, trail;
      LearnTick(now);
      LocalMore(old(trail), t2, trail);
      ghost var learned, t3 := state, trail;
      PingTick(now);
      LocalMore(old(trail), t3, trail);
      if cfg.IsLeader() {
        SaturatedSame(cfg, forwarded, learned);
        SaturatedSame(cfg, learned, state);
      }
      if now < U64_MAX {
        TickServed(cfg, served, forwarded, learned, state, now);
        forall d: nat | IsDeadline(cfg, state, d) ensures d > now {
          ServedIsAhead(cfg, state, now, d);
        }
        AheadIsIdle(cfg, state, now);
      }
    }

    /** The earliest time at which `Tick` has scheduled work. */
    method NextWakeup() returns (earliest: Option<nat>)
      requires Valid()
      ensures Earliest(cfg, state, earliest) && WakesExactly(cfg, state, earliest)
    {
      hide Ran, Tracks, EarliestSlot, EarliestForward, Earliest, FrontierDue, LearnDue, PingDue, WakesExactly;
      Seated(cfg, rng, trail, state);
      var slotsDue := SlotWakeup();
      var forwardDue := ForwardWakeup();
      var frontierDue := FrontierWakeup();
      var learnDue := LearnWakeup();
      PendingIs();
      EarliestOfAll(cfg, state, slotsDue, forwardDue);
      earliest := Earlier(Earlier(slotsDue, forwardDue),
        Earlier(Earlier(frontierDue, learnDue), PingDue(cfg, lastPing)));
      EarliestIsExact(cfg, state, earliest);
    }

    method SlotWakeup() returns (due: Option<nat>)
      requires Tracks(state)
      ensures EarliestSlot(cfg, state, state.slots.Keys, due)
    {
      hide TotalBytes, TotalCost, SlotDeadline, SlotDue;
      due := None;
      var rest := slots.Keys;
      while rest != {}
        invariant rest <= slots.Keys && EarliestSlot(cfg, state, slots.Keys - rest, due)
        decreases rest
      {
        var s :| s in rest;
        OneMoreSlot(cfg, state, slots.Keys - rest, due, s);
        if s > contig {
          due := Earlier(due, SlotDue(cfg, slots[s]));
        }
        assert slots.Keys - (rest - {s}) == slots.Keys - rest + {s};
        rest := rest - {s};
      }
    }

    method ForwardWakeup() returns (due: Option<nat>)
      requires Tracks(state) && cfg.me < |cfg.ids|
      ensures EarliestForward(cfg, state, state.pool.Keys, due)
    {
      hide TotalBytes, TotalCost, ForwardDeadline, Saturate;
      due := None;
      var interval := cfg.ForwardInterval();
      var rest := pool.entries.Keys;
      while rest != {}
        invariant rest <= pool.entries.Keys && EarliestForward(cfg, state, pool.entries.Keys - rest, due)
        decreases rest
      {
        var id :| id in rest;
        var entry := pool.entries[id];
        OneMoreForward(cfg, state, pool.entries.Keys - rest, due, id);
        if id.origin == cfg.ids[cfg.me] && id.boot == cfg.boot && entry.proposedIn.None? && !cfg.IsLeader() {
          due := Earlier(due, Some(Saturate(entry.lastForward + interval)));
        }
        assert pool.entries.Keys - (rest - {id}) == pool.entries.Keys - rest + {id};
        rest := rest - {id};
      }
    }

    method FrontierWakeup() returns (due: Option<nat>)
      requires Tracks(state)
      ensures due == FrontierDue(state)
    {
      hide TotalBytes, TotalCost, Beyond;
      if contig + 1 in slots {
        return None;
      }
      var beyond := AnyBeyond();
      if pendingSince.Some? {
        return pendingSince;
      }
      return if beyond then Some(0) else None;
    }

    method LearnWakeup() returns (due: Option<nat>)
      requires Tracks(state) && |state.peerAcked| == cfg.N()
      ensures due == LearnDue(cfg, state)
    {
      hide TotalBytes, TotalCost, Saturate, Behind;
      if learning.Some? {
        return Some(Saturate(learning.value.1 + cfg.retransmitDelay));
      }
      var ahead := PeersAhead();
      AnyAhead(cfg, state, ahead);
      return if ahead != [] then Some(0) else None;
    }
  }
}
