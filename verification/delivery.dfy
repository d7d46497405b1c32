/** Delivery, exactly once. */
module Delivery {
  // What a replica delivers is a function of the decided prefix, each command once.

  import opened Types
  import opened Pooling
  import opened ReplicaState
  import opened ReplicaInvariant
  import opened Recorder
  import opened SlotLogic
  import opened Proposer

  type Log = map<Slot, Bytes>

  ghost predicate Filled(log: Log, k: nat) {
    forall s :: 1 <= s <= k ==> s in log
  }

  /** The delivered-command bookkeeping after the first `k` slots. */
  function DedupAfter(log: Log, k: nat): DedupMap
    requires Filled(log, k)
  {
    if k == 0 then map[] else Filter(DedupAfter(log, k - 1), Commands(log[k])).0
  }

  /** The commands slot `k` delivers. */
  function KeptAt(log: Log, k: nat): seq<Command>
    requires k >= 1 && Filled(log, k)
  {
    Filter(DedupAfter(log, k - 1), Commands(log[k])).1
  }

  /** The deliveries of the first `k` slots, in order. */
  function Expected(log: Log, k: nat): (r: seq<Action>)
    requires Filled(log, k)
    ensures |r| == k && forall j :: 0 <= j < k ==> r[j].Deliver? && r[j].slot == j + 1
  {
    if k == 0 then [] else Expected(log, k - 1) + [Deliver(k, KeptAt(log, k))]
  }

  function Deliveries(actions: seq<Action>): seq<Action> {
    if actions == [] then []
    else
      var a := actions[|actions| - 1];
      Deliveries(actions[..|actions| - 1]) + if a.Deliver? then [a] else []
  }

  lemma {:induction false} SendsDeliverNothing(actions: seq<Action>, more: seq<Action>)
    requires forall k :: 0 <= k < |more| ==> more[k].Send?
    ensures Deliveries(actions + more) == Deliveries(actions)
  {
    if more == [] {
      assert actions + more == actions;
    } else {
      var n := |more| - 1;
      SendsDeliverNothing(actions, more[..n]);
      assert (actions + more)[..|actions + more| - 1] == actions + more[..n];
    }
  }

  ghost predicate LogExtends(log: Log, more: Log) {
    forall s :: s in log ==> s in more && more[s] == log[s]
  }

  /** What is delivered depends on the decided prefix only. */
  lemma {:induction false} PrefixDetermines(log: Log, other: Log, k: nat)
    requires Filled(log, k) && Filled(other, k) && forall s :: 1 <= s <= k ==> log[s] == other[s]
    ensures Expected(log, k) == Expected(other, k) && DedupAfter(log, k) == DedupAfter(other, k)
  {
    hide Filter, Commands;
    if k > 0 {
      PrefixDetermines(log, other, k - 1);
    }
  }

  // ---- exactly once ----

  lemma {:induction false} DedupTight(log: Log, k: nat)
    requires Filled(log, k)
    ensures AllTight(DedupAfter(log, k))
  {
    hide DedupAfter, AllTight, Filter, Commands;
    if k == 0 {
      NoneDelivered(log);
    } else {
      DedupStep(log, k);
      DedupTight(log, k - 1);
      FilterTight(DedupAfter(log, k - 1), Commands(log[k]));
    }
  }

  lemma NoneDelivered(log: Log)
    ensures Filled(log, 0) && DedupAfter(log, 0) == map[] && AllTight(map[])
  {
  }

  ghost predicate Marks(d: DedupMap, id: CommandId) {
    OriginOf(d, id).Has(id.seqno)
  }

  /** A batch keeps no command delivered before, and none twice. */
  lemma {:induction false} FilterFresh(dedup: DedupMap, cmds: seq<Command>)
    requires AllTight(dedup)
    ensures forall k :: 0 <= k < |Filter(dedup, cmds).1| ==> !Marks(dedup, Filter(dedup, cmds).1[k].id)
    ensures forall j, k :: 0 <= j < k < |Filter(dedup, cmds).1| ==>
      Filter(dedup, cmds).1[j].id != Filter(dedup, cmds).1[k].id
  {
    if cmds != [] {
      var shorter := cmds[..|cmds| - 1];
      FilterFresh(dedup, shorter);
      var (before, kept) := Filter(dedup, shorter);
      var last := cmds[|cmds| - 1];
      FilterDelivers(dedup, shorter, last.id);
      if !Marks(before, last.id) {
        assert forall j :: 0 <= j < |kept| ==> kept[j].id != last.id by {
          assert !Rides(kept, last.id);
        }
      }
    }
  }

  /** Each batch's kept commands are commands of that batch. */
  lemma {:induction false} FilterSelects(dedup: DedupMap, cmds: seq<Command>, k: nat)
    requires k < |Filter(dedup, cmds).1|
    ensures Filter(dedup, cmds).1[k] in cmds
  {
    var shorter := cmds[..|cmds| - 1];
    var kept := Filter(dedup, shorter).1;
    if k < |kept| {
      FilterSelects(dedup, shorter, k);
    }
  }

  /** Every command of a batch counts as delivered afterwards, and nothing is forgotten. */
  lemma {:induction false} FilterMarks(dedup: DedupMap, cmds: seq<Command>, id: CommandId)
    requires AllTight(dedup)
    ensures Marks(Filter(dedup, cmds).0, id) <==> Marks(dedup, id) || Rides(cmds, id)
  {
    if cmds != [] {
      var shorter := cmds[..|cmds| - 1];
      FilterMarks(dedup, shorter, id);
      FilterTight(dedup, shorter);
      var last := cmds[|cmds| - 1];
      MarkedAdds(OriginOf(Filter(dedup, shorter).0, last.id), last.id.seqno);
      RidesAppend(shorter, last, id);
      assert cmds == shorter + [last];
    }
  }

  /** A command counts as delivered after `k` slots exactly when one of them holds it;
      sequence number 0 is never used. */
  /** The first place of a command in a batch, if it was not delivered before. */
  ghost predicate IsNew(dedup: DedupMap, cmds: seq<Command>, k: nat) {
    k < |cmds| && !Marks(dedup, cmds[k].id) && forall j :: 0 <= j < k ==> cmds[j].id != cmds[k].id
  }

  /** `kept` is `cmds` at these places, in ascending order. */
  ghost predicate Selects(cmds: seq<Command>, kept: seq<Command>, places: seq<nat>) {
    && |places| == |kept| && (forall m :: 0 <= m < |places| ==> places[m] < |cmds| && kept[m] == cmds[places[m]])
    && forall m, n :: 0 <= m < n < |places| ==> places[m] < places[n]
  }

  /** A batch keeps exactly what is new in it, in its own order. */
  lemma {:induction false} FilterIs(dedup: DedupMap, cmds: seq<Command>) returns (places: seq<nat>)
    requires AllTight(dedup)
    ensures Selects(cmds, Filter(dedup, cmds).1, places)
    ensures forall k: nat :: k in places <==> IsNew(dedup, cmds, k)
  {
    if cmds == [] {
      places := [];
    } else {
      var n := |cmds| - 1;
      var shorter, last := cmds[..n], cmds[n];
      places := FilterIs(dedup, shorter);
      var (before, kept) := Filter(dedup, shorter);
      FilterMarks(dedup, shorter, last.id);
      forall k: nat | k < n ensures IsNew(dedup, cmds, k) <==> IsNew(dedup, shorter, k) {
        assert shorter[k] == cmds[k];
      }
      LastIsNew(dedup, cmds);
      if !Marks(before, last.id) {
        NewPlace(shorter, kept, places, cmds, last);
        places := places + [n];
      } else {
        OldPlaces(shorter, kept, places, cmds);
      }
    }
  }

  lemma LastIsNew(dedup: DedupMap, cmds: seq<Command>)
    requires cmds != []
    ensures
      var n := |cmds| - 1;
      IsNew(dedup, cmds, n) <==> !Marks(dedup, cmds[n].id) && !Rides(cmds[..n], cmds[n].id)
  {
    var n := |cmds| - 1;
    if Rides(cmds[..n], cmds[n].id) {
      var k :| 0 <= k < n && cmds[..n][k].id == cmds[n].id;
      assert cmds[k].id == cmds[n].id;
    } else {
      forall j | 0 <= j < n ensures cmds[j].id != cmds[n].id {
        assert cmds[..n][j] == cmds[j];
      }
    }
  }

  lemma OldPlaces(shorter: seq<Command>, kept: seq<Command>, places: seq<nat>, cmds: seq<Command>)
    requires Selects(shorter, kept, places) && shorter <= cmds
    ensures Selects(cmds, kept, places)
  {
  }

  lemma NewPlace(shorter: seq<Command>, kept: seq<Command>, places: seq<nat>, cmds: seq<Command>, last: Command)
    requires Selects(shorter, kept, places) && cmds == shorter + [last]
    ensures Selects(cmds, kept + [last], places + [|shorter|])
  {
  }

  /** What a batch holds and was not delivered before, it delivers. */
  lemma NewIsKept(dedup: DedupMap, cmds: seq<Command>, id: CommandId) returns (c: nat)
    requires AllTight(dedup) && Rides(cmds, id) && !Marks(dedup, id)
    ensures c < |Filter(dedup, cmds).1| && Filter(dedup, cmds).1[c].id == id
  {
    hide Filter, Marks, AllTight;
    var k := FirstPlace(cmds, id);
    var places := FilterIs(dedup, cmds);
    assert IsNew(dedup, cmds, k);
    c :| 0 <= c < |places| && places[c] == k;
  }

  lemma FirstPlace(cmds: seq<Command>, id: CommandId) returns (k: nat)
    requires Rides(cmds, id)
    ensures k < |cmds| && cmds[k].id == id && forall j :: 0 <= j < k ==> cmds[j].id != id
  {
    k := 0;
    while cmds[k].id != id
      invariant k < |cmds| && forall j :: 0 <= j < k ==> cmds[j].id != id
      decreases |cmds| - k
    {
      k := k + 1;
    }
  }

  ghost predicate InSomeBatch(log: Log, k: nat, id: CommandId) {
    exists s :: 1 <= s <= k && s in log && Rides(Commands(log[s]), id)
  }

  lemma EmptyMarks(id: CommandId)
    ensures Marks(map[], id) <==> id.seqno == 0
  {
  }

  lemma {:induction false} DeliveredExactly(log: Log, k: nat, id: CommandId)
    requires Filled(log, k) && id.seqno >= 1
    ensures Marks(DedupAfter(log, k), id) <==> InSomeBatch(log, k, id)
  {
    hide Filter, Commands, Rides, Marks, AllTight;
    EmptyMarks(id);
    if k > 0 {
      DeliveredExactly(log, k - 1, id);
      DedupTight(log, k - 1);
      FilterMarks(DedupAfter(log, k - 1), Commands(log[k]), id);
      if InSomeBatch(log, k - 1, id) {
        var s :| 1 <= s <= k - 1 && s in log && Rides(Commands(log[s]), id);
        assert InSomeBatch(log, k, id);
      }
    }
  }

  lemma {:induction false} MarksStay(log: Log, j: nat, k: nat, id: CommandId)
    requires Filled(log, k) && j <= k && Marks(DedupAfter(log, j), id)
    ensures Marks(DedupAfter(log, k), id)
  {
    hide Filter, Commands, Rides, Marks, AllTight;
    if j < k {
      MarksStay(log, j, k - 1, id);
      DedupTight(log, k - 1);
      FilterMarks(DedupAfter(log, k - 1), Commands(log[k]), id);
    }
  }

  lemma FilterMarksKept(dedup: DedupMap, cmds: seq<Command>, a: nat)
    requires AllTight(dedup) && a < |Filter(dedup, cmds).1|
    ensures Marks(Filter(dedup, cmds).0, Filter(dedup, cmds).1[a].id)
  {
    hide Filter;
    var kept := Filter(dedup, cmds).1;
    FilterDelivers(dedup, cmds, kept[a].id);
    assert Rides(kept, kept[a].id);
  }

  lemma DedupStep(log: Log, k: nat)
    requires k >= 1 && Filled(log, k)
    ensures Filled(log, k - 1) && k in log && DedupAfter(log, k) == Filter(DedupAfter(log, k - 1), Commands(log[k])).0
    ensures KeptAt(log, k) == Filter(DedupAfter(log, k - 1), Commands(log[k])).1
  {
    hide Filter, Commands;
  }

  lemma KeptIsMarked(log: Log, j: nat, a: nat)
    requires j >= 1 && Filled(log, j) && a < |KeptAt(log, j)|
    ensures Marks(DedupAfter(log, j), KeptAt(log, j)[a].id)
  {
    hide *;
    DedupStep(log, j);
    DedupTight(log, j - 1);
    FilterMarksKept(DedupAfter(log, j - 1), Commands(log[j]), a);
  }

  /** Exactly once: two places of the delivered sequence never hold the same command. */
  lemma DeliveredOnce(log: Log, n: nat, j: nat, a: nat, k: nat, b: nat)
    requires Filled(log, n) && 1 <= j <= k <= n && (j < k || a < b)
    requires a < |KeptAt(log, j)| && b < |KeptAt(log, k)|
    ensures KeptAt(log, j)[a].id != KeptAt(log, k)[b].id
  {
    hide Filter, Commands, Rides, DedupAfter, AllTight;
    DedupTight(log, j - 1);
    DedupTight(log, k - 1);
    FilterFresh(DedupAfter(log, k - 1), Commands(log[k]));
    if j < k {
      var id := KeptAt(log, j)[a].id;
      KeptIsMarked(log, j, a);
      MarksStay(log, j, k - 1, id);
    }
  }

  // ---- every reachable state delivers what it should ----

  /** Nothing decided is lost: a command of a slot that was delivered is among the commands
      delivered in that slot or in an earlier one. */
  lemma {:induction false} DecidedIsDelivered(log: Log, n: nat, s: nat, id: CommandId) returns (t: nat, c: nat)
    requires Filled(log, n) && 1 <= s <= n && Rides(Commands(log[s]), id) && id.seqno >= 1
    ensures 1 <= t <= s && c < |KeptAt(log, t)| && KeptAt(log, t)[c].id == id
    decreases s
  {
    hide Filter, Commands, Marks, Rides;
    DedupTight(log, s - 1);
    if !Marks(DedupAfter(log, s - 1), id) {
      t := s;
      c := NewIsKept(DedupAfter(log, s - 1), Commands(log[s]), id);
    } else {
      DeliveredExactly(log, s - 1, id);
      var k := SomeBatch(log, s - 1, id);
      t, c := DecidedIsDelivered(log, n, k, id);
    }
  }

  lemma SomeBatch(log: Log, k: nat, id: CommandId) returns (s: nat)
    requires Filled(log, k) && InSomeBatch(log, k, id)
    ensures 1 <= s <= k && Rides(Commands(log[s]), id)
  {
    hide Commands, Rides;
    s :| 1 <= s <= k && Rides(Commands(log[s]), id);
  }

  ghost predicate DeliveryOk(st: State) {
    Filled(st.log, st.contig) && st.dedup == DedupAfter(st.log, st.contig)
      && Deliveries(st.actions) == Expected(st.log, st.contig)
  }

  /** Nothing was delivered, and what was decided stays. */
  ghost predicate DeliversNothing(st: State, next: State) {
    && next.contig == st.contig && next.dedup == st.dedup && LogExtends(st.log, next.log)
    && |st.actions| <= |next.actions| && next.actions[..|st.actions|] == st.actions
    && forall k :: |st.actions| <= k < |next.actions| ==> next.actions[k].Send?
  }

  lemma DeliversNothingKeeps(st: State, next: State)
    requires DeliveryOk(st) && DeliversNothing(st, next)
    ensures DeliveryOk(next)
  {
    PrefixDetermines(st.log, next.log, st.contig);
    var more := next.actions[|st.actions|..];
    assert next.actions == st.actions + more;
    SendsDeliverNothing(st.actions, more);
  }

  lemma DeliverKeeps(st: State)
    requires DeliveryOk(st) && LogOk(st) && st.contig + 1 in st.retained
    ensures DeliveryOk(DeliverNext(st))
  {
    hide Filter, Commands, DedupAfter, KeptAt, Without;
    var next := DeliverNext(st);
    var a := next.actions[|st.actions|];
    assert next.actions[..|next.actions| - 1] == st.actions;
    DedupStep(st.log, st.contig + 1);
    assert a == Deliver(st.contig + 1, KeptAt(st.log, st.contig + 1));
  }

  lemma ThenDelivers(a: State, b: State, c: State)
    requires DeliversNothing(a, b) && DeliversNothing(b, c)
    ensures DeliversNothing(a, c)
  {
    assert c.actions[..|a.actions|] == b.actions[..|a.actions|];
    forall k | |a.actions| <= k < |c.actions| ensures c.actions[k].Send? {
      if k < |b.actions| {
        assert c.actions[..|b.actions|][k] == b.actions[k];
      }
    }
  }

  lemma OnlySlotDelivers(st: State, next: State, slot: Slot)
    requires OnlySlot(st, next, slot) && SamePool(st, next) && next.actions == st.actions
    ensures DeliversNothing(st, next)
  {
  }

  lemma EmitDelivers(st: State, more: seq<Action>)
    requires forall k :: 0 <= k < |more| ==> more[k].Send?
    ensures DeliversNothing(st, Emit(st, more))
  {
    hide Emit;
  }

  lemma FreshInLog(cfg: Config, st: State, slot: Slot)
    requires StorageOk(cfg, st) && LogOk(st) && slot > st.gcFloor
      && (slot in st.slots ==> st.slots[slot].recorder.Open?)
    ensures slot !in st.log && slot !in st.retained
  {
  }

  lemma InstallDelivers(cfg: Config, st: State, slot: Slot, value: Bytes, mine: bool, now: nat)
    requires slot !in st.log && cfg.me < |cfg.ids|
    ensures DeliversNothing(st, Install(cfg, st, slot, value, mine, now))
  {
    hide PutSlot, ToOthers, Commands, Release, SlotOr, NodeOf;
  }

  lemma SettledDelivers(cfg: Config, st: State, slot: Slot, run: RunState, reaction: Reaction, now: nat)
    requires slot !in st.log && slot in st.slots && cfg.me < |cfg.ids|
    ensures DeliversNothing(st, Settled(cfg, st, slot, run, reaction, now))
  {
    hide Install, Kept, Moved, DeliversNothing, OnlySlot, SamePool;
    match reaction
    case Choose(value) => InstallDelivers(cfg, st, slot, value, true, now);
    case Quiet => OnlySlotDelivers(st, Kept(st, slot, run), slot);
    case Resend => OnlySlotDelivers(st, Moved(cfg, st, slot, run), slot);
  }

  lemma ReplyDelivers(cfg: Config, rng: Rng, st: State, slot: Slot, from: nat, reqStep: nat, step: nat,
        first: ReplyFirst, priorAgg: Option<Proposal>, now: nat)
    requires CanFold(cfg, st, slot) && from < cfg.N() && slot !in st.log
    ensures DeliversNothing(st, ReplyAt(cfg, rng, st, slot, from, reqStep, step, first, priorAgg, now))
  {
    hide FoldReply, Settled;
    match Reconstitute(st.slots[slot].proposer.run, from, reqStep, first)
    case None =>
    case Some(p) =>
      var (run, reaction) := FoldReply(st.slots[slot].proposer.run, cfg.MySeat(), now, DrawsAt(rng, st.drawn, cfg.N()),
          from, reqStep, step, p, priorAgg);
      SettledDelivers(cfg, st, slot, run, reaction, now);
  }

  lemma DriveDelivers(cfg: Config, rng: Rng, st: State, slot: Slot, now: nat)
    requires CanDrive(cfg, st, slot) && slot !in st.log
    ensures DeliversNothing(st, DriveAt(cfg, rng, st, slot, now))
  {
    hide FoldReply, Settled, OwnRecord, Emit, DeliversNothing, ToOthers, SamePool;
    var recorded := OwnRecord(cfg, st, slot, now);
    OnlySlotDelivers(st, recorded, slot);
    var summary := Summarize(recorded.slots[slot].recorder.isr);
    var step := st.slots[slot].proposer.run.step;
    var (run, reaction) := FoldReply(recorded.slots[slot].proposer.run, cfg.MySeat(), now,
      DrawsAt(rng, recorded.drawn, cfg.N()),
        cfg.me, step, summary.step, summary.first, summary.priorAgg);
    SettledDelivers(cfg, recorded, slot, run, reaction, now);
    var after := TakeReply(cfg, rng, recorded, slot, cfg.me, step, summary.step, summary.first, summary.priorAgg, now);
    EmitDelivers(after, DriveSends(cfg, after, slot));
    ThenDelivers(st, recorded, after);
    ThenDelivers(st, after, DriveAt(cfg, rng, st, slot, now));
  }

  lemma RecordDelivers(cfg: Config, st: State, from: nat, slot: Slot, step: nat, proposal: Proposal, now: nat)
    requires CanRecord(cfg, st, from, slot, step)
    ensures DeliversNothing(st, RecordAt(cfg, st, from, slot, step, proposal, now))
  {
    hide Recorded, Emit;
  }

  lemma OpenDelivers(cfg: Config, rng: Rng, st: State, slot: Slot, cmds: seq<Command>, asLeader: bool, now: nat)
    requires cfg.me < |cfg.ids|
    ensures DeliversNothing(st, OpenSlot(cfg, rng, st, slot, cmds, asLeader, now))
  {
    hide PutSlot, Assign, SlotOr, NodeOf, DrawsAt;
  }

  lemma SlotStepKeepsDelivery(cfg: Config, rng: Rng, st: State, m: Micro)
    requires StorageOk(cfg, st) && LogOk(st) && DeliveryOk(st) && IsSlotStep(m) && SlotsEnabled(cfg, st, m)
    ensures DeliveryOk(MoveSlots(cfg, rng, st, m))
    ensures m.DeliverStep? || DeliversNothing(st, MoveSlots(cfg, rng, st, m))
  {
    hide Takeable, TotalBytes, RecordAt, ReplyAt, DriveAt, OpenSlot, Install, Least, StorageOk, LogOk, Retransmitted,
      Observed,
      DeliverNext, CanRecord, CanOpen, SameStorage, DeliveryOk, DeliversNothing;
    var next := MoveSlots(cfg, rng, st, m);
    match m {
      case RecordStep(from, slot, step, proposal, now) => RecordDelivers(cfg, st, from, slot, step, proposal, now);
      case ReplyStep(from, slot, reqStep, step, first, priorAgg, now) =>
        RunningNotInLog(cfg, st, slot);
        ReplyDelivers(cfg, rng, st, slot, from, reqStep, step, first, priorAgg, now);
      case DriveStep(slot, now) =>
        RunningNotInLog(cfg, st, slot);
        DriveDelivers(cfg, rng, st, slot, now);
      case RetransmitStep(slot) => OnlySlotDelivers(st, next, slot);
      case OpenStep(slot, cmds, asLeader, now) => OpenDelivers(cfg, rng, st, slot, cmds, asLeader, now);
      case LearnStep(slot, value, now) =>
        FreshInLog(cfg, st, slot);
        InstallDelivers(cfg, st, slot, value, false, now);
      case DeliverStep => DeliverKeeps(st);
      case FreeStep => FreeDelivers(st);
      case EvictStep => FreeDelivers(st);
      case ObserveStep(now) => OnlySlotDelivers(st, next, st.contig + 1);
    }
    if !m.DeliverStep? {
      DeliversNothingKeeps(st, next);
    }
  }

  lemma FreeDelivers(st: State)
    ensures DeliversNothing(st, FreeNext(st))
  {
  }

  lemma RunningNotInLog(cfg: Config, st: State, slot: Slot)
    requires StorageOk(cfg, st) && LogOk(st) && CanFold(cfg, st, slot)
    ensures slot !in st.log
  {
    SlotFacts(cfg, st, slot);
  }

  lemma RestDelivers(cfg: Config, st: State, m: Micro)
    requires !IsSlotStep(m) && RestEnabled(cfg, st, m)
    ensures DeliversNothing(st, MoveRest(cfg, st, m))
  {
    hide TotalCost, IsChunk, Forwardable, Known, IsDelivered, Acked, SelfAcked, Submitted, Pooled, Reforwarded,
      Refreshed, Requested, Answered, LearnEnded, LearnTimedOut, Pinged, DeliversNothing;
    var next := MoveRest(cfg, st, m);
    if m.SubmitStep? {
      SubmitDelivers(cfg, st, m.data, m.now);
    } else if m.ForwardStep? {
      ForwardDelivers(cfg, st, m.chunks, m.now);
    } else if m.RequestStep? || m.AnswerStep? || m.PingStep? {
      SendsDeliver(cfg, st, m);
    } else {
      QuietDelivers(st, next);
    }
  }

  lemma QuietDelivers(st: State, next: State)
    requires SameStorage(st, next) && next.actions == st.actions && next.dedup == st.dedup
    ensures DeliversNothing(st, next)
  {
  }

  lemma SubmitDelivers(cfg: Config, st: State, data: Bytes, now: nat)
    requires cfg.me < |cfg.ids|
    ensures DeliversNothing(st, Submitted(cfg, st, data, now))
  {
    hide Emit, OwnId;
  }

  lemma ForwardDelivers(cfg: Config, st: State, chunks: seq<(nat, seq<Command>)>, now: nat)
    requires cfg.me < |cfg.ids|
    ensures DeliversNothing(st, Reforwarded(cfg, st, chunks, now))
  {
    hide Emit, AllOf, Forwarded;
  }

  lemma SendsDeliver(cfg: Config, st: State, m: Micro)
    requires (m.RequestStep? || m.AnswerStep? || m.PingStep?) && RestEnabled(cfg, st, m)
    ensures DeliversNothing(st, MoveRest(cfg, st, m))
  {
    hide Emit, ToOthers, IsChunk, Submitted, Pooled, Reforwarded, Refreshed, LearnEnded, LearnTimedOut, Acked,
      SelfAcked;
  }

  /** Every step keeps the deliveries what the decided prefix says. */
  lemma StepKeepsDelivery(cfg: Config, rng: Rng, st: State, m: Micro)
    requires StorageOk(cfg, st) && LogOk(st) && DeliveryOk(st) && Enabled(cfg, st, m)
    ensures DeliveryOk(Apply(cfg, rng, st, m))
    ensures m.DeliverStep? || DeliversNothing(st, Apply(cfg, rng, st, m))
  {
    hide StorageOk, LogOk, SlotsEnabled, MoveSlots, RestEnabled, MoveRest, DeliveryOk, DeliversNothing;
    if IsSlotStep(m) {
      SlotStepKeepsDelivery(cfg, rng, st, m);
    } else {
      RestDelivers(cfg, st, m);
      DeliversNothingKeeps(st, MoveRest(cfg, st, m));
    }
  }
}
