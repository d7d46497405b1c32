/** The retention budget. */
module Retention {
  // How much a replica retains is bounded: remote values decided ahead never exceed the budget.

  import opened Types
  import opened Recorder
  import opened SlotLogic
  import opened Proposer
  import opened Pooling
  import opened ReplicaState
  import opened ReplicaInvariant
  import opened Delivery

  // ---- sums over parts ----

  ghost function Part(values: map<Slot, Bytes>, keep: set<Slot>): map<Slot, Bytes> {
    map s | s in values && s in keep :: values[s]
  }

  lemma {:induction false} PartBytes(values: map<Slot, Bytes>, keep: set<Slot>)
    ensures TotalBytes(values) == TotalBytes(Part(values, keep)) + TotalBytes(values - keep)
    decreases |values|
  {
    hide TotalBytes;
    if values == map[] {
      assert Part(values, keep) == map[] && values - keep == map[];
      NoTotal();
    } else {
      var k :| k in values;
      var rest := values - {k};
      PartBytes(rest, keep);
      BytesSplit(values, k);
      if k in keep {
        BytesSplit(Part(values, keep), k);
        assert Part(values, keep) - {k} == Part(rest, keep);
        assert values - keep == rest - keep;
      } else {
        BytesSplit(values - keep, k);
        assert Part(values, keep) == Part(rest, keep);
        assert values - keep - {k} == rest - keep;
      }
    }
  }

  lemma NoTotal()
    ensures TotalBytes(map[]) == 0
  {
    assert Sizes(map[]) == map[];
  }

  lemma BytesSplit(values: map<Slot, Bytes>, k: Slot)
    requires k in values
    ensures TotalBytes(values) == |values[k]| + TotalBytes(values - {k})
  {
    SumSplit(Sizes(values), k);
    assert Sizes(values) - {k} == Sizes(values - {k});
  }

  /** Part of what is retained holds no more bytes than all of it. */
  lemma SubsetBytes(part: map<Slot, Bytes>, whole: map<Slot, Bytes>)
    requires forall s :: s in part ==> s in whole && whole[s] == part[s]
    ensures TotalBytes(part) <= TotalBytes(whole)
  {
    PartBytes(whole, part.Keys);
    assert Part(whole, part.Keys) == part;
  }

  // ---- decided ahead ----

  /** Values decided by others that wait beyond the slot to be delivered next. */
  ghost function RemoteAhead(st: State): map<Slot, Bytes> {
    map s | s in st.retained && s > st.contig + 1 && s !in st.own :: st.retained[s]
  }

  /** Our own decisions still above the frontier. */
  ghost function OwnAhead(st: State): map<Slot, Bytes> {
    map s | s in st.retained && s > st.contig && s in st.own :: st.retained[s]
  }

  ghost predicate BudgetOk(cfg: Config, st: State) {
    TotalBytes(RemoteAhead(st)) <= cfg.maxRetainedBytes
  }

  lemma LessAhead(cfg: Config, st: State, next: State)
    requires BudgetOk(cfg, st)
    requires forall s :: s in RemoteAhead(next) ==> s in RemoteAhead(st) && RemoteAhead(st)[s] == RemoteAhead(next)[s]
    ensures BudgetOk(cfg, next)
  {
    SubsetBytes(RemoteAhead(next), RemoteAhead(st));
  }

  lemma SameAhead(cfg: Config, st: State, next: State)
    requires BudgetOk(cfg, st) && next.contig == st.contig && next.retained == st.retained && next.own == st.own
    ensures BudgetOk(cfg, next)
  {
    assert RemoteAhead(next) == RemoteAhead(st);
  }

  lemma InstallKeepsBudget(cfg: Config, st: State, slot: Slot, value: Bytes, mine: bool, now: nat)
    requires BudgetOk(cfg, st) && cfg.me < |cfg.ids| && slot !in st.retained
    requires !mine && slot > st.contig + 1 ==> TotalBytes(st.retained) + |value| <= cfg.maxRetainedBytes
    ensures BudgetOk(cfg, Install(cfg, st, slot, value, mine, now))
  {
    hide PutSlot, Emit, ToOthers, Commands, Release, NodeOf, SlotOr, TotalBytes;
    var next := Install(cfg, st, slot, value, mine, now);
    assert next.retained == st.retained[slot := value] && next.contig == st.contig;
    if !mine && slot > st.contig + 1 {
      SubsetBytes(RemoteAhead(next), next.retained);
      BytesSplit(next.retained, slot);
      assert next.retained - {slot} == st.retained;
    } else {
      LessAhead(cfg, st, next);
    }
  }

  lemma DeliverKeepsBudget(cfg: Config, st: State)
    requires BudgetOk(cfg, st) && st.contig + 1 in st.retained
    ensures BudgetOk(cfg, DeliverNext(st))
  {
    hide Filter, Commands, Without;
    LessAhead(cfg, st, DeliverNext(st));
  }

  lemma FreeKeepsBudget(cfg: Config, st: State)
    requires BudgetOk(cfg, st)
    ensures BudgetOk(cfg, FreeNext(st))
  {
    LessAhead(cfg, st, FreeNext(st));
  }

  lemma SettledKeepsBudget(cfg: Config, st: State, slot: Slot, run: RunState, reaction: Reaction, now: nat)
    requires BudgetOk(cfg, st) && cfg.me < |cfg.ids| && slot in st.slots && slot !in st.retained
    ensures BudgetOk(cfg, Settled(cfg, st, slot, run, reaction, now))
  {
    hide Install, Kept, Moved, BudgetOk, SamePool;
    match reaction
    case Choose(value) => InstallKeepsBudget(cfg, st, slot, value, true, now);
    case Quiet => SameAhead(cfg, st, Kept(st, slot, run));
    case Resend => SameAhead(cfg, st, Moved(cfg, st, slot, run));
  }

  lemma ReplyKeepsBudget(cfg: Config, rng: Rng, st: State, slot: Slot, from: nat, reqStep: nat, step: nat,
        first: ReplyFirst, priorAgg: Option<Proposal>, now: nat)
    requires BudgetOk(cfg, st) && CanFold(cfg, st, slot) && from < cfg.N() && slot !in st.retained
    ensures BudgetOk(cfg, ReplyAt(cfg, rng, st, slot, from, reqStep, step, first, priorAgg, now))
  {
    hide FoldReply, Settled, BudgetOk;
    match Reconstitute(st.slots[slot].proposer.run, from, reqStep, first)
    case None =>
    case Some(p) =>
      var (run, reaction) := FoldReply(st.slots[slot].proposer.run, cfg.MySeat(), now, DrawsAt(rng, st.drawn, cfg.N()),
          from, reqStep, step, p, priorAgg);
      SettledKeepsBudget(cfg, st, slot, run, reaction, now);
  }

  lemma DriveKeepsBudget(cfg: Config, rng: Rng, st: State, slot: Slot, now: nat)
    requires BudgetOk(cfg, st) && CanDrive(cfg, st, slot) && slot !in st.retained
    ensures BudgetOk(cfg, DriveAt(cfg, rng, st, slot, now))
  {
    hide FoldReply, Settled, OwnRecord, Emit, ToOthers, SamePool, BudgetOk;
    var recorded := OwnRecord(cfg, st, slot, now);
    SameAhead(cfg, st, recorded);
    var summary := Summarize(recorded.slots[slot].recorder.isr);
    var step := st.slots[slot].proposer.run.step;
    var (run, reaction) := FoldReply(recorded.slots[slot].proposer.run, cfg.MySeat(), now,
      DrawsAt(rng, recorded.drawn, cfg.N()),
        cfg.me, step, summary.step, summary.first, summary.priorAgg);
    SettledKeepsBudget(cfg, recorded, slot, run, reaction, now);
    var after := TakeReply(cfg, rng, recorded, slot, cfg.me, step, summary.step, summary.first, summary.priorAgg, now);
    SameAhead(cfg, after, DriveAt(cfg, rng, st, slot, now));
  }

  lemma RecordKeepsBudget(cfg: Config, st: State, from: nat, slot: Slot, step: nat, proposal: Proposal, now: nat)
    requires BudgetOk(cfg, st) && CanRecord(cfg, st, from, slot, step)
    ensures BudgetOk(cfg, RecordAt(cfg, st, from, slot, step, proposal, now))
  {
    hide Recorded, Emit, BudgetOk;
    SameAhead(cfg, st, RecordAt(cfg, st, from, slot, step, proposal, now));
  }

  lemma OpenKeepsBudget(cfg: Config, rng: Rng, st: State, slot: Slot, cmds: seq<Command>, asLeader: bool, now: nat)
    requires BudgetOk(cfg, st) && cfg.me < |cfg.ids|
    ensures BudgetOk(cfg, OpenSlot(cfg, rng, st, slot, cmds, asLeader, now))
  {
    hide PutSlot, Assign, SlotOr, NodeOf, DrawsAt, BudgetOk;
    SameAhead(cfg, st, OpenSlot(cfg, rng, st, slot, cmds, asLeader, now));
  }

  lemma RunningNotRetained(cfg: Config, st: State, slot: Slot)
    requires StorageOk(cfg, st) && CanFold(cfg, st, slot)
    ensures slot !in st.retained
  {
    SlotFacts(cfg, st, slot);
  }

  lemma SlotStepKeepsBudget(cfg: Config, rng: Rng, st: State, m: Micro)
    requires StorageOk(cfg, st) && LogOk(st) && BudgetOk(cfg, st) && IsSlotStep(m) && SlotsEnabled(cfg, st, m)
    ensures BudgetOk(cfg, MoveSlots(cfg, rng, st, m))
  {
    hide Takeable, TotalBytes, RecordAt, ReplyAt, DriveAt, OpenSlot, Install, Least, StorageOk, LogOk, Retransmitted,
      Observed,
      DeliverNext, FreeNext, CanRecord, CanOpen, SameStorage, BudgetOk;
    var next := MoveSlots(cfg, rng, st, m);
    match m
    case RecordStep(from, slot, step, proposal, now) => RecordKeepsBudget(cfg, st, from, slot, step, proposal, now);
    case ReplyStep(from, slot, reqStep, step, first, priorAgg, now) =>
      RunningNotRetained(cfg, st, slot);
      ReplyKeepsBudget(cfg, rng, st, slot, from, reqStep, step, first, priorAgg, now);
    case DriveStep(slot, now) =>
      RunningNotRetained(cfg, st, slot);
      DriveKeepsBudget(cfg, rng, st, slot, now);
    case RetransmitStep(slot) => SameAhead(cfg, st, next);
    case OpenStep(slot, cmds, asLeader, now) => OpenKeepsBudget(cfg, rng, st, slot, cmds, asLeader, now);
    case LearnStep(slot, value, now) =>
      FreshInLog(cfg, st, slot);
      InstallKeepsBudget(cfg, st, slot, value, false, now);
    case DeliverStep => DeliverKeepsBudget(cfg, st);
    case FreeStep => FreeKeepsBudget(cfg, st);
    case EvictStep => FreeKeepsBudget(cfg, st);
    case ObserveStep(now) => SameAhead(cfg, st, next);
  }

  /** No step lets remote values decided ahead exceed the budget. */
  lemma StepKeepsBudget(cfg: Config, rng: Rng, st: State, m: Micro)
    requires StorageOk(cfg, st) && LogOk(st) && BudgetOk(cfg, st) && Enabled(cfg, st, m)
    ensures BudgetOk(cfg, Apply(cfg, rng, st, m))
  {
    hide StorageOk, LogOk, SlotsEnabled, MoveSlots, RestEnabled, MoveRest, BudgetOk;
    if IsSlotStep(m) {
      SlotStepKeepsBudget(cfg, rng, st, m);
    } else {
      SameAhead(cfg, st, MoveRest(cfg, st, m));
    }
  }

  /** Delivery and freeing ran to their end: nothing more to deliver, and past the budget
      nothing delivered is left to free. */
  ghost predicate Swept(cfg: Config, st: State) {
    && st.contig + 1 !in st.retained
    && (TotalBytes(st.retained) <= cfg.maxRetainedBytes || forall s :: s in st.retained ==> s > st.contig)
  }

  /** Then what is retained is within the budget, plus our own decisions above the frontier. */
  lemma SweptIsBounded(cfg: Config, st: State)
    requires BudgetOk(cfg, st) && Swept(cfg, st)
    ensures TotalBytes(st.retained) <= cfg.maxRetainedBytes + TotalBytes(OwnAhead(st))
  {
    if TotalBytes(st.retained) > cfg.maxRetainedBytes {
      PartBytes(st.retained, st.own);
      assert Part(st.retained, st.own) == OwnAhead(st);
      assert st.retained - st.own == RemoteAhead(st);
    }
  }
}
