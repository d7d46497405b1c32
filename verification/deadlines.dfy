/** When a replica next has scheduled work to do, and that serving it moves every deadline on. */
module Deadlines {
  import opened Types
  import opened Pooling
  import opened ReplicaState
  import opened ReplicaInvariant
  import opened ReplicaRuns
  import opened ReplicaMoves
  import opened ReplicaRest
  import opened Retention
  import opened Delivery
  import opened Riding
  import Batch
  import Encoding

  /** When a slot that sees no progress becomes due for our proposer: position `k` in the
      schedule waits `k` hedging delays. */
  function HedgeAt(cfg: Config, s: SlotState): nat {
    Saturate((if s.firstObserved > s.lastProgress then s.firstObserved
      else s.lastProgress) + Saturate(cfg.me * cfg.hedgeDelay))
  }

  /** When an undecided slot is next due: a running proposer to be driven again, an idle one
      to be activated. */
  function SlotDue(cfg: Config, s: SlotState): Option<nat> {
    match s.proposer
    case Running(run) => Some(Saturate(run.sentAt + cfg.retransmitDelay))
    case Idle => if s.recorder.Open? then Some(HedgeAt(cfg, s)) else None
    case Done => None
  }

  ghost predicate SlotDeadline(cfg: Config, st: State, s: Slot, d: nat) {
    s in st.slots && s > st.contig && SlotDue(cfg, st.slots[s]) == Some(d)
  }

  /** An unobserved frontier slot is due as soon as something needs it decided. */
  ghost function FrontierDue(st: State): Option<nat> {
    if st.contig + 1 in st.slots then None
    else if st.pendingSince.Some? then st.pendingSince
    else if Beyond(st) then Some(0)
    else None
  }

  ghost predicate ForwardDeadline(cfg: Config, st: State, id: CommandId, d: nat) {
    OwnUnassigned(cfg, st, id) && !cfg.IsLeader() && d == Saturate(st.pool[id].lastForward + cfg.ForwardInterval())
  }

  /** Someone else has advertised more than we have delivered. */
  ghost predicate Behind(cfg: Config, st: State) {
    exists k :: 0 <= k < |st.peerAcked| && k != cfg.me && st.peerAcked[k] > st.contig
  }

  ghost function LearnDue(cfg: Config, st: State): Option<nat> {
    if st.learning.Some? then Some(Saturate(st.learning.value.1 + cfg.retransmitDelay))
    else if Behind(cfg, st) then Some(0)
    else None
  }

  function PingDue(cfg: Config, lastPing: nat): Option<nat> {
    if cfg.N() > 1 then Some(Saturate(lastPing + PING_INTERVAL)) else None
  }

  ghost predicate IsDeadline(cfg: Config, st: State, d: nat) {
    || (exists s :: SlotDeadline(cfg, st, s, d))
    || FrontierDue(st) == Some(d)
    || (exists id :: ForwardDeadline(cfg, st, id, d))
    || LearnDue(cfg, st) == Some(d)
    || PingDue(cfg, st.lastPing) == Some(d)
  }

  // ---- what each part of a tick achieves ----

  /** No slot is due for activation or retransmission at `now`. */
  ghost predicate SlotServed(cfg: Config, st: State, s: Slot, now: nat)
    requires s in st.slots
  {
    s > st.contig ==>
      match st.slots[s].proposer
      case Running(run) => SaturatingSub(now, run.sentAt) < cfg.retransmitDelay
      case Idle => st.slots[s].recorder.Open? ==> now < HedgeAt(cfg, st.slots[s])
      case Done => true
  }

  ghost predicate SlotsServed(cfg: Config, st: State, now: nat) {
    forall s :: s in st.slots ==> SlotServed(cfg, st, s, now)
  }

  /** The frontier is observed, or nothing needs it. */
  ghost predicate FrontierServed(st: State) {
    st.contig + 1 in st.slots || (st.pendingSince.None? && !Beyond(st))
  }

  ghost predicate ForwardsServed(cfg: Config, st: State, now: nat) {
    !cfg.IsLeader() ==> forall id :: OwnUnassigned(cfg, st, id) ==>
      SaturatingSub(now, st.pool[id].lastForward) < cfg.ForwardInterval()
  }

  ghost predicate LearnServed(cfg: Config, st: State, now: nat) {
    if st.learning.Some? then SaturatingSub(now, st.learning.value.1) < cfg.retransmitDelay else !Behind(cfg, st)
  }

  ghost predicate PingServed(cfg: Config, st: State, now: nat) {
    cfg.N() > 1 ==> SaturatingSub(now, st.lastPing) < PING_INTERVAL
  }

  /** A deadline not reached by a saturating difference lies ahead. */
  lemma NotYet(since: nat, delay: nat, now: nat)
    requires SaturatingSub(now, since) < delay && now < U64_MAX
    ensures Saturate(since + delay) > now
  {
  }

  /** When every part was served, every deadline lies ahead. */
  lemma ServedIsAhead(cfg: Config, st: State, now: nat, d: nat)
    requires SlotsServed(cfg, st, now) && FrontierServed(st) && ForwardsServed(cfg, st, now)
      && LearnServed(cfg, st, now) && PingServed(cfg, st, now)
    requires IsDeadline(cfg, st, d) && now < U64_MAX
    ensures d > now
  {
    hide Saturate, HedgeAt, SaturatingSub;
    if s :| SlotDeadline(cfg, st, s, d) {
      assert SlotServed(cfg, st, s, now);
      if st.slots[s].proposer.Running? {
        NotYet(st.slots[s].proposer.run.sentAt, cfg.retransmitDelay, now);
      }
    } else if id :| ForwardDeadline(cfg, st, id, d) {
      NotYet(st.pool[id].lastForward, cfg.ForwardInterval(), now);
    } else if LearnDue(cfg, st) == Some(d) {
      if st.learning.Some? {
        NotYet(st.learning.value.1, cfg.retransmitDelay, now);
      }
    } else if PingDue(cfg, st.lastPing) == Some(d) {
      NotYet(st.lastPing, PING_INTERVAL, now);
    }
  }

  // ---- slots, step by step through a tick ----

  ghost predicate IdlesServed(cfg: Config, st: State, now: nat) {
    forall s :: s in st.slots && s > st.contig && st.slots[s].proposer.Idle? && st.slots[s].recorder.Open? ==>
      now < HedgeAt(cfg, st.slots[s])
  }

  ghost predicate RunsServed(cfg: Config, st: State, now: nat) {
    forall s :: s in st.slots && s > st.contig && st.slots[s].proposer.Running? ==>
      SaturatingSub(now, st.slots[s].proposer.run.sentAt) < cfg.retransmitDelay
  }

  lemma BothServed(cfg: Config, st: State, now: nat)
    requires IdlesServed(cfg, st, now) && RunsServed(cfg, st, now)
    ensures SlotsServed(cfg, st, now)
  {
  }

  lemma AloneServed(cfg: Config, st: State, now: nat)
    requires NoneAhead(st)
    ensures SlotsServed(cfg, st, now)
  {
  }

  lemma IdlesStayServed(cfg: Config, st: State, next: State, now: nat)
    requires IdlesServed(cfg, st, now) && OpensMore(st, next, now)
    ensures IdlesServed(cfg, next, now)
  {
    hide HedgeAt;
    forall s | s in next.slots && s > next.contig && next.slots[s].proposer.Idle? && next.slots[s].recorder.Open?
      ensures now < HedgeAt(cfg, next.slots[s])
    {
      assert (s in st.slots && next.slots[s] == st.slots[s]) || Driven(next, s, now);
    }
  }

  /** The frontier is observed, or there is nothing to propose and nothing ahead. */
  ghost predicate CalmFrontier(st: State) {
    st.contig + 1 in st.slots || (UnassignedIds(st.pool) == {} && !Beyond(st))
  }

  lemma CalmIsServed(st: State)
    requires PendingOk(st)
    ensures CalmFrontier(st) <==> FrontierServed(st)
  {
    if UnassignedIds(st.pool) != {} {
      var id :| id in UnassignedIds(st.pool);
      assert AnyUnassigned(st.pool);
    }
    if AnyUnassigned(st.pool) {
      var id :| id in st.pool && st.pool[id].proposedIn.None?;
      assert id in UnassignedIds(st.pool);
    }
  }

  lemma CalmStays(st: State, next: State, now: nat)
    requires CalmFrontier(st) && OpensMore(st, next, now)
    requires UnassignedIds(st.pool) == {} && !Beyond(st) ==> next.slots == st.slots
    ensures CalmFrontier(next)
  {
  }

  // ---- hedging ----

  ghost predicate Due(cfg: Config, st: State, s: Slot, now: nat) {
    && s in st.slots && s > st.contig && st.slots[s].proposer.Idle? && st.slots[s].recorder.Open?
    && now >= HedgeAt(cfg, st.slots[s])
  }

  /** A group of one just observed its frontier, or has nothing ahead. */
  ghost predicate SoloFrontier(st: State, now: nat) {
    SoloReady(st, st.contig + 1) && (st.contig + 1 in st.slots ==> st.slots[st.contig + 1] == NewSlot(now))
  }

  /** A slot created now is due at once for the first replica of the schedule. */
  lemma LeaderIsDue(cfg: Config, st: State, now: nat)
    requires SoloFrontier(st, now) && cfg.me == 0
    ensures forall s :: Due(cfg, st, s, now) ==> s == st.contig + 1
    ensures st.contig + 1 in st.slots ==> Due(cfg, st, st.contig + 1, now)
    ensures st.contig + 1 !in st.slots ==> NoneAhead(st)
  {
    assert cfg.me * cfg.hedgeDelay == 0;
  }

  lemma ObservedSolo(cfg: Config, rng: Rng, trail: seq<Micro>, st: State, now: nat)
    requires Ran(cfg, rng, trail, st) && NoneAhead(st)
    ensures SoloFrontier(st, now) && SoloFrontier(Observed(st, now), now)
  {
    hide Ran;
    SoloFromTop(cfg, rng, trail, st);
  }

  lemma ObservedReady(cfg: Config, st: State, now: nat)
    requires Ready(cfg, st) && st.contig + 1 !in st.slots
    ensures
      var next := Observed(st, now);
      && AtRest(cfg, next) && Swept(cfg, next) && PendingOk(next) && CalmFrontier(next)
  {
    hide Swept, Observed;
    var next := Observed(st, now);
    ButOne(cfg, st, st.contig + 1);
    RestOne(cfg, st, next, st.contig + 1);
    SweptSame(cfg, st, next);
    SamePending(st, next);
  }

  // ---- retransmitting ----

  lemma RetransmitReady(cfg: Config, st: State, slot: Slot)
    requires AtRest(cfg, st) && Swept(cfg, st) && CanFold(cfg, st, slot)
    ensures
      var next := Retransmitted(st, slot);
      && AtRestBut(cfg, next, slot) && Swept(cfg, next) && slot in next.slots && next.slots[slot].proposer.Running?
      && DriveReady(cfg, next.slots[slot].proposer.run) && next.slots[slot].proposer.run.needsSend
      && next.contig == st.contig && next.pendingSince == st.pendingSince && SamePool(st, next)
      && next.retained == st.retained && next.gcFloor == st.gcFloor
      && next.slots == st.slots[slot := next.slots[slot]]
  {
    hide Swept;
    var next := Retransmitted(st, slot);
    ButOne(cfg, st, slot);
    RestOne(cfg, st, next, slot);
    SweptSame(cfg, st, next);
  }

  /** Re-sending moves only what it drives. */
  lemma RedrivenOpens(st: State, mid: State, next: State, slot: Slot, now: nat)
    requires OpensMore(mid, next, now) && Driven(next, slot, now)
    requires mid.contig == st.contig && mid.retained == st.retained && mid.gcFloor == st.gcFloor && mid.pool == st.pool
    requires slot in st.slots && slot in mid.slots && mid.slots == st.slots[slot := mid.slots[slot]]
    ensures OpensMore(st, next, now)
  {
    forall s | s in next.slots ensures (s in st.slots && next.slots[s] == st.slots[s]) || Driven(next, s, now) {
      assert (s in mid.slots && next.slots[s] == mid.slots[s]) || Driven(next, s, now);
    }
  }

  // ---- the rest of a tick ----

  lemma ServedSame(cfg: Config, st: State, next: State, now: nat)
    requires SlotsServed(cfg, st, now) && FrontierServed(st) && SameStorage(st, next)
      && next.pendingSince == st.pendingSince
    ensures SlotsServed(cfg, next, now) && FrontierServed(next)
  {
    hide HedgeAt, SaturatingSub;
    forall s | s in next.slots ensures SlotServed(cfg, next, s, now) {
      assert SlotServed(cfg, st, s, now);
    }
  }

  lemma ForwardsStay(cfg: Config, st: State, next: State, now: nat)
    requires ForwardsServed(cfg, st, now) && next.pool == st.pool
    ensures ForwardsServed(cfg, next, now)
  {
    hide SaturatingSub;
    forall id | OwnUnassigned(cfg, next, id)
      ensures !cfg.IsLeader() ==> SaturatingSub(now, next.pool[id].lastForward) < cfg.ForwardInterval()
    {
      assert OwnUnassigned(cfg, st, id);
    }
  }

  lemma LearnStays(cfg: Config, st: State, next: State, now: nat)
    requires LearnServed(cfg, st, now) && next.learning == st.learning && next.peerAcked == st.peerAcked
      && next.contig == st.contig
    ensures LearnServed(cfg, next, now)
  {
  }

  lemma ForwardedReady(cfg: Config, st: State, chunks: seq<(nat, seq<Command>)>, now: nat)
    requires Ready(cfg, st) && cfg.me < |cfg.ids|
    ensures Ready(cfg, Reforwarded(cfg, st, chunks, now))
  {
    hide Swept, AtRest, Rides, AllOf, Emit;
    var next := Reforwarded(cfg, st, chunks, now);
    RestSame(cfg, st, next);
    SweptSame(cfg, st, next);
    assert AnyUnassigned(next.pool) <==> AnyUnassigned(st.pool) by {
      if AnyUnassigned(st.pool) {
        var id :| id in st.pool && st.pool[id].proposedIn.None?;
        assert id in next.pool && next.pool[id].proposedIn.None?;
      }
      if AnyUnassigned(next.pool) {
        var id :| id in next.pool && next.pool[id].proposedIn.None?;
        assert id in st.pool && st.pool[id].proposedIn.None?;
      }
    }
  }

  lemma CalmObserved(st: State)
    requires PendingOk(st)
    ensures st.contig + 1 in st.slots || (st.pendingSince.None? && !Beyond(st)) ==> CalmFrontier(st)
  {
    CalmIsServed(st);
  }

  /** Whenever something waits to be proposed, it is known since when. */
  ghost predicate HalfPending(st: State) {
    st.pendingSince.None? ==> UnassignedIds(st.pool) == {}
  }

  lemma HalfOf(st: State)
    requires PendingOk(st)
    ensures HalfPending(st)
  {
    if UnassignedIds(st.pool) != {} {
      var id :| id in UnassignedIds(st.pool);
      assert AnyUnassigned(st.pool);
    }
  }

  lemma HalfStays(cfg: Config, st: State, next: State, now: nat)
    requires HalfPending(st)
    requires PendingOk(next) || (OpensMore(st, next, now) && next.pendingSince == st.pendingSince)
    ensures HalfPending(next)
  {
    if PendingOk(next) {
      HalfOf(next);
    }
  }

  lemma DueBeyond(cfg: Config, st: State, due: seq<Slot>, now: nat)
    requires forall s :: s in due ==> Due(cfg, st, s, now)
    ensures !Beyond(st) ==> due == []
    ensures forall j :: 0 <= j < |due| ==> Due(cfg, st, due[j], now)
  {
    if due != [] {
      var first := FirstOf(due);
    }
  }

  lemma SoloFrontierIs(st: State, now: nat)
    requires SoloFrontier(st, now)
    ensures SoloReady(st, st.contig + 1)
  {
  }

  lemma OthersStay(cfg: Config, st: State, next: State, due: seq<Slot>, i: nat, now: nat)
    requires i < |due| && (forall j, k :: 0 <= j < k < |due| ==> due[j] < due[k]) && OneMoved(st, next, due[i])
      && OpensMore(st, next, now)
    requires Driven(next, due[i], now)
    requires forall j :: i <= j < |due| ==> Due(cfg, st, due[j], now)
    requires forall j :: 0 <= j < i ==> due[j] in st.slots && st.slots[due[j]].proposer.Running?
    ensures forall j :: i + 1 <= j < |due| ==> Due(cfg, next, due[j], now)
    ensures forall j :: 0 <= j < i + 1 ==> due[j] in next.slots && next.slots[due[j]].proposer.Running?
  {
    hide HedgeAt;
  }

  lemma NoneDueNow(cfg: Config, st: State, next: State, due: seq<Slot>, now: nat)
    requires OpensMore(st, next, now) && forall s :: s in due <==> Due(cfg, st, s, now)
    requires forall j :: 0 <= j < |due| ==> due[j] in next.slots && next.slots[due[j]].proposer.Running?
    ensures IdlesServed(cfg, next, now)
  {
    hide HedgeAt;
    forall s | s in next.slots && s > next.contig && next.slots[s].proposer.Idle? && next.slots[s].recorder.Open?
      ensures now < HedgeAt(cfg, next.slots[s])
    {
      assert (s in st.slots && next.slots[s] == st.slots[s]) || Driven(next, s, now);
      assert s !in due;
      assert !Due(cfg, st, s, now);
    }
  }

  lemma FirstOf(s: seq<Slot>) returns (first: Slot)
    requires s != []
    ensures first in s && first == s[0]
  {
    first := s[0];
  }

  lemma FirstTwo(s: seq<Slot>) returns (first: Slot, second: Slot)
    requires |s| > 1 && forall j, k :: 0 <= j < k < |s| ==> s[j] < s[k]
    ensures first in s && second in s && first < second
  {
    first, second := s[0], s[1];
  }

  lemma OnlyOneDue(cfg: Config, st: State, due: seq<Slot>, now: nat)
    requires forall s :: s in due <==> Due(cfg, st, s, now)
    requires forall s :: Due(cfg, st, s, now) ==> s == st.contig + 1
    requires forall j, k :: 0 <= j < k < |due| ==> due[j] < due[k]
    ensures |due| <= 1 && (due != [] ==> due[0] == st.contig + 1 && Due(cfg, st, due[0], now))
  {
    if due != [] {
      var first := FirstOf(due);
    }
    if |due| > 1 {
      var first, second := FirstTwo(due);
    }
  }

  lemma HalfRefresh(st: State, now: nat)
    requires HalfPending(st)
    ensures Refreshed(st, now) == st.(pendingSince := if AnyUnassigned(st.pool) then st.pendingSince else None)
  {
    if AnyUnassigned(st.pool) {
      var id :| id in st.pool && st.pool[id].proposedIn.None?;
      assert id in UnassignedIds(st.pool);
    }
  }

  /** Our proposer for the slot has waited a retransmission delay since it last sent. */
  ghost predicate Stale(cfg: Config, st: State, s: Slot, now: nat) {
    && s in st.slots && s > st.contig && st.slots[s].proposer.Running?
    && SaturatingSub(now, st.slots[s].proposer.run.sentAt) >= cfg.retransmitDelay
  }

  lemma OthersStale(cfg: Config, st: State, next: State, stale: seq<Slot>, i: nat, now: nat)
    requires i < |stale| && (forall j, k :: 0 <= j < k < |stale| ==> stale[j] < stale[k])
      && OneMoved(st, next, stale[i]) && OpensMore(st, next, now)
    requires forall j :: i <= j < |stale| ==> Stale(cfg, st, stale[j], now)
    requires forall j :: 0 <= j < i ==> Driven(st, stale[j], now)
    requires Driven(next, stale[i], now)
    ensures forall j :: i + 1 <= j < |stale| ==> Stale(cfg, next, stale[j], now)
    ensures forall j :: 0 <= j < i + 1 ==> Driven(next, stale[j], now)
  {
    hide SaturatingSub;
  }

  lemma NoneStaleNow(cfg: Config, st: State, next: State, stale: seq<Slot>, now: nat)
    requires OpensMore(st, next, now) && (forall s :: s in stale <==> Stale(cfg, st, s, now)) && cfg.retransmitDelay > 0
    requires forall j :: 0 <= j < |stale| ==> Driven(next, stale[j], now)
    ensures RunsServed(cfg, next, now)
  {
    hide SaturatingSub;
    assert SaturatingSub(now, now) == 0 by { NoTime(now); }
    forall s | s in next.slots && s > next.contig && next.slots[s].proposer.Running?
      ensures SaturatingSub(now, next.slots[s].proposer.run.sentAt) < cfg.retransmitDelay
    {
      assert (s in st.slots && next.slots[s] == st.slots[s]) || Driven(next, s, now);
      if !Driven(next, s, now) {
        assert s !in stale;
        assert !Stale(cfg, st, s, now);
      }
    }
  }

  lemma NoTime(now: nat)
    ensures SaturatingSub(now, now) == 0
  {
  }

  lemma NoneStaleAlone(cfg: Config, st: State, stale: seq<Slot>, now: nat)
    requires NoneAhead(st) && forall s :: s in stale ==> Stale(cfg, st, s, now)
    ensures stale == []
  {
    if stale != [] {
      var first := FirstOf(stale);
    }
  }

  lemma StaleListed(cfg: Config, st: State, stale: seq<Slot>, now: nat)
    requires forall s :: s in stale ==> Stale(cfg, st, s, now)
    ensures forall j :: 0 <= j < |stale| ==> Stale(cfg, st, stale[j], now)
    ensures !Beyond(st) ==> stale == []
  {
    if stale != [] {
      var first := FirstOf(stale);
    }
  }

  lemma StaleFolds(cfg: Config, rng: Rng, trail: seq<Micro>, st: State, s: Slot, now: nat)
    requires Ran(cfg, rng, trail, st) && Stale(cfg, st, s, now)
    ensures CanFold(cfg, st, s) && s > st.contig
  {
    hide Ran;
    CanFoldHere(cfg, rng, trail, st, s);
  }

  lemma RetransmittedOne(st: State, mid: State, next: State, slot: Slot)
    requires slot in st.slots && slot in mid.slots && mid.slots == st.slots[slot := mid.slots[slot]]
      && OneMoved(mid, next, slot)
    ensures OneMoved(st, next, slot)
  {
  }

  // ---- re-forwarding ----

  /** Our own unassigned command whose re-forwarding interval has passed. */
  ghost predicate ForwardDue(cfg: Config, st: State, id: CommandId, now: nat) {
    OwnUnassigned(cfg, st, id) && SaturatingSub(now, st.pool[id].lastForward) >= cfg.ForwardInterval()
  }

  type Open = map<nat, seq<Command>>

  ghost predicate OpenOk(cfg: Config, st: State, open: Open) {
    forall t :: t in open ==> open[t] == [] || ChunkOk(cfg, st, t, open[t])
  }

  /** Some message under construction holds the command. */
  ghost predicate RidesOpen(open: Open, id: CommandId) {
    exists t :: t in open && Rides(open[t], id)
  }

  /** Those of some commands that go to a target, in their order. */
  function Bound(cfg: Config, st: State, cmds: seq<Command>, t: nat): seq<Command> {
    if cmds == [] then []
    else
      var cmd := cmds[|cmds| - 1];
      Bound(cfg, st, cmds[..|cmds| - 1], t)
      + if cmd.id in st.pool && cfg.N() > 1 && t == ForwardTarget(cfg, st.pool[cmd.id].forwardAttempts) then [cmd]
        else []
  }

  /** What some messages carry to a target, in their order. */
  function SentTo(chunks: seq<(nat, seq<Command>)>, t: nat): seq<Command> {
    if chunks == [] then []
    else
      var chunk := chunks[|chunks| - 1];
      SentTo(chunks[..|chunks| - 1], t) + if chunk.0 == t then chunk.1 else []
  }

  function OpenTo(open: Open, t: nat): seq<Command> {
    if t in open then open[t] else []
  }

  /** The commands due to be forwarded among some ids, in their order. */
  ghost function DueOf(cfg: Config, st: State, ids: seq<CommandId>, now: nat): seq<Command> {
    if ids == [] then []
    else
      var id := ids[|ids| - 1];
      DueOf(cfg, st, ids[..|ids| - 1], now) + if ForwardDue(cfg, st, id, now) then [Command(id, st.pool[id].data)]
        else []
  }

  /** Every due command goes out exactly once, to its target, in the order of the pool. */
  ghost predicate ForwardsEach(cfg: Config, st: State, chunks: seq<(nat, seq<Command>)>, now: nat) {
    exists order :: InOrder(order, st.pool) && SendsEach(cfg, st, DueOf(cfg, st, order, now), chunks)
  }

  ghost predicate SendsEach(cfg: Config, st: State, cmds: seq<Command>, chunks: seq<(nat, seq<Command>)>) {
    forall t: nat :: SentTo(chunks, t) == Bound(cfg, st, cmds, t)
  }

  /** What was taken so far is in the finished messages or those under construction, for
      each target in the order taken. */
  ghost predicate Placed(cfg: Config, st: State, done: seq<Command>, chunks: seq<(nat, seq<Command>)>, open: Open) {
    Held(done, chunks, open) && Routed(cfg, st, done, chunks, open)
  }

  ghost predicate Held(done: seq<Command>, chunks: seq<(nat, seq<Command>)>, open: Open) {
    forall id :: Rides(done, id) <==> Rides(AllOf(chunks), id) || RidesOpen(open, id)
  }

  ghost predicate Routed(cfg: Config, st: State, done: seq<Command>, chunks: seq<(nat, seq<Command>)>, open: Open) {
    forall t: nat :: SentTo(chunks, t) + OpenTo(open, t) == Bound(cfg, st, done, t)
  }

  lemma SentToAppend(chunks: seq<(nat, seq<Command>)>, chunk: (nat, seq<Command>), t: nat)
    ensures SentTo(chunks + [chunk], t) == SentTo(chunks, t) + if chunk.0 == t then chunk.1 else []
  {
    assert (chunks + [chunk])[..|chunks|] == chunks;
  }

  lemma BoundAppend(cfg: Config, st: State, cmds: seq<Command>, cmd: Command, t: nat)
    requires cmd.id in st.pool && cfg.N() > 1
    ensures
      Bound(cfg, st, cmds + [cmd], t) ==
      Bound(cfg, st, cmds, t) + if t == ForwardTarget(cfg, st.pool[cmd.id].forwardAttempts) then [cmd] else []
  {
    hide ForwardTarget;
    assert (cmds + [cmd])[..|cmds|] == cmds;
  }

  lemma RoutedFlush(cfg: Config, st: State, done: seq<Command>, chunks: seq<(nat, seq<Command>)>, open: Open, t: nat)
    requires Routed(cfg, st, done, chunks, open) && t in open
    ensures Routed(cfg, st, done, chunks + [(t, open[t])], open[t := []])
  {
    hide Bound, SentTo;
    forall u: nat ensures SentTo(chunks + [(t, open[t])], u) + OpenTo(open[t := []], u) == Bound(cfg, st, done, u) {
      SentToAppend(chunks, (t, open[t]), u);
      assert SentTo(chunks, u) + OpenTo(open, u) == Bound(cfg, st, done, u);
    }
  }

  lemma RoutedAdd(cfg: Config, st: State, done: seq<Command>, chunks: seq<(nat, seq<Command>)>, open: Open, t: nat,
        cmd: Command)
    requires Routed(cfg, st, done, chunks, open) && t in open
    requires cmd.id in st.pool && cfg.N() > 1 && t == ForwardTarget(cfg, st.pool[cmd.id].forwardAttempts)
    ensures Routed(cfg, st, done + [cmd], chunks, open[t := open[t] + [cmd]])
  {
    hide Bound, SentTo, ForwardTarget;
    var wider := open[t := open[t] + [cmd]];
    forall u: nat ensures SentTo(chunks, u) + OpenTo(wider, u) == Bound(cfg, st, done + [cmd], u) {
      BoundAppend(cfg, st, done, cmd, u);
      assert SentTo(chunks, u) + OpenTo(open, u) == Bound(cfg, st, done, u);
      assert u == t ==> SentTo(chunks, u) + OpenTo(wider, u) == SentTo(chunks, u) + OpenTo(open, u) + [cmd];
    }
  }

  lemma RoutedFresh(cfg: Config, st: State, done: seq<Command>, chunks: seq<(nat, seq<Command>)>, open: Open, t: nat)
    requires Routed(cfg, st, done, chunks, open) && t !in open
    ensures Routed(cfg, st, done, chunks, open[t := []])
  {
    hide Bound, SentTo;
    forall u: nat ensures SentTo(chunks, u) + OpenTo(open[t := []], u) == Bound(cfg, st, done, u) {
      assert OpenTo(open[t := []], u) == OpenTo(open, u);
      assert SentTo(chunks, u) + OpenTo(open, u) == Bound(cfg, st, done, u);
    }
  }

  lemma RoutedAll(cfg: Config, st: State, done: seq<Command>, chunks: seq<(nat, seq<Command>)>, open: Open)
    requires Routed(cfg, st, done, chunks, open) && forall t :: t in open ==> open[t] == []
    ensures SendsEach(cfg, st, done, chunks)
  {
    hide Bound, SentTo;
    forall t: nat ensures SentTo(chunks, t) == Bound(cfg, st, done, t) {
      assert SentTo(chunks, t) + OpenTo(open, t) == Bound(cfg, st, done, t);
    }
  }

  lemma AllOfAppend(chunks: seq<(nat, seq<Command>)>, chunk: (nat, seq<Command>))
    ensures AllOf(chunks + [chunk]) == AllOf(chunks) + chunk.1
  {
    assert (chunks + [chunk])[..|chunks|] == chunks;
  }

  lemma RidesBoth(a: seq<Command>, b: seq<Command>, id: CommandId)
    ensures Rides(a + b, id) <==> Rides(a, id) || Rides(b, id)
  {
    if Rides(a, id) {
      var k :| 0 <= k < |a| && a[k].id == id;
      assert (a + b)[k].id == id;
    }
    if Rides(b, id) {
      var k :| 0 <= k < |b| && b[k].id == id;
      assert (a + b)[|a| + k].id == id;
    }
  }

  lemma HeldFlush(done: seq<Command>, chunks: seq<(nat, seq<Command>)>, open: Open, t: nat)
    requires Held(done, chunks, open) && t in open
    ensures Held(done, chunks + [(t, open[t])], open[t := []])
  {
    hide Rides, AllOf;
    AllOfAppend(chunks, (t, open[t]));
    forall id ensures Rides(done, id) <==> Rides(AllOf(chunks + [(t, open[t])]), id) || RidesOpen(open[t := []], id) {
      RidesBoth(AllOf(chunks), open[t], id);
      NothingRides(id);
      if RidesOpen(open, id) && !Rides(open[t], id) {
        var u :| u in open && Rides(open[u], id);
        assert open[t := []][u] == open[u];
      }
    }
  }

  lemma NothingRides(id: CommandId)
    ensures !Rides([], id)
  {
  }

  lemma HeldAdd(done: seq<Command>, chunks: seq<(nat, seq<Command>)>, open: Open, t: nat, cmd: Command)
    requires Held(done, chunks, open) && t in open
    ensures Held(done + [cmd], chunks, open[t := open[t] + [cmd]])
  {
    hide Rides, AllOf;
    var wider := open[t := open[t] + [cmd]];
    forall id ensures Rides(done + [cmd], id) <==> Rides(AllOf(chunks), id) || RidesOpen(wider, id) {
      RidesAppend(done, cmd, id);
      RidesAppend(open[t], cmd, id);
      if RidesOpen(open, id) {
        var u :| u in open && Rides(open[u], id);
        assert u in wider && Rides(wider[u], id);
      }
      if cmd.id == id {
        assert Rides(wider[t], id);
      }
    }
  }

  lemma HeldFresh(done: seq<Command>, chunks: seq<(nat, seq<Command>)>, open: Open, t: nat)
    requires Held(done, chunks, open) && t !in open
    ensures Held(done, chunks, open[t := []])
  {
    hide Rides, AllOf;
    forall id ensures RidesOpen(open[t := []], id) <==> RidesOpen(open, id) {
      NothingRides(id);
      if RidesOpen(open, id) {
        var u :| u in open && Rides(open[u], id);
        assert open[t := []][u] == open[u];
      }
    }
  }

  lemma ChunkGrows(cfg: Config, st: State, t: nat, cmds: seq<Command>, cmd: Command)
    requires cmds == [] || (ChunkOk(cfg, st, t, cmds) && Batch.CommandsSize(cmds + [cmd]) <= cfg.maxBatchBytes)
    requires OwnUnassigned(cfg, st, cmd.id) && cmd.data == st.pool[cmd.id].data && cfg.N() > 1
    requires t == ForwardTarget(cfg, st.pool[cmd.id].forwardAttempts)
    ensures ChunkOk(cfg, st, t, cmds + [cmd])
  {
    TargetOk(cfg, st.pool[cmd.id].forwardAttempts);
  }

  /** A forwarding target is another replica of the group, and the first attempt goes to the
      leader. */
  lemma TargetOk(cfg: Config, attempts: nat)
    requires cfg.me < cfg.N()
    ensures cfg.N() > 1 ==> ForwardTarget(cfg, attempts) < cfg.N() && ForwardTarget(cfg, attempts) != cfg.me
    ensures cfg.me != 0 ==> ForwardTarget(cfg, 0) == 0
  {
  }

  /** A dead leader strands nothing: of any n - 1 attempts in a row, one goes to each other
      replica. */
  lemma RotationReachesAll(cfg: Config, attempts: nat, j: nat) returns (k: nat)
    requires cfg.me < cfg.N() && j < cfg.N() && j != cfg.me
    ensures cfg.N() > 1 && k < cfg.N() - 1 && ForwardTarget(cfg, attempts + k) == j
  {
    k := Encoding.RotateTo(attempts, cfg.N() - 1, if j < cfg.me then j else j - 1);
  }

  /** The target of an attempt has as many others before it as there were attempts, counted
      round all others in the order of the schedule. */
  lemma TargetInTurn(cfg: Config, attempts: nat)
    requires cfg.me < cfg.N() && cfg.N() > 1
    ensures
      var t := ForwardTarget(cfg, attempts);
      t < cfg.N() && t != cfg.me && attempts % (cfg.N() - 1) == if t < cfg.me then t else t - 1
  {
  }

  lemma ForwardableAppend(cfg: Config, st: State, chunks: seq<(nat, seq<Command>)>, t: nat, cmds: seq<Command>)
    requires Forwardable(cfg, st, chunks) && ChunkOk(cfg, st, t, cmds)
    ensures Forwardable(cfg, st, chunks + [(t, cmds)])
  {
    hide ChunkOk;
  }

  lemma OpenUpdate(cfg: Config, st: State, open: Open, t: nat, cmds: seq<Command>)
    requires OpenOk(cfg, st, open) && (cmds == [] || ChunkOk(cfg, st, t, cmds))
    ensures OpenOk(cfg, st, open[t := cmds])
  {
    hide ChunkOk;
  }

  lemma OpenHas(cfg: Config, st: State, open: Open, t: nat)
    requires OpenOk(cfg, st, open) && t in open && open[t] != []
    ensures ChunkOk(cfg, st, t, open[t]) && t < cfg.N()
  {
  }

  /** A message under construction is closed, and the next one for its target starts empty. */
  lemma PlacedFlush(cfg: Config, st: State, done: seq<Command>, chunks: seq<(nat, seq<Command>)>, open: Open, t: nat)
    requires Placed(cfg, st, done, chunks, open) && t in open
    ensures Placed(cfg, st, done, chunks + [(t, open[t])], open[t := []])
  {
    hide Held, Routed;
    HeldFlush(done, chunks, open, t);
    RoutedFlush(cfg, st, done, chunks, open, t);
  }

  /** One more command goes into the message under construction for its target. */
  lemma PlacedAdd(cfg: Config, st: State, done: seq<Command>, chunks: seq<(nat, seq<Command>)>, open: Open, t: nat,
        cmd: Command)
    requires Placed(cfg, st, done, chunks, open) && t in open
    requires OwnUnassigned(cfg, st, cmd.id) && cfg.N() > 1 && t == ForwardTarget(cfg, st.pool[cmd.id].forwardAttempts)
    ensures Placed(cfg, st, done + [cmd], chunks, open[t := open[t] + [cmd]])
  {
    hide Held, Routed, ForwardTarget;
    HeldAdd(done, chunks, open, t, cmd);
    RoutedAdd(cfg, st, done, chunks, open, t, cmd);
  }

  lemma PlacedFresh(cfg: Config, st: State, done: seq<Command>, chunks: seq<(nat, seq<Command>)>, open: Open, t: nat)
    requires Placed(cfg, st, done, chunks, open) && t !in open
    ensures Placed(cfg, st, done, chunks, open[t := []])
  {
    hide Held, Routed;
    HeldFresh(done, chunks, open, t);
    RoutedFresh(cfg, st, done, chunks, open, t);
  }

  /** Nothing left under construction: everything taken is in the finished messages. */
  lemma PlacedAll(cfg: Config, st: State, done: seq<Command>, chunks: seq<(nat, seq<Command>)>, open: Open)
    requires Placed(cfg, st, done, chunks, open) && OpenOk(cfg, st, open) && forall t :: t in open && t < cfg.N() ==>
      open[t] == []
    ensures SendsEach(cfg, st, done, chunks) && forall id :: Rides(done, id) <==> Rides(AllOf(chunks), id)
  {
    hide Rides, AllOf, ChunkOk, Routed, SendsEach;
    forall t | t in open ensures open[t] == [] {
      if open[t] != [] {
        OpenHas(cfg, st, open, t);
      }
    }
    RoutedAll(cfg, st, done, chunks, open);
    forall id ensures !RidesOpen(open, id) {
      NothingRides(id);
    }
  }

  lemma ForwardedNone(pool: map<CommandId, PoolEntry>, now: nat)
    ensures Forwarded(pool, [], now) == pool
  {
  }

  lemma ForwardedOne(pool: map<CommandId, PoolEntry>, cmds: seq<Command>, cmd: Command, now: nat)
    requires cmd.id in pool && !Rides(cmds, cmd.id)
    ensures
      var before := Forwarded(pool, cmds, now);
      && cmd.id in before && before[cmd.id] == pool[cmd.id]
      && Forwarded(pool, cmds + [cmd], now) ==
           before[cmd.id := pool[cmd.id].(lastForward := now, forwardAttempts := pool[cmd.id].forwardAttempts + 1)]
  {
    hide Rides;
    forall id ensures Rides(cmds + [cmd], id) <==> Rides(cmds, id) || cmd.id == id {
      RidesAppend(cmds, cmd, id);
    }
  }

  lemma ForwardedSame(pool: map<CommandId, PoolEntry>, cmds: seq<Command>, others: seq<Command>, now: nat)
    requires forall id :: Rides(cmds, id) <==> Rides(others, id)
    ensures Forwarded(pool, cmds, now) == Forwarded(pool, others, now)
  {
    hide Rides;
  }

  /** Afterwards nothing of ours is due to be forwarded. */
  lemma ForwardedServes(cfg: Config, st: State, chunks: seq<(nat, seq<Command>)>, now: nat)
    requires cfg.Valid() && forall id :: Rides(AllOf(chunks), id) <==> ForwardDue(cfg, st, id, now)
    ensures ForwardsServed(cfg, Reforwarded(cfg, st, chunks, now), now)
  {
    hide Rides, AllOf, SaturatingSub, Emit, Saturate;
    var next := Reforwarded(cfg, st, chunks, now);
    assert SaturatingSub(now, now) == 0 by { NoTime(now); }
    assert cfg.ForwardInterval() >= cfg.retransmitDelay;
    forall id | OwnUnassigned(cfg, next, id)
      ensures SaturatingSub(now, next.pool[id].lastForward) < cfg.ForwardInterval()
    {
      assert OwnUnassigned(cfg, st, id);
      assert Rides(AllOf(chunks), id) <==> ForwardDue(cfg, st, id, now);
    }
  }

  lemma LeaderForwards(cfg: Config, st: State, now: nat)
    requires cfg.IsLeader()
    ensures ForwardsServed(cfg, st, now)
  {
  }

  lemma NoSize()
    ensures Batch.CommandsSize([]) == 0
  {
  }

  lemma NothingPlaced(cfg: Config, st: State, now: nat)
    ensures Placed(cfg, st, [], [], map[]) && Forwardable(cfg, st, []) && OpenOk(cfg, st, map[])
      && Forwarded(st.pool, [], now) == st.pool
    ensures st.(pool := st.pool) == st
    ensures DueOf(cfg, st, [], now) == [] && forall id :: !Rides([], id)
  {
    ForwardedNone(st.pool, now);
  }

  lemma NextInOrder(pool: map<CommandId, PoolEntry>, ids: seq<CommandId>, k: nat)
    requires InOrder(ids, pool) && k < |ids|
    ensures ids[k] in pool && ids[k] !in ids[..k]
  {
    forall j | 0 <= j < k ensures ids[j] != ids[k] {
      assert IdLess(ids[j], ids[k]);
    }
  }

  lemma OneMorePlaced(cfg: Config, st: State, before: seq<Command>, done: seq<Command>, ids: seq<CommandId>, k: nat,
        now: nat)
    requires k < |ids| && forall id :: Rides(before, id) <==> id in ids[..k] && ForwardDue(cfg, st, id, now)
    requires ids[k] in st.pool && before == DueOf(cfg, st, ids[..k], now)
    requires if ForwardDue(cfg, st, ids[k], now) then done == before + [Command(ids[k], st.pool[ids[k]].data)]
      else done == before
    ensures done == DueOf(cfg, st, ids[..k + 1], now) && forall id :: Rides(done, id) <==>
      id in ids[..k + 1] && ForwardDue(cfg, st, id, now)
  {
    hide Rides, ForwardDue;
    assert ids[..k + 1] == ids[..k] + [ids[k]];
    assert ids[..k + 1][..k] == ids[..k];
    forall id ensures Rides(done, id) <==> id in ids[..k + 1] && ForwardDue(cfg, st, id, now) {
      if ForwardDue(cfg, st, ids[k], now) {
        RidesAppend(before, Command(ids[k], st.pool[ids[k]].data), id);
      }
    }
  }

  lemma DueIsHeld(cfg: Config, st: State, ids: seq<CommandId>, now: nat)
    requires InOrder(ids, st.pool)
    ensures forall id :: ForwardDue(cfg, st, id, now) ==> id in ids
  {
    hide SaturatingSub, IdLess;
  }

  // ---- catching up and heartbeats ----

  lemma TimedOutReady(cfg: Config, st: State)
    requires Ready(cfg, st)
    ensures Ready(cfg, LearnTimedOut(st))
  {
    hide Ready;
    ReadySame(cfg, st, LearnTimedOut(st));
  }

  lemma PingedReady(cfg: Config, st: State, now: nat)
    requires Ready(cfg, st) && cfg.me < |cfg.ids|
    ensures Ready(cfg, Pinged(cfg, st, now)) && PingServed(cfg, Pinged(cfg, st, now), now)
  {
    hide Ready, Pinged;
    ReadySame(cfg, st, Pinged(cfg, st, now));
    NoTime(now);
  }

  /** The outstanding Learn request went unanswered for too long. */
  predicate LearnExpired(cfg: Config, st: State, now: nat) {
    st.learning.Some? && SaturatingSub(now, st.learning.value.1) >= cfg.retransmitDelay
  }

  /** Of the first `n` replicas, the others that advertise more than is delivered here. */
  function AheadBelow(acked: seq<Slot>, contig: Slot, me: nat, n: nat): (ahead: seq<nat>)
    requires n <= |acked|
    ensures forall k: nat :: k in ahead <==> k < n && k != me && acked[k] > contig
  {
    if n == 0 then []
    else AheadBelow(acked, contig, me, n - 1) + if n - 1 != me && acked[n - 1] > contig then [n - 1] else []
  }

  /** What the ticking of the Learn timer leaves: an expired request is given up, and the
      next in turn of the replicas ahead is asked. */
  function LearnTicked(cfg: Config, st: State, now: nat): (r: State)
    requires cfg.me < |cfg.ids| && |st.peerAcked| == cfg.N()
    ensures SameStorage(st, r) && SamePool(st, r) && r.pendingSince == st.pendingSince && r.peerAcked == st.peerAcked
  {
    AskedNext(cfg, if LearnExpired(cfg, st, now) then LearnTimedOut(st) else st, now)
  }

  function AskedNext(cfg: Config, st: State, now: nat): (r: State)
    requires cfg.me < |cfg.ids| && |st.peerAcked| == cfg.N()
    ensures SameStorage(st, r) && SamePool(st, r) && r.pendingSince == st.pendingSince && r.peerAcked == st.peerAcked
  {
    var ahead := AheadBelow(st.peerAcked, st.contig, cfg.me, cfg.N());
    if st.learning.None? && ahead != [] then Requested(cfg, st, ahead[st.learnAttempts % |ahead|], now) else st
  }

  lemma NobodyAhead(cfg: Config, st: State)
    requires |st.peerAcked| == cfg.N() && AheadBelow(st.peerAcked, st.contig, cfg.me, cfg.N()) == []
    ensures !Behind(cfg, st)
  {
    forall k | 0 <= k < |st.peerAcked| && k != cfg.me ensures st.peerAcked[k] <= st.contig {
      assert k !in AheadBelow(st.peerAcked, st.contig, cfg.me, cfg.N());
    }
  }

  lemma JustAsked(cfg: Config, st: State, to: nat, now: nat)
    requires cfg.Valid()
    ensures LearnServed(cfg, Requested(cfg, st, to, now), now)
  {
    hide Requested;
    NoTime(now);
  }

  lemma Asked(cfg: Config, st: State, next: State, to: nat, decided: Slot, now: nat)
    requires cfg.Valid() && cfg.me < |cfg.ids|
    requires
      if decided <= st.contig || (st.learning.Some? && SaturatingSub(now, st.learning.value.1) < cfg.retransmitDelay)
        then next == st
      else next == Requested(cfg, st, to, now)
    ensures Asking(cfg, next, decided, now) && next.contig == st.contig
  {
    hide Requested;
    NoTime(now);
  }

  // ---- a tick as a whole ----

  /** Alone, what is left waiting after opening slots is nothing: the lowest undelivered
      sequence number is always within the window, and nothing rides ahead of the frontier. */
  lemma AloneNonePending(cfg: Config, rng: Rng, trail: seq<Micro>, st: State)
    requires Ran(cfg, rng, trail, st) && cfg.N() == 1 && NoneAhead(st) && NoneEligible(st) && PendingOk(st)
      && RideOk(st)
    ensures FrontierServed(st)
  {
    hide Ran, StorageOk, LogOk, DeliveryOk, BudgetOk, PoolOk, RideOk;
    RanSound(cfg, rng, trail, st);
    if AnyUnassigned(st.pool) {
      var id :| id in st.pool && st.pool[id].proposedIn.None?;
      var e := AloneEligible(cfg, st, id);
    }
  }

  lemma AloneEligible(cfg: Config, st: State, id: CommandId) returns (e: CommandId)
    requires PoolOk(cfg, st) && cfg.N() == 1 && NoneAhead(st) && RideOk(st) && id in st.pool
      && st.pool[id].proposedIn.None?
    ensures Eligible(st, e)
  {
    hide PoolOk, RideOk, InWindow;
    if InWindow(st.dedup, id) {
      return id;
    }
    e := LowestUndelivered(cfg, st, id);
    RideHas(st, e);
  }

  lemma LowestUndelivered(cfg: Config, st: State, id: CommandId) returns (e: CommandId)
    requires PoolOk(cfg, st) && cfg.N() == 1 && id in st.pool && !InWindow(st.dedup, id)
    ensures e in st.pool && InWindow(st.dedup, e)
  {
    hide Top;
    var q := HighWater(st.dedup, cfg.ids[cfg.me], cfg.boot) + 1;
    e := OwnId(cfg, q);
    assert OwnKept(cfg, st, q);
  }

  lemma TickServed(cfg: Config, served: State, forwarded: State, learned: State, st: State, now: nat)
    requires SlotsServed(cfg, served, now) && FrontierServed(served)
    requires SameStorage(served, forwarded) && forwarded.pendingSince == served.pendingSince
      && ForwardsServed(cfg, forwarded, now)
    requires SameStorage(forwarded, learned) && SamePool(forwarded, learned)
      && learned.pendingSince == forwarded.pendingSince
    requires learned.peerAcked == forwarded.peerAcked && LearnServed(cfg, learned, now)
    requires SameStorage(learned, st) && SamePool(learned, st) && st.pendingSince == learned.pendingSince
      && st.learning == learned.learning
    requires st.peerAcked == learned.peerAcked
    ensures SlotsServed(cfg, st, now) && FrontierServed(st) && ForwardsServed(cfg, st, now) && LearnServed(cfg, st, now)
  {
    hide SlotsServed, FrontierServed, ForwardsServed, LearnServed;
    ServedSame(cfg, served, forwarded, now);
    ServedSame(cfg, forwarded, learned, now);
    ServedSame(cfg, learned, st, now);
    ForwardsStay(cfg, forwarded, learned, now);
    ForwardsStay(cfg, learned, st, now);
    LearnStays(cfg, learned, st, now);
  }

  // ---- the earliest deadline ----

  function Earlier(a: Option<nat>, b: Option<nat>): Option<nat> {
    if a.None? then b else if b.None? then a else if a.value <= b.value then a else b
  }

  /** `r` is the earliest deadline of the given slots. */
  ghost predicate EarliestSlot(cfg: Config, st: State, among: set<Slot>, r: Option<nat>) {
    && (r.Some? ==> exists s :: s in among && SlotDeadline(cfg, st, s, r.value))
    && forall s, d: nat :: s in among && SlotDeadline(cfg, st, s, d) ==> r.Some? && r.value <= d
  }

  lemma OneMoreSlot(cfg: Config, st: State, among: set<Slot>, r: Option<nat>, s: Slot)
    requires EarliestSlot(cfg, st, among, r)
    ensures EarliestSlot(cfg, st, among + {s},
      Earlier(r, if s in st.slots && s > st.contig then SlotDue(cfg, st.slots[s]) else None))
  {
    hide SlotDue;
    var due := if s in st.slots && s > st.contig then SlotDue(cfg, st.slots[s]) else None;
    if due.Some? {
      assert SlotDeadline(cfg, st, s, due.value);
    }
  }

  ghost predicate EarliestForward(cfg: Config, st: State, among: set<CommandId>, r: Option<nat>) {
    && (r.Some? ==> exists id :: id in among && ForwardDeadline(cfg, st, id, r.value))
    && forall id, d: nat :: id in among && ForwardDeadline(cfg, st, id, d) ==> r.Some? && r.value <= d
  }

  lemma OneMoreForward(cfg: Config, st: State, among: set<CommandId>, r: Option<nat>, id: CommandId)
    requires EarliestForward(cfg, st, among, r) && id in st.pool
    ensures EarliestForward(cfg, st, among + {id},
      Earlier(r, if OwnUnassigned(cfg, st, id) && !cfg.IsLeader()
        then Some(Saturate(st.pool[id].lastForward + cfg.ForwardInterval())) else None))
  {
    hide OwnUnassigned, Saturate;
    if OwnUnassigned(cfg, st, id) && !cfg.IsLeader() {
      assert ForwardDeadline(cfg, st, id, Saturate(st.pool[id].lastForward + cfg.ForwardInterval()));
    }
  }

  /** The least of all deadlines, or nothing when there are none. */
  ghost predicate Earliest(cfg: Config, st: State, r: Option<nat>) {
    && (r.Some? ==> IsDeadline(cfg, st, r.value))
    && forall d: nat :: IsDeadline(cfg, st, d) ==> r.Some? && r.value <= d
  }

  lemma EarliestOfAll(cfg: Config, st: State, a: Option<nat>, b: Option<nat>)
    requires EarliestSlot(cfg, st, st.slots.Keys, a) && EarliestForward(cfg, st, st.pool.Keys, b)
    ensures
      var rest := Earlier(Earlier(FrontierDue(st), LearnDue(cfg, st)), PingDue(cfg, st.lastPing));
      Earliest(cfg, st, Earlier(Earlier(a, b), rest))
  {
    hide FrontierDue, LearnDue, PingDue, SlotDue, Saturate, OwnUnassigned;
    var rest := Earlier(Earlier(FrontierDue(st), LearnDue(cfg, st)), PingDue(cfg, st.lastPing));
    var r := Earlier(Earlier(a, b), rest);
    forall d: nat | IsDeadline(cfg, st, d) ensures r.Some? && r.value <= d {
      if s :| SlotDeadline(cfg, st, s, d) {
        assert s in st.slots.Keys;
      } else if id :| ForwardDeadline(cfg, st, id, d) {
        ForwardHeld(cfg, st, id, d);
      }
    }
  }

  lemma ForwardHeld(cfg: Config, st: State, id: CommandId, d: nat)
    requires ForwardDeadline(cfg, st, id, d)
    ensures id in st.pool
  {
  }

  lemma AnyAhead(cfg: Config, st: State, ahead: seq<nat>)
    requires |st.peerAcked| == cfg.N()
    requires forall k :: k in ahead ==> k < cfg.N() && k != cfg.me && st.peerAcked[k] > st.contig
    requires forall k :: 0 <= k < |st.peerAcked| && k != cfg.me && st.peerAcked[k] > st.contig ==> k in ahead
    ensures Behind(cfg, st) <==> ahead != []
  {
    if ahead != [] {
      assert ahead[0] in ahead;
    }
  }
}
