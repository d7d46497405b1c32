/** What time asks of a replica. */
module Wakeups {
  // The work that is due at a given time, said of timestamps and delays alone: the wakeup a
  // replica advertises is exact about it, and the retries of a Learn go round everyone ahead.

  import opened Types
  import opened ReplicaState
  import opened ReplicaMoves
  import opened ReplicaRest
  import opened Deadlines
  import opened Emissions
  import opened Announcements
  import Encoding
  import Wire

  // ---- the work that is due ----

  /** A step was last sent a retransmission delay ago. */
  ghost predicate ResendDue(cfg: Config, st: State, s: Slot, now: nat) {
    && s in st.slots && s > st.contig && st.slots[s].proposer.Running?
    && now >= st.slots[s].proposer.run.sentAt + cfg.retransmitDelay
  }

  /** A slot that nobody here proposes in was known of, and saw progress, as many hedging delays
      ago as there are replicas ahead of this one in the schedule. */
  ghost predicate HedgeDue(cfg: Config, st: State, s: Slot, now: nat) {
    && s in st.slots && s > st.contig && st.slots[s].proposer.Idle? && st.slots[s].recorder.Open?
    && now >= st.slots[s].firstObserved + cfg.me * cfg.hedgeDelay
    && now >= st.slots[s].lastProgress + cfg.me * cfg.hedgeDelay
  }

  /** Nothing is known of the slot due next, but something waits to be proposed or slots beyond
      it are known. */
  ghost predicate ObserveDue(st: State, now: nat) {
    && st.contig + 1 !in st.slots
    && if st.pendingSince.Some? then now >= st.pendingSince.value else exists s :: s in st.slots && s > st.contig
  }

  /** A command of ours that rides nowhere was last forwarded two hedging delays ago, and a
      retransmission delay ago. */
  ghost predicate ForwardAgainDue(cfg: Config, st: State, id: CommandId, now: nat) {
    && cfg.me != 0 && cfg.me < |cfg.ids| && id in st.pool && id.origin == cfg.ids[cfg.me] && id.boot == cfg.boot
    && st.pool[id].proposedIn.None?
    && now >= st.pool[id].lastForward + 2 * cfg.hedgeDelay && now >= st.pool[id].lastForward + cfg.retransmitDelay
  }

  /** A request for decided values went unanswered for a retransmission delay, or there is none
      and someone is ahead. */
  ghost predicate RelearnDue(cfg: Config, st: State, now: nat) {
    if st.learning.Some? then now >= st.learning.value.1 + cfg.retransmitDelay
    else exists k: nat :: k < |st.peerAcked| && k != cfg.me && st.peerAcked[k] > st.contig
  }

  /** The last heartbeat was sent a second ago. */
  predicate RepingDue(cfg: Config, st: State, now: nat) {
    |cfg.ids| > 1 && now >= st.lastPing + 1_000_000_000
  }

  ghost predicate HasWork(cfg: Config, st: State, now: nat) {
    || (exists s :: ResendDue(cfg, st, s, now))
    || (exists s :: HedgeDue(cfg, st, s, now))
    || ObserveDue(st, now)
    || (exists id :: ForwardAgainDue(cfg, st, id, now))
    || RelearnDue(cfg, st, now)
    || RepingDue(cfg, st, now)
  }

  // ---- deadlines are when work is due ----

  lemma SumReached(since: nat, delay: nat, now: nat)
    requires now < U64_MAX
    ensures Saturate(since + delay) <= now <==> now >= since + delay
    ensures Saturate(since + Saturate(delay)) <= now <==> now >= since + delay
  {
  }

  lemma HedgeReached(cfg: Config, s: SlotState, now: nat)
    requires now < U64_MAX
    ensures HedgeAt(cfg, s) <= now <==>
      now >= s.firstObserved + cfg.me * cfg.hedgeDelay && now >= s.lastProgress + cfg.me * cfg.hedgeDelay
  {
    var wait := cfg.me * cfg.hedgeDelay;
    SumReached(s.firstObserved, wait, now);
    SumReached(s.lastProgress, wait, now);
  }

  lemma ForwardReached(cfg: Config, since: nat, now: nat)
    requires now < U64_MAX
    ensures Saturate(since + cfg.ForwardInterval()) <= now <==>
      now >= since + 2 * cfg.hedgeDelay && now >= since + cfg.retransmitDelay
  {
    assert cfg.hedgeDelay * 2 == 2 * cfg.hedgeDelay;
    SumReached(since, 2 * cfg.hedgeDelay, now);
    SumReached(since, cfg.retransmitDelay, now);
  }

  /** A deadline that has come means work. */
  lemma DeadlineIsWork(cfg: Config, st: State, d: nat, now: nat)
    requires IsDeadline(cfg, st, d) && d <= now < U64_MAX
    ensures HasWork(cfg, st, now)
  {
    hide Saturate, HedgeAt;
    if s :| SlotDeadline(cfg, st, s, d) {
      if st.slots[s].proposer.Running? {
        SumReached(st.slots[s].proposer.run.sentAt, cfg.retransmitDelay, now);
        assert ResendDue(cfg, st, s, now);
      } else {
        HedgeReached(cfg, st.slots[s], now);
        assert HedgeDue(cfg, st, s, now);
      }
    } else if id :| ForwardDeadline(cfg, st, id, d) {
      ForwardReached(cfg, st.pool[id].lastForward, now);
      assert ForwardAgainDue(cfg, st, id, now);
    } else if LearnDue(cfg, st) == Some(d) {
      if st.learning.Some? {
        SumReached(st.learning.value.1, cfg.retransmitDelay, now);
      } else {
        var k :| 0 <= k < |st.peerAcked| && k != cfg.me && st.peerAcked[k] > st.contig;
      }
    } else if PingDue(cfg, st.lastPing) == Some(d) {
      SumReached(st.lastPing, PING_INTERVAL, now);
    }
  }

  /** Work means a deadline that has come. */
  lemma WorkHasDeadline(cfg: Config, st: State, now: nat) returns (d: nat)
    requires HasWork(cfg, st, now) && now < U64_MAX
    ensures IsDeadline(cfg, st, d) && d <= now
  {
    hide Saturate, HedgeAt;
    if s :| ResendDue(cfg, st, s, now) {
      SumReached(st.slots[s].proposer.run.sentAt, cfg.retransmitDelay, now);
      d := Saturate(st.slots[s].proposer.run.sentAt + cfg.retransmitDelay);
      assert SlotDeadline(cfg, st, s, d);
    } else if s :| HedgeDue(cfg, st, s, now) {
      HedgeReached(cfg, st.slots[s], now);
      d := HedgeAt(cfg, st.slots[s]);
      assert SlotDeadline(cfg, st, s, d);
    } else if ObserveDue(st, now) {
      d := if st.pendingSince.Some? then st.pendingSince.value else 0;
    } else if id :| ForwardAgainDue(cfg, st, id, now) {
      ForwardReached(cfg, st.pool[id].lastForward, now);
      d := Saturate(st.pool[id].lastForward + cfg.ForwardInterval());
      assert ForwardDeadline(cfg, st, id, d);
    } else if RelearnDue(cfg, st, now) {
      if st.learning.Some? {
        SumReached(st.learning.value.1, cfg.retransmitDelay, now);
        d := Saturate(st.learning.value.1 + cfg.retransmitDelay);
      } else {
        var k: nat :| k < |st.peerAcked| && k != cfg.me && st.peerAcked[k] > st.contig;
        d := 0;
      }
    } else {
      SumReached(st.lastPing, PING_INTERVAL, now);
      d := Saturate(st.lastPing + PING_INTERVAL);
    }
  }

  /** The wakeup is exact: it has come if and only if there is work to do. */
  ghost predicate WakesExactly(cfg: Config, st: State, earliest: Option<nat>) {
    forall now: nat :: now < U64_MAX ==> ((earliest.Some? && earliest.value <= now) <==> HasWork(cfg, st, now))
  }

  lemma EarliestIsExact(cfg: Config, st: State, earliest: Option<nat>)
    requires Earliest(cfg, st, earliest)
    ensures WakesExactly(cfg, st, earliest)
  {
    hide IsDeadline, HasWork;
    forall now: nat | now < U64_MAX
      ensures (earliest.Some? && earliest.value <= now) <==> HasWork(cfg, st, now)
    {
      if earliest.Some? && earliest.value <= now {
        DeadlineIsWork(cfg, st, earliest.value, now);
      }
      if HasWork(cfg, st, now) {
        var d := WorkHasDeadline(cfg, st, now);
      }
    }
  }

  /** When every deadline lies ahead nothing is left to do. */
  lemma AheadIsIdle(cfg: Config, st: State, now: nat)
    requires now < U64_MAX && forall d: nat :: IsDeadline(cfg, st, d) ==> d > now
    ensures !HasWork(cfg, st, now)
  {
    hide IsDeadline, HasWork;
    if HasWork(cfg, st, now) {
      var d := WorkHasDeadline(cfg, st, now);
    }
  }

  // ---- what each part of a tick looks for is work that is due ----

  lemma SlotIsWork(cfg: Config, st: State, s: Slot, now: nat)
    requires (Stale(cfg, st, s, now) || Due(cfg, st, s, now)) && now < U64_MAX && cfg.Valid()
    ensures HasWork(cfg, st, now)
  {
    hide HedgeAt;
    if Due(cfg, st, s, now) {
      HedgeReached(cfg, st.slots[s], now);
      assert HedgeDue(cfg, st, s, now);
    } else {
      assert ResendDue(cfg, st, s, now);
    }
  }

  lemma ForwardIsWork(cfg: Config, st: State, id: CommandId, now: nat)
    requires ForwardDue(cfg, st, id, now) && !cfg.IsLeader() && now < U64_MAX && cfg.Valid()
    ensures HasWork(cfg, st, now)
  {
    IntervalPassed(cfg, st.pool[id].lastForward, now);
    assert ForwardAgainDue(cfg, st, id, now);
  }

  lemma IntervalPassed(cfg: Config, since: nat, now: nat)
    requires SaturatingSub(now, since) >= cfg.ForwardInterval() && cfg.ForwardInterval() > 0 && now < U64_MAX
    ensures now >= since + 2 * cfg.hedgeDelay && now >= since + cfg.retransmitDelay
  {
    assert cfg.hedgeDelay * 2 == 2 * cfg.hedgeDelay;
  }

  lemma LearnIsWork(cfg: Config, st: State, now: nat)
    requires LearnExpired(cfg, st, now) || (st.learning.None? && Behind(cfg, st))
    requires cfg.Valid()
    ensures HasWork(cfg, st, now)
  {
    if st.learning.None? {
      var k :| 0 <= k < |st.peerAcked| && k != cfg.me && st.peerAcked[k] > st.contig;
    }
    assert RelearnDue(cfg, st, now);
  }

  lemma IdleMeans(cfg: Config, st: State, now: nat)
    requires !HasWork(cfg, st, now) && now < U64_MAX && cfg.Valid()
    ensures forall s :: !Stale(cfg, st, s, now) && !Due(cfg, st, s, now)
    ensures !cfg.IsLeader() ==> forall id :: !ForwardDue(cfg, st, id, now)
    ensures !LearnExpired(cfg, st, now) && (st.learning.None? ==> !Behind(cfg, st))
    ensures cfg.N() > 1 ==> SaturatingSub(now, st.lastPing) < PING_INTERVAL
    ensures st.contig + 1 !in st.slots && st.pendingSince.None? ==> !Beyond(st)
  {
    hide HedgeAt, SaturatingSub, Stale, Due, ForwardDue, Behind;
    forall s ensures !Stale(cfg, st, s, now) && !Due(cfg, st, s, now) {
      if Stale(cfg, st, s, now) || Due(cfg, st, s, now) {
        SlotIsWork(cfg, st, s, now);
      }
    }
    if !cfg.IsLeader() {
      forall id ensures !ForwardDue(cfg, st, id, now) {
        if ForwardDue(cfg, st, id, now) {
          ForwardIsWork(cfg, st, id, now);
        }
      }
    }
    if LearnExpired(cfg, st, now) || (st.learning.None? && Behind(cfg, st)) {
      LearnIsWork(cfg, st, now);
    }
    PingNotDue(cfg, st, now);
  }

  lemma PingNotDue(cfg: Config, st: State, now: nat)
    requires !HasWork(cfg, st, now)
    ensures cfg.N() > 1 ==> SaturatingSub(now, st.lastPing) < PING_INTERVAL
    ensures st.contig + 1 !in st.slots && st.pendingSince.None? ==> !Beyond(st)
  {
  }

  // ---- sending steps again ----

  lemma OthersSent(cfg: Config, start: State, st: State, next: State, stale: seq<Slot>, i: nat)
    requires i < |stale| && (forall j, k :: 0 <= j < k < |stale| ==> stale[j] < stale[k])
    requires OneMoved(st, next, stale[i]) && Extends(start, st) && Extends(st, next)
    requires (forall j :: 0 <= j < i ==> JustSent(cfg, start, st, stale[j])) && JustSent(cfg, st, next, stale[i])
    ensures Extends(start, next) && forall j :: 0 <= j < i + 1 ==> JustSent(cfg, start, next, stale[j])
  {
    hide Extends, ToldSince;
    ExtendsOn(start, st, next);
    SentLater(cfg, start, st, next, stale[i]);
    forall j | 0 <= j < i ensures JustSent(cfg, start, next, stale[j]) {
      assert JustSent(cfg, start, st, stale[j]);
      SentStays(cfg, start, st, next, stale[j]);
    }
  }

  // ---- an idle tick ----

  /** Whatever waits to be proposed has waited since some time past. */
  ghost predicate PendingPast(st: State, now: nat) {
    st.pendingSince.Some? ==> st.pendingSince.value <= now
  }

  /** Nothing is due now, and a leader has no room to open another slot. */
  ghost predicate AtEase(cfg: Config, st: State, now: nat) {
    !HasWork(cfg, st, now) && now < U64_MAX && PendingPast(st, now) && (cfg.IsLeader() ==> Saturated(cfg, st))
  }

  lemma AtEaseIs(cfg: Config, st: State, now: nat)
    requires AtEase(cfg, st, now) && cfg.Valid()
    ensures forall s :: !Stale(cfg, st, s, now) && !Due(cfg, st, s, now)
    ensures !cfg.IsLeader() ==> forall id :: !ForwardDue(cfg, st, id, now)
    ensures !LearnExpired(cfg, st, now) && (st.learning.None? ==> !Behind(cfg, st))
    ensures cfg.N() > 1 ==> SaturatingSub(now, st.lastPing) < PING_INTERVAL
    ensures st.contig + 1 !in st.slots ==> st.pendingSince.None? && !Beyond(st)
    ensures cfg.IsLeader() ==> Saturated(cfg, st)
  {
    hide Stale, Due, ForwardDue, LearnExpired, Behind, SaturatingSub, Saturated, Beyond;
    IdleMeans(cfg, st, now);
    ObservedOrNot(cfg, st, now);
  }

  lemma ObservedOrNot(cfg: Config, st: State, now: nat)
    requires !HasWork(cfg, st, now) && PendingPast(st, now)
    ensures st.contig + 1 !in st.slots ==> st.pendingSince.None?
  {
    hide ResendDue, HedgeDue, ForwardAgainDue, RelearnDue;
  }

  lemma RefreshedSame(st: State, now: nat)
    requires PendingOk(st)
    ensures Refreshed(st, now) == st
  {
  }

  lemma ReforwardsNothing(cfg: Config, st: State, chunks: seq<(nat, seq<Command>)>, now: nat)
    requires cfg.me < |cfg.ids| && Forwardable(cfg, st, chunks)
    requires forall id :: !Rides(AllOf(chunks), id)
    ensures Reforwarded(cfg, st, chunks, now) == st
  {
    if chunks != [] {
      var last := chunks[|chunks| - 1];
      assert ChunkOk(cfg, st, last.0, last.1);
      var all := AllOf(chunks);
      assert all == AllOf(chunks[..|chunks| - 1]) + last.1;
      assert Rides(all, all[|all| - 1].id);
    }
    assert AllOf([]) == [];
    assert Forwarded(st.pool, [], now) == st.pool;
  }

  lemma AsksNothing(cfg: Config, st: State, now: nat)
    requires cfg.me < |cfg.ids| && |st.peerAcked| == cfg.N()
    requires !LearnExpired(cfg, st, now) && (st.learning.None? ==> !Behind(cfg, st))
    ensures LearnTicked(cfg, st, now) == st
  {
    hide LearnExpired;
    var ahead := AheadBelow(st.peerAcked, st.contig, cfg.me, cfg.N());
    if ahead != [] {
      assert ahead[0] in ahead;
    }
  }

  // ---- whom a Learn goes to ----

  /** The replica at this place has advertised more than is delivered here. */
  predicate IsAhead(cfg: Config, st: State, k: nat) {
    k < |st.peerAcked| && k != cfg.me && st.peerAcked[k] > st.contig
  }

  /** How many of the first `n` replicas are ahead. */
  function AheadBefore(cfg: Config, st: State, n: nat): nat {
    if n == 0 then 0 else AheadBefore(cfg, st, n - 1) + if IsAhead(cfg, st, n - 1) then 1 else 0
  }

  /** It is the turn of replica `j`, with as many replicas ahead before it as there were
      attempts, counted round all that are ahead. */
  ghost predicate Turn(cfg: Config, st: State, attempts: nat, j: nat) {
    IsAhead(cfg, st, j) && AheadBefore(cfg, st, j) == attempts % Total(cfg, st)
  }

  function Total(cfg: Config, st: State): (n: nat)
    ensures n > 0
  {
    var all := AheadBefore(cfg, st, |st.peerAcked|);
    if all == 0 then 1 else all
  }

  lemma {:induction false} Ranked(cfg: Config, st: State, n: nat, i: nat)
    requires n <= |st.peerAcked|
    ensures |AheadBelow(st.peerAcked, st.contig, cfg.me, n)| == AheadBefore(cfg, st, n)
    ensures
      var ahead := AheadBelow(st.peerAcked, st.contig, cfg.me, n);
      i < |ahead| ==> IsAhead(cfg, st, ahead[i]) && ahead[i] < n && AheadBefore(cfg, st, ahead[i]) == i
  {
    if n > 0 {
      Ranked(cfg, st, n - 1, i);
    }
  }

  /** Places are in the order of their ranks, so each turn is one replica's. */
  lemma {:induction false} RanksGrow(cfg: Config, st: State, j: nat, k: nat)
    requires j <= k
    ensures AheadBefore(cfg, st, j) <= AheadBefore(cfg, st, k)
    ensures j < k && IsAhead(cfg, st, j) ==> AheadBefore(cfg, st, j) < AheadBefore(cfg, st, k)
    decreases k - j
  {
    if j < k {
      RanksGrow(cfg, st, j + 1, k);
    }
  }

  lemma TurnIsUnique(cfg: Config, st: State, attempts: nat, j: nat, k: nat)
    requires Turn(cfg, st, attempts, j) && Turn(cfg, st, attempts, k)
    ensures j == k
  {
    if j < k {
      RanksGrow(cfg, st, j, k);
    } else if k < j {
      RanksGrow(cfg, st, k, j);
    }
  }

  /** What a tick of the Learn timer does: an expired request is given up and counted; then, if
      none is outstanding, the replica whose turn it is among those ahead is asked for the slot
      due next. */
  ghost predicate Retries(cfg: Config, st: State, now: nat, next: State) {
    var expired := st.learning.Some? && SaturatingSub(now, st.learning.value.1) >= cfg.retransmitDelay;
    && next.learnAttempts == st.learnAttempts + (if expired then 1 else 0)
    && if st.learning.Some? && !expired then next == st
       else if exists k: nat :: IsAhead(cfg, st, k) then
         && next.learning.Some? && next.learning.value.1 == now
         && Turn(cfg, st, next.learnAttempts, next.learning.value.0)
         && ToldSince(|st.actions|, next, next.learning.value.0, Wire.Learn(st.contig + 1))
       else next.learning.None? && next.actions == st.actions
  }

  lemma TickRetries(cfg: Config, st: State, now: nat)
    requires cfg.me < |cfg.ids| && |st.peerAcked| == cfg.N()
    ensures Retries(cfg, st, now, LearnTicked(cfg, st, now))
    ensures LearnTicked(cfg, st, now).contig == st.contig && LearnTicked(cfg, st, now).peerAcked == st.peerAcked
  {
    hide Requested, AheadBefore;
    var mid := if LearnExpired(cfg, st, now) then LearnTimedOut(st) else st;
    var ahead := AheadBelow(st.peerAcked, st.contig, cfg.me, cfg.N());
    if mid.learning.None? && ahead != [] {
      var i := mid.learnAttempts % |ahead|;
      Ranked(cfg, st, cfg.N(), i);
      RequestTells(cfg, mid, ahead[i], now);
      RequestFields(cfg, mid, ahead[i], now);
      assert IsAhead(cfg, st, ahead[i]);
    } else if k: nat :| IsAhead(cfg, st, k) {
      assert k in ahead;
    }
  }

  lemma RequestFields(cfg: Config, st: State, to: nat, now: nat)
    requires cfg.me < |cfg.ids|
    ensures
      var next := Requested(cfg, st, to, now);
      next.learnAttempts == st.learnAttempts && next.learning == Some((to, now))
  {
  }

  /** The Learn timer ticking at some times, one after another. */
  function Retrying(cfg: Config, st: State, times: seq<nat>): (r: State)
    requires cfg.me < |cfg.ids| && |st.peerAcked| == cfg.N()
    ensures r.peerAcked == st.peerAcked && r.contig == st.contig
  {
    if times == [] then st
    else LearnTicked(cfg, Retrying(cfg, st, times[..|times| - 1]), times[|times| - 1])
  }

  /** At each of these times the request then outstanding has expired. */
  ghost predicate AllExpire(cfg: Config, st: State, times: seq<nat>)
    requires cfg.me < |cfg.ids| && |st.peerAcked| == cfg.N()
  {
    forall k :: 0 <= k < |times| ==> LearnExpired(cfg, Retrying(cfg, st, times[..k]), times[k])
  }

  lemma SameAhead(cfg: Config, st: State, next: State, attempts: nat, j: nat)
    requires next.peerAcked == st.peerAcked && next.contig == st.contig
    ensures Turn(cfg, next, attempts, j) <==> Turn(cfg, st, attempts, j)
  {
    SameRanks(cfg, st, next, |st.peerAcked|);
    SameRanks(cfg, st, next, j);
  }

  lemma {:induction false} SameRanks(cfg: Config, st: State, next: State, n: nat)
    requires next.peerAcked == st.peerAcked && next.contig == st.contig
    ensures AheadBefore(cfg, next, n) == AheadBefore(cfg, st, n)
  {
    if n > 0 {
      SameRanks(cfg, st, next, n - 1);
    }
  }

  /** After `k` expiries in a row it is the turn `k` later. */
  lemma {:induction false} TurnAfter(cfg: Config, st: State, times: seq<nat>, j: nat)
    requires cfg.me < |cfg.ids| && |st.peerAcked| == cfg.N() && AllExpire(cfg, st, times) && IsAhead(cfg, st, j)
    requires times != []
    ensures
      var next := Retrying(cfg, st, times);
      && next.learnAttempts == st.learnAttempts + |times| && next.learning.Some?
      && Turn(cfg, st, st.learnAttempts + |times|, next.learning.value.0)
  {
    hide Turn, LearnTicked, SaturatingSub;
    var front, last := times[..|times| - 1], times[|times| - 1];
    var mid := Retrying(cfg, st, front);
    assert forall k :: 0 <= k < |front| ==> front[..k] == times[..k] && front[k] == times[k];
    assert LearnExpired(cfg, mid, last);
    if front == [] {
      assert mid == st;
    } else {
      TurnAfter(cfg, st, front, j);
    }
    TickRetries(cfg, mid, last);
    assert IsAhead(cfg, mid, j);
    var next := Retrying(cfg, st, times);
    SameAhead(cfg, st, mid, next.learnAttempts, next.learning.value.0);
  }

  /** The tick at `times[i]` leads to asking `j`. */
  ghost predicate AsksAt(cfg: Config, st: State, times: seq<nat>, i: nat, j: nat)
    requires cfg.me < |cfg.ids| && |st.peerAcked| == cfg.N()
  {
    i < |times| && var next := Retrying(cfg, st, times[..i + 1]);
    next.learning.Some? && next.learning.value.0 == j
  }

  /** A dead replica does not pin catching up: while the same replicas stay ahead, of any as
      many expiries in a row as there are of them, exactly one leads to asking each. */
  lemma EachAheadIsAsked(cfg: Config, st: State, times: seq<nat>, j: nat) returns (k: nat)
    requires cfg.me < |cfg.ids| && |st.peerAcked| == cfg.N() && IsAhead(cfg, st, j)
    requires |times| == AheadBefore(cfg, st, cfg.N()) && AllExpire(cfg, st, times)
    ensures forall i: nat :: AsksAt(cfg, st, times, i, j) <==> i == k
  {
    hide Retrying, AheadBefore;
    var m := |times|;
    RanksGrow(cfg, st, j, cfg.N());
    k := Encoding.RotateTo(st.learnAttempts + 1, m, AheadBefore(cfg, st, j));
    forall i: nat ensures AsksAt(cfg, st, times, i, j) <==> i == k {
      if i < m {
        SomeExpire(cfg, st, times, i + 1);
        TurnAfter(cfg, st, times[..i + 1], j);
        var to := Retrying(cfg, st, times[..i + 1]).learning.value.0;
        if to == j {
          Encoding.RotateOnce(st.learnAttempts + 1, m, i, k);
        }
        if i == k {
          TurnIsUnique(cfg, st, st.learnAttempts + i + 1, to, j);
        }
      }
    }
  }

  lemma SomeExpire(cfg: Config, st: State, times: seq<nat>, n: nat)
    requires cfg.me < |cfg.ids| && |st.peerAcked| == cfg.N() && AllExpire(cfg, st, times) && n <= |times|
    ensures AllExpire(cfg, st, times[..n])
  {
    hide Retrying;
    forall k | 0 <= k < n ensures LearnExpired(cfg, Retrying(cfg, st, times[..n][..k]), times[..n][k]) {
      assert times[..n][..k] == times[..k] && times[..n][k] == times[k];
    }
  }
}
