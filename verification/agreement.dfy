/** One value for every slot. */
module Agreement {
  // The safety of one slot, over every run of any group.

  import opened Types
  import opened Proposer
  import opened SlotLogic
  import opened Consensus
  import opened ConsensusInvariant
  import opened ConsensusSteps

  // ---- every reachable state ----

  lemma {:induction false} ReachableInv(ids: seq<ReplicaId>, events: seq<Event>)
    requires ids != []
    ensures Inv(Execute(ids, events))
  {
    if events == [] {
      InitInv(ids);
    } else {
      var before := Execute(ids, events[..|events| - 1]);
      ReachableInv(ids, events[..|events| - 1]);
      if Enabled(before, events[|events| - 1]) {
        EventKeeps(before, events[|events| - 1]);
      }
    }
  }

  /** A decided replica stays decided on its value. */
  lemma DecisionStays(c: Cluster, e: Event, i: nat)
    requires Inv(c) && |c.nodes| == c.N() && Enabled(c, e) && i < c.N() && c.nodes[i].recorder.Decided?
    ensures Apply(c, e).nodes[i].recorder == c.nodes[i].recorder
  {
    SettledIsDone(c, i);
  }

  lemma SettledIsDone(c: Cluster, i: nat)
    requires Inv(c) && Known(c, i) && c.nodes[i].recorder.Decided?
    ensures c.nodes[i].proposer.Done?
  {
    NodeFacts(c, i);
  }

  /** Nothing recorded, sent or decided is ever taken back, however long the run goes on. */
  lemma {:induction false} RunsOnlyGrow(ids: seq<ReplicaId>, events: seq<Event>, more: seq<Event>)
    requires ids != []
    ensures
      var c, d := Execute(ids, events), Execute(ids, events + more);
      && Grows(c, d)
      && forall i: nat :: i < |ids| && c.nodes[i].recorder.Decided? ==> d.nodes[i].recorder == c.nodes[i].recorder
  {
    var c := Execute(ids, events);
    if more == [] {
      assert events + more == events;
      GrowsReflexive(c);
    } else {
      var n := |more| - 1;
      var d := Execute(ids, events + more[..n]);
      assert (events + more)[..|events + more| - 1] == events + more[..n];
      RunsOnlyGrow(ids, events, more[..n]);
      ReachableInv(ids, events + more[..n]);
      OneMoreGrows(d, more[n]);
      GrowsTransitive(c, d, Execute(ids, events + more));
    }
  }

  lemma GrowsReflexive(c: Cluster)
    requires |c.nodes| == c.N()
    ensures Grows(c, c)
  {
    forall j: nat | j < c.N() ensures HistGrows(c.nodes[j].hist, c.nodes[j].hist) {
      HistGrowsReflexive(c.nodes[j].hist);
    }
  }

  lemma OneMoreGrows(d: Cluster, e: Event)
    requires Inv(d) && |d.nodes| == d.N()
    ensures
      var f := if Enabled(d, e) then Apply(d, e) else d;
      Grows(d, f) && forall i: nat :: i < d.N() && d.nodes[i].recorder.Decided? ==>
        f.nodes[i].recorder == d.nodes[i].recorder
  {
    hide Inv, Apply;
    if Enabled(d, e) {
      EventKeeps(d, e);
      forall i: nat | i < d.N() && d.nodes[i].recorder.Decided?
        ensures Apply(d, e).nodes[i].recorder == d.nodes[i].recorder
      {
        DecisionStays(d, e, i);
      }
    } else {
      GrowsReflexive(d);
    }
  }

  // ---- the decision lock ----

  lemma ChosenQuorum(c: Cluster, s: int, p: Proposal) returns (q: set<nat>)
    requires ChosenAt(c, s, p)
    ensures IsQuorum(c.N(), q) && LeftAtMost(c, q, s - 1, p) && Covered(c, q, s, p) && s % 4 == 2 && s > 4
  {
    q :| ChosenBy(c, q, s, p);
  }

  lemma SentCommon(c: Cluster, i: nat, s: int)
    requires Inv(c) && Known(c, i) && s in Hist(c, i).sent && s % 4 >= 2
    ensures CommonAt(c, s - 1, Hist(c, i).sent[s].proposal) && Hist(c, i).sent[s].priorities == []
  {
    SentFacts(c, i, s);
  }

  /** Once `p` is chosen at step `s`, no proposer spreads anything above it there. */
  lemma NothingSpreadAbove(c: Cluster, s: int, p: Proposal, i: nat)
    requires Inv(c) && ChosenAt(c, s, p) && Known(c, i) && s in Hist(c, i).sent
    ensures AtMost(Hist(c, i).sent[s].proposal, p)
  {
    hide Inv, ChosenAt, CommonAt, IsQuorum;
    var q := ChosenQuorum(c, s, p);
    SentCommon(c, i, s);
    var r := CommonBy(c, s - 1, Hist(c, i).sent[s].proposal);
    var j := QuorumsMeet(c, q, r);
    OrderTransitive(Hist(c, i).sent[s].proposal, Hist(c, j).agg[s - 1], p);
  }

  /** Nor does any recorder aggregate anything above it there. */
  lemma NothingRecordedAbove(c: Cluster, s: int, p: Proposal, j: nat)
    requires Inv(c) && ChosenAt(c, s, p) && Known(c, j) && s in Hist(c, j).agg
    ensures AtMost(Hist(c, j).agg[s], p)
  {
    AggFacts(c, j, s);
    var i: nat :| Known(c, i) && s in Hist(c, i).sent && Hist(c, j).agg[s] == Hist(c, i).sent[s].For(j);
    SentCommon(c, i, s);
    NothingSpreadAbove(c, s, p, i);
  }

  /** The best aggregate any quorum leaves a chosen step with is the chosen proposal. */
  lemma BestAggIsChosen(c: Cluster, s: int, p: Proposal, r: set<nat>, best: Proposal)
    requires Inv(c) && ChosenAt(c, s, p) && IsQuorum(c.N(), r) && BestAgg(c, r, s, best)
    ensures best == p
  {
    hide Inv, ChosenAt, IsQuorum, Less;
    var q := ChosenQuorum(c, s, p);
    var j := QuorumsMeet(c, q, r);
    OrderTransitive(p, Hist(c, j).agg[s], best);
    var k: nat :| k in r && Known(c, k) && s in Hist(c, k).agg && Hist(c, k).agg[s] == best;
    NothingRecordedAbove(c, s, p, k);
    OrderTotal(best, p);
  }

  ghost predicate AllCarry(c: Cluster, t: int, value: Bytes) {
    forall i: nat :: Known(c, i) && t in Hist(c, i).sent ==> Hist(c, i).sent[t].proposal.value == value
  }

  lemma ChosenCarries(c: Cluster, s: int, p: Proposal)
    requires Inv(c) && ChosenAt(c, s, p)
    ensures AllCarry(c, s + 2, p.value)
  {
    forall i: nat | Known(c, i) && s + 2 in Hist(c, i).sent
      ensures Hist(c, i).sent[s + 2].proposal.value == p.value
    {
      SentCarried(c, i, s + 2);
      var r, best := CarriedOverBy(c, s, Hist(c, i).sent[s + 2].proposal.value);
      BestAggIsChosen(c, s, p, r, best);
    }
  }

  lemma SentCarried(c: Cluster, i: nat, s: int)
    requires Inv(c) && Known(c, i) && s in Hist(c, i).sent && s % 4 == 0 && s > 4
    ensures CarriedOver(c, s - 2, Hist(c, i).sent[s].proposal.value)
  {
    SentFacts(c, i, s);
  }

  lemma OfferedCarries(c: Cluster, j: nat, s: int, p: Proposal, value: Bytes)
    requires Inv(c) && Offered(c, j, s, p) && AllCarry(c, s, value)
    ensures p.value == value
  {
    var i: nat :| Known(c, i) && s in Hist(c, i).sent && p == Hist(c, i).sent[s].For(j);
  }

  /** A value every template carries from some step on is carried by all later ones. */
  lemma {:induction false} CarriedForever(c: Cluster, t0: int, value: Bytes, t: int)
    requires Inv(c) && AllCarry(c, t0, value) && t0 > 4 && t0 % 4 <= 1 && t0 <= t
    ensures AllCarry(c, t, value)
    decreases t
  {
    if t > t0 {
      CarriedForever(c, t0, value, t - 1);
      if t % 4 == 0 {
        CarriedForever(c, t0, value, t - 2);
      }
      forall i: nat | Known(c, i) && t in Hist(c, i).sent ensures Hist(c, i).sent[t].proposal.value == value {
        CarriedOnce(c, i, t, value);
      }
    }
  }

  lemma CarriedOnce(c: Cluster, i: nat, t: int, value: Bytes)
    requires Inv(c) && Known(c, i) && t in Hist(c, i).sent && t > 4
    requires if t % 4 == 0 then AllCarry(c, t - 2, value) else AllCarry(c, t - 1, value)
    ensures Hist(c, i).sent[t].proposal.value == value
  {
    var p := Hist(c, i).sent[t].proposal;
    if t % 4 == 0 {
      SentCarried(c, i, t);
      var q, best := CarriedOverBy(c, t - 2, p.value);
      BestAggCarries(c, q, t - 2, best, value);
    } else if t % 4 == 1 {
      SentExists(c, i, t);
      var q := ExistsBy(c, t - 1, p);
      BestFirstCarries(c, q, t - 1, p, value);
    } else {
      SentCommon(c, i, t);
      var q := CommonBy(c, t - 1, p);
    }
  }

  lemma SentExists(c: Cluster, i: nat, s: int)
    requires Inv(c) && Known(c, i) && s in Hist(c, i).sent && s % 4 == 1
    ensures ExistsAt(c, s - 1, Hist(c, i).sent[s].proposal) && Hist(c, i).sent[s].priorities == []
  {
    SentFacts(c, i, s);
  }

  lemma BestAggCarries(c: Cluster, q: set<nat>, s: int, best: Proposal, value: Bytes)
    requires Inv(c) && BestAgg(c, q, s, best) && AllCarry(c, s, value)
    ensures best.value == value
  {
    var j: nat :| j in q && Known(c, j) && s in Hist(c, j).agg && Hist(c, j).agg[s] == best;
    AggFacts(c, j, s);
    OfferedCarries(c, j, s, best, value);
  }

  lemma BestFirstCarries(c: Cluster, q: set<nat>, s: int, best: Proposal, value: Bytes)
    requires Inv(c) && BestFirst(c, q, s, best) && AllCarry(c, s, value)
    ensures best.value == value
  {
    var j: nat :| j in q && Known(c, j) && s in Hist(c, j).first && Hist(c, j).first[s] == best;
    FirstFacts(c, j, s);
    OfferedCarries(c, j, s, best, value);
  }

  // ---- the fast path ----

  function LeadersProposal(c: Cluster): Proposal
    requires Known(c, 0) && 4 in Hist(c, 0).sent
  {
    Hist(c, 0).sent[4].proposal
  }

  lemma FastFirst(c: Cluster, q: set<nat>, j: nat)
    requires Inv(c) && FastQuorum(c, q) && j in q
    ensures Known(c, 0) && 4 in Hist(c, 0).sent && Known(c, j) && 4 in Hist(c, j).first
      && Hist(c, j).first[4] == LeadersProposal(c)
  {
    FirstFacts(c, j, 4);
    HighFirstIsLeaders(c, j, 4, Hist(c, j).first[4]);
  }

  /** Once a quorum holds the reserved priority first, the best first of any quorum of
      step 4 is the leader's proposal. */
  lemma FastBestFirst(c: Cluster, q: set<nat>, r: set<nat>, p: Proposal)
    requires Inv(c) && FastQuorum(c, q) && IsQuorum(c.N(), r) && BestFirst(c, r, 4, p)
    ensures Known(c, 0) && 4 in Hist(c, 0).sent && p == LeadersProposal(c)
  {
    var j := QuorumsMeet(c, q, r);
    FastFirst(c, q, j);
    var k: nat :| k in r && Known(c, k) && 4 in Hist(c, k).first && Hist(c, k).first[4] == p;
    FirstFacts(c, k, 4);
    assert p.priority == PRIORITY_H;
    HighFirstIsLeaders(c, k, 4, p);
  }

  lemma FastSpreads(c: Cluster, q: set<nat>, i: nat)
    requires Inv(c) && FastQuorum(c, q) && Known(c, i) && 5 in Hist(c, i).sent
    ensures Known(c, 0) && 4 in Hist(c, 0).sent && Hist(c, i).sent[5].proposal == LeadersProposal(c)
  {
    SentExists(c, i, 5);
    var r := ExistsBy(c, 4, Hist(c, i).sent[5].proposal);
    FastBestFirst(c, q, r, Hist(c, i).sent[5].proposal);
  }

  lemma QuorumNonempty(c: Cluster, q: set<nat>) returns (j: nat)
    requires IsQuorum(c.N(), q)
    ensures j in q
  {
    j :| j in q;
  }

  /** Fast-path dominance: once a quorum of recorders holds a priority-H first at step 4,
      every proposer leaves step 4 with exactly the leader's proposal, and everything sent
      at any later step carries its value. */
  lemma FastPathDominance(c: Cluster, q: set<nat>)
    requires Inv(c) && FastQuorum(c, q)
    ensures Known(c, 0) && 4 in Hist(c, 0).sent
    ensures forall i: nat :: Known(c, i) && 5 in Hist(c, i).sent ==> Hist(c, i).sent[5].proposal == LeadersProposal(c)
    ensures forall t: int, i: nat :: t > 4 && Known(c, i) && t in Hist(c, i).sent ==>
      Hist(c, i).sent[t].proposal.value == LeadersProposal(c).value
  {
    hide Inv;
    var j := QuorumNonempty(c, q);
    FastFirst(c, q, j);
    forall i: nat | Known(c, i) && 5 in Hist(c, i).sent ensures Hist(c, i).sent[5].proposal == LeadersProposal(c) {
      FastSpreads(c, q, i);
    }
    forall t: int, i: nat | t > 4 && Known(c, i) && t in Hist(c, i).sent
      ensures Hist(c, i).sent[t].proposal.value == LeadersProposal(c).value
    {
      CarriedForever(c, 5, LeadersProposal(c).value, t);
    }
  }

  /** The reserved priority is offered in no phase 0 but the leader's first step. */
  lemma HighOnlyAtStart(c: Cluster, i: nat, s: int, j: nat)
    requires Inv(c) && Known(c, i) && Known(c, j) && s in Hist(c, i).sent && s % 4 == 0
    requires Hist(c, i).sent[s].For(j).priority == PRIORITY_H
    ensures s == 4 && i == 0
  {
    SentFacts(c, i, s);
  }

  // ---- one value per slot ----

  /** Nothing above `p` is spread or recorded at step `s`, and from the next round on only its
      value is sent and first recorded. */
  ghost predicate Locked(c: Cluster, s: int, p: Proposal) {
    && (forall i: nat :: Known(c, i) && s in Hist(c, i).sent ==> AtMost(Hist(c, i).sent[s].proposal, p))
    && (forall j: nat :: Known(c, j) && s in Hist(c, j).agg ==> AtMost(Hist(c, j).agg[s], p))
    && (forall t: int, i: nat :: t >= s + 2 && Known(c, i) && t in Hist(c, i).sent ==>
          Hist(c, i).sent[t].proposal.value == p.value)
    && (forall t: int, j: nat :: t >= s + 2 && Known(c, j) && t in Hist(c, j).first ==>
          Hist(c, j).first[t].value == p.value)
  }

  lemma ChosenLocks(c: Cluster, s: int, p: Proposal)
    requires Inv(c) && ChosenAt(c, s, p)
    ensures Locked(c, s, p)
  {
    hide Inv, AtMost;
    forall i: nat | Known(c, i) && s in Hist(c, i).sent ensures AtMost(Hist(c, i).sent[s].proposal, p) {
      NothingSpreadAbove(c, s, p, i);
    }
    forall j: nat | Known(c, j) && s in Hist(c, j).agg ensures AtMost(Hist(c, j).agg[s], p) {
      NothingRecordedAbove(c, s, p, j);
    }
    ChosenCarries(c, s, p);
    forall t: int, i: nat | t >= s + 2 && Known(c, i) && t in Hist(c, i).sent
      ensures Hist(c, i).sent[t].proposal.value == p.value
    {
      CarriedForever(c, s + 2, p.value, t);
    }
    forall t: int, j: nat | t >= s + 2 && Known(c, j) && t in Hist(c, j).first
      ensures Hist(c, j).first[t].value == p.value
    {
      FirstFacts(c, j, t);
      CarriedForever(c, s + 2, p.value, t);
      OfferedCarries(c, j, t, Hist(c, j).first[t], p.value);
    }
  }

  /** With this event, a reply or a pass of driving, proposer `i` decides `p` in phase 2. */
  predicate DecidesInPhaseTwo(c: Cluster, e: Event, i: nat, s: nat, p: Proposal) {
    && |c.nodes| == c.N() && Enabled(c, e) && i < c.N()
    && ((e.Drive? && e.i == i) || (e.OnReply? && e.msg.dst == i))
    && c.nodes[i].proposer.Running? && s % 4 == 2
    && c.nodes[i].proposer.run.step == s && c.nodes[i].proposer.run.proposal == p
    && |Apply(c, e).nodes| == c.N() && Apply(c, e).nodes[i].recorder.Decided?
  }

  /** A reply on which a proposer decides in phase 2 makes its proposal the chosen one. */
  lemma ReplyDecides(c: Cluster, i: nat, j: nat, reqStep: nat, step: nat, first: Proposal, priorAgg: Option<Proposal>,
      now: nat, draws: seq<Draw>)
    requires Inv(c) && Known(c, i) && c.nodes[i].proposer.Running? && Fits(c.nodes[i].proposer.run, c.N())
    requires |draws| == c.N() && j < c.N() && Truthful(c, i, j, reqStep, step, first, priorAgg)
    requires c.nodes[i].proposer.run.step % 4 == 2
    requires TakeReply(c, i, j, reqStep, step, first, priorAgg, now, draws).nodes[i].recorder.Decided?
    ensures ChosenAt(c, c.nodes[i].proposer.run.step, c.nodes[i].proposer.run.proposal)
  {
    hide Inv, Tallied, Truthful, ChosenAt, BeginStep;
    var run := c.nodes[i].proposer.run;
    RunningFacts(c, i);
    CountTallied(c, i, run, j, first, priorAgg);
    PhaseTwoDecisionChosen(c, i, Count(run, j, first, priorAgg));
  }

  lemma DecisionIsChosen(c: Cluster, e: Event, i: nat, s: nat, p: Proposal)
    requires Inv(c) && DecidesInPhaseTwo(c, e, i, s, p)
    ensures ChosenAt(Apply(c, e), s, p)
  {
    hide Inv, Grows, Truthful, ChosenAt, TakeReply, Reconstitute;
    EventKeeps(c, e);
    RunningFacts(c, i);
    if e.Drive? {
      var summary := DriveRecords(c, i, e.now);
      var d := DriveRecord(c, i, e.now);
      ReplyDecides(d, i, i, s, summary.step, summary.first, summary.priorAgg, e.now, e.draws);
      DriveKeeps(c, i, e.now, e.draws);
      ChosenAtStays(d, Apply(c, e), s, p);
    } else {
      var msg := e.msg;
      RebuiltTruthful(c, msg);
      var rebuilt := Reconstitute(c.nodes[i].proposer.run, msg.src, msg.reqStep, msg.first);
      ReplyDecides(c, i, msg.src, msg.reqStep, msg.step, rebuilt.value, msg.priorAgg, e.now, e.draws);
      ChosenAtStays(c, Apply(c, e), s, p);
    }
  }

  lemma DecisionPersists(ids: seq<ReplicaId>, events: seq<Event>, e: Event, more: seq<Event>, i: nat, s: nat,
        p: Proposal)
    requires ids != [] && DecidesInPhaseTwo(Execute(ids, events), e, i, s, p)
    ensures Inv(Execute(ids, events + [e] + more)) && ChosenAt(Execute(ids, events + [e] + more), s, p)
  {
    hide Inv, Grows, ChosenAt, DecidesInPhaseTwo;
    ReachableInv(ids, events);
    DecisionIsChosen(Execute(ids, events), e, i, s, p);
    ExecuteOne(ids, events, e, i, s, p);
    RunsOnlyGrow(ids, events + [e], more);
    ReachableInv(ids, events + [e] + more);
    ChosenAtStays(Execute(ids, events + [e]), Execute(ids, events + [e] + more), s, p);
  }

  lemma ExecuteOne(ids: seq<ReplicaId>, events: seq<Event>, e: Event, i: nat, s: nat, p: Proposal)
    requires DecidesInPhaseTwo(Execute(ids, events), e, i, s, p)
    ensures Execute(ids, events + [e]) == Apply(Execute(ids, events), e)
  {
    hide Apply;
    assert (events + [e])[..|events|] == events;
  }

  /** Decision lock: once some proposer decides `p` in phase 2 of a round, then however the
      run goes on, nothing above `p` is ever spread or recorded at that step, and everything
      sent or first recorded from the next round on carries its value. */
  lemma DecisionLock(ids: seq<ReplicaId>, events: seq<Event>, e: Event, more: seq<Event>, i: nat, s: nat, p: Proposal)
    requires ids != [] && DecidesInPhaseTwo(Execute(ids, events), e, i, s, p)
    ensures Locked(Execute(ids, events + [e] + more), s, p)
  {
    hide Inv, ChosenAt, DecidesInPhaseTwo, Locked;
    DecisionPersists(ids, events, e, more, i, s, p);
    ChosenLocks(Execute(ids, events + [e] + more), s, p);
  }

  /** A proposer that completes phase 3 of the round in which some proposer decided `p`, on
      whatever reply, adopts exactly `p`. */
  lemma PhaseThreeAdoptsDecision(ids: seq<ReplicaId>, events: seq<Event>, e: Event, more: seq<Event>, i: nat, s: nat,
      p: Proposal, k: nat, j: nat, first: Proposal, priorAgg: Option<Proposal>)
    requires ids != [] && DecidesInPhaseTwo(Execute(ids, events), e, i, s, p)
    requires
      var d := Execute(ids, events + [e] + more);
      && Known(d, k) && d.nodes[k].proposer.Running? && d.nodes[k].proposer.run.step == s + 1
      && j < |d.nodes[k].proposer.run.replied| && Truthful(d, k, j, s + 1, s + 1, first, priorAgg)
      && Fold(d.nodes[k].proposer.run, j, s + 1, s + 1, first, priorAgg, d.Quorum()).1 == Quorum
    ensures
      var d := Execute(ids, events + [e] + more);
      var folded := Fold(d.nodes[k].proposer.run, j, s + 1, s + 1, first, priorAgg, d.Quorum()).0;
      && folded.bestFirst.Some? && StepComplete(folded).1 == Advance && StepComplete(folded).0.proposal == p
  {
    hide Inv, ChosenAt, DecidesInPhaseTwo, Truthful, Execute;
    var d := Execute(ids, events + [e] + more);
    DecisionPersists(ids, events, e, more, i, s, p);
    ChosenIsAdopted(d, s, p, k, j, first, priorAgg);
  }

  lemma ChosenIsAdopted(c: Cluster, s: nat, p: Proposal, i: nat, j: nat, first: Proposal, priorAgg: Option<Proposal>)
    requires Inv(c) && ChosenAt(c, s, p)
    requires Known(c, i) && c.nodes[i].proposer.Running? && c.nodes[i].proposer.run.step == s + 1
    requires j < |c.nodes[i].proposer.run.replied| && Truthful(c, i, j, s + 1, s + 1, first, priorAgg)
    requires Fold(c.nodes[i].proposer.run, j, s + 1, s + 1, first, priorAgg, c.Quorum()).1 == Quorum
    ensures
      var folded := Fold(c.nodes[i].proposer.run, j, s + 1, s + 1, first, priorAgg, c.Quorum()).0;
      && folded.bestFirst.Some? && StepComplete(folded).1 == Advance && StepComplete(folded).0.proposal == p
  {
    hide Inv, ChosenAt, Tallied, Truthful;
    var run := c.nodes[i].proposer.run;
    RunningFacts(c, i);
    var counted := Count(run, j, first, priorAgg);
    var o := ChosenSpread(c, s, p);
    CountTallied(c, i, run, j, first, priorAgg);
    NoStall(c, i, counted);
    CountedIsQuorum(c, i, counted);
    BestAggIsChosen(c, s, p, Counted(counted), counted.bestAgg.value);
  }

  lemma ChosenSpread(c: Cluster, s: int, p: Proposal) returns (i: nat)
    requires ChosenAt(c, s, p)
    ensures Known(c, i) && s in Hist(c, i).sent && Hist(c, i).sent[s].proposal == p && s % 4 == 2 && s > 4
  {
    i :| Known(c, i) && s in Hist(c, i).sent && p == Hist(c, i).sent[s].proposal;
  }

  lemma ChosenAtUnique(c: Cluster, s: int, p: Proposal, t: int, r: Proposal)
    requires Inv(c) && ChosenAt(c, s, p) && ChosenAt(c, t, r) && s <= t
    ensures p.value == r.value
    ensures s == t ==> p == r
  {
    hide Inv, ChosenAt, AtMost;
    var i := ChosenSpread(c, s, p);
    var k := ChosenSpread(c, t, r);
    if s == t {
      NothingSpreadAbove(c, s, p, k);
      NothingSpreadAbove(c, s, r, i);
      OrderTotal(p, r);
    } else {
      ChosenCarries(c, s, p);
      CarriedForever(c, s + 2, p.value, t);
    }
  }

  lemma FastAndSlowAgree(c: Cluster, value: Bytes, s: int, p: Proposal)
    requires Inv(c) && ChosenFast(c, value) && ChosenAt(c, s, p)
    ensures p.value == value
  {
    hide Inv, ChosenAt;
    var q :| FastQuorum(c, q);
    var k := ChosenSpread(c, s, p);
    FastPathDominance(c, q);
  }

  /** At most one value is ever chosen in a slot, on either path and in any rounds. */
  lemma ChosenUnique(c: Cluster, v: Bytes, w: Bytes)
    requires Inv(c) && Chosen(c, v) && Chosen(c, w)
    ensures v == w
  {
    hide Inv, ChosenAt;
    if ChosenFast(c, v) {
      if !ChosenFast(c, w) {
        var s, p: Proposal :| ChosenAt(c, s, p) && p.value == w;
        FastAndSlowAgree(c, v, s, p);
      }
    } else if ChosenFast(c, w) {
      var s, p: Proposal :| ChosenAt(c, s, p) && p.value == v;
      FastAndSlowAgree(c, w, s, p);
    } else {
      var s, p: Proposal :| ChosenAt(c, s, p) && p.value == v;
      var t, r: Proposal :| ChosenAt(c, t, r) && r.value == w;
      if s <= t {
        ChosenAtUnique(c, s, p, t, r);
      } else {
        ChosenAtUnique(c, t, r, s, p);
      }
    }
  }

  /** Agreement: in any group, in any run, a decision made anywhere at any time, on the
      fast path, in phase 2 or learned from another replica, is the decision made anywhere
      else, earlier or later. */
  lemma AgreementOverRuns(ids: seq<ReplicaId>, events: seq<Event>, more: seq<Event>, i: nat, j: nat)
    requires ids != [] && i < |ids| && j < |ids|
    requires Execute(ids, events).nodes[i].recorder.Decided?
    requires Execute(ids, events + more).nodes[j].recorder.Decided?
    ensures Execute(ids, events).nodes[i].recorder == Execute(ids, events + more).nodes[j].recorder
  {
    hide Inv, Grows, Chosen;
    var c, d := Execute(ids, events), Execute(ids, events + more);
    ReachableInv(ids, events);
    ReachableInv(ids, events + more);
    RunsOnlyGrow(ids, events, more);
    DecidedFacts(c, i);
    DecidedFacts(d, j);
    ChosenStays(c, d, c.nodes[i].recorder.value);
    ChosenUnique(d, c.nodes[i].recorder.value, d.nodes[j].recorder.value);
  }

  /** Validity: a decided value is one some proposer entered the slot with. */
  lemma DecisionWasEntered(c: Cluster, value: Bytes)
    requires Inv(c) && Chosen(c, value)
    ensures Entered(c, value)
  {
    hide Inv, ChosenAt;
    if ChosenFast(c, value) {
      assert Known(c, 0);
    } else {
      var s, p: Proposal :| ChosenAt(c, s, p) && p.value == value;
      var i := ChosenSpread(c, s, p);
      SentFacts(c, i, s);
    }
  }

  // ---- replies ----

  /** No reply that completes a quorum, from the network or the own recorder, ever meets
      the defensive stall. */
  lemma StallUnreachable(c: Cluster, i: nat, j: nat, step: nat, first: Proposal, priorAgg: Option<Proposal>)
    requires Inv(c) && Known(c, i) && c.nodes[i].proposer.Running? && j < |c.nodes[i].proposer.run.replied|
    requires Truthful(c, i, j, step, step, first, priorAgg)
    requires Fold(c.nodes[i].proposer.run, j, step, step, first, priorAgg, c.Quorum()).1 == Quorum
    ensures
      var folded := Fold(c.nodes[i].proposer.run, j, step, step, first, priorAgg, c.Quorum()).0;
      folded.bestFirst.Some? && StepComplete(folded).1 != Retry
  {
    hide Inv, Tallied, Truthful;
    var run := c.nodes[i].proposer.run;
    RunningFacts(c, i);
    CountTallied(c, i, run, j, first, priorAgg);
    if run.step % 4 == 3 {
      NoStall(c, i, Count(run, j, first, priorAgg));
    }
  }

  /** Echo elision is lossless: an accepted reply, elided or not, is rebuilt to the first
      proposal its recorder held at the step it replied for. */
  lemma EchoIsLossless(c: Cluster, msg: Msg)
    requires Inv(c) && msg in c.net && msg.Reply? && Known(c, msg.dst) && c.nodes[msg.dst].proposer.Running?
    requires Fits(c.nodes[msg.dst].proposer.run, c.N()) && msg.src < c.N()
    requires Reconstitute(c.nodes[msg.dst].proposer.run, msg.src, msg.reqStep, msg.first).Some?
    ensures Known(c, msg.src) && msg.step in Hist(c, msg.src).first
    ensures Reconstitute(c.nodes[msg.dst].proposer.run, msg.src, msg.reqStep, msg.first).value ==
      Hist(c, msg.src).first[msg.step]
  {
    RebuiltTruthful(c, msg);
  }
}
