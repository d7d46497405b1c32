/** Every event of the protocol keeps its invariant, whoever takes it and in whatever order. */
module ConsensusSteps {
  import opened Types
  import opened Recorder
  import opened Proposer
  import opened SlotLogic
  import opened Consensus
  import opened ConsensusInvariant

  // ---- putting a changed node back into the whole ----

  lemma OneNodeChanged(c: Cluster, d: Cluster, i: nat)
    requires Inv(c) && Grows(c, d) && Known(c, i) && NodeOk(d, i)
    requires forall k: nat :: k < c.N() && k != i ==> c.nodes[k] == d.nodes[k]
    requires forall m :: m in d.net ==> m in c.net || MsgOk(d, m)
    ensures Inv(d)
  {
    forall k: nat | k < c.N() ensures NodeOk(d, k) {
      if k != i {
        NodeStays(c, d, k);
      }
    }
    forall m | m in d.net ensures MsgOk(d, m) {
      if m in c.net {
        MsgStays(c, d, m);
      }
    }
  }

  lemma PutKeeps(c: Cluster, i: nat, node: Node)
    requires Inv(c) && Known(c, i) && HistGrows(c.nodes[i].hist, node.hist)
    requires NodeOk(Put(c, i, node), i)
    ensures Grows(c, Put(c, i, node)) && Inv(Put(c, i, node))
  {
    PutGrows(c, i, node);
    OneNodeChanged(c, Put(c, i, node), i);
  }

  lemma PutGrows(c: Cluster, i: nat, node: Node)
    requires Known(c, i) && HistGrows(c.nodes[i].hist, node.hist)
    ensures Grows(c, Put(c, i, node))
  {
  }

  // ---- single facts out of the invariant ----

  lemma NodeFacts(c: Cluster, i: nat)
    requires Inv(c) && Known(c, i)
    ensures NodeOk(c, i)
  {
  }

  lemma SentFacts(c: Cluster, i: nat, s: int)
    requires Inv(c) && Known(c, i) && s in Hist(c, i).sent
    ensures WellShaped(c, i, s, Hist(c, i).sent[s]) && Backed(c, s, Hist(c, i).sent[s])
    ensures Entered(c, Hist(c, i).sent[s].proposal.value)
  {
    NodeFacts(c, i);
  }

  lemma FirstFacts(c: Cluster, j: nat, s: int)
    requires Inv(c) && Known(c, j) && s in Hist(c, j).first
    ensures Offered(c, j, s, Hist(c, j).first[s])
  {
    NodeFacts(c, j);
  }

  lemma AggFacts(c: Cluster, j: nat, s: int)
    requires Inv(c) && Known(c, j) && s in Hist(c, j).agg
    ensures Offered(c, j, s, Hist(c, j).agg[s])
  {
    NodeFacts(c, j);
  }

  // ---- the recorder ----

  lemma HistRecordGrows(h: History, step: nat, p: Proposal)
    requires h.first.Keys == h.agg.Keys && forall s :: s in h.first ==> s <= h.step
    ensures HistGrows(h, HistRecord(h, step, p))
    ensures HistRecord(h, step, p).sent == h.sent
  {
  }

  /** The register and the history it summarizes move together. */
  lemma RecordCoherent(isr: Isr, h: History, step: nat, p: Proposal)
    requires Coherent(isr, h)
    requires h.first.Keys == h.agg.Keys && (forall s :: s in h.first ==> 4 <= s <= h.step) && step >= 4
    ensures Coherent(Recorder.Record(isr, step, p), HistRecord(h, step, p))
    ensures var k := HistRecord(h, step, p); k.first.Keys == k.agg.Keys
    ensures forall s :: s in HistRecord(h, step, p).first ==> 4 <= s <= HistRecord(h, step, p).step
    ensures step == Recorder.Record(isr, step, p).step ==> AtMost(p, HistRecord(h, step, p).agg[step])
  {
    RecordKeepsWellFormed(isr, step, p);
    if step == h.step {
      OrderTotal(h.agg[step], p);
    }
  }

  lemma RecordedOffered(c: Cluster, j: nat, step: nat, p: Proposal)
    requires Known(c, j) && RecorderOk(c, j) && Offered(c, j, step, p)
    ensures AllOffered(c, j, HistRecord(Hist(c, j), step, p))
  {
    var h, k := Hist(c, j), HistRecord(Hist(c, j), step, p);
    forall s | s in k.agg ensures Offered(c, j, s, k.agg[s]) {
      if s == step && s in h.agg {
        assert k.agg[s] == p || k.agg[s] == h.agg[s];
      }
    }
  }

  ghost predicate AllOffered(c: Cluster, j: nat, h: History) {
    && (forall s :: s in h.first ==> Offered(c, j, s, h.first[s]))
    && (forall s :: s in h.agg ==> Offered(c, j, s, h.agg[s]))
  }

  /** An open recorder moved to `node`, losing nothing and recording only what was offered. */
  ghost predicate RecorderMoved(c: Cluster, j: nat, node: Node)
    requires Known(c, j)
  {
    && c.nodes[j].recorder.Open? && node.recorder.Open? && node.proposer == c.nodes[j].proposer
    && node.hist.sent == Hist(c, j).sent && HistGrows(Hist(c, j), node.hist)
    && node.hist.first.Keys == node.hist.agg.Keys && (forall s :: s in node.hist.first ==> 4 <= s <= node.hist.step)
    && Coherent(node.recorder.isr, node.hist) && AllOffered(c, j, node.hist)
  }

  lemma AcceptMoves(c: Cluster, j: nat, step: nat, p: Proposal)
    requires Known(c, j) && RecorderOk(c, j) && c.nodes[j].recorder.Open? && step >= 4 && Offered(c, j, step, p)
    ensures RecorderMoved(c, j, Accept(c.nodes[j], step, p))
  {
    HistRecordGrows(c.nodes[j].hist, step, p);
    RecordCoherent(c.nodes[j].recorder.isr, c.nodes[j].hist, step, p);
    RecordedOffered(c, j, step, p);
  }

  lemma MovedRecorderOk(c: Cluster, d: Cluster, j: nat)
    requires Grows(c, d) && Known(c, j) && RecorderMoved(c, j, d.nodes[j])
    ensures RecorderOk(d, j)
  {
    var k := Hist(d, j);
    forall s | s in k.first ensures Offered(d, j, s, k.first[s]) {
      OfferedStays(c, d, j, s, k.first[s]);
    }
    forall s | s in k.agg ensures Offered(d, j, s, k.agg[s]) {
      OfferedStays(c, d, j, s, k.agg[s]);
    }
  }

  /** What a node sent and how its proposer stands survive a move of its open recorder. */
  lemma OtherPartsStay(c: Cluster, d: Cluster, j: nat)
    requires Grows(c, d) && Known(c, j) && SentOk(c, j) && ProposerOk(c, j)
    requires c.nodes[j].recorder.Open? && d.nodes[j].recorder.Open?
    requires d.nodes[j].proposer == c.nodes[j].proposer && Hist(d, j).sent == Hist(c, j).sent
    ensures SentOk(d, j) && ProposerOk(d, j) && DecidedOk(d, j)
  {
    SentStays(c, d, j);
    if c.nodes[j].proposer.Running? {
      TalliedStays(c, d, j, c.nodes[j].proposer.run);
    }
  }

  lemma RecorderMoveKeeps(c: Cluster, j: nat, node: Node)
    requires Inv(c) && Known(c, j) && RecorderMoved(c, j, node)
    ensures Grows(c, Put(c, j, node)) && Inv(Put(c, j, node))
  {
    PutGrows(c, j, node);
    RecorderMoveNodeOk(c, Put(c, j, node), j);
    PutKeeps(c, j, node);
  }

  lemma RecorderMoveNodeOk(c: Cluster, d: Cluster, j: nat)
    requires Inv(c) && Known(c, j) && Grows(c, d) && RecorderMoved(c, j, d.nodes[j])
    ensures NodeOk(d, j)
  {
    NodeFacts(c, j);
    MovedRecorderOk(c, d, j);
    OtherPartsStay(c, d, j);
  }

  /** A recorder may accept any proposal some proposer offers it. */
  lemma AcceptKeeps(c: Cluster, j: nat, step: nat, p: Proposal)
    requires Inv(c) && Known(c, j) && c.nodes[j].recorder.Open? && step >= 4 && Offered(c, j, step, p)
    ensures Grows(c, AcceptAt(c, j, step, p)) && Inv(AcceptAt(c, j, step, p))
  {
    RecorderFacts(c, j);
    AcceptMoves(c, j, step, p);
    RecorderMoveKeeps(c, j, Accept(c.nodes[j], step, p));
  }

  lemma RecorderFacts(c: Cluster, j: nat)
    requires Inv(c) && Known(c, j)
    ensures RecorderOk(c, j)
  {
    NodeFacts(c, j);
  }

  /** What the recorder then answers proposer `i` is true. */
  lemma AnswerTruthful(c: Cluster, i: nat, j: nat, step: nat, p: Proposal)
    requires Known(c, i) && Known(c, j) && RecorderOk(c, j) && c.nodes[j].recorder.Open? && step >= 4
    requires step in Hist(c, i).sent && p == Hist(c, i).sent[step].For(j)
    ensures
      var d := AcceptAt(c, j, step, p);
      d.nodes[j].recorder.isr.first.Some? &&
      var summary := Summarize(d.nodes[j].recorder.isr);
      Truthful(d, i, j, step, summary.step, summary.first, summary.priorAgg)
  {
    RecordCoherent(c.nodes[j].recorder.isr, c.nodes[j].hist, step, p);
    RecordKeepsWellFormed(c.nodes[j].recorder.isr, step, p);
    SummaryTruthful(AcceptAt(c, j, step, p), i, j, step);
  }

  lemma SummaryTruthful(d: Cluster, i: nat, j: nat, step: nat)
    requires Known(d, i) && Known(d, j) && d.nodes[j].recorder.Open?
    requires Coherent(d.nodes[j].recorder.isr, Hist(d, j)) && Hist(d, j).step > 0
    requires step in Hist(d, i).sent
    requires step == Hist(d, j).step ==>
      step in Hist(d, j).agg && AtMost(Hist(d, i).sent[step].For(j), Hist(d, j).agg[step])
    ensures
      d.nodes[j].recorder.isr.first.Some? &&
      var summary := Summarize(d.nodes[j].recorder.isr);
      Truthful(d, i, j, step, summary.step, summary.first, summary.priorAgg)
  {
  }

  // ---- counting one reply ----

  lemma CountedGains(run: RunState, j: nat, first: Proposal, priorAgg: Option<Proposal>)
    requires j < |run.replied| && !run.replied[j]
    ensures Counted(Count(run, j, first, priorAgg)) == Counted(run) + {j}
    ensures |Counted(run) + {j}| == |Counted(run)| + 1
  {
    assert j !in Counted(run);
  }

  lemma CountFirsts(c: Cluster, i: nat, run: RunState, j: nat, first: Proposal, priorAgg: Option<Proposal>)
    requires TalliesFirsts(c, run) && j < |run.replied| && !run.replied[j]
    requires Truthful(c, i, j, run.step, run.step, first, priorAgg)
    ensures TalliesFirsts(c, Count(run, j, first, priorAgg))
  {
    var after := Count(run, j, first, priorAgg);
    CountedGains(run, j, first, priorAgg);
    var q, best := Counted(after), after.bestFirst.value;
    forall k: nat | k in q
      ensures Known(c, k) && run.step in Hist(c, k).first && AtMost(Hist(c, k).first[run.step], best)
    {
      if k != j {
        OrderTransitive(Hist(c, k).first[run.step], run.bestFirst.value, best);
      }
    }
    if best == first {
      assert Hist(c, j).first[run.step] == best;
    } else {
      var k: nat :| k in Counted(run) && Known(c, k) && run.step in Hist(c, k).first
        && Hist(c, k).first[run.step] == best;
      assert k in q;
    }
  }

  lemma CountAggs(c: Cluster, i: nat, run: RunState, j: nat, first: Proposal, priorAgg: Option<Proposal>)
    requires TalliesAggs(c, run) && j < |run.replied| && !run.replied[j]
    requires Truthful(c, i, j, run.step, run.step, first, priorAgg)
    ensures TalliesAggs(c, Count(run, j, first, priorAgg))
  {
    var after := Count(run, j, first, priorAgg);
    CountedGains(run, j, first, priorAgg);
    var q, s := Counted(after), run.step - 1;
    if after.bestAgg.Some? {
      var best := after.bestAgg.value;
      forall k: nat | k in q
        ensures Known(c, k) && Hist(c, k).step > s && (s in Hist(c, k).agg ==> AtMost(Hist(c, k).agg[s], best))
      {
        if k != j && run.bestAgg.Some? && s in Hist(c, k).agg {
          OrderTransitive(Hist(c, k).agg[s], run.bestAgg.value, best);
        }
      }
      if priorAgg == Some(best) {
        assert Hist(c, j).agg[s] == best;
      } else {
        var k: nat :| k in Counted(run) && Known(c, k) && s in Hist(c, k).agg && Hist(c, k).agg[s] == best;
        assert k in q;
      }
    }
  }

  lemma CountTallied(c: Cluster, i: nat, run: RunState, j: nat, first: Proposal, priorAgg: Option<Proposal>)
    requires Known(c, i) && Tallied(c, i, run) && j < |run.replied| && !run.replied[j]
    requires Truthful(c, i, j, run.step, run.step, first, priorAgg)
    ensures Tallied(c, i, Count(run, j, first, priorAgg))
  {
    CountedGains(run, j, first, priorAgg);
    CountFirsts(c, i, run, j, first, priorAgg);
    CountAggs(c, i, run, j, first, priorAgg);
    var after := Count(run, j, first, priorAgg);
    assert TemplateOf(after) == TemplateOf(run);
  }

  // ---- completing a step ----

  lemma CountedIsQuorum(c: Cluster, i: nat, run: RunState)
    requires Known(c, i) && Tallied(c, i, run) && run.replyCount == c.Quorum()
    ensures IsQuorum(c.N(), Counted(run)) && run.bestFirst.Some?
    ensures run.step >= 4 && BestFirst(c, Counted(run), run.step, run.bestFirst.value)
    ensures run.bestAgg.Some? ==> BestAgg(c, Counted(run), run.step - 1, run.bestAgg.value)
  {
  }

  lemma OfferedEntered(c: Cluster, j: nat, s: int, p: Proposal)
    requires Inv(c) && Offered(c, j, s, p)
    ensures Entered(c, p.value)
  {
    var i: nat :| Known(c, i) && s in Hist(c, i).sent && p == Hist(c, i).sent[s].For(j);
    SentFacts(c, i, s);
  }

  lemma BestFirstEntered(c: Cluster, q: set<nat>, s: int, p: Proposal)
    requires Inv(c) && BestFirst(c, q, s, p)
    ensures Entered(c, p.value)
  {
    var j: nat :| j in q && Known(c, j) && s in Hist(c, j).first && Hist(c, j).first[s] == p;
    FirstFacts(c, j, s);
    OfferedEntered(c, j, s, p);
  }

  lemma BestAggEntered(c: Cluster, q: set<nat>, s: int, p: Proposal)
    requires Inv(c) && BestAgg(c, q, s, p)
    ensures Entered(c, p.value)
  {
    var j: nat :| j in q && Known(c, j) && s in Hist(c, j).agg && Hist(c, j).agg[s] == p;
    AggFacts(c, j, s);
    OfferedEntered(c, j, s, p);
  }

  /** A full set of acknowledgments of a verbatim step covers its proposal. */
  lemma AcknowledgedCovers(c: Cluster, i: nat, run: RunState)
    requires Known(c, i) && Tallied(c, i, run) && run.priorities == []
    ensures Covered(c, Counted(run), run.step, run.proposal)
  {
    assert forall j: nat :: TemplateOf(run).For(j) == run.proposal;
  }

  lemma OwnSpread(c: Cluster, i: nat, run: RunState)
    requires Known(c, i) && Tallied(c, i, run)
    ensures Spread(c, run.step, run.proposal)
  {
    assert Hist(c, i).sent[run.step].proposal == run.proposal;
  }

  /** A running proposer's own step is well shaped and backed. */
  lemma OwnStep(c: Cluster, i: nat, run: RunState)
    requires Inv(c) && Known(c, i) && Tallied(c, i, run)
    ensures WellShaped(c, i, run.step, TemplateOf(run)) && Backed(c, run.step, TemplateOf(run))
      && Entered(c, run.proposal.value)
  {
    SentFacts(c, i, run.step);
  }

  /** A phase-3 quorum shares a recorder with the quorum that backs the step, so some
      counted reply has an aggregate: the defensive stall cannot be reached. */
  lemma NoStall(c: Cluster, i: nat, run: RunState)
    requires Inv(c) && Known(c, i) && Tallied(c, i, run) && run.replyCount == c.Quorum() && run.step % 4 == 3
    ensures run.bestAgg.Some?
  {
    if run.bestAgg.None? {
      OwnCommon(c, i, run);
      NoneAgainstCommon(c, Counted(run), run.step - 1, run.proposal);
    }
  }

  lemma OwnCommon(c: Cluster, i: nat, run: RunState)
    requires Inv(c) && Known(c, i) && Tallied(c, i, run) && run.step % 4 >= 2
    ensures CommonAt(c, run.step - 1, run.proposal)
  {
    OwnStep(c, i, run);
  }

  lemma NoneAgainstCommon(c: Cluster, q: set<nat>, s: int, p: Proposal)
    requires IsQuorum(c.N(), q) && CommonAt(c, s, p)
    ensures !NoneAt(c, q, s)
  {
    var r := CommonBy(c, s, p);
    var j := QuorumsMeet(c, q, r);
  }

  /** Any template a step may continue with: the given proposal verbatim, or its value
      under fresh priorities in a phase 0. */
  ghost predicate Continues(t: Template, s: int, p: Proposal) {
    t.proposal.value == p.value && (s % 4 != 0 ==> t.proposal == p)
  }

  ghost predicate BacksAll(c: Cluster, s: int, p: Proposal) {
    Entered(c, p.value) && forall t: Template :: Continues(t, s, p) ==> Backed(c, s, t)
  }

  lemma ExistsBacks(c: Cluster, s: int, p: Proposal)
    requires Entered(c, p.value) && ExistsAt(c, s, p) && s % 4 == 0
    ensures BacksAll(c, s + 1, p)
  {
  }

  lemma CommonBacks(c: Cluster, s: int, p: Proposal)
    requires Entered(c, p.value) && CommonAt(c, s, p) && 1 <= s % 4 <= 2
    ensures BacksAll(c, s + 1, p)
  {
  }

  lemma CarriedBacks(c: Cluster, s: int, p: Proposal)
    requires Entered(c, p.value) && CarriedOver(c, s - 1, p.value) && s % 4 == 3
    ensures BacksAll(c, s + 1, p)
  {
  }

  lemma ExistsWitness(c: Cluster, q: set<nat>, s: int, p: Proposal)
    requires IsQuorum(c.N(), q) && BestFirst(c, q, s, p)
    ensures ExistsAt(c, s, p)
  {
  }

  lemma CarriedWitness(c: Cluster, q: set<nat>, s: int, p: Proposal)
    requires IsQuorum(c.N(), q) && BestAgg(c, q, s, p)
    ensures CarriedOver(c, s, p.value)
  {
  }

  /** A completed phase 0 justifies spreading its best first proposal. */
  lemma BestFirstBacks(c: Cluster, i: nat, run: RunState)
    requires Inv(c) && Known(c, i) && Tallied(c, i, run) && run.replyCount == c.Quorum() && run.step % 4 == 0
    ensures run.bestFirst.Some? && BacksAll(c, run.step + 1, run.bestFirst.value)
  {
    hide *;
    CountedIsQuorum(c, i, run);
    BestFirstEntered(c, Counted(run), run.step, run.bestFirst.value);
    ExistsWitness(c, Counted(run), run.step, run.bestFirst.value);
    ExistsBacks(c, run.step, run.bestFirst.value);
  }

  /** A completed phase 1 or 2 justifies spreading the proposal further. */
  lemma AcknowledgedBacks(c: Cluster, i: nat, run: RunState)
    requires Inv(c) && Known(c, i) && Tallied(c, i, run) && run.replyCount == c.Quorum() && 1 <= run.step % 4 <= 2
    ensures BacksAll(c, run.step + 1, run.proposal)
  {
    hide *;
    AcknowledgedCommon(c, i, run);
    OwnEntered(c, i, run);
    CommonBacks(c, run.step, run.proposal);
  }

  lemma OwnEntered(c: Cluster, i: nat, run: RunState)
    requires Inv(c) && Known(c, i) && Tallied(c, i, run)
    ensures Entered(c, run.proposal.value)
    ensures run.step % 4 != 0 ==> run.priorities == []
  {
    OwnStep(c, i, run);
  }

  lemma AcknowledgedCommon(c: Cluster, i: nat, run: RunState)
    requires Inv(c) && Known(c, i) && Tallied(c, i, run) && run.replyCount == c.Quorum() && run.step % 4 != 0
    ensures CommonAt(c, run.step, run.proposal) && Spread(c, run.step, run.proposal)
    ensures Covered(c, Counted(run), run.step, run.proposal)
  {
    CountedIsQuorum(c, i, run);
    OwnEntered(c, i, run);
    OwnSpread(c, i, run);
    AcknowledgedCovers(c, i, run);
  }

  /** A completed phase 3 justifies the next round with its best aggregate's value. */
  lemma BestAggBacks(c: Cluster, i: nat, run: RunState)
    requires Inv(c) && Known(c, i) && Tallied(c, i, run) && run.replyCount == c.Quorum()
    requires run.step % 4 == 3 && run.bestAgg.Some?
    ensures BacksAll(c, run.step + 1, run.bestAgg.value)
  {
    hide *;
    CountedIsQuorum(c, i, run);
    BestAggEntered(c, Counted(run), run.step - 1, run.bestAgg.value);
    CarriedWitness(c, Counted(run), run.step - 1, run.bestAgg.value);
    CarriedBacks(c, run.step, run.bestAgg.value);
  }

  /** Firsts with the reserved priority are the leader's proposal at step 4. */
  lemma HighFirstIsLeaders(c: Cluster, j: nat, s: int, p: Proposal)
    requires Inv(c) && s % 4 == 0 && Offered(c, j, s, p) && p.priority == PRIORITY_H
    ensures s == 4 && Known(c, 0) && 4 in Hist(c, 0).sent && p == Hist(c, 0).sent[4].proposal
  {
    var i: nat :| Known(c, i) && s in Hist(c, i).sent && p == Hist(c, i).sent[s].For(j);
    SentFacts(c, i, s);
  }

  /** What a proposer decides in phase 2 is chosen there. */
  lemma PhaseTwoDecisionChosen(c: Cluster, i: nat, run: RunState)
    requires Inv(c) && Known(c, i) && Tallied(c, i, run) && run.replyCount == c.Quorum()
    requires run.step % 4 == 2 && run.bestAgg == Some(run.proposal)
    ensures ChosenAt(c, run.step, run.proposal) && Chosen(c, run.proposal.value)
  {
    hide *;
    CountedIsQuorum(c, i, run);
    AcknowledgedCommon(c, i, run);
    SlowDecisionChosen(c, Counted(run), run.step, run.proposal);
  }

  /** What a proposer decides on the fast path was chosen. */
  lemma PhaseZeroDecisionChosen(c: Cluster, i: nat, run: RunState)
    requires Inv(c) && Known(c, i) && Tallied(c, i, run) && run.replyCount == c.Quorum()
    requires run.step % 4 == 0 && run.allFirstHigh
    ensures run.bestFirst.Some? && Chosen(c, run.bestFirst.value.value)
  {
    CountedIsQuorum(c, i, run);
    FastDecisionChosen(c, run);
  }

  lemma SlowDecisionChosen(c: Cluster, q: set<nat>, s: int, p: Proposal)
    requires IsQuorum(c.N(), q) && BestAgg(c, q, s - 1, p) && Covered(c, q, s, p) && Spread(c, s, p)
    requires s % 4 == 2 && s >= 4
    ensures ChosenAt(c, s, p) && Chosen(c, p.value)
  {
    assert ChosenBy(c, q, s, p);
    assert ChosenAt(c, s, p);
  }

  lemma FastDecisionChosen(c: Cluster, run: RunState)
    requires Inv(c) && TalliesFirsts(c, run) && IsQuorum(c.N(), Counted(run))
    requires run.step % 4 == 0 && run.bestFirst.Some? && run.allFirstHigh
    ensures ChosenFast(c, run.bestFirst.value.value)
  {
    var q, s := Counted(run), run.step;
    var j: nat :| j in q && Known(c, j) && s in Hist(c, j).first && Hist(c, j).first[s] == run.bestFirst.value;
    FirstFacts(c, j, s);
    HighFirstIsLeaders(c, j, s, run.bestFirst.value);
    assert FastQuorum(c, q);
  }

  // ---- entering a step ----

  ghost predicate FreshTallies(run: RunState, n: nat) {
    && Fits(run, n) && run.replyCount == 0 && run.bestFirst.None? && run.bestAgg.None? && run.allFirstHigh
    && forall j: nat :: j < n ==> !run.replied[j]
  }

  lemma FreshTallied(d: Cluster, i: nat, run: RunState)
    requires Known(d, i) && FreshTallies(run, d.N()) && run.step >= 4
    requires run.step in Hist(d, i).sent && Hist(d, i).sent[run.step] == TemplateOf(run)
    requires forall s :: s in Hist(d, i).sent ==> s <= run.step
    ensures Tallied(d, i, run)
  {
    assert Counted(run) == {};
  }

  /** A proposer entered a later step with a backed template. */
  ghost predicate StepEntered(c: Cluster, i: nat, run: RunState)
    requires Known(c, i)
  {
    && c.nodes[i].recorder.Open? && FreshTallies(run, c.N()) && (forall s :: s in Hist(c, i).sent ==> s < run.step)
    && WellShaped(c, i, run.step, TemplateOf(run)) && Backed(c, run.step, TemplateOf(run))
    && (Entered(c, run.proposal.value) || run.step == 4)
  }

  lemma EnterKeeps(c: Cluster, i: nat, run: RunState)
    requires Inv(c) && Known(c, i) && StepEntered(c, i, run)
    ensures var d := Put(c, i, React(c.nodes[i], run, Resend)); Grows(c, d) && Inv(d)
  {
    var node := React(c.nodes[i], run, Resend);
    EnterGrows(c, i, run);
    PutGrows(c, i, node);
    EnteredNodeOk(c, Put(c, i, node), i, run);
    PutKeeps(c, i, node);
  }

  lemma EnterGrows(c: Cluster, i: nat, run: RunState)
    requires Known(c, i) && forall s :: s in Hist(c, i).sent ==> s < run.step
    ensures HistGrows(Hist(c, i), React(c.nodes[i], run, Resend).hist)
  {
  }

  lemma EnteredNodeOk(c: Cluster, d: Cluster, i: nat, run: RunState)
    requires Inv(c) && Known(c, i) && StepEntered(c, i, run) && Grows(c, d)
    requires d.nodes[i] == React(c.nodes[i], run, Resend)
    ensures NodeOk(d, i)
  {
    NodeFacts(c, i);
    FreshTallied(d, i, run);
    EnteredSentOk(c, d, i, run);
    SameRecorderOk(c, d, i);
  }

  ghost predicate SentOneOk(c: Cluster, i: nat, s: nat, t: Template)
    requires Known(c, i)
  {
    WellShaped(c, i, s, t) && Backed(c, s, t) && Entered(c, t.proposal.value)
  }

  lemma SentOneStays(c: Cluster, d: Cluster, i: nat, s: nat)
    requires Grows(c, d) && Known(c, i) && SentOk(c, i) && s in Hist(c, i).sent
    ensures SentOneOk(d, i, s, Hist(c, i).sent[s])
  {
    SentStays(c, d, i);
  }

  lemma EnteredOneOk(c: Cluster, d: Cluster, i: nat, run: RunState)
    requires Known(c, i) && StepEntered(c, i, run) && Grows(c, d)
    requires run.step in Hist(d, i).sent && Hist(d, i).sent[run.step] == TemplateOf(run)
    ensures SentOneOk(d, i, run.step, TemplateOf(run))
  {
    BackedStays(c, d, run.step, TemplateOf(run));
    if run.step == 4 {
      assert Hist(d, i).sent[4].proposal.value == run.proposal.value;
    } else {
      EnteredStays(c, d, run.proposal.value);
    }
  }

  lemma EnteredSentOk(c: Cluster, d: Cluster, i: nat, run: RunState)
    requires Known(c, i) && SentOk(c, i) && StepEntered(c, i, run) && Grows(c, d)
    requires Hist(d, i).sent == Hist(c, i).sent[run.step := TemplateOf(run)]
    ensures SentOk(d, i)
  {
    forall s | s in Hist(d, i).sent ensures SentOneOk(d, i, s, Hist(d, i).sent[s]) {
      if s == run.step {
        EnteredOneOk(c, d, i, run);
      } else {
        SentOneStays(c, d, i, s);
      }
    }
  }

  /** A recorder that did not move, or only closed, stays in order. */
  lemma SameRecorderOk(c: Cluster, d: Cluster, i: nat)
    requires Grows(c, d) && Known(c, i) && RecorderOk(c, i)
    requires Hist(d, i) == Hist(c, i).(sent := Hist(d, i).sent)
    requires d.nodes[i].recorder == c.nodes[i].recorder || d.nodes[i].recorder.Decided?
    ensures RecorderOk(d, i)
  {
    RecordedStays(c, d, i);
  }

  lemma BeginShape(c: Cluster, i: nat, run: RunState, now: nat, draws: seq<Draw>)
    requires Known(c, i) && |draws| == c.N() && |run.replied| == c.N() && run.step > 4
    ensures
      var next := BeginStep(run, c.ids[i], i, i == 0, now, draws);
      && FreshTallies(next, c.N()) && next.step == run.step && WellShaped(c, i, next.step, TemplateOf(next))
      && next.proposal.value == run.proposal.value && (next.step % 4 != 0 ==> next.proposal == run.proposal)
  {
  }

  lemma SettleKeeps(c: Cluster, i: nat, value: Bytes)
    requires Inv(c) && Known(c, i) && Chosen(c, value)
    ensures var d := Put(c, i, Settle(c.nodes[i], value)); Grows(c, d) && Inv(d)
  {
    SettledNodeOk(c, i, value);
    PutKeeps(c, i, Settle(c.nodes[i], value));
  }

  lemma SettledNodeOk(c: Cluster, i: nat, value: Bytes)
    requires Inv(c) && Known(c, i) && Chosen(c, value)
    ensures NodeOk(Put(c, i, Settle(c.nodes[i], value)), i)
  {
    var d := Put(c, i, Settle(c.nodes[i], value));
    PutGrows(c, i, Settle(c.nodes[i], value));
    NodeFacts(c, i);
    ChosenStays(c, d, value);
    SentStays(c, d, i);
    SameRecorderOk(c, d, i);
  }

  // ---- a whole reply ----

  /** A proposer that adopts a recorder's first proposal stays within the protocol. */
  lemma CatchUpBacked(c: Cluster, j: nat, step: int, adopt: Proposal)
    requires Inv(c) && step > 4 && Offered(c, j, step, adopt)
    ensures BacksAll(c, step, adopt)
  {
    OfferedEntered(c, j, step, adopt);
    var i: nat :| Known(c, i) && step in Hist(c, i).sent && adopt == Hist(c, i).sent[step].For(j);
    SentFacts(c, i, step);
  }

  /** Entering the step a fold moved to, with fresh tallies and draws. */
  lemma BeginKeeps(c: Cluster, i: nat, run: RunState, now: nat, draws: seq<Draw>)
    requires Inv(c) && Known(c, i) && c.nodes[i].proposer.Running? && |draws| == c.N()
    requires |run.replied| == c.N() && run.step > c.nodes[i].proposer.run.step && BacksAll(c, run.step, run.proposal)
    ensures
      var d := Put(c, i, React(c.nodes[i], BeginStep(run, c.ids[i], i, i == 0, now, draws), Resend));
      Grows(c, d) && Inv(d)
  {
    RunningFacts(c, i);
    BeginShape(c, i, run, now, draws);
    var next := BeginStep(run, c.ids[i], i, i == 0, now, draws);
    assert Continues(TemplateOf(next), run.step, run.proposal);
    EnterKeeps(c, i, next);
  }

  lemma RunningFacts(c: Cluster, i: nat)
    requires Inv(c) && Known(c, i) && c.nodes[i].proposer.Running?
    ensures Tallied(c, i, c.nodes[i].proposer.run) && c.nodes[i].recorder.Open?
    ensures c.nodes[i].proposer.run.replyCount < c.Quorum()
  {
    NodeFacts(c, i);
  }

  /** Any truthful reply keeps the invariant, whichever branch it takes. */
  lemma ReplyKeeps(c: Cluster, i: nat, j: nat, reqStep: nat, step: nat, first: Proposal, priorAgg: Option<Proposal>,
        now: nat, draws: seq<Draw>)
    requires Inv(c) && Known(c, i) && c.nodes[i].proposer.Running? && Fits(c.nodes[i].proposer.run, c.N())
      && |draws| == c.N()
    requires Truthful(c, i, j, reqStep, step, first, priorAgg)
    ensures
      var d := TakeReply(c, i, j, reqStep, step, first, priorAgg, now, draws);
      Grows(c, d) && Inv(d)
  {
    var run := c.nodes[i].proposer.run;
    if step > run.step {
      AheadReplyKeeps(c, i, j, reqStep, step, first, priorAgg, now, draws);
    } else if reqStep != run.step || step != run.step || run.replied[j] {
      assert TakeReply(c, i, j, reqStep, step, first, priorAgg, now, draws) == c;
    } else {
      CountedReplyKeeps(c, i, j, first, priorAgg, now, draws);
    }
  }

  lemma AheadReplyKeeps(c: Cluster, i: nat, j: nat, reqStep: nat, step: nat, first: Proposal,
        priorAgg: Option<Proposal>, now: nat, draws: seq<Draw>)
    requires Inv(c) && Known(c, i) && c.nodes[i].proposer.Running? && Fits(c.nodes[i].proposer.run, c.N())
      && |draws| == c.N()
    requires Known(c, j) && step in Hist(c, j).first && Hist(c, j).first[step] == first
      && step > c.nodes[i].proposer.run.step
    ensures
      var d := TakeReply(c, i, j, reqStep, step, first, priorAgg, now, draws);
      Grows(c, d) && Inv(d)
  {
    FirstFacts(c, j, step);
    RunningFacts(c, i);
    CatchUpBacked(c, j, step, first);
    BeginKeeps(c, i, c.nodes[i].proposer.run.(step := step, proposal := first), now, draws);
  }

  lemma CountedReplyKeeps(c: Cluster, i: nat, j: nat, first: Proposal, priorAgg: Option<Proposal>, now: nat,
        draws: seq<Draw>)
    requires Inv(c) && Known(c, i) && c.nodes[i].proposer.Running? && Fits(c.nodes[i].proposer.run, c.N())
      && |draws| == c.N()
    requires j < c.N() && !c.nodes[i].proposer.run.replied[j]
    requires Truthful(c, i, j, c.nodes[i].proposer.run.step, c.nodes[i].proposer.run.step, first, priorAgg)
    ensures
      var d := TakeReply(c, i, j, c.nodes[i].proposer.run.step, c.nodes[i].proposer.run.step, first, priorAgg, now,
        draws);
      Grows(c, d) && Inv(d)
  {
    hide Inv, Tallied, Grows, BacksAll, Chosen, IsQuorum, BestFirst, BestAgg, Truthful;
    RunningFacts(c, i);
    CountTallied(c, i, c.nodes[i].proposer.run, j, first, priorAgg);
    CountedKeeps(c, i, Count(c.nodes[i].proposer.run, j, first, priorAgg), now, draws);
  }

  /** Where a proposer stands once a reply is counted: waiting, decided or one step on. */
  function AfterCount(c: Cluster, i: nat, counted: RunState, now: nat, draws: seq<Draw>): Cluster
    requires Known(c, i) && |draws| == c.N()
  {
    if counted.replyCount != c.Quorum() || counted.bestFirst.None? then Put(c, i, React(c.nodes[i], counted, Quiet))
    else
      match StepComplete(counted)
      case (complete, Decided(value)) => Put(c, i, React(c.nodes[i], complete, Choose(value)))
      case (complete, Advance) => Put(c, i,
        React(c.nodes[i], BeginStep(complete, c.ids[i], i, i == 0, now, draws), Resend))
      case (complete, Retry) => Put(c, i, React(c.nodes[i], complete, Quiet))
  }

  lemma CountedKeeps(c: Cluster, i: nat, counted: RunState, now: nat, draws: seq<Draw>)
    requires Inv(c) && Known(c, i) && c.nodes[i].proposer.Running? && |draws| == c.N()
    requires Tallied(c, i, counted) && counted.replyCount <= c.Quorum() && counted.step == c.nodes[i].proposer.run.step
    ensures Grows(c, AfterCount(c, i, counted, now, draws)) && Inv(AfterCount(c, i, counted, now, draws))
  {
    if counted.replyCount != c.Quorum() {
      TalliesKeep(c, i, counted);
    } else if counted.step % 4 == 0 {
      PhaseZeroKeeps(c, i, counted, now, draws);
    } else if counted.step % 4 == 3 {
      PhaseThreeKeeps(c, i, counted, now, draws);
    } else {
      MiddlePhaseKeeps(c, i, counted, now, draws);
    }
  }

  lemma PhaseZeroKeeps(c: Cluster, i: nat, counted: RunState, now: nat, draws: seq<Draw>)
    requires Inv(c) && Known(c, i) && c.nodes[i].proposer.Running? && |draws| == c.N()
    requires Tallied(c, i, counted) && counted.replyCount == c.Quorum() && counted.step == c.nodes[i].proposer.run.step
    requires counted.step % 4 == 0
    requires |counted.replied| == c.N()
    ensures Grows(c, AfterCount(c, i, counted, now, draws)) && Inv(AfterCount(c, i, counted, now, draws))
  {
    hide Inv, Tallied, Grows, BacksAll, Chosen, IsQuorum, BestFirst, BestAgg, Truthful;
    if counted.allFirstHigh {
      PhaseZeroDecisionChosen(c, i, counted);
      SettleKeeps(c, i, counted.bestFirst.value.value);
    } else {
      BestFirstBacks(c, i, counted);
      BeginKeeps(c, i, StepComplete(counted).0, now, draws);
    }
  }

  lemma MiddlePhaseKeeps(c: Cluster, i: nat, counted: RunState, now: nat, draws: seq<Draw>)
    requires Inv(c) && Known(c, i) && c.nodes[i].proposer.Running? && |draws| == c.N()
    requires Tallied(c, i, counted) && counted.replyCount == c.Quorum() && counted.step == c.nodes[i].proposer.run.step
    requires 1 <= counted.step % 4 <= 2
    requires |counted.replied| == c.N()
    ensures Grows(c, AfterCount(c, i, counted, now, draws)) && Inv(AfterCount(c, i, counted, now, draws))
  {
    hide Inv, Tallied, Grows, BacksAll, Chosen, IsQuorum, BestFirst, BestAgg, Truthful;
    CountedIsQuorum(c, i, counted);
    if counted.step % 4 == 2 && counted.bestAgg == Some(counted.proposal) {
      PhaseTwoDecisionChosen(c, i, counted);
      SettleKeeps(c, i, counted.proposal.value);
    } else {
      AcknowledgedBacks(c, i, counted);
      BeginKeeps(c, i, StepComplete(counted).0, now, draws);
    }
  }

  lemma PhaseThreeKeeps(c: Cluster, i: nat, counted: RunState, now: nat, draws: seq<Draw>)
    requires Inv(c) && Known(c, i) && c.nodes[i].proposer.Running? && |draws| == c.N()
    requires Tallied(c, i, counted) && counted.replyCount == c.Quorum() && counted.step == c.nodes[i].proposer.run.step
    requires counted.step % 4 == 3
    requires |counted.replied| == c.N()
    ensures Grows(c, AfterCount(c, i, counted, now, draws)) && Inv(AfterCount(c, i, counted, now, draws))
  {
    hide Inv, Tallied, Grows, BacksAll, Chosen, IsQuorum, BestFirst, BestAgg, Truthful;
    CountedIsQuorum(c, i, counted);
    NoStall(c, i, counted);
    BestAggBacks(c, i, counted);
    BeginKeeps(c, i, StepComplete(counted).0, now, draws);
  }

  /** Changing only what a running proposer has counted, or when it sends. */
  lemma TalliesKeep(c: Cluster, i: nat, run: RunState)
    requires Inv(c) && Known(c, i) && c.nodes[i].proposer.Running? && Tallied(c, i, run) && run.replyCount < c.Quorum()
    ensures var d := Put(c, i, React(c.nodes[i], run, Quiet)); Grows(c, d) && Inv(d)
  {
    var node := React(c.nodes[i], run, Quiet);
    PutGrows(c, i, node);
    ReTalliedNodeOk(c, Put(c, i, node), i, run);
    PutKeeps(c, i, node);
  }

  lemma ReTalliedNodeOk(c: Cluster, d: Cluster, i: nat, run: RunState)
    requires Inv(c) && Known(c, i) && c.nodes[i].proposer.Running? && Tallied(c, i, run) && run.replyCount < c.Quorum()
    requires Grows(c, d) && d.nodes[i] == c.nodes[i].(proposer := Running(run))
    ensures NodeOk(d, i)
  {
    SentAndRecorderFacts(c, i);
    TalliedStays(c, d, i, run);
    SentStays(c, d, i);
    SameRecorderOk(c, d, i);
  }

  lemma SentAndRecorderFacts(c: Cluster, i: nat)
    requires Inv(c) && Known(c, i)
    ensures SentOk(c, i) && RecorderOk(c, i)
    ensures c.nodes[i].proposer.Running? ==> c.nodes[i].recorder.Open?
  {
    NodeFacts(c, i);
  }

  lemma NewMessagesKeep(c: Cluster, more: set<Msg>)
    requires Inv(c) && forall m :: m in more ==> MsgOk(c, m)
    ensures Inv(c.(net := c.net + more))
  {
    var d := c.(net := c.net + more);
    assert Grows(c, d);
    assert NodeOk(c, 0);
    NodeStays(c, d, 0);
    forall m | m in more ensures MsgOk(d, m) {
      MsgStays(c, d, m);
    }
    OneNodeChanged(c, d, 0);
  }

  // ---- every event ----

  lemma InitInv(ids: seq<ReplicaId>)
    requires ids != []
    ensures Inv(Init(ids))
  {
    var c := Init(ids);
    forall i: nat | i < c.N() ensures NodeOk(c, i) {
      assert c.nodes[i] == Node(Open(Fresh), Idle, EmptyHistory);
    }
  }

  lemma StartKeeps(c: Cluster, i: nat, value: Bytes, now: nat, draws: seq<Draw>)
    requires Inv(c) && Enabled(c, Start(i, value, now, draws))
    ensures Grows(c, Apply(c, Start(i, value, now, draws))) && Inv(Apply(c, Start(i, value, now, draws)))
  {
    IdleFacts(c, i);
    EnterKeeps(c, i, Proposer.Start(value, c.ids[i], i, c.N(), i == 0, now, draws));
  }

  lemma IdleFacts(c: Cluster, i: nat)
    requires Inv(c) && Known(c, i) && c.nodes[i].proposer.Idle?
    ensures Hist(c, i).sent == map[]
  {
    NodeFacts(c, i);
  }

  /** When a proposer sends changes nothing the others rely on. */
  lemma SetSendKeeps(c: Cluster, i: nat, needsSend: bool, sentAt: nat)
    requires Inv(c) && Known(c, i) && c.nodes[i].proposer.Running?
    ensures
      var d := Put(c, i, c.nodes[i].(proposer := Running(SetSend(c.nodes[i].proposer.run, needsSend, sentAt))));
      Grows(c, d) && Inv(d)
  {
    RunningFacts(c, i);
    SetSendTallied(c, i, c.nodes[i].proposer.run, needsSend, sentAt);
    TalliesKeep(c, i, SetSend(c.nodes[i].proposer.run, needsSend, sentAt));
  }

  lemma SetSendTallied(c: Cluster, i: nat, run: RunState, needsSend: bool, sentAt: nat)
    requires Known(c, i) && Tallied(c, i, run)
    ensures Tallied(c, i, SetSend(run, needsSend, sentAt))
  {
    var after := SetSend(run, needsSend, sentAt);
    assert Counted(after) == Counted(run) && TemplateOf(after) == TemplateOf(run);
  }

  lemma GrowsTransitive(c: Cluster, d: Cluster, e: Cluster)
    requires Grows(c, d) && Grows(d, e)
    ensures Grows(c, e)
  {
    forall j: nat | j < c.N() ensures HistGrows(c.nodes[j].hist, e.nodes[j].hist) {
      HistGrowsTransitive(c.nodes[j].hist, d.nodes[j].hist, e.nodes[j].hist);
    }
  }

  lemma HistGrowsTransitive(h: History, k: History, l: History)
    requires HistGrows(h, k) && HistGrows(k, l)
    ensures HistGrows(h, l)
  {
    forall s | s in h.agg ensures s in l.agg && AtMost(h.agg[s], l.agg[s]) {
      OrderTransitive(h.agg[s], k.agg[s], l.agg[s]);
    }
    forall s: int | s < h.step ensures Lookup(l.agg, s) == Lookup(h.agg, s) {
      assert Lookup(k.agg, s) == Lookup(h.agg, s);
    }
  }

  /** What a running proposer broadcasts is what it holds for its step. */
  lemma SendsOk(c: Cluster, i: nat)
    requires Inv(c) && Known(c, i)
    ensures forall m :: m in Sends(c, i) ==> MsgOk(c, m)
  {
    if c.nodes[i].proposer.Running? {
      RunningFacts(c, i);
    }
  }

  /** The first half of a pass: the step is marked sent and recorded at the own recorder. */
  function DriveRecord(c: Cluster, i: nat, now: nat): Cluster
    requires Known(c, i) && c.nodes[i].proposer.Running? && c.nodes[i].recorder.Open?
  {
    var run := SetSend(c.nodes[i].proposer.run, false, now);
    AcceptAt(Put(c, i, c.nodes[i].(proposer := Running(run))), i, run.step, TemplateOf(run).For(i))
  }

  /** The own recorder's answer is as good as any other's. */
  lemma DriveRecords(c: Cluster, i: nat, now: nat) returns (summary: Summary)
    requires Inv(c) && Known(c, i) && c.nodes[i].proposer.Running? && c.nodes[i].recorder.Open?
    requires Fits(c.nodes[i].proposer.run, c.N())
    requires c.nodes[i].proposer.run.step > 0 && c.nodes[i].recorder.isr.WellFormed()
    ensures
      var d, run := DriveRecord(c, i, now), c.nodes[i].proposer.run;
      && Grows(c, d) && Inv(d) && Known(d, i)
      && d.nodes[i].proposer == Running(SetSend(run, false, now)) && d.nodes[i].recorder.Open?
      && d.nodes[i].recorder.isr.first.Some? && summary == Summarize(d.nodes[i].recorder.isr)
      && Truthful(d, i, i, run.step, summary.step, summary.first, summary.priorAgg)
  {
    hide Inv, Tallied, Grows, Truthful, Recorder.Record, HistRecord;
    var run := SetSend(c.nodes[i].proposer.run, false, now);
    var mine := TemplateOf(run).For(i);
    var c0 := Put(c, i, c.nodes[i].(proposer := Running(run)));
    SetSendKeeps(c, i, false, now);
    OwnOffer(c0, i);
    RecordKeepsWellFormed(c.nodes[i].recorder.isr, run.step, mine);
    AcceptKeeps(c0, i, run.step, mine);
    RecorderFacts(c0, i);
    AnswerTruthful(c0, i, i, run.step, mine);
    summary := Summarize(AcceptAt(c0, i, run.step, mine).nodes[i].recorder.isr);
    GrowsTransitive(c, c0, AcceptAt(c0, i, run.step, mine));
  }

  lemma DriveKeeps(c: Cluster, i: nat, now: nat, draws: seq<Draw>)
    requires Inv(c) && Known(c, i) && Enabled(c, Drive(i, now, draws))
    ensures Inv(DriveOnce(c, i, now, draws))
    ensures Grows(c, DriveOnce(c, i, now, draws)) && Grows(DriveRecord(c, i, now), DriveOnce(c, i, now, draws))
  {
    hide Inv, Tallied, Grows, Truthful, FoldReply, Recorder.Record, HistRecord, MsgOk, React;
    var summary := DriveRecords(c, i, now);
    var c1, step := DriveRecord(c, i, now), c.nodes[i].proposer.run.step;
    ReplyKeeps(c1, i, i, step, summary.step, summary.first, summary.priorAgg, now, draws);
    var c2 := TakeReply(c1, i, i, step, summary.step, summary.first, summary.priorAgg, now, draws);
    SendsOk(c2, i);
    NewMessagesKeep(c2, Sends(c2, i));
    GrowsTransitive(c, c1, c2);
    GrowsNet(c, c2, c2.net + Sends(c2, i));
    GrowsNet(c1, c2, c2.net + Sends(c2, i));
  }

  lemma GrowsNet(c: Cluster, d: Cluster, net: set<Msg>)
    requires Grows(c, d)
    ensures Grows(c, d.(net := net))
  {
  }

  /** A proposer's own recorder is offered what the proposer holds for it. */
  lemma OwnOffer(c: Cluster, i: nat)
    requires Inv(c) && Known(c, i) && c.nodes[i].proposer.Running?
    ensures
      var run := c.nodes[i].proposer.run;
      && run.step >= 4 && run.step in Hist(c, i).sent && Hist(c, i).sent[run.step] == TemplateOf(run)
      && Offered(c, i, run.step, TemplateOf(run).For(i))
  {
    RunningFacts(c, i);
  }

  /** An elided first component stands for the very proposal the request carried. */
  lemma AnswerFirstOk(c: Cluster, i: nat, j: nat, step: nat, p: Proposal, summary: Summary)
    requires Known(c, i) && step in Hist(c, i).sent && p == Hist(c, i).sent[step].For(j)
    requires Truthful(c, i, j, step, summary.step, summary.first, summary.priorAgg)
    ensures MsgOk(c, Reply(j, i, step, summary.step, AnswerFirst(summary, step, p), summary.priorAgg))
  {
  }

  lemma AnswerKeeps(c: Cluster, msg: Msg)
    requires Inv(c) && |c.nodes| == c.N() && Enabled(c, OnRecord(msg))
    ensures Grows(c, Answer(c, msg)) && Inv(Answer(c, msg))
  {
    hide Inv, Grows, Truthful, Recorder.Record, HistRecord, MsgOk;
    RecordMsgFacts(c, msg);
    var i, j, step, p := msg.src, msg.dst, msg.step, msg.proposal;
    var c1 := AcceptAt(c, j, step, p);
    AcceptKeeps(c, j, step, p);
    RecorderFacts(c, j);
    AnswerTruthful(c, i, j, step, p);
    var summary := Summarize(c1.nodes[j].recorder.isr);
    SentStill(c, c1, i, step);
    AnswerFirstOk(c1, i, j, step, p, summary);
    var more := {Reply(j, i, step, summary.step, AnswerFirst(summary, step, p), summary.priorAgg)};
    NewMessagesKeep(c1, more);
    GrowsNet(c, c1, c1.net + more);
  }

  lemma RecordMsgFacts(c: Cluster, msg: Msg)
    requires Inv(c) && msg in c.net && msg.Record?
    ensures Known(c, msg.src) && Known(c, msg.dst) && msg.step in Hist(c, msg.src).sent
    ensures msg.proposal == Hist(c, msg.src).sent[msg.step].For(msg.dst)
    ensures Offered(c, msg.dst, msg.step, msg.proposal)
  {
    assert MsgOk(c, msg);
  }

  lemma SentStill(c: Cluster, d: Cluster, i: nat, step: nat)
    requires Grows(c, d) && Known(c, i) && step in Hist(c, i).sent
    ensures Known(d, i) && step in Hist(d, i).sent && Hist(d, i).sent[step] == Hist(c, i).sent[step]
  {
    assert HistGrows(Hist(c, i), Hist(d, i));
  }

  /** Whatever a proposer rebuilds from an accepted reply is what the recorder held. */
  lemma RebuiltTruthful(c: Cluster, msg: Msg)
    requires Inv(c) && msg in c.net && msg.Reply? && Known(c, msg.dst) && c.nodes[msg.dst].proposer.Running?
    requires Fits(c.nodes[msg.dst].proposer.run, c.N()) && msg.src < c.N()
    ensures
      match Reconstitute(c.nodes[msg.dst].proposer.run, msg.src, msg.reqStep, msg.first)
      case None => true
      case Some(first) => Truthful(c, msg.dst, msg.src, msg.reqStep, msg.step, first, msg.priorAgg)
  {
    assert MsgOk(c, msg);
    OwnOffer(c, msg.dst);
  }

  lemma OnReplyKeeps(c: Cluster, msg: Msg, now: nat, draws: seq<Draw>)
    requires Inv(c) && |c.nodes| == c.N() && Enabled(c, OnReply(msg, now, draws))
    ensures Grows(c, Apply(c, OnReply(msg, now, draws))) && Inv(Apply(c, OnReply(msg, now, draws)))
  {
    hide Inv, Truthful, TakeReply;
    RebuiltTruthful(c, msg);
    match Reconstitute(c.nodes[msg.dst].proposer.run, msg.src, msg.reqStep, msg.first)
    case None =>
    case Some(first) => ReplyKeeps(c, msg.dst, msg.src, msg.reqStep, msg.step, first, msg.priorAgg, now, draws);
  }

  lemma LearnKeeps(c: Cluster, i: nat, j: nat)
    requires Inv(c) && |c.nodes| == c.N() && Enabled(c, Learn(i, j))
    ensures Grows(c, Apply(c, Learn(i, j))) && Inv(Apply(c, Learn(i, j)))
  {
    DecidedFacts(c, j);
    SettleKeeps(c, i, c.nodes[j].recorder.value);
  }

  lemma DecidedFacts(c: Cluster, i: nat)
    requires Inv(c) && Known(c, i) && c.nodes[i].recorder.Decided?
    ensures Chosen(c, c.nodes[i].recorder.value)
  {
    NodeFacts(c, i);
  }

  /** Every event that can happen keeps the invariant and takes nothing back. */
  lemma EventKeeps(c: Cluster, e: Event)
    requires Inv(c) && |c.nodes| == c.N() && Enabled(c, e)
    ensures Grows(c, Apply(c, e)) && Inv(Apply(c, e))
  {
    hide Inv, Grows, TakeReply, DriveOnce, Answer;
    match e
    case Start(i, value, now, draws) => StartKeeps(c, i, value, now, draws);
    case Retransmit(i) => SetSendKeeps(c, i, true, c.nodes[i].proposer.run.sentAt);
    case Drive(i, now, draws) => DriveKeeps(c, i, now, draws);
    case OnRecord(msg) => AnswerKeeps(c, msg);
    case OnReply(msg, now, draws) => OnReplyKeeps(c, msg, now, draws);
    case Learn(i, j) => LearnKeeps(c, i, j);
  }
}
