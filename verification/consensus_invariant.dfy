/** What every reachable state of one slot satisfies. */
module ConsensusInvariant {
  import opened Types
  import opened Recorder
  import opened Proposer
  import opened SlotLogic
  import opened Consensus

  // ---- quorums ----

  /** The schedule indices of a group of `n`. */
  function Everyone(n: nat): (all: set<nat>)
    ensures |all| == n && forall i: nat :: i in all <==> i < n
  {
    if n == 0 then {} else Everyone(n - 1) + {n - 1}
  }

  ghost predicate IsQuorum(n: nat, q: set<nat>) {
    |q| >= n / 2 + 1 && forall j: nat :: j in q ==> j < n
  }

  /** Any two quorums share a replica. */
  lemma QuorumsMeet(c: Cluster, a: set<nat>, b: set<nat>) returns (j: nat)
    requires IsQuorum(c.N(), a) && IsQuorum(c.N(), b)
    ensures j in a && j in b && j < c.N()
  {
    assert a + b <= Everyone(c.N());
    Subset(a + b, Everyone(c.N()));
    assert |a + b| + |a * b| == |a| + |b|;
    assert a * b != {};
    j :| j in a * b;
  }

  lemma {:induction false} Subset(a: set<nat>, b: set<nat>)
    requires a <= b
    ensures |a| <= |b|
  {
    assert b == a + (b - a);
  }

  // ---- what recorders saw ----

  ghost predicate Known(c: Cluster, j: nat) {
    |c.nodes| == c.N() && j < c.N()
  }

  function Hist(c: Cluster, j: nat): History
    requires Known(c, j)
  {
    c.nodes[j].hist
  }

  /** `p` is the largest of the firsts that `q` recorded at step `s`. */
  ghost predicate BestFirst(c: Cluster, q: set<nat>, s: int, p: Proposal) {
    && (forall j: nat :: j in q ==> Known(c, j) && s in Hist(c, j).first && AtMost(Hist(c, j).first[s], p))
    && exists j: nat :: j in q && Known(c, j) && s in Hist(c, j).first && Hist(c, j).first[s] == p
  }

  /** All of `q` aggregated at least `p` at step `s`. */
  ghost predicate Covered(c: Cluster, q: set<nat>, s: int, p: Proposal) {
    forall j: nat :: j in q ==> Known(c, j) && s in Hist(c, j).agg && AtMost(p, Hist(c, j).agg[s])
  }

  /** `p` is the largest aggregate that `q` left step `s` with. */
  ghost predicate BestAgg(c: Cluster, q: set<nat>, s: int, p: Proposal) {
    && LeftAtMost(c, q, s, p)
    && exists j: nat :: j in q && Known(c, j) && s in Hist(c, j).agg && Hist(c, j).agg[s] == p
  }

  /** All of `q` have left step `s`, with aggregates no larger than `p`. */
  ghost predicate LeftAtMost(c: Cluster, q: set<nat>, s: int, p: Proposal) {
    forall j: nat :: j in q ==>
      Known(c, j) && Hist(c, j).step > s && (s in Hist(c, j).agg ==> AtMost(Hist(c, j).agg[s], p))
  }

  // ---- what proposers sent ----

  /** Some proposer offers `p` to recorder `j` at step `s`. */
  ghost predicate Offered(c: Cluster, j: nat, s: int, p: Proposal) {
    exists i: nat :: Known(c, i) && s in Hist(c, i).sent && p == Hist(c, i).sent[s].For(j)
  }

  /** Some proposer's template at step `s` carries `p`. */
  ghost predicate Spread(c: Cluster, s: int, p: Proposal) {
    exists i: nat :: Known(c, i) && s in Hist(c, i).sent && p == Hist(c, i).sent[s].proposal
  }

  /** Some proposer entered the slot with `value`. */
  ghost predicate Entered(c: Cluster, value: Bytes) {
    exists i: nat :: Known(c, i) && 4 in Hist(c, i).sent && Hist(c, i).sent[4].proposal.value == value
  }

  /** The form of a template of proposer `i` at step `s`: randomized phases 0 draw one
      priority below H per recorder under the proposer's own identity, the leader's first
      step carries H, and other phases spread one proposal verbatim. */
  ghost predicate WellShaped(c: Cluster, i: nat, s: int, t: Template)
    requires Known(c, i)
  {
    && s >= 4
    && (s % 4 != 0 ==> t.priorities == [])
    && (s == 4 && i == 0 ==> t.priorities == [] && t.proposal.priority == PRIORITY_H && t.proposal.proposer == c.ids[0])
    && (s % 4 == 0 && !(s == 4 && i == 0) ==>
      |t.priorities| == c.N() && t.proposal.proposer == c.ids[i] && t.proposal.priority < PRIORITY_H
      && forall k: nat :: k < c.N() ==> 1 <= t.priorities[k] < PRIORITY_H)
  }

  /** Why a template may be sent at step `s`: each phase rests on a quorum of the last. */
  ghost predicate Backed(c: Cluster, s: int, t: Template) {
    match s % 4
    case 0 => s > 4 ==> CarriedOver(c, s - 2, t.proposal.value)
    case 1 => ExistsAt(c, s - 1, t.proposal)
    case _ => CommonAt(c, s - 1, t.proposal)
  }

  /** A new round continues with the value of the best aggregate a quorum left phase 2,
      step `t`, with. */
  ghost predicate CarriedOver(c: Cluster, t: int, value: Bytes) {
    exists q, p :: IsQuorum(c.N(), q) && BestAgg(c, q, t, p) && p.value == value
  }

  /** Phase 1 spreads the best first proposal of a quorum of phase 0, step `t`. */
  ghost predicate ExistsAt(c: Cluster, t: int, p: Proposal) {
    exists q :: IsQuorum(c.N(), q) && BestFirst(c, q, t, p)
  }

  /** Phases 2 and 3 spread what was spread, and a quorum aggregated, one step earlier. */
  ghost predicate CommonAt(c: Cluster, t: int, p: Proposal) {
    Spread(c, t, p) && exists q :: IsQuorum(c.N(), q) && Covered(c, q, t, p)
  }

  ghost predicate SentOk(c: Cluster, i: nat)
    requires Known(c, i)
  {
    forall s :: s in Hist(c, i).sent ==>
      WellShaped(c, i, s, Hist(c, i).sent[s]) && Backed(c, s, Hist(c, i).sent[s])
        && Entered(c, Hist(c, i).sent[s].proposal.value)
  }

  // ---- recorders ----

  function Lookup(m: map<nat, Proposal>, s: int): Option<Proposal> {
    if s in m then Some(m[s]) else None
  }

  /** An open register is the summary of its recorder's history. */
  ghost predicate Coherent(isr: Isr, h: History) {
    && isr.WellFormed() && isr.step == h.step
    && (h.step > 0 ==>
      && h.step in h.first && isr.first == Some(h.first[h.step])
      && h.step in h.agg && isr.currentAgg == Some(h.agg[h.step])
      && isr.priorAgg == Lookup(h.agg, h.step - 1))
  }

  ghost predicate RecorderOk(c: Cluster, j: nat)
    requires Known(c, j)
  {
    var h := Hist(c, j);
    && h.first.Keys == h.agg.Keys
    && (forall s :: s in h.first ==> 4 <= s <= h.step)
    && (c.nodes[j].recorder.Open? ==> Coherent(c.nodes[j].recorder.isr, h))
    && (forall s :: s in h.first ==> Offered(c, j, s, h.first[s]))
    && (forall s :: s in h.agg ==> Offered(c, j, s, h.agg[s]))
  }

  // ---- proposers ----

  /** The recorders whose replies this step has counted. */
  function Counted(run: RunState): set<nat> {
    set j: nat | j < |run.replied| && run.replied[j]
  }

  ghost predicate TalliesFirsts(c: Cluster, run: RunState) {
    var q := Counted(run);
    && (run.bestFirst.None? <==> q == {})
    && (run.bestFirst.Some? ==> BestFirst(c, q, run.step, run.bestFirst.value))
    && (run.allFirstHigh <==>
          forall j: nat :: j in q ==>
            Known(c, j) && run.step in Hist(c, j).first && Hist(c, j).first[run.step].priority == PRIORITY_H)
  }

  /** Each counted recorder aggregated at least what this step sent it. */
  ghost predicate Acknowledged(c: Cluster, run: RunState) {
    forall j: nat :: j in Counted(run) ==>
      Known(c, j) && run.step in Hist(c, j).agg && AtMost(TemplateOf(run).For(j), Hist(c, j).agg[run.step])
  }

  /** All of `q` have left step `s` without having visited it. */
  ghost predicate NoneAt(c: Cluster, q: set<nat>, s: int) {
    forall j: nat :: j in q ==> Known(c, j) && s !in Hist(c, j).agg && Hist(c, j).step > s
  }

  ghost predicate TalliesAggs(c: Cluster, run: RunState) {
    var q := Counted(run);
    && (run.bestAgg.Some? ==> BestAgg(c, q, run.step - 1, run.bestAgg.value))
    && (run.bestAgg.None? ==> NoneAt(c, q, run.step - 1))
  }

  /** A running proposer is at the last step it sent, and its tallies are those of the
      recorders it counted. */
  ghost predicate Tallied(c: Cluster, i: nat, run: RunState)
    requires Known(c, i)
  {
    && Fits(run, c.N()) && run.step >= 4
    && run.step in Hist(c, i).sent && Hist(c, i).sent[run.step] == TemplateOf(run)
    && (forall s :: s in Hist(c, i).sent ==> s <= run.step)
    && run.replyCount == |Counted(run)|
    && TalliesFirsts(c, run) && Acknowledged(c, run) && TalliesAggs(c, run)
  }

  ghost predicate ProposerOk(c: Cluster, i: nat)
    requires Known(c, i)
  {
    match c.nodes[i].proposer
    case Idle => Hist(c, i).sent == map[]
    case Running(run) => Tallied(c, i, run) && run.replyCount < c.Quorum() && c.nodes[i].recorder.Open?
    case Done => c.nodes[i].recorder.Decided?
  }

  // ---- messages ----

  /** A reply of recorder `j` to proposer `i` says what the recorder held. */
  ghost predicate Truthful(c: Cluster, i: nat, j: nat, reqStep: int, step: int, first: Proposal,
        priorAgg: Option<Proposal>) {
    && Known(c, i) && Known(c, j)
    && step in Hist(c, j).first && Hist(c, j).first[step] == first
    && Hist(c, j).step >= step && priorAgg == Lookup(Hist(c, j).agg, step - 1)
    && reqStep in Hist(c, i).sent
    && (step == reqStep ==> step in Hist(c, j).agg && AtMost(Hist(c, i).sent[step].For(j), Hist(c, j).agg[step]))
  }

  ghost predicate MsgOk(c: Cluster, m: Msg) {
    match m
    case Record(src, dst, step, proposal) =>
      Known(c, src) && Known(c, dst) && step in Hist(c, src).sent && proposal == Hist(c, src).sent[step].For(dst)
    case Reply(j, i, reqStep, step, first, priorAgg) =>
      match first
      case Full(proposal) => Truthful(c, i, j, reqStep, step, proposal, priorAgg)
      case Echo =>
        step == reqStep && Known(c, i) && reqStep in Hist(c, i).sent
        && Truthful(c, i, j, reqStep, step, Hist(c, i).sent[reqStep].For(j), priorAgg)
  }

  // ---- decisions ----

  /** `p` was chosen in phase 2 of the round whose phase 2 is step `s`: a quorum left the
      step before with nothing above `p` and aggregated at least `p` here. */
  ghost predicate ChosenAt(c: Cluster, s: int, p: Proposal) {
    && s % 4 == 2 && s > 4 && Spread(c, s, p)
    && exists q :: ChosenBy(c, q, s, p)
  }

  ghost predicate ChosenBy(c: Cluster, q: set<nat>, s: int, p: Proposal) {
    IsQuorum(c.N(), q) && LeftAtMost(c, q, s - 1, p) && Covered(c, q, s, p)
  }

  /** A quorum holds a priority-H first at step 4. */
  ghost predicate FastQuorum(c: Cluster, q: set<nat>) {
    IsQuorum(c.N(), q) && forall j: nat :: j in q ==>
      Known(c, j) && 4 in Hist(c, j).first && Hist(c, j).first[4].priority == PRIORITY_H
  }

  ghost predicate ChosenFast(c: Cluster, value: Bytes) {
    && Known(c, 0) && 4 in Hist(c, 0).sent && Hist(c, 0).sent[4].proposal.value == value
    && exists q :: FastQuorum(c, q)
  }

  ghost predicate Chosen(c: Cluster, value: Bytes) {
    ChosenFast(c, value) || exists s, p: Proposal :: ChosenAt(c, s, p) && p.value == value
  }

  ghost predicate DecidedOk(c: Cluster, i: nat)
    requires Known(c, i)
  {
    c.nodes[i].recorder.Decided? ==> Chosen(c, c.nodes[i].recorder.value) && c.nodes[i].proposer.Done?
  }

  ghost predicate NodeOk(c: Cluster, i: nat)
    requires Known(c, i)
  {
    SentOk(c, i) && RecorderOk(c, i) && ProposerOk(c, i) && DecidedOk(c, i)
  }

  ghost predicate Inv(c: Cluster) {
    && c.N() > 0 && |c.nodes| == c.N()
    && (forall i: nat :: i < c.N() ==> NodeOk(c, i))
    && (forall m :: m in c.net ==> MsgOk(c, m))
  }

  // ---- growth: evidence, once there, stays ----

  ghost predicate HistGrows(h: History, k: History) {
    && h.step <= k.step
    && (forall s :: s in h.first ==> s in k.first && k.first[s] == h.first[s])
    && (forall s :: s in h.agg ==> s in k.agg && AtMost(h.agg[s], k.agg[s]))
    && (forall s: int :: s < h.step ==> Lookup(k.agg, s) == Lookup(h.agg, s))
    && (forall s :: s in h.sent ==> s in k.sent && k.sent[s] == h.sent[s])
  }

  /** Nothing a replica recorded, sent or left behind is ever taken back. */
  ghost predicate Grows(c: Cluster, d: Cluster) {
    && c.ids == d.ids && |c.nodes| == |d.nodes| == c.N()
    && forall j: nat :: j < c.N() ==> HistGrows(c.nodes[j].hist, d.nodes[j].hist)
  }

  lemma HistGrowsReflexive(h: History)
    ensures HistGrows(h, h)
  {
  }

  lemma BestFirstStays(c: Cluster, d: Cluster, q: set<nat>, s: int, p: Proposal)
    requires Grows(c, d) && BestFirst(c, q, s, p)
    ensures BestFirst(d, q, s, p)
  {
    assert forall j: nat :: j in q ==> HistGrows(Hist(c, j), Hist(d, j));
    var j: nat :| j in q && Known(c, j) && s in Hist(c, j).first && Hist(c, j).first[s] == p;
    assert Hist(d, j).first[s] == p;
  }

  lemma CoveredStays(c: Cluster, d: Cluster, q: set<nat>, s: int, p: Proposal)
    requires Grows(c, d) && Covered(c, q, s, p)
    ensures Covered(d, q, s, p)
  {
    forall j: nat | j in q
      ensures Known(d, j) && s in Hist(d, j).agg && AtMost(p, Hist(d, j).agg[s])
    {
      assert HistGrows(Hist(c, j), Hist(d, j));
      OrderTransitive(p, Hist(c, j).agg[s], Hist(d, j).agg[s]);
    }
  }

  lemma LeftAtMostStays(c: Cluster, d: Cluster, q: set<nat>, s: int, p: Proposal)
    requires Grows(c, d) && LeftAtMost(c, q, s, p)
    ensures LeftAtMost(d, q, s, p)
  {
    forall j: nat | j in q
      ensures Known(d, j) && Hist(d, j).step > s && (s in Hist(d, j).agg ==> AtMost(Hist(d, j).agg[s], p))
    {
      assert HistGrows(Hist(c, j), Hist(d, j));
      assert Lookup(Hist(d, j).agg, s) == Lookup(Hist(c, j).agg, s);
    }
  }

  lemma BestAggStays(c: Cluster, d: Cluster, q: set<nat>, s: int, p: Proposal)
    requires Grows(c, d) && BestAgg(c, q, s, p)
    ensures BestAgg(d, q, s, p)
  {
    LeftAtMostStays(c, d, q, s, p);
    var j: nat :| j in q && Known(c, j) && s in Hist(c, j).agg && Hist(c, j).agg[s] == p;
    assert HistGrows(Hist(c, j), Hist(d, j));
    assert Lookup(Hist(d, j).agg, s) == Lookup(Hist(c, j).agg, s);
    assert Hist(d, j).agg[s] == p;
  }

  lemma SpreadStays(c: Cluster, d: Cluster, s: int, p: Proposal)
    requires Grows(c, d) && Spread(c, s, p)
    ensures Spread(d, s, p)
  {
    var i: nat :| Known(c, i) && s in Hist(c, i).sent && p == Hist(c, i).sent[s].proposal;
    assert HistGrows(Hist(c, i), Hist(d, i));
    assert p == Hist(d, i).sent[s].proposal;
  }

  lemma OfferedStays(c: Cluster, d: Cluster, j: nat, s: int, p: Proposal)
    requires Grows(c, d) && Offered(c, j, s, p)
    ensures Offered(d, j, s, p)
  {
    var i: nat :| Known(c, i) && s in Hist(c, i).sent && p == Hist(c, i).sent[s].For(j);
    assert HistGrows(Hist(c, i), Hist(d, i));
    assert p == Hist(d, i).sent[s].For(j);
  }

  lemma EnteredStays(c: Cluster, d: Cluster, value: Bytes)
    requires Grows(c, d) && Entered(c, value)
    ensures Entered(d, value)
  {
    var i: nat :| Known(c, i) && 4 in Hist(c, i).sent && Hist(c, i).sent[4].proposal.value == value;
    assert HistGrows(Hist(c, i), Hist(d, i));
    assert 4 in Hist(d, i).sent && Hist(d, i).sent[4].proposal.value == value;
  }

  lemma CarriedOverBy(c: Cluster, t: int, value: Bytes) returns (q: set<nat>, p: Proposal)
    requires CarriedOver(c, t, value)
    ensures IsQuorum(c.N(), q) && BestAgg(c, q, t, p) && p.value == value
  {
    q, p :| IsQuorum(c.N(), q) && BestAgg(c, q, t, p) && p.value == value;
  }

  lemma ExistsBy(c: Cluster, t: int, p: Proposal) returns (q: set<nat>)
    requires ExistsAt(c, t, p)
    ensures IsQuorum(c.N(), q) && BestFirst(c, q, t, p)
  {
    q :| IsQuorum(c.N(), q) && BestFirst(c, q, t, p);
  }

  lemma CommonBy(c: Cluster, t: int, p: Proposal) returns (q: set<nat>)
    requires CommonAt(c, t, p)
    ensures IsQuorum(c.N(), q) && Covered(c, q, t, p) && Spread(c, t, p)
  {
    q :| IsQuorum(c.N(), q) && Covered(c, q, t, p);
  }

  lemma CarriedOverStays(c: Cluster, d: Cluster, t: int, value: Bytes)
    requires Grows(c, d) && CarriedOver(c, t, value)
    ensures CarriedOver(d, t, value)
  {
    var q, p := CarriedOverBy(c, t, value);
    BestAggStays(c, d, q, t, p);
  }

  lemma ExistsAtStays(c: Cluster, d: Cluster, t: int, p: Proposal)
    requires Grows(c, d) && ExistsAt(c, t, p)
    ensures ExistsAt(d, t, p)
  {
    var q := ExistsBy(c, t, p);
    BestFirstStays(c, d, q, t, p);
  }

  lemma CommonAtStays(c: Cluster, d: Cluster, t: int, p: Proposal)
    requires Grows(c, d) && CommonAt(c, t, p)
    ensures CommonAt(d, t, p)
  {
    var q := CommonBy(c, t, p);
    SpreadStays(c, d, t, p);
    CoveredStays(c, d, q, t, p);
  }

  lemma BackedStays(c: Cluster, d: Cluster, s: int, t: Template)
    requires Grows(c, d) && Backed(c, s, t)
    ensures Backed(d, s, t)
  {
    match s % 4
    case 0 => if s > 4 { CarriedOverStays(c, d, s - 2, t.proposal.value); }
    case 1 => ExistsAtStays(c, d, s - 1, t.proposal);
    case _ => CommonAtStays(c, d, s - 1, t.proposal);
  }

  lemma ChosenFastStays(c: Cluster, d: Cluster, value: Bytes)
    requires Grows(c, d) && ChosenFast(c, value)
    ensures ChosenFast(d, value)
  {
    var q :| FastQuorum(c, q);
    assert forall j: nat :: j in q ==> HistGrows(Hist(c, j), Hist(d, j));
    assert HistGrows(Hist(c, 0), Hist(d, 0));
    assert FastQuorum(d, q);
  }

  lemma ChosenAtStays(c: Cluster, d: Cluster, s: int, p: Proposal)
    requires Grows(c, d) && ChosenAt(c, s, p)
    ensures ChosenAt(d, s, p)
  {
    SpreadStays(c, d, s, p);
    var q :| ChosenBy(c, q, s, p);
    LeftAtMostStays(c, d, q, s - 1, p);
    CoveredStays(c, d, q, s, p);
    assert ChosenBy(d, q, s, p);
  }

  lemma ChosenStays(c: Cluster, d: Cluster, value: Bytes)
    requires Grows(c, d) && Chosen(c, value)
    ensures Chosen(d, value)
  {
    if ChosenFast(c, value) {
      ChosenFastStays(c, d, value);
    } else {
      var s, p: Proposal :| ChosenAt(c, s, p) && p.value == value;
      ChosenAtStays(c, d, s, p);
    }
  }

  lemma TruthfulStays(c: Cluster, d: Cluster, i: nat, j: nat, reqStep: int, step: int, first: Proposal,
        priorAgg: Option<Proposal>)
    requires Grows(c, d) && Truthful(c, i, j, reqStep, step, first, priorAgg)
    ensures Truthful(d, i, j, reqStep, step, first, priorAgg)
  {
    assert HistGrows(Hist(c, i), Hist(d, i)) && HistGrows(Hist(c, j), Hist(d, j));
    assert Lookup(Hist(d, j).agg, step - 1) == Lookup(Hist(c, j).agg, step - 1);
    if step == reqStep {
      OrderTransitive(Hist(c, i).sent[step].For(j), Hist(c, j).agg[step], Hist(d, j).agg[step]);
    }
  }

  lemma MsgStays(c: Cluster, d: Cluster, m: Msg)
    requires Grows(c, d) && MsgOk(c, m)
    ensures MsgOk(d, m)
  {
    match m
    case Record(src, dst, step, proposal) =>
      assert HistGrows(Hist(c, src), Hist(d, src));
    case Reply(j, i, reqStep, step, first, priorAgg) =>
      match first
      case Full(proposal) => TruthfulStays(c, d, i, j, reqStep, step, proposal, priorAgg);
      case Echo =>
        TruthfulStays(c, d, i, j, reqStep, step, Hist(c, i).sent[reqStep].For(j), priorAgg);
        assert HistGrows(Hist(c, i), Hist(d, i));
  }

  lemma TalliedStays(c: Cluster, d: Cluster, i: nat, run: RunState)
    requires Grows(c, d) && Known(c, i) && Tallied(c, i, run)
    requires Hist(d, i).sent == Hist(c, i).sent
    ensures Tallied(d, i, run)
  {
    FirstsStay(c, d, run);
    AcknowledgedStays(c, d, run);
    AggsStay(c, d, run);
  }

  lemma FirstsStay(c: Cluster, d: Cluster, run: RunState)
    requires Grows(c, d) && TalliesFirsts(c, run)
    ensures TalliesFirsts(d, run)
  {
    var q := Counted(run);
    if run.bestFirst.Some? {
      BestFirstStays(c, d, q, run.step, run.bestFirst.value);
      assert forall j: nat :: j in q ==> HistGrows(Hist(c, j), Hist(d, j));
    }
  }

  lemma AcknowledgedStays(c: Cluster, d: Cluster, run: RunState)
    requires Grows(c, d) && Acknowledged(c, run)
    ensures Acknowledged(d, run)
  {
    forall j: nat | j in Counted(run)
      ensures Known(d, j) && run.step in Hist(d, j).agg && AtMost(TemplateOf(run).For(j), Hist(d, j).agg[run.step])
    {
      assert HistGrows(Hist(c, j), Hist(d, j));
      OrderTransitive(TemplateOf(run).For(j), Hist(c, j).agg[run.step], Hist(d, j).agg[run.step]);
    }
  }

  lemma AggsStay(c: Cluster, d: Cluster, run: RunState)
    requires Grows(c, d) && TalliesAggs(c, run)
    ensures TalliesAggs(d, run)
  {
    var q, s := Counted(run), run.step - 1;
    if run.bestAgg.Some? {
      BestAggStays(c, d, q, s, run.bestAgg.value);
    } else {
      forall j: nat | j in q ensures Known(d, j) && s !in Hist(d, j).agg && Hist(d, j).step > s {
        assert HistGrows(Hist(c, j), Hist(d, j));
        assert Lookup(Hist(d, j).agg, s) == Lookup(Hist(c, j).agg, s);
      }
    }
  }

  /** A replica whose own state did not change stays in order while others grow. */
  lemma NodeStays(c: Cluster, d: Cluster, i: nat)
    requires Grows(c, d) && Known(c, i) && NodeOk(c, i) && c.nodes[i] == d.nodes[i]
    ensures NodeOk(d, i)
  {
    SentStays(c, d, i);
    RecordedStays(c, d, i);
    if c.nodes[i].recorder.Decided? {
      ChosenStays(c, d, c.nodes[i].recorder.value);
    }
    if c.nodes[i].proposer.Running? {
      TalliedStays(c, d, i, c.nodes[i].proposer.run);
    }
  }

  lemma SentStays(c: Cluster, d: Cluster, i: nat)
    requires Grows(c, d) && Known(c, i) && SentOk(c, i)
    ensures forall s :: s in Hist(c, i).sent ==>
      WellShaped(d, i, s, Hist(c, i).sent[s]) && Backed(d, s, Hist(c, i).sent[s])
        && Entered(d, Hist(c, i).sent[s].proposal.value)
  {
    forall s | s in Hist(c, i).sent
      ensures WellShaped(d, i, s, Hist(c, i).sent[s]) && Backed(d, s, Hist(c, i).sent[s])
        && Entered(d, Hist(c, i).sent[s].proposal.value)
    {
      var t := Hist(c, i).sent[s];
      assert WellShaped(c, i, s, t);
      BackedStays(c, d, s, t);
      EnteredStays(c, d, t.proposal.value);
    }
  }

  lemma RecordedStays(c: Cluster, d: Cluster, j: nat)
    requires Grows(c, d) && Known(c, j) && RecorderOk(c, j)
    ensures forall s :: s in Hist(c, j).first ==> Offered(d, j, s, Hist(c, j).first[s])
    ensures forall s :: s in Hist(c, j).agg ==> Offered(d, j, s, Hist(c, j).agg[s])
  {
    var h := Hist(c, j);
    forall s | s in h.first ensures Offered(d, j, s, h.first[s]) {
      OfferedStays(c, d, j, s, h.first[s]);
    }
    forall s | s in h.agg ensures Offered(d, j, s, h.agg[s]) {
      OfferedStays(c, d, j, s, h.agg[s]);
    }
  }
}
