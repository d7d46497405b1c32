/** What a reply makes of a proposer. */
module Outcomes {
  // What each reply does to the proposer it reaches, said of what recorders saw, and so of the
  // protocol alone: catching up, waiting, moving on and deciding.

  import opened Types
  import opened Recorder
  import opened Proposer
  import opened SlotLogic
  import opened Consensus
  import opened ConsensusInvariant
  import opened ConsensusSteps
  import opened Agreement

  // ---- where a proposer may stand ----

  /** Proposer `i` enters step `s` with `p`, or in a phase 0 with its value under the
      proposer's own identity and one draw per recorder; nobody is counted yet. */
  ghost predicate StandsAt(d: Cluster, i: nat, s: int, p: Proposal, draws: seq<Draw>) {
    && Known(d, i) && |draws| == d.N() && d.nodes[i].proposer.Running? && d.nodes[i].recorder.Open?
    && var run := d.nodes[i].proposer.run;
    && run.step == s && run.needsSend && Counted(run) == {}
    && forall k: nat :: k < d.N() ==>
      TemplateOf(run).For(k) == if s % 4 == 0 then Proposal(draws[k], d.ids[i], p.value) else p
  }

  ghost predicate DecidedOn(d: Cluster, i: nat, value: Bytes) {
    Known(d, i) && d.nodes[i].recorder == RecorderSlot.Decided(value) && d.nodes[i].proposer.Done?
  }

  /** Proposer `i` goes on waiting, with the recorders in `q` counted. */
  ghost predicate WaitsWith(c: Cluster, d: Cluster, i: nat, q: set<nat>) {
    && Known(c, i) && Known(d, i) && c.nodes[i].proposer.Running? && d.nodes[i].proposer.Running?
    && d.nodes[i] == c.nodes[i].(proposer := d.nodes[i].proposer)
    && var run, next := c.nodes[i].proposer.run, d.nodes[i].proposer.run;
    && next.step == run.step && TemplateOf(next) == TemplateOf(run) && next.needsSend == run.needsSend
    && Counted(next) == q
  }

  /** All of `q` saw a proposal of the reserved priority first. */
  ghost predicate AllHigh(c: Cluster, q: set<nat>, s: int) {
    forall j: nat :: j in q ==> Known(c, j) && s in Hist(c, j).first && Hist(c, j).first[s].priority == PRIORITY_H
  }

  ghost predicate FirstIs(c: Cluster, q: set<nat>, s: int, value: Bytes) {
    exists j: nat :: j in q && Known(c, j) && s in Hist(c, j).first && Hist(c, j).first[s].value == value
  }

  /** Proposer `i` enters step `n` with the largest first that `q` recorded at step `s`. */
  ghost predicate EntersBestFirst(c: Cluster, i: nat, q: set<nat>, s: int, n: int, draws: seq<Draw>, d: Cluster) {
    exists b :: BestFirst(c, q, s, b) && StandsAt(d, i, n, b, draws)
  }

  /** Proposer `i` enters step `n` with the largest aggregate that `q` left step `s` with. */
  ghost predicate EntersBestAgg(c: Cluster, i: nat, q: set<nat>, s: int, n: int, draws: seq<Draw>, d: Cluster) {
    exists b :: BestAgg(c, q, s, b) && StandsAt(d, i, n, b, draws)
  }

  /** What the answers of a quorum `q` at step `s` make of proposer `i`, which spreads `p`:
      in phase 0 it decides if all saw the reserved priority first, and otherwise spreads the
      largest first; in phase 1 it goes on; in phase 2 it decides exactly if `p` is the largest
      aggregate they left the step before with; in phase 3 it adopts that aggregate. */
  ghost predicate Concludes(c: Cluster, i: nat, q: set<nat>, s: int, p: Proposal, draws: seq<Draw>, d: Cluster) {
    match s % 4
    case 0 =>
      if AllHigh(c, q, s) then exists v :: FirstIs(c, q, s, v) && DecidedOn(d, i, v)
      else EntersBestFirst(c, i, q, s, s + 1, draws, d)
    case 1 => StandsAt(d, i, s + 1, p, draws)
    case 2 => if BestAgg(c, q, s - 1, p) then DecidedOn(d, i, p.value) else StandsAt(d, i, s + 1, p, draws)
    case _ => EntersBestAgg(c, i, q, s - 1, s + 1, draws, d)
  }

  /** What a reply of recorder `j`, which was at `step` with `first`, to the request at
      `reqStep` makes of proposer `i`. Nothing else changes. */
  ghost predicate ReplyMeans(c: Cluster, i: nat, j: nat, reqStep: nat, step: nat, first: Proposal, draws: seq<Draw>,
      d: Cluster) {
    && Known(c, i) && Known(d, i) && c.nodes[i].proposer.Running?
    && d.ids == c.ids && d.net == c.net && (forall k: nat :: k < c.N() && k != i ==> d.nodes[k] == c.nodes[k])
    && Hist(d, i) == Hist(c, i).(sent := Hist(d, i).sent)
    && var run := c.nodes[i].proposer.run;
    if step > run.step then StandsAt(d, i, step, first, draws)
    else if reqStep != run.step || step < run.step || j in Counted(run) then d == c
    else
      var q := Counted(run) + {j};
      if |q| < c.N() / 2 + 1 then WaitsWith(c, d, i, q)
      else |q| == c.N() / 2 + 1 && Concludes(c, i, q, run.step, run.proposal, draws, d)
  }

  /** A proposer enters the slot at step 4: the leader with its value under the reserved
      priority, anyone else with one draw per recorder. */
  lemma StartMeans(c: Cluster, i: nat, value: Bytes, now: nat, draws: seq<Draw>)
    requires |c.nodes| == c.N() && Enabled(c, Event.Start(i, value, now, draws))
    ensures
      var d := Apply(c, Event.Start(i, value, now, draws));
      && Known(d, i) && d.nodes[i].proposer.Running? && d.nodes[i].recorder == c.nodes[i].recorder
      && var run := d.nodes[i].proposer.run;
      && run.step == 4 && run.needsSend && Counted(run) == {}
      && forall k: nat :: k < d.N() ==>
        TemplateOf(run).For(k) == Proposal(if i == 0 then PRIORITY_H else draws[k], d.ids[i], value)
  {
    var run := Proposer.Start(value, c.ids[i], i, c.N(), i == 0, now, draws);
    assert Counted(run) == {};
  }

  // ---- one counted reply ----

  lemma BeginStands(c: Cluster, i: nat, run: RunState, now: nat, draws: seq<Draw>)
    requires Known(c, i) && |draws| == c.N() && |run.replied| == c.N() && run.step > 4 && c.nodes[i].recorder.Open?
    ensures
      var d := Put(c, i, React(c.nodes[i], BeginStep(run, c.ids[i], i, i == 0, now, draws), Resend));
      StandsAt(d, i, run.step, run.proposal, draws)
  {
    var next := BeginStep(run, c.ids[i], i, i == 0, now, draws);
    assert Counted(next) == {};
  }

  lemma BestAggUnique(c: Cluster, q: set<nat>, s: int, a: Proposal, b: Proposal)
    requires BestAgg(c, q, s, a) && BestAgg(c, q, s, b)
    ensures a == b
  {
    hide Less;
    var j: nat :| j in q && Known(c, j) && s in Hist(c, j).agg && Hist(c, j).agg[s] == a;
    var k: nat :| k in q && Known(c, k) && s in Hist(c, k).agg && Hist(c, k).agg[s] == b;
    OrderTotal(a, b);
  }

  /** The largest aggregate counted is the largest there is. */
  lemma TallyIsBest(c: Cluster, i: nat, counted: RunState, p: Proposal)
    requires Known(c, i) && Tallied(c, i, counted)
    ensures counted.bestAgg == Some(p) <==> BestAgg(c, Counted(counted), counted.step - 1, p)
  {
    var q, s := Counted(counted), counted.step - 1;
    if BestAgg(c, q, s, p) {
      var j: nat :| j in q && Known(c, j) && s in Hist(c, j).agg && Hist(c, j).agg[s] == p;
      assert counted.bestAgg.Some?;
      BestAggUnique(c, q, s, p, counted.bestAgg.value);
    }
  }

  /** A quorum of counted replies makes of the proposer what the recorders' histories say. */
  lemma QuorumConcludes(c: Cluster, i: nat, counted: RunState, now: nat, draws: seq<Draw>)
    requires Inv(c) && Known(c, i) && c.nodes[i].proposer.Running? && |draws| == c.N() && |counted.replied| == c.N()
    requires Tallied(c, i, counted) && counted.replyCount == c.Quorum()
    ensures Concludes(c, i, Counted(counted), counted.step, counted.proposal, draws,
        AfterCount(c, i, counted, now, draws))
  {
    hide Inv, Tallied, IsQuorum, BestAgg, StandsAt, BeginStep, AllHigh;
    RunningFacts(c, i);
    CountedIsQuorum(c, i, counted);
    TallyIsBest(c, i, counted, counted.proposal);
    var q, s := Counted(counted), counted.step;
    match s % 4
    case 0 =>
      HighTally(c, i, counted);
      if !counted.allFirstHigh {
        BeginStands(c, i, StepComplete(counted).0, now, draws);
      }
    case 1 => BeginStands(c, i, StepComplete(counted).0, now, draws);
    case 2 =>
      if !BestAgg(c, q, s - 1, counted.proposal) {
        BeginStands(c, i, StepComplete(counted).0, now, draws);
      }
    case _ =>
      NoStall(c, i, counted);
      BeginStands(c, i, StepComplete(counted).0, now, draws);
  }

  lemma HighTally(c: Cluster, i: nat, counted: RunState)
    requires Known(c, i) && Tallied(c, i, counted) && counted.bestFirst.Some?
    ensures counted.allFirstHigh <==> AllHigh(c, Counted(counted), counted.step)
    ensures FirstIs(c, Counted(counted), counted.step, counted.bestFirst.value.value)
  {
    var j: nat :| j in Counted(counted) && Known(c, j) && counted.step in Hist(c, j).first
      && Hist(c, j).first[counted.step] == counted.bestFirst.value;
  }

  // ---- every reply ----

  lemma CountedReplyMeans(c: Cluster, i: nat, j: nat, first: Proposal, priorAgg: Option<Proposal>, now: nat,
      draws: seq<Draw>)
    requires Inv(c) && Known(c, i) && c.nodes[i].proposer.Running? && Fits(c.nodes[i].proposer.run, c.N())
      && |draws| == c.N()
    requires j < c.N() && j !in Counted(c.nodes[i].proposer.run)
    requires Truthful(c, i, j, c.nodes[i].proposer.run.step, c.nodes[i].proposer.run.step, first, priorAgg)
    ensures
      var s := c.nodes[i].proposer.run.step;
      ReplyMeans(c, i, j, s, s, first, draws, TakeReply(c, i, j, s, s, first, priorAgg, now, draws))
  {
    hide Inv, Tallied, Concludes, StandsAt, Truthful, BeginStep, IsQuorum;
    var run := c.nodes[i].proposer.run;
    RunningFacts(c, i);
    RunFits(c, i, run);
    CountTallied(c, i, run, j, first, priorAgg);
    CountedGains(run, j, first, priorAgg);
    var counted := Count(run, j, first, priorAgg);
    RunFits(c, i, counted);
    if |Counted(run) + {j}| == c.Quorum() {
      QuorumConcludes(c, i, counted, now, draws);
    }
  }

  /** Any truthful reply means what it should. */
  lemma AnyReplyMeans(c: Cluster, i: nat, j: nat, reqStep: nat, step: nat, first: Proposal,
      priorAgg: Option<Proposal>, now: nat, draws: seq<Draw>)
    requires Inv(c) && Known(c, i) && c.nodes[i].proposer.Running? && Fits(c.nodes[i].proposer.run, c.N())
      && |draws| == c.N()
    requires Truthful(c, i, j, reqStep, step, first, priorAgg)
    ensures ReplyMeans(c, i, j, reqStep, step, first, draws,
        TakeReply(c, i, j, reqStep, step, first, priorAgg, now, draws))
  {
    hide Inv, Tallied, Concludes, StandsAt, Truthful, BeginStep, Count, StepComplete, WaitsWith;
    var run := c.nodes[i].proposer.run;
    RunningFacts(c, i);
    RunFits(c, i, run);
    JustKnown(c, i, j, reqStep, step, first, priorAgg);
    if step > run.step {
      BeginStands(c, i, run.(step := step, proposal := first), now, draws);
    } else if reqStep != run.step || step < run.step || j in Counted(run) {
    } else {
      CountedReplyMeans(c, i, j, first, priorAgg, now, draws);
    }
  }

  lemma RunFits(c: Cluster, i: nat, run: RunState)
    requires Known(c, i) && Tallied(c, i, run)
    ensures |run.replied| == c.N() && run.step >= 4 && run.replyCount == |Counted(run)|
  {
  }

  lemma JustKnown(c: Cluster, i: nat, j: nat, reqStep: nat, step: nat, first: Proposal, priorAgg: Option<Proposal>)
    requires Truthful(c, i, j, reqStep, step, first, priorAgg)
    ensures Known(c, j) && step in Hist(c, j).first && Hist(c, j).first[step] == first
  {
  }

  // ---- a pass of driving ----

  /** The step of proposer `i` is recorded at its own recorder, which answers like any other;
      if the proposer then still waits at that step, it has sent it to every other recorder. */
  ghost predicate DriveMeans(c: Cluster, i: nat, draws: seq<Draw>, mid: Cluster, d: Cluster) {
    && Known(c, i) && Known(mid, i) && c.nodes[i].proposer.Running? && mid.nodes[i].proposer.Running?
    && mid.ids == c.ids && mid.net == c.net && |mid.nodes| == |c.nodes|
    && (forall k: nat :: k < c.N() && k != i ==> mid.nodes[k] == c.nodes[k])
    && var run, sent := c.nodes[i].proposer.run, mid.nodes[i].proposer.run;
    && sent == SetSend(run, false, sent.sentAt) && mid.nodes[i].recorder.Open?
    && Hist(mid, i) == HistRecord(Hist(c, i), run.step, TemplateOf(run).For(i))
    && var at := Hist(mid, i).step;
    && at in Hist(mid, i).first
    && ReplyMeans(mid, i, i, run.step, at, Hist(mid, i).first[at], draws, d.(net := c.net))
    && d.net == c.net + Sends(d, i)
  }

  lemma AnyDriveMeans(c: Cluster, i: nat, now: nat, draws: seq<Draw>) returns (mid: Cluster)
    requires Inv(c) && |c.nodes| == c.N() && Enabled(c, Drive(i, now, draws))
    ensures DriveMeans(c, i, draws, mid, Apply(c, Drive(i, now, draws))) && Inv(mid)
  {
    hide Inv, Truthful, TakeReply, ReplyMeans, Recorder.Record, HistRecord, Grows;
    mid := DriveRecord(c, i, now);
    var summary := DriveRecords(c, i, now);
    var step := c.nodes[i].proposer.run.step;
    OwnFits(mid, i);
    AnyReplyMeans(mid, i, i, step, summary.step, summary.first, summary.priorAgg, now, draws);
    JustKnown(mid, i, i, step, summary.step, summary.first, summary.priorAgg);
    OwnRegister(mid, i);
    TakeReplyNet(mid, i, step, summary, now, draws);
  }

  lemma OwnFits(c: Cluster, i: nat)
    requires Inv(c) && Known(c, i) && c.nodes[i].proposer.Running?
    ensures Fits(c.nodes[i].proposer.run, c.N())
  {
    RunningFacts(c, i);
  }

  lemma OwnRegister(c: Cluster, i: nat)
    requires Inv(c) && Known(c, i) && c.nodes[i].recorder.Open?
    ensures c.nodes[i].recorder.isr.step == Hist(c, i).step
  {
    RecorderFacts(c, i);
  }

  lemma TakeReplyNet(c: Cluster, i: nat, step: nat, summary: Summary, now: nat, draws: seq<Draw>)
    requires Known(c, i) && c.nodes[i].proposer.Running? && Fits(c.nodes[i].proposer.run, c.N()) && |draws| == c.N()
    ensures
      var d := TakeReply(c, i, i, step, summary.step, summary.first, summary.priorAgg, now, draws);
      d.net == c.net && d.(net := c.net) == d && |d.nodes| == |c.nodes|
      && forall net :: Sends(d.(net := net), i) == Sends(d, i)
  {
  }

  // ---- over every run ----

  /** A reply in the network means, to the proposer it reaches and at whatever time it does,
      what its recorder held when it answered. */
  lemma ReplyInRun(ids: seq<ReplicaId>, events: seq<Event>, msg: Msg, now: nat, draws: seq<Draw>)
    requires ids != [] && Enabled(Execute(ids, events), OnReply(msg, now, draws))
    ensures
      var c := Execute(ids, events);
      && Known(c, msg.src) && msg.step in Hist(c, msg.src).first
      && ReplyMeans(c, msg.dst, msg.src, msg.reqStep, msg.step, Hist(c, msg.src).first[msg.step], draws,
           Apply(c, OnReply(msg, now, draws)))
  {
    ReachableInv(ids, events);
    NetReplyMeans(Execute(ids, events), msg, now, draws);
  }

  lemma NetReplyMeans(c: Cluster, msg: Msg, now: nat, draws: seq<Draw>)
    requires Inv(c) && |c.nodes| == c.N() && Enabled(c, OnReply(msg, now, draws))
    ensures Known(c, msg.src) && msg.step in Hist(c, msg.src).first
    ensures ReplyMeans(c, msg.dst, msg.src, msg.reqStep, msg.step, Hist(c, msg.src).first[msg.step], draws,
        Apply(c, OnReply(msg, now, draws)))
  {
    hide Inv, Truthful, TakeReply, Concludes, StandsAt, WaitsWith;
    RebuiltTruthful(c, msg);
    match Reconstitute(c.nodes[msg.dst].proposer.run, msg.src, msg.reqStep, msg.first)
    case None => StaleEcho(c, msg);
    case Some(first) =>
      JustKnown(c, msg.dst, msg.src, msg.reqStep, msg.step, first, msg.priorAgg);
      AnyReplyMeans(c, msg.dst, msg.src, msg.reqStep, msg.step, first, msg.priorAgg, now, draws);
  }

  /** An elided reply that cannot be rebuilt is one to an earlier step. */
  lemma StaleEcho(c: Cluster, msg: Msg)
    requires Inv(c) && msg in c.net && msg.Reply? && Known(c, msg.dst) && c.nodes[msg.dst].proposer.Running?
    requires msg.first.Echo? && msg.reqStep != c.nodes[msg.dst].proposer.run.step
    ensures Known(c, msg.src) && msg.step in Hist(c, msg.src).first && msg.step < c.nodes[msg.dst].proposer.run.step
  {
    assert MsgOk(c, msg);
    RunningFacts(c, msg.dst);
  }

  /** Proposer `i` has, with recorder `j`'s answer to its present step, that of a quorum. */
  ghost predicate CompletesStep(c: Cluster, i: nat, j: nat, s: nat) {
    && Known(c, i) && c.nodes[i].proposer.Running? && c.nodes[i].proposer.run.step == s
    && j !in Counted(c.nodes[i].proposer.run) && |Counted(c.nodes[i].proposer.run) + {j}| >= c.N() / 2 + 1
  }

  /** With the reply that completes phase 2, a proposer decides exactly if what it spreads is
      the largest aggregate the quorum left phase 1 with. */
  lemma PhaseTwoDecides(ids: seq<ReplicaId>, events: seq<Event>, msg: Msg, now: nat, draws: seq<Draw>)
    requires ids != [] && Enabled(Execute(ids, events), OnReply(msg, now, draws))
    requires msg.reqStep == msg.step && msg.step % 4 == 2
      && CompletesStep(Execute(ids, events), msg.dst, msg.src, msg.step)
    ensures
      var c, d := Execute(ids, events), Apply(Execute(ids, events), OnReply(msg, now, draws));
      var run := c.nodes[msg.dst].proposer.run;
      d.nodes[msg.dst].recorder == RecorderSlot.Decided(run.proposal.value) <==>
        BestAgg(c, Counted(run) + {msg.src}, msg.step - 1, run.proposal)
  {
    hide Execute, Enabled, Apply, BestAgg;
    ReplyInRun(ids, events, msg, now, draws);
  }

  /** With the reply that completes a phase 0, a proposer decides exactly if every recorder of
      the quorum saw the reserved priority first. */
  lemma FastPathDecides(ids: seq<ReplicaId>, events: seq<Event>, msg: Msg, now: nat, draws: seq<Draw>)
    requires ids != [] && Enabled(Execute(ids, events), OnReply(msg, now, draws))
    requires msg.reqStep == msg.step && msg.step % 4 == 0
      && CompletesStep(Execute(ids, events), msg.dst, msg.src, msg.step)
    ensures
      var c, d := Execute(ids, events), Apply(Execute(ids, events), OnReply(msg, now, draws));
      var q := Counted(c.nodes[msg.dst].proposer.run) + {msg.src};
      d.nodes[msg.dst].recorder.Decided? <==> AllHigh(c, q, msg.step)
  {
    hide Execute, Enabled, Apply, AllHigh;
    ReplyInRun(ids, events, msg, now, draws);
  }
}
