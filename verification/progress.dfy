/** A live quorum can always finish a slot. */
module Progress {
  // From every state a slot can reach, any quorum of replicas can finish it, whatever the
  // others did or fail to do.

  import opened Types
  import opened Recorder
  import opened SlotLogic
  import opened Consensus
  import opened ConsensusInvariant
  import opened ConsensusSteps
  import opened Agreement
  import opened Outcomes

  // ---- runs of one quorum ----

  /** A step of proposer `i`, or of a recorder in `q`. */
  ghost predicate Within(e: Event, i: nat, q: set<nat>) {
    match e
    case Start(k, _, _, _) => k == i
    case Retransmit(k) => k == i
    case Drive(k, _, _) => k == i
    case OnRecord(msg) => msg.Record? && msg.dst in q
    case OnReply(msg, _, _) => msg.Reply? && msg.dst == i
    case Learn(k, j) => k == i && j in q
  }

  /** The run goes on with such steps only. */
  ghost predicate Leads(events: seq<Event>, later: seq<Event>, i: nat, q: set<nat>) {
    events <= later && forall k :: |events| <= k < |later| ==> Within(later[k], i, q)
  }

  lemma LeadsOn(events: seq<Event>, mid: seq<Event>, later: seq<Event>, i: nat, q: set<nat>)
    requires Leads(events, mid, i, q) && Leads(mid, later, i, q)
    ensures Leads(events, later, i, q)
  {
    forall k | |events| <= k < |later| ensures Within(later[k], i, q) {
      if k < |mid| {
        assert later[k] == mid[k];
      }
    }
  }

  lemma OneStep(ids: seq<ReplicaId>, events: seq<Event>, e: Event, i: nat, q: set<nat>) returns (later: seq<Event>)
    requires Enabled(Execute(ids, events), e) && Within(e, i, q)
    ensures Leads(events, later, i, q) && Execute(ids, later) == Apply(Execute(ids, events), e)
  {
    hide Apply, Enabled;
    later := events + [e];
    assert later[..|later| - 1] == events;
  }

  /** Proposer `i`, one of the quorum `q`, is at step `s`, and no recorder of `q` is closed. */
  ghost predicate Live(c: Cluster, i: nat, q: set<nat>, s: nat) {
    && Inv(c) && Known(c, i) && i in q && |q| == c.N() / 2 + 1
    && (forall j: nat :: j in q ==> Known(c, j) && c.nodes[j].recorder.Open?)
    && c.nodes[i].proposer.Running? && c.nodes[i].proposer.run.step == s
  }

  /** No recorder of `q` is past step `s`. */
  ghost predicate NoneAhead(c: Cluster, q: set<nat>, s: nat) {
    forall j: nat :: j in q ==> Known(c, j) && Hist(c, j).step <= s
  }

  function Ones(n: nat): (d: seq<Draw>)
    ensures |d| == n
  {
    seq(n, _ => 1)
  }

  // ---- sending and visiting ----

  function Resending(c: Cluster, i: nat): Cluster
    requires Known(c, i) && c.nodes[i].proposer.Running?
  {
    var run := c.nodes[i].proposer.run;
    Put(c, i, c.nodes[i].(proposer := Running(SetSend(run, true, run.sentAt))))
  }

  /** The step is sent once more. */
  lemma Resend(ids: seq<ReplicaId>, events: seq<Event>, i: nat, q: set<nat>, s: nat)
    returns (later: seq<Event>, mid: Cluster)
    requires ids != [] && Live(Execute(ids, events), i, q, s)
    ensures Leads(events, later, i, q) && Inv(mid)
    ensures DriveMeans(Resending(Execute(ids, events), i), i, Ones(|ids|), mid, Execute(ids, later))
  {
    hide Inv, Execute, Apply, DriveMeans, HistRecord;
    var c := Execute(ids, events);
    var asked := OneStep(ids, events, Retransmit(i), i, q);
    var d := Execute(ids, asked);
    AskedAgain(c, i);
    ReachableInv(ids, asked);
    CanDrive(d, i);
    mid := AnyDriveMeans(d, i, 0, Ones(|ids|));
    later := OneStep(ids, asked, Drive(i, 0, Ones(|ids|)), i, q);
    LeadsOn(events, asked, later, i, q);
  }

  lemma AskedAgain(c: Cluster, i: nat)
    requires |c.nodes| == c.N() && Enabled(c, Retransmit(i))
    ensures Apply(c, Retransmit(i)) == Resending(c, i)
  {
  }

  lemma CanDrive(c: Cluster, i: nat)
    requires Inv(c) && Known(c, i) && c.nodes[i].proposer.Running? && c.nodes[i].proposer.run.needsSend
    ensures Enabled(c, Drive(i, 0, Ones(c.N())))
  {
    RunningFacts(c, i);
    RecorderFacts(c, i);
  }

  /** Recorder `j` takes the request of this step. */
  ghost predicate Recorded(c: Cluster, j: nat, s: nat, p: Proposal, mid: Cluster) {
    && Known(c, j) && Known(mid, j) && mid.ids == c.ids && |mid.nodes| == |c.nodes| && c.net <= mid.net
    && (forall k: nat :: k < c.N() && k != j ==> mid.nodes[k] == c.nodes[k])
    && mid.nodes[j].recorder.Open? && mid.nodes[j].proposer == c.nodes[j].proposer
    && Hist(mid, j) == HistRecord(Hist(c, j), s, p)
  }

  lemma RegisterMoves(c: Cluster, j: nat, s: nat, p: Proposal)
    requires Inv(c) && Known(c, j) && c.nodes[j].recorder.Open? && s >= 4
    ensures c.nodes[j].recorder.isr.WellFormed()
    ensures
      var isr := Recorder.Record(c.nodes[j].recorder.isr, s, p);
      var h := HistRecord(Hist(c, j), s, p);
      isr.first.Some? && isr.step == h.step && isr.step in h.first
  {
    hide Inv, HistRecord, Recorder.Record;
    RecorderFacts(c, j);
    RecordCoherent(c.nodes[j].recorder.isr, Hist(c, j), s, p);
    RecordKeepsWellFormed(c.nodes[j].recorder.isr, s, p);
  }

  lemma RecordEvent(c: Cluster, i: nat, j: nat, s: nat, p: Proposal) returns (reply: Msg)
    requires Inv(c) && Known(c, j) && Known(c, i) && c.nodes[j].recorder.Open? && Record(i, j, s, p) in c.net && s >= 4
    ensures Enabled(c, OnRecord(Record(i, j, s, p)))
    ensures
      var mid := Apply(c, OnRecord(Record(i, j, s, p)));
      && Recorded(c, j, s, p, mid) && reply in mid.net && reply.Reply? && reply.src == j && reply.dst == i
      && reply.reqStep == s && reply.step == Hist(mid, j).step
  {
    hide Inv, HistRecord, Recorder.Record, AnswerFirst;
    RegisterMoves(c, j, s, p);
    var mid := Apply(c, OnRecord(Record(i, j, s, p)));
    var summary := Summarize(mid.nodes[j].recorder.isr);
    reply := Reply(j, i, s, summary.step, AnswerFirst(summary, s, p), summary.priorAgg);
  }

  /** Recorder `j` takes the request and its answer reaches the proposer. */
  lemma Visit(ids: seq<ReplicaId>, events: seq<Event>, i: nat, q: set<nat>, s: nat, j: nat)
    returns (later: seq<Event>, mid: Cluster)
    requires ids != [] && Live(Execute(ids, events), i, q, s) && j in q && j != i
    requires
      var c := Execute(ids, events);
      Record(i, j, s, TemplateOf(c.nodes[i].proposer.run).For(j)) in c.net
    ensures Leads(events, later, i, q) && Inv(mid)
    ensures Recorded(Execute(ids, events), j, s, TemplateOf(Execute(ids, events).nodes[i].proposer.run).For(j), mid)
    ensures Hist(mid, j).step in Hist(mid, j).first
    ensures ReplyMeans(mid, i, j, s, Hist(mid, j).step, Hist(mid, j).first[Hist(mid, j).step], Ones(|ids|),
        Execute(ids, later))
  {
    hide Inv, Execute, Apply, ReplyMeans, HistRecord;
    var c := Execute(ids, events);
    var p := TemplateOf(c.nodes[i].proposer.run).For(j);
    StepAtLeast(c, i);
    var reply := RecordEvent(c, i, j, s, p);
    var asked := OneStep(ids, events, OnRecord(Record(i, j, s, p)), i, q);
    mid := Execute(ids, asked);
    ReachableInv(ids, asked);
    OwnFits(mid, i);
    var e := OnReply(reply, 0, Ones(|ids|));
    assert Enabled(mid, e);
    ReplyInRun(ids, asked, reply, 0, Ones(|ids|));
    later := OneStep(ids, asked, e, i, q);
    LeadsOn(events, asked, later, i, q);
  }

  lemma StepAtLeast(c: Cluster, i: nat)
    requires Inv(c) && Known(c, i) && c.nodes[i].proposer.Running?
    ensures c.nodes[i].proposer.run.step >= 4 && |Counted(c.nodes[i].proposer.run)| < c.N() / 2 + 1
    ensures c.nodes[i].proposer.run.step % 4 != 0 ==> c.nodes[i].proposer.run.priorities == []
  {
    RunningFacts(c, i);
    RunFits(c, i, c.nodes[i].proposer.run);
    OwnEntered(c, i, c.nodes[i].proposer.run);
  }

  // ---- collecting the answers to one step ----

  /** What a recorder that was behind holds once it took `p` at step `s`, and what it held
      before. */
  ghost predicate TookOnly(h: History, k: History, s: nat, p: Proposal) {
    k.step == s && s in k.agg && k.agg[s] == p && forall t :: t < s ==> Lookup(k.agg, t) == Lookup(h.agg, t)
  }

  /** Step `s` is sent, to all of `q`, and no recorder of `q` is past it. */
  ghost predicate Collecting(c: Cluster, i: nat, q: set<nat>, s: nat, t: Template) {
    && Live(c, i, q, s) && NoneAhead(c, q, s) && TemplateOf(c.nodes[i].proposer.run) == t
    && i in Counted(c.nodes[i].proposer.run)
    && forall j: nat :: j in q && j != i ==> Record(i, j, s, t.For(j)) in c.net
  }

  /** From `start` on, those counted took the step's proposal as their first, and the others
      are where they were, behind the step. */
  ghost predicate Cleanly(start: Cluster, c: Cluster, q: set<nat>, counted: set<nat>, s: nat, t: Template) {
    && counted <= q && (forall j: nat :: j in q ==> Known(start, j) && Known(c, j))
    && forall j: nat :: j in q ==>
         if j in counted then TookOnly(Hist(start, j), Hist(c, j), s, t.For(j))
         else Hist(c, j) == Hist(start, j) && Hist(c, j).step < s
  }

  /** One more recorder counted: either the step is complete or the proposer waits on. */
  lemma VisitRecords(start: Cluster, c: Cluster, mid: Cluster, i: nat, q: set<nat>, s: nat, t: Template, j: nat,
      clean: bool)
    requires Collecting(c, i, q, s, t) && j in q && j != i && Recorded(c, j, s, t.For(j), mid) && Inv(mid)
    requires j !in Counted(c.nodes[i].proposer.run)
    requires clean ==> Cleanly(start, c, q, Counted(c.nodes[i].proposer.run), s, t)
    ensures Hist(mid, j).step == s && Collecting(mid, i, q, s, t)
    ensures clean ==> Cleanly(start, mid, q, Counted(c.nodes[i].proposer.run) + {j}, s, t)
  {
    hide Inv;
    assert Hist(c, j).step <= s;
    StepAtLeast(c, i);
    RegisterMoves(c, j, s, t.For(j));
    RecordsAt(c, j, s, t.For(j));
    if clean {
      assert Hist(c, j).step < s;
      TakesOnly(Hist(start, j), s, t.For(j));
    }
  }

  lemma RecordsAt(c: Cluster, j: nat, s: nat, p: Proposal)
    requires Inv(c) && Known(c, j) && Hist(c, j).step <= s
    ensures HistRecord(Hist(c, j), s, p).step == s
  {
  }

  lemma TakesOnly(h: History, s: nat, p: Proposal)
    requires h.step < s
    ensures TookOnly(h, HistRecord(h, s, p), s, p)
  {
  }

  /** After the last answer the recorders of `q` are still open and not past the step. */
  ghost predicate Over(d: Cluster, i: nat, q: set<nat>, s: nat) {
    NoneAhead(d, q, s) && forall j: nat :: j in q && j != i ==> d.nodes[j].recorder.Open?
  }

  lemma Missing(c: Cluster, i: nat, q: set<nat>, s: nat, t: Template) returns (j: nat)
    requires Collecting(c, i, q, s, t)
    ensures j in q && j != i && j !in Counted(c.nodes[i].proposer.run)
  {
    hide Inv;
    var counted := Counted(c.nodes[i].proposer.run);
    StepAtLeast(c, i);
    if q <= counted {
      Subset(q, counted);
    }
    j :| j in q && j !in counted;
  }

  /** A reply changes nothing but its proposer. */
  ghost predicate OnlyProposer(c: Cluster, d: Cluster, i: nat) {
    && d.ids == c.ids && |d.nodes| == |c.nodes| == c.N() && i < c.N() && d.net == c.net
    && (forall k: nat :: k < c.N() && k != i ==> d.nodes[k] == c.nodes[k])
    && d.nodes[i].hist == c.nodes[i].hist.(sent := d.nodes[i].hist.sent)
  }

  lemma ReplyFrame(c: Cluster, i: nat, j: nat, reqStep: nat, step: nat, first: Proposal, draws: seq<Draw>, d: Cluster)
    requires ReplyMeans(c, i, j, reqStep, step, first, draws, d)
    ensures OnlyProposer(c, d, i)
  {
    hide Concludes, StandsAt, WaitsWith;
  }

  lemma StaysOver(c: Cluster, d: Cluster, i: nat, q: set<nat>, s: nat, t: Template)
    requires Collecting(c, i, q, s, t) && OnlyProposer(c, d, i)
    ensures Over(d, i, q, s)
  {
    hide Inv;
    forall j: nat | j in q ensures Known(d, j) && Hist(d, j).step <= s && (j != i ==> d.nodes[j].recorder.Open?) {
      assert Hist(c, j).step <= s;
    }
  }

  lemma WaitingCollects(c: Cluster, d: Cluster, i: nat, q: set<nat>, s: nat, t: Template, counted: set<nat>)
    requires Collecting(c, i, q, s, t) && OnlyProposer(c, d, i) && Inv(d) && WaitsWith(c, d, i, counted)
    requires i in counted
    ensures Collecting(d, i, q, s, t) && Counted(d.nodes[i].proposer.run) == counted
  {
    hide Inv;
    StaysOver(c, d, i, q, s, t);
  }

  lemma CleanSame(start: Cluster, c: Cluster, d: Cluster, i: nat, q: set<nat>, counted: set<nat>, s: nat, t: Template)
    requires Cleanly(start, c, q, counted, s, t) && OnlyProposer(c, d, i) && i in counted
    ensures Cleanly(start, d, q, counted, s, t)
  {
    forall j: nat | j in q
      ensures Known(d, j) && if j in counted then TookOnly(Hist(start, j), Hist(d, j), s, t.For(j))
        else Hist(d, j) == Hist(start, j) && Hist(d, j).step < s
    {
      assert Hist(d, j).agg == Hist(c, j).agg && Hist(d, j).step == Hist(c, j).step;
    }
  }

  /** As many as `q` has, all of them in `q`, are all of `q`. */
  lemma AllOfThem(q: set<nat>, r: set<nat>)
    requires r <= q && |r| == |q|
    ensures r == q
  {
    assert q == r + (q - r);
  }

  lemma OneFewer(q: set<nat>, counted: set<nat>, j: nat)
    requires j in q && j !in counted
    ensures |q - (counted + {j})| < |q - counted|
  {
    assert q - counted == (q - (counted + {j})) + {j};
  }

  lemma CleanWithin(start: Cluster, c: Cluster, q: set<nat>, counted: set<nat>, s: nat, t: Template)
    requires Cleanly(start, c, q, counted, s, t)
    ensures counted <= q
  {
  }

  lemma QuorumSize(c: Cluster, i: nat, q: set<nat>, s: nat, t: Template)
    requires Collecting(c, i, q, s, t)
    ensures Known(c, i) && c.nodes[i].proposer.Running? && TemplateOf(c.nodes[i].proposer.run) == t
    ensures |q| == c.N() / 2 + 1 && i in Counted(c.nodes[i].proposer.run) && c.nodes[i].proposer.run.step == s
    ensures c.nodes[i].proposer.run.proposal == t.proposal && Live(c, i, q, s)
    ensures forall j: nat :: j in q && j != i ==> Record(i, j, s, t.For(j)) in c.net
  {
  }

  /** Any number of answers still missing, the step completes: with those of some quorum, and
      if nobody had seen the step before, of `q` itself, all holding the step's proposal. */
  lemma {:induction false} Collect(ids: seq<ReplicaId>, events: seq<Event>, start: Cluster, i: nat, q: set<nat>, s: nat,
      t: Template, clean: bool) returns (later: seq<Event>, mid: Cluster, r: set<nat>)
    requires ids != [] && Collecting(Execute(ids, events), i, q, s, t)
    requires clean ==>
      Cleanly(start, Execute(ids, events), q, Counted(Execute(ids, events).nodes[i].proposer.run), s, t)
    ensures Leads(events, later, i, q) && Over(Execute(ids, later), i, q, s)
    ensures Concludes(mid, i, r, s, t.proposal, Ones(|ids|), Execute(ids, later))
    ensures clean ==> r == q && Cleanly(start, mid, q, q, s, t) && Cleanly(start, Execute(ids, later), q, q, s, t)
    decreases |q - Counted(Execute(ids, events).nodes[i].proposer.run)|
  {
    hide Inv, Execute, Recorded, Concludes, Cleanly, HistRecord, Leads, Collecting, WaitsWith, StandsAt, Over, Live,
      OnlyProposer;
    var c := Execute(ids, events);
    QuorumSize(c, i, q, s, t);
    var counted := Counted(c.nodes[i].proposer.run);
    var j := Missing(c, i, q, s, t);
    var next: seq<Event>;
    next, mid := Visit(ids, events, i, q, s, j);
    VisitRecords(start, c, mid, i, q, s, t, j, clean);
    SameRun(c, mid, i, j, s, t.For(j));
    QuorumSize(mid, i, q, s, t);
    var d := Execute(ids, next);
    ReplyFrame(mid, i, j, s, s, Hist(mid, j).first[s], Ones(|ids|), d);
    StaysOver(mid, d, i, q, s, t);
    if clean {
      CleanSame(start, mid, d, i, q, counted + {j}, s, t);
    }
    if |counted + {j}| < |q| {
      OneFewer(q, counted, j);
      ReachableInv(ids, next);
      WaitingCollects(mid, d, i, q, s, t, counted + {j});
      ghost var after: Cluster;
      later, after, r := Collect(ids, next, start, i, q, s, t, clean);
      mid := after;
      LeadsOn(events, next, later, i, q);
    } else {
      later, r := next, counted + {j};
      if clean {
        CleanWithin(start, mid, q, r, s, t);
        AllOfThem(q, r);
      }
    }
  }

  lemma SameRun(c: Cluster, mid: Cluster, i: nat, j: nat, s: nat, p: Proposal)
    requires Recorded(c, j, s, p, mid) && i != j && Known(c, i)
    ensures Known(mid, i) && mid.nodes[i] == c.nodes[i] && mid.ids == c.ids
  {
  }

  // ---- one whole step ----

  lemma NetAside(c: Cluster, i: nat, r: set<nat>, s: int, p: Proposal, draws: seq<Draw>, d: Cluster, net: set<Msg>)
    requires Concludes(c, i, r, s, p, draws, d.(net := net))
    ensures Concludes(c, i, r, s, p, draws, d)
  {
    hide BestFirst, BestAgg, AllHigh, FirstIs, StandsAt, DecidedOn;
    var e := d.(net := net);
    forall t: int, b ensures StandsAt(e, i, t, b, draws) <==> StandsAt(d, i, t, b, draws) {
      StandsAside(d, i, t, b, draws, net);
    }
    forall v ensures DecidedOn(e, i, v) <==> DecidedOn(d, i, v) {
      DecidedAside(d, i, v, net);
    }
  }

  lemma StandsAside(d: Cluster, i: nat, t: int, b: Proposal, draws: seq<Draw>, net: set<Msg>)
    ensures StandsAt(d.(net := net), i, t, b, draws) <==> StandsAt(d, i, t, b, draws)
  {
  }

  lemma DecidedAside(d: Cluster, i: nat, v: Bytes, net: set<Msg>)
    ensures DecidedOn(d.(net := net), i, v) <==> DecidedOn(d, i, v)
  {
  }

  /** Nobody counted yet, and no recorder of `q` at the step or past it. */
  ghost predicate Untouched(c: Cluster, i: nat, q: set<nat>, s: nat)
    requires Known(c, i) && c.nodes[i].proposer.Running?
  {
    Counted(c.nodes[i].proposer.run) == {} && forall j: nat :: j in q ==> Known(c, j) && Hist(c, j).step < s
  }

  /** The own recorder took the step, and nothing else happened. */
  lemma OwnFirst(c: Cluster, mid: Cluster, d: Cluster, i: nat, q: set<nat>, s: nat, t: Template, draws: seq<Draw>,
      clean: bool)
    requires Live(c, i, q, s) && NoneAhead(c, q, s) && TemplateOf(c.nodes[i].proposer.run) == t && Inv(mid)
    requires DriveMeans(Resending(c, i), i, draws, mid, d)
    requires clean ==> Untouched(c, i, q, s)
    ensures Live(mid, i, q, s) && NoneAhead(mid, q, s) && TemplateOf(mid.nodes[i].proposer.run) == t
    ensures Counted(mid.nodes[i].proposer.run) == Counted(c.nodes[i].proposer.run)
    ensures !mid.nodes[i].proposer.run.needsSend && mid.ids == c.ids
    ensures Hist(mid, i).step == s && s in Hist(mid, i).first
    ensures ReplyMeans(mid, i, i, s, s, Hist(mid, i).first[s], draws, d.(net := c.net)) && mid.net == c.net
    ensures d.net == c.net + Sends(d, i)
    ensures clean ==> Cleanly(c, mid, q, {i}, s, t)
  {
    hide Inv, ReplyMeans, HistRecord;
    assert Hist(c, i).step <= s;
    RecordsAt(c, i, s, t.For(i));
    forall j: nat | j in q ensures Known(mid, j) && mid.nodes[j].recorder.Open? && Hist(mid, j).step <= s {
      assert Hist(c, j).step <= s;
    }
    if clean {
      assert Hist(c, i).step < s;
      TakesOnly(Hist(c, i), s, t.For(i));
    }
  }

  lemma SentToAll(c: Cluster, d: Cluster, i: nat, q: set<nat>, s: nat, t: Template)
    requires Live(c, i, q, s) && Known(d, i) && d.ids == c.ids && d.net == c.net + Sends(d, i)
    requires d.nodes[i].proposer.Running? && !d.nodes[i].proposer.run.needsSend && d.nodes[i].proposer.run.step == s
      && TemplateOf(d.nodes[i].proposer.run) == t
    ensures forall j: nat :: j in q && j != i ==> Record(i, j, s, t.For(j)) in d.net
  {
    hide Inv;
    forall j: nat | j in q && j != i ensures Record(i, j, s, t.For(j)) in d.net {
      assert Known(c, j);
    }
  }

  /** The step is sent and counted at home; what is left is to collect, or nothing. */
  lemma HomeCollects(c: Cluster, d: Cluster, i: nat, q: set<nat>, s: nat, t: Template, draws: seq<Draw>)
    requires Live(c, i, q, s) && NoneAhead(c, q, s) && TemplateOf(c.nodes[i].proposer.run) == t
    requires !c.nodes[i].proposer.run.needsSend && s in Hist(c, i).first && Inv(d)
    requires ReplyMeans(c, i, i, s, s, Hist(c, i).first[s], draws, d.(net := c.net)) && d.net == c.net + Sends(d, i)
    requires i in Counted(c.nodes[i].proposer.run) || |Counted(c.nodes[i].proposer.run) + {i}| < c.N() / 2 + 1
    ensures Collecting(d, i, q, s, t) && Counted(d.nodes[i].proposer.run) == Counted(c.nodes[i].proposer.run) + {i}
  {
    hide Inv, Concludes, StandsAt;
    var home := d.(net := c.net);
    var counted := Counted(c.nodes[i].proposer.run);
    if i in counted {
      assert home == c && counted + {i} == counted;
    }
    SentToAll(c, d, i, q, s, t);
    forall j: nat | j in q ensures Known(d, j) && d.nodes[j].recorder.Open? && Hist(d, j).step <= s {
      assert Known(c, j);
    }
  }

  lemma OverAside(c: Cluster, d: Cluster, i: nat, q: set<nat>, s: nat, top: nat)
    requires Live(c, i, q, s) && NoneAhead(c, q, top) && OnlyProposer(c, d.(net := c.net), i)
    ensures Over(d, i, q, top)
  {
    hide Inv;
    forall j: nat | j in q ensures Known(d, j) && Hist(d, j).step <= top && (j != i ==> d.nodes[j].recorder.Open?) {
      assert Hist(c, j).step <= top;
    }
  }

  lemma CleanAside(start: Cluster, c: Cluster, d: Cluster, i: nat, q: set<nat>, s: nat, t: Template)
    requires Cleanly(start, c, q, {i}, s, t) && OnlyProposer(c, d.(net := c.net), i)
    ensures Cleanly(start, d, q, {i}, s, t)
  {
    hide TookOnly;
    var home := d.(net := c.net);
    CleanSame(start, c, home, i, q, {i}, s, t);
    forall j: nat | j in q
      ensures Known(d, j) && if j in {i} then TookOnly(Hist(start, j), Hist(d, j), s, t.For(j))
        else Hist(d, j) == Hist(start, j) && Hist(d, j).step < s
    {
      assert Known(home, j) && Hist(home, j) == Hist(d, j);
    }
  }

  /** Wherever the recorders of `q` are up to its step, the proposer can complete the step. */
  lemma StepEnds(ids: seq<ReplicaId>, events: seq<Event>, i: nat, q: set<nat>, s: nat, t: Template, clean: bool)
    returns (later: seq<Event>, mid: Cluster, r: set<nat>)
    requires ids != [] && Live(Execute(ids, events), i, q, s) && NoneAhead(Execute(ids, events), q, s)
    requires TemplateOf(Execute(ids, events).nodes[i].proposer.run) == t
    requires clean ==> Untouched(Execute(ids, events), i, q, s)
    ensures Leads(events, later, i, q) && Over(Execute(ids, later), i, q, s)
    ensures Concludes(mid, i, r, s, t.proposal, Ones(|ids|), Execute(ids, later))
    ensures clean ==> r == q && Cleanly(Execute(ids, events), mid, q, q, s, t)
    ensures clean ==> Cleanly(Execute(ids, events), Execute(ids, later), q, q, s, t)
  {
    hide Inv, Execute, Concludes, Cleanly, HistRecord, Leads, Collecting, StandsAt, Over, NoneAhead, DriveMeans,
      OnlyProposer, Resending, Sends, WaitsWith;
    var c := Execute(ids, events);
    var sent: seq<Event>;
    sent, mid := Resend(ids, events, i, q, s);
    var d := Execute(ids, sent);
    OwnFirst(c, mid, d, i, q, s, t, Ones(|ids|), clean);
    ReachableInv(ids, sent);
    var counted := Counted(mid.nodes[i].proposer.run);
    ReplyFrame(mid, i, i, s, s, Hist(mid, i).first[s], Ones(|ids|), d.(net := c.net));
    if clean {
      assert counted + {i} == {i};
      CleanAside(c, mid, d, i, q, s, t);
    }
    if i in counted || |counted + {i}| < |q| {
      HomeCollects(mid, d, i, q, s, t, Ones(|ids|));
      ghost var after: Cluster;
      later, after, r := Collect(ids, sent, c, i, q, s, t, clean);
      mid := after;
      LeadsOn(events, sent, later, i, q);
    } else {
      OverAside(mid, d, i, q, s, s);
      NetAside(mid, i, counted + {i}, s, t.proposal, Ones(|ids|), d, c.net);
      later, r := sent, counted + {i};
      if clean {
        AllOfThem(q, r);
      }
    }
  }

  // ---- catching up with the recorders ahead ----

  ghost predicate Decided(c: Cluster, i: nat) {
    Known(c, i) && c.nodes[i].recorder.Decided?
  }

  lemma EitherWay(c: Cluster, i: nat, r: set<nat>, s: nat, p: Proposal, draws: seq<Draw>, d: Cluster)
    returns (b: Proposal)
    requires Concludes(c, i, r, s, p, draws, d)
    ensures Decided(d, i) || StandsAt(d, i, s + 1, b, draws)
    ensures s % 4 == 1 ==> b == p
  {
    hide BestFirst, BestAgg, AllHigh, FirstIs, StandsAt;
    b := p;
    if s % 4 == 0 && !AllHigh(c, r, s) {
      b :| BestFirst(c, r, s, b) && StandsAt(d, i, s + 1, b, draws);
    } else if s % 4 == 3 {
      b := AdoptedBy(c, i, r, s - 1, s + 1, draws, d);
    }
  }

  lemma AdoptedBy(c: Cluster, i: nat, r: set<nat>, s: int, n: int, draws: seq<Draw>, d: Cluster) returns (b: Proposal)
    requires EntersBestAgg(c, i, r, s, n, draws, d)
    ensures StandsAt(d, i, n, b, draws)
  {
    b :| BestAgg(c, r, s, b) && StandsAt(d, i, n, b, draws);
  }

  /** A proposer that entered a step is live there, and nobody is counted. */
  lemma StandingIsLive(d: Cluster, i: nat, q: set<nat>, n: nat, b: Proposal, draws: seq<Draw>)
    requires StandsAt(d, i, n, b, draws) && Inv(d) && i in q && |q| == d.N() / 2 + 1
    requires forall j: nat :: j in q ==> Known(d, j) && (j != i ==> d.nodes[j].recorder.Open?)
    ensures Live(d, i, q, n) && Counted(d.nodes[i].proposer.run) == {}
    ensures n % 4 != 0 ==> d.nodes[i].proposer.run.proposal == b
  {
    hide Inv;
    RunningFacts(d, i);
    if n % 4 != 0 {
      StepAtLeast(d, i);
      assert TemplateOf(d.nodes[i].proposer.run).For(i) == b;
    }
  }

  lemma StillOpen(c: Cluster, i: nat, q: set<nat>, s: nat)
    requires Over(c, i, q, s)
    ensures forall j: nat :: j in q ==> Known(c, j) && (j != i ==> c.nodes[j].recorder.Open?)
  {
  }

  /** The own recorder answers, perhaps from a later step. */
  lemma OwnAnswers(c: Cluster, mid: Cluster, d: Cluster, i: nat, q: set<nat>, s: nat, top: nat, draws: seq<Draw>)
    requires Live(c, i, q, s) && NoneAhead(c, q, top) && s <= top && Inv(mid)
    requires DriveMeans(Resending(c, i), i, draws, mid, d)
    ensures Live(mid, i, q, s) && NoneAhead(mid, q, top) && mid.ids == c.ids && mid.net == c.net
    ensures !mid.nodes[i].proposer.run.needsSend && TemplateOf(mid.nodes[i].proposer.run) ==
      TemplateOf(c.nodes[i].proposer.run)
    ensures Hist(mid, i).step >= s && Hist(mid, i).step >= Hist(c, i).step && Hist(mid, i).step in Hist(mid, i).first
    ensures ReplyMeans(mid, i, i, s, Hist(mid, i).step, Hist(mid, i).first[Hist(mid, i).step], draws,
        d.(net := c.net)) && d.net == c.net + Sends(d, i)
    ensures forall j: nat :: j in q && j != i ==> Hist(mid, j) == Hist(c, j)
  {
    hide Inv, ReplyMeans;
    assert Hist(c, i).step <= top;
    forall j: nat | j in q ensures Known(mid, j) && mid.nodes[j].recorder.Open? && Hist(mid, j).step <= top {
      assert Hist(c, j).step <= top;
    }
  }

  /** What the own answer came to: the proposer moved on, or it waits with its step sent. */
  lemma HomeOrAway(c: Cluster, d: Cluster, i: nat, q: set<nat>, s: nat, top: nat, draws: seq<Draw>)
    returns (n: nat, b: Proposal)
    requires Live(c, i, q, s) && NoneAhead(c, q, top) && s < top && Inv(d) && !c.nodes[i].proposer.run.needsSend
    requires Hist(c, i).step >= s && Hist(c, i).step in Hist(c, i).first
    requires ReplyMeans(c, i, i, s, Hist(c, i).step, Hist(c, i).first[Hist(c, i).step], draws, d.(net := c.net))
    requires d.net == c.net + Sends(d, i)
    ensures Over(d, i, q, top)
    ensures
      || Decided(d, i)
      || (s < n <= top && StandsAt(d, i, n, b, draws))
      || (Hist(c, i).step == s && Live(d, i, q, s) && d.ids == c.ids
          && (forall j: nat :: j in q ==> Hist(d, j).step == Hist(c, j).step)
          && forall j: nat :: j in q && j != i ==>
               Record(i, j, s, TemplateOf(d.nodes[i].proposer.run).For(j)) in d.net)
  {
    hide Inv, Concludes, StandsAt;
    var at, home := Hist(c, i).step, d.(net := c.net);
    var counted := Counted(c.nodes[i].proposer.run);
    assert at <= top;
    ReplyFrame(c, i, i, s, at, Hist(c, i).first[at], draws, home);
    OverAside(c, d, i, q, s, top);
    n, b := at, Hist(c, i).first[at];
    if at > s {
      StandsAside(d, i, n, b, draws, c.net);
    } else if i !in counted && |counted + {i}| >= c.N() / 2 + 1 {
      NetAside(c, i, counted + {i}, s, c.nodes[i].proposer.run.proposal, draws, d, c.net);
      b := EitherWay(c, i, counted + {i}, s, c.nodes[i].proposer.run.proposal, draws, d);
      n := s + 1;
    } else {
      assert i in counted ==> home == c;
      SentToAll(c, d, i, q, s, TemplateOf(c.nodes[i].proposer.run));
      StillOpen(d, i, q, top);
    }
  }

  lemma SomeAhead(c: Cluster, q: set<nat>, s: nat, i: nat) returns (j: nat)
    requires !NoneAhead(c, q, s) && Live(c, i, q, s)
    ensures j in q && Known(c, j) && Hist(c, j).step > s
  {
    j :| j in q && !(Known(c, j) && Hist(c, j).step <= s);
  }

  /** A recorder ahead is not moved by a request it has left behind. */
  lemma AheadStays(c: Cluster, mid: Cluster, i: nat, q: set<nat>, s: nat, top: nat, j: nat, p: Proposal)
    requires Live(c, i, q, s) && Over(c, i, q, top) && j in q && j != i && Recorded(c, j, s, p, mid)
    requires Hist(c, j).step > s && Inv(mid)
    ensures Live(mid, i, q, s) && NoneAhead(mid, q, top) && Hist(mid, j).step == Hist(c, j).step && mid.ids == c.ids
  {
    hide Inv;
    forall k: nat | k in q ensures Known(mid, k) && Hist(mid, k).step <= top && mid.nodes[k].recorder.Open? {
      assert Hist(c, k).step <= top;
    }
  }

  /** However far ahead recorders of `q` are, the proposer can get to where none of them is
      ahead, if it does not decide on the way. */
  lemma {:induction false} CatchUp(ids: seq<ReplicaId>, events: seq<Event>, i: nat, q: set<nat>, s: nat, top: nat)
    returns (later: seq<Event>, n: nat)
    requires ids != [] && Live(Execute(ids, events), i, q, s) && NoneAhead(Execute(ids, events), q, top) && s <= top
    ensures Leads(events, later, i, q)
    ensures Decided(Execute(ids, later), i) || (Live(Execute(ids, later), i, q, n)
      && NoneAhead(Execute(ids, later), q, n))
    decreases top - s
  {
    hide Inv, Execute, HistRecord, Leads, StandsAt, Over, NoneAhead, DriveMeans, ReplyMeans, Resending, Sends, Live,
      Recorded, Decided, Apply;
    var c := Execute(ids, events);
    if NoneAhead(c, q, s) {
      later, n := events, s;
      LeadsNowhere(events, i, q);
    } else {
      var j := SomeAhead(c, q, s, i);
      BelowTop(c, q, s, top, j);
      var sent, mid := Resend(ids, events, i, q, s);
      var d := Execute(ids, sent);
      OwnAnswers(c, mid, d, i, q, s, top, Ones(|ids|));
      ReachableInv(ids, sent);
      LiveFacts(mid, i, q, s);
      ghost var b: Proposal;
      n, b := HomeOrAway(mid, d, i, q, s, top, Ones(|ids|));
      if Decided(d, i) {
        later := sent;
      } else if s < n <= top && StandsAt(d, i, n, b, Ones(|ids|)) {
        later, n := CatchUpFrom(ids, sent, i, q, s, n, b, top);
        LeadsOn(events, sent, later, i, q);
      } else {
        LiveFacts(d, i, q, s);
        var visited, after := Visit(ids, sent, i, q, s, j);
        AheadStays(d, after, i, q, s, top, j, TemplateOf(d.nodes[i].proposer.run).For(j));
        LiveFacts(after, i, q, s);
        MovesAhead(after, Execute(ids, visited), i, q, s, top, j, Ones(|ids|));
        ReachableInv(ids, visited);
        later, n := CatchUpFrom(ids, visited, i, q, s, Hist(after, j).step, Hist(after, j).first[Hist(after, j).step],
          top);
        LeadsOn(events, sent, visited, i, q);
        LeadsOn(events, visited, later, i, q);
      }
    }
  }

  lemma LeadsNowhere(events: seq<Event>, i: nat, q: set<nat>)
    ensures Leads(events, events, i, q)
  {
  }

  lemma BelowTop(c: Cluster, q: set<nat>, s: nat, top: nat, j: nat)
    requires NoneAhead(c, q, top) && j in q && Known(c, j) && Hist(c, j).step > s
    ensures s < top
  {
  }

  lemma LiveFacts(c: Cluster, i: nat, q: set<nat>, s: nat)
    requires Live(c, i, q, s)
    ensures Known(c, i) && c.nodes[i].proposer.Running? && i in q && |q| == c.N() / 2 + 1
    ensures forall j: nat :: j in q ==> Known(c, j)
  {
  }

  /** The answer of a recorder ahead takes the proposer to its step. */
  lemma MovesAhead(c: Cluster, d: Cluster, i: nat, q: set<nat>, s: nat, top: nat, j: nat, draws: seq<Draw>)
    requires Live(c, i, q, s) && NoneAhead(c, q, top) && j in q && Hist(c, j).step > s
    requires Hist(c, j).step in Hist(c, j).first
    requires ReplyMeans(c, i, j, s, Hist(c, j).step, Hist(c, j).first[Hist(c, j).step], draws, d)
    ensures s < Hist(c, j).step <= top && Over(d, i, q, top)
    ensures StandsAt(d, i, Hist(c, j).step, Hist(c, j).first[Hist(c, j).step], draws)
  {
    hide Inv, StandsAt;
    var n := Hist(c, j).step;
    ReplyFrame(c, i, j, s, n, Hist(c, j).first[n], draws, d);
    assert d.(net := c.net) == d;
    OverAside(c, d, i, q, s, top);
    assert Known(c, j) && n <= top;
  }

  lemma CatchUpFrom(ids: seq<ReplicaId>, events: seq<Event>, i: nat, q: set<nat>, s: nat, at: nat, b: Proposal,
      top: nat) returns (later: seq<Event>, n: nat)
    requires ids != [] && s < at <= top && i in q && |q| == |ids| / 2 + 1
    requires StandsAt(Execute(ids, events), i, at, b, Ones(|ids|)) && Over(Execute(ids, events), i, q, top)
    ensures Leads(events, later, i, q)
    ensures Decided(Execute(ids, later), i) || (Live(Execute(ids, later), i, q, n)
      && NoneAhead(Execute(ids, later), q, n))
    decreases top - s, 0
  {
    hide Inv, Execute, Leads, StandsAt, Live;
    ReachableInv(ids, events);
    StillOpen(Execute(ids, events), i, q, top);
    StandingIsLive(Execute(ids, events), i, q, at, b, Ones(|ids|));
    later, n := CatchUp(ids, events, i, q, at, top);
  }

  // ---- finishing ----

  /** The steps left until a step of phase 1. */
  function UntilSpread(s: nat): nat {
    (4 - (s + 3) % 4) % 4
  }

  lemma UntilSpreadIs(s: nat)
    ensures s % 4 == 1 <==> UntilSpread(s) == 0
    ensures s % 4 != 1 ==> UntilSpread(s + 1) == UntilSpread(s) - 1
  {
  }

  /** A proposer entered the step after one that is over. */
  lemma NextIsUntouched(d: Cluster, i: nat, q: set<nat>, s: nat, b: Proposal, draws: seq<Draw>)
    requires StandsAt(d, i, s + 1, b, draws) && Over(d, i, q, s) && Inv(d) && i in q && |q| == d.N() / 2 + 1
    ensures Live(d, i, q, s + 1) && Known(d, i) && d.nodes[i].proposer.Running? && Untouched(d, i, q, s + 1)
    ensures NoneAhead(d, q, s + 1)
    ensures (s + 1) % 4 != 0 ==> TemplateOf(d.nodes[i].proposer.run).proposal == b
  {
    hide Inv, StandsAt;
    StillOpen(d, i, q, s);
    StandingIsLive(d, i, q, s + 1, b, draws);
    forall j: nat | j in q ensures Known(d, j) && Hist(d, j).step < s + 1 {
      assert Hist(d, j).step <= s;
    }
  }

  /** All of `q` left phase 1 with the proposal that was spread. */
  lemma AllLeftWith(start: Cluster, mid: Cluster, c: Cluster, i: nat, q: set<nat>, s: nat, t: Template, u: Template)
    requires Cleanly(start, mid, q, q, s, t) && Cleanly(mid, c, q, q, s + 1, u) && i in q
    requires forall j: nat :: j in q ==> t.For(j) == t.proposal
    ensures BestAgg(c, q, s, t.proposal)
  {
    forall j: nat | j in q
      ensures Known(c, j) && Hist(c, j).step > s && s in Hist(c, j).agg && Hist(c, j).agg[s] == t.proposal
    {
      assert TookOnly(Hist(start, j), Hist(mid, j), s, t.For(j));
      assert TookOnly(Hist(mid, j), Hist(c, j), s + 1, u.For(j));
      assert Lookup(Hist(c, j).agg, s) == Lookup(Hist(mid, j).agg, s);
    }
    assert Known(c, i) && s in Hist(c, i).agg && Hist(c, i).agg[s] == t.proposal;
  }

  lemma DecidesThere(c: Cluster, i: nat, q: set<nat>, s: nat, p: Proposal, draws: seq<Draw>, d: Cluster)
    requires Concludes(c, i, q, s, p, draws, d) && s % 4 == 2 && BestAgg(c, q, s - 1, p)
    ensures Decided(d, i)
  {
  }

  /** Spread undisturbed, a proposal is decided on in the next step. */
  lemma SpreadDecides(ids: seq<ReplicaId>, events: seq<Event>, i: nat, q: set<nat>, s: nat)
    returns (later: seq<Event>)
    requires ids != [] && s % 4 == 1 && Live(Execute(ids, events), i, q, s)
    requires NoneAhead(Execute(ids, events), q, s) && Untouched(Execute(ids, events), i, q, s)
    ensures Leads(events, later, i, q) && Decided(Execute(ids, later), i)
  {
    hide Inv, Execute, Leads, StandsAt, Over, Concludes, Cleanly, BestAgg, Untouched;
    var c := Execute(ids, events);
    var t := TemplateOf(c.nodes[i].proposer.run);
    StepAtLeast(c, i);
    var spread, mid, r := StepEnds(ids, events, i, q, s, t, true);
    var d := Execute(ids, spread);
    var b := EitherWay(mid, i, r, s, t.proposal, Ones(|ids|), d);
    ReachableInv(ids, spread);
    if Decided(d, i) {
      later := spread;
    } else {
      NextIsUntouched(d, i, q, s, b, Ones(|ids|));
      var u := TemplateOf(d.nodes[i].proposer.run);
      var after: Cluster, x: set<nat>;
      later, after, x := StepEnds(ids, spread, i, q, s + 1, u, true);
      AllLeftWith(c, d, after, i, q, s, t, u);
      DecidesThere(after, i, q, s + 1, u.proposal, Ones(|ids|), Execute(ids, later));
      LeadsOn(events, spread, later, i, q);
    }
  }

  /** From a step nobody in `q` has seen, the proposer decides within six. */
  lemma {:induction false} FreshDecides(ids: seq<ReplicaId>, events: seq<Event>, i: nat, q: set<nat>, s: nat)
    returns (later: seq<Event>)
    requires ids != [] && Live(Execute(ids, events), i, q, s)
    requires NoneAhead(Execute(ids, events), q, s) && Untouched(Execute(ids, events), i, q, s)
    ensures Leads(events, later, i, q) && Decided(Execute(ids, later), i)
    decreases UntilSpread(s)
  {
    hide Inv, Execute, Leads, StandsAt, Over, Concludes, Cleanly, Untouched, UntilSpread;
    UntilSpreadIs(s);
    var c := Execute(ids, events);
    if s % 4 == 1 {
      later := SpreadDecides(ids, events, i, q, s);
    } else {
      var t := TemplateOf(c.nodes[i].proposer.run);
      var next, mid, r := StepEnds(ids, events, i, q, s, t, true);
      var b := EitherWay(mid, i, r, s, t.proposal, Ones(|ids|), Execute(ids, next));
      ReachableInv(ids, next);
      if Decided(Execute(ids, next), i) {
        later := next;
      } else {
        NextIsUntouched(Execute(ids, next), i, q, s, b, Ones(|ids|));
        later := FreshDecides(ids, next, i, q, s + 1);
        LeadsOn(events, next, later, i, q);
      }
    }
  }

  /** Largest step any recorder of `q` is at. */
  lemma {:induction false} SomeBound(c: Cluster, q: set<nat>) returns (top: nat)
    requires forall j: nat :: j in q ==> Known(c, j)
    ensures NoneAhead(c, q, top)
    decreases |q|
  {
    if q == {} {
      top := 0;
    } else {
      var j :| j in q;
      var rest := SomeBound(c, q - {j});
      top := if Hist(c, j).step > rest then Hist(c, j).step else rest;
      forall k: nat | k in q ensures Hist(c, k).step <= top {
        assert k == j || k in q - {j};
      }
    }
  }

  lemma RunningDecides(ids: seq<ReplicaId>, events: seq<Event>, i: nat, q: set<nat>, s: nat)
    returns (later: seq<Event>)
    requires ids != [] && Live(Execute(ids, events), i, q, s)
    ensures Leads(events, later, i, q) && Decided(Execute(ids, later), i)
  {
    hide Inv, Execute, Leads, StandsAt, Over, Concludes, Cleanly, Untouched, NoneAhead;
    var c := Execute(ids, events);
    LiveFacts(c, i, q, s);
    var top := SomeBound(c, q);
    var far := if top > s then top else s;
    Further(c, q, top, far);
    var level, n := CatchUp(ids, events, i, q, s, far);
    if Decided(Execute(ids, level), i) {
      later := level;
    } else {
      LiveFacts(Execute(ids, level), i, q, n);
      var t := TemplateOf(Execute(ids, level).nodes[i].proposer.run);
      var next, mid, r := StepEnds(ids, level, i, q, n, t, false);
      var b := EitherWay(mid, i, r, n, t.proposal, Ones(|ids|), Execute(ids, next));
      ReachableInv(ids, next);
      LeadsOn(events, level, next, i, q);
      if Decided(Execute(ids, next), i) {
        later := next;
      } else {
        NextIsUntouched(Execute(ids, next), i, q, n, b, Ones(|ids|));
        later := FreshDecides(ids, next, i, q, n + 1);
        LeadsOn(events, next, later, i, q);
      }
    }
  }

  lemma Further(c: Cluster, q: set<nat>, top: nat, far: nat)
    requires NoneAhead(c, q, top) && top <= far
    ensures NoneAhead(c, q, far)
  {
    forall j: nat | j in q ensures Known(c, j) && Hist(c, j).step <= far {
      assert Hist(c, j).step <= top;
    }
  }

  /** Any quorum can finish: from every state a run can lead to, and whatever the other
      replicas did, failed to do or never got to send, steps of one proposer and of the
      recorders of a quorum it belongs to lead it to a decision; if it has none of its own to
      propose yet, with any value. */
  lemma AnyQuorumDecides(ids: seq<ReplicaId>, events: seq<Event>, i: nat, q: set<nat>, value: Bytes)
    returns (more: seq<Event>)
    requires i in q && |q| == |ids| / 2 + 1 && forall j: nat :: j in q ==> j < |ids|
    ensures forall k :: 0 <= k < |more| ==> Within(more[k], i, q)
    ensures Execute(ids, events + more).nodes[i].recorder.Decided?
  {
    hide Inv, Execute, Leads;
    var c := Execute(ids, events);
    ReachableInv(ids, events);
    var later := events;
    LeadsNowhere(events, i, q);
    if c.nodes[i].recorder.Open? {
      if j :| j in q && c.nodes[j].recorder.Decided? {
        later := OneStep(ids, events, Learn(i, j), i, q);
        LearnDecides(c, i, j);
      } else if c.nodes[i].proposer.Running? {
        later := RunningDecides(ids, events, i, q, c.nodes[i].proposer.run.step);
      } else {
        OpenIsNotDone(c, i);
        var e := Start(i, value, 0, Ones(|ids|));
        var begun := OneStep(ids, events, e, i, q);
        ReachableInv(ids, begun);
        StartRuns(c, i, value);
        later := RunningDecides(ids, begun, i, q, 4);
        LeadsOn(events, begun, later, i, q);
      }
    }
    more := MoreOf(events, later, i, q);
  }

  lemma MoreOf(events: seq<Event>, later: seq<Event>, i: nat, q: set<nat>) returns (more: seq<Event>)
    requires Leads(events, later, i, q)
    ensures later == events + more && forall k :: 0 <= k < |more| ==> Within(more[k], i, q)
  {
    more := later[|events|..];
    forall k | 0 <= k < |more| ensures Within(more[k], i, q) {
      assert more[k] == later[|events| + k];
    }
  }

  lemma LearnDecides(c: Cluster, i: nat, j: nat)
    requires |c.nodes| == c.N() && Enabled(c, Learn(i, j))
    ensures Decided(Apply(c, Learn(i, j)), i)
  {
  }

  lemma OpenIsNotDone(c: Cluster, i: nat)
    requires Inv(c) && Known(c, i) && c.nodes[i].recorder.Open?
    ensures !c.nodes[i].proposer.Done?
  {
    NodeFacts(c, i);
  }

  lemma StartRuns(c: Cluster, i: nat, value: Bytes)
    requires |c.nodes| == c.N() && Enabled(c, Start(i, value, 0, Ones(c.N())))
    ensures
      var d := Apply(c, Start(i, value, 0, Ones(c.N())));
      && Known(d, i) && d.nodes[i].proposer.Running? && d.nodes[i].proposer.run.step == 4 && d.nodes[i].recorder.Open?
      && d.ids == c.ids && |d.nodes| == |c.nodes|
      && forall k: nat :: k < c.N() && k != i ==> d.nodes[k] == c.nodes[k]
  {
  }
}
