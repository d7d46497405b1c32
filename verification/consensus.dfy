/** One slot as a state machine. */
module Consensus {
  // One slot of the log as a distributed state machine: every replica's recorder and proposer,
  // over a network that may lose, duplicate and reorder.

  import opened Types
  import opened Recorder
  import opened Proposer
  import opened SlotLogic

  /** What a proposer spreads in one step. */
  datatype Template = Template(proposal: Proposal, priorities: seq<Priority>) {
    /** The proposal this step sends to recorder `j`. */
    function For(j: nat): Proposal {
      if j < |priorities| then ProposalFor(proposal, priorities, j) else proposal
    }
  }

  /** The history of one replica: its recorder's step, the first and largest proposal its
      recorder saw at each step it visited, and its proposer's template of each step. */
  datatype History = History(
    step: nat,
    first: map<nat, Proposal>,
    agg: map<nat, Proposal>,
    sent: map<nat, Template>)

  datatype Node = Node(recorder: RecorderSlot, proposer: ProposerState, hist: History)

  datatype Msg =
    | Record(src: nat, dst: nat, step: nat, proposal: Proposal)
    | Reply(src: nat, dst: nat, reqStep: nat, step: nat, first: ReplyFirst, priorAgg: Option<Proposal>)

  /** The group, its replicas in schedule order, and every message ever sent: any of them
      may be delivered at any time, any number of times, or never. */
  datatype Cluster = Cluster(ids: seq<ReplicaId>, nodes: seq<Node>, net: set<Msg>) {
    function N(): nat { |ids| }
    function Quorum(): nat { |ids| / 2 + 1 }
    function SeatOf(i: nat): Seat { Seat(ids, i) }
  }

  const EmptyHistory := History(0, map[], map[], map[])

  function Init(ids: seq<ReplicaId>): Cluster {
    Cluster(ids, seq(|ids|, _ => Node(Open(Fresh), Idle, EmptyHistory)), {})
  }

  // ---- steps of one replica ----

  function HistRecord(h: History, step: nat, proposal: Proposal): History {
    if step > h.step then
      h.(step := step, first := h.first[step := proposal], agg := h.agg[step := proposal])
    else if step == h.step && step in h.agg then
      h.(agg := h.agg[step := Max(Some(h.agg[step]), proposal)])
    else h
  }

  /** An open recorder handles one `record` invocation. */
  function Accept(node: Node, step: nat, proposal: Proposal): Node
    requires node.recorder.Open?
  {
    node.(recorder := Open(Recorder.Record(node.recorder.isr, step, proposal)),
          hist := HistRecord(node.hist, step, proposal))
  }

  function TemplateOf(run: RunState): Template {
    Template(run.proposal, run.priorities)
  }

  /** The slot is decided here. */
  function Settle(node: Node, value: Bytes): Node {
    node.(recorder := RecorderSlot.Decided(value), proposer := Done)
  }

  /** The proposer moves as its reaction says. */
  function React(node: Node, run: RunState, reaction: Reaction): Node {
    match reaction
    case Quiet => node.(proposer := Running(run))
    case Resend =>
      node.(proposer := Running(run), hist := node.hist.(sent := node.hist.sent[run.step := TemplateOf(run)]))
    case Choose(value) => Settle(node, value)
  }

  datatype Event =
    | Start(i: nat, value: Bytes, now: nat, draws: seq<Draw>)       // activate a proposer
    | Retransmit(i: nat)                                            // ask for the step to be sent again
    | Drive(i: nat, now: nat, draws: seq<Draw>)                     // record locally, then broadcast
    | OnRecord(msg: Msg)                                            // deliver a Record
    | OnReply(msg: Msg, now: nat, draws: seq<Draw>)                 // deliver a RecordReply
    | Learn(i: nat, j: nat)                                         // deliver j's decision to i

  predicate Enabled(c: Cluster, e: Event)
    requires |c.nodes| == c.N()
  {
    match e
    case Start(i, _, _, draws) =>
      i < c.N() && |draws| == c.N() && c.nodes[i].proposer.Idle? && c.nodes[i].recorder.Open?
    case Retransmit(i) => i < c.N() && c.nodes[i].proposer.Running?
    case Drive(i, _, draws) =>
      i < c.N() && |draws| == c.N() && c.nodes[i].proposer.Running? && c.nodes[i].recorder.Open?
      && Fits(c.nodes[i].proposer.run, c.N()) && c.nodes[i].proposer.run.needsSend
      && c.nodes[i].proposer.run.step > 0 && c.nodes[i].recorder.isr.WellFormed()
    case OnRecord(msg) =>
      msg in c.net && msg.Record? && msg.dst < c.N() && msg.step >= 4 && c.nodes[msg.dst].recorder.Open?
      && c.nodes[msg.dst].recorder.isr.WellFormed()
    case OnReply(msg, _, draws) =>
      msg in c.net && msg.Reply? && msg.dst < c.N() && msg.src < c.N() && |draws| == c.N()
      && c.nodes[msg.dst].proposer.Running? && Fits(c.nodes[msg.dst].proposer.run, c.N())
    case Learn(i, j) =>
      i < c.N() && j < c.N() && c.nodes[j].recorder.Decided? && c.nodes[i].recorder.Open?
  }

  // ---- steps of the whole cluster ----

  function Put(c: Cluster, i: nat, node: Node): Cluster
    requires i < |c.nodes|
  {
    c.(nodes := c.nodes[i := node])
  }

  /** Recorder `j` accepts one invocation. */
  function AcceptAt(c: Cluster, j: nat, step: nat, proposal: Proposal): Cluster
    requires j < |c.nodes| && c.nodes[j].recorder.Open?
  {
    Put(c, j, Accept(c.nodes[j], step, proposal))
  }

  /** Proposer `i` takes recorder `j`'s answer to its request at `reqStep`. */
  function TakeReply(c: Cluster, i: nat, j: nat, reqStep: nat, step: nat, first: Proposal, priorAgg: Option<Proposal>,
        now: nat, draws: seq<Draw>): Cluster
    requires |c.nodes| == c.N() && i < c.N() && j < c.N() && |draws| == c.N()
    requires c.nodes[i].proposer.Running? && Fits(c.nodes[i].proposer.run, c.N())
  {
    var (after, reaction) := FoldReply(c.nodes[i].proposer.run, c.SeatOf(i), now, draws, j, reqStep, step, first,
      priorAgg);
    Put(c, i, React(c.nodes[i], after, reaction))
  }

  function SetSend(run: RunState, needsSend: bool, sentAt: nat): RunState {
    run.(needsSend := needsSend, sentAt := sentAt)
  }

  /** The records of the current step to the other recorders. */
  function Broadcast(c: Cluster, i: nat, run: RunState): set<Msg> {
    set j: nat | j < c.N() && j != i :: Record(i, j, run.step, TemplateOf(run).For(j))
  }

  /** What is broadcast once the local record left the step to be waited for. */
  function Sends(c: Cluster, i: nat): set<Msg>
    requires i < |c.nodes|
  {
    if c.nodes[i].proposer.Running? && !c.nodes[i].proposer.run.needsSend then Broadcast(c, i, c.nodes[i].proposer.run)
      else {}
  }

  /** One pass of a proposer over its current step: record locally, take the own
      recorder's answer, and broadcast unless that answer moved the proposer on. */
  function DriveOnce(c: Cluster, i: nat, now: nat, draws: seq<Draw>): Cluster
    requires |c.nodes| == c.N() && Enabled(c, Drive(i, now, draws))
  {
    var run := SetSend(c.nodes[i].proposer.run, false, now);
    var mine := TemplateOf(run).For(i);
    var c1 := AcceptAt(Put(c, i, c.nodes[i].(proposer := Running(run))), i, run.step, mine);
    RecordKeepsWellFormed(c.nodes[i].recorder.isr, run.step, mine);
    var summary := Summarize(c1.nodes[i].recorder.isr);
    var c2 := TakeReply(c1, i, i, run.step, summary.step, summary.first, summary.priorAgg, now, draws);
    c2.(net := c2.net + Sends(c2, i))
  }

  /** A recorder handles a Record and answers it. */
  function Answer(c: Cluster, msg: Msg): Cluster
    requires |c.nodes| == c.N() && Enabled(c, OnRecord(msg))
  {
    var c1 := AcceptAt(c, msg.dst, msg.step, msg.proposal);
    RecordKeepsWellFormed(c.nodes[msg.dst].recorder.isr, msg.step, msg.proposal);
    var summary := Summarize(c1.nodes[msg.dst].recorder.isr);
    c1.(net := c1.net + {Reply(msg.dst, msg.src, msg.step, summary.step, AnswerFirst(summary, msg.step, msg.proposal),
      summary.priorAgg)})
  }

  function Apply(c: Cluster, e: Event): Cluster
    requires |c.nodes| == c.N() && Enabled(c, e)
  {
    match e
    case Start(i, value, now, draws) =>
      Put(c, i, React(c.nodes[i], Proposer.Start(value, c.ids[i], i, c.N(), i == 0, now, draws), Resend))
    case Retransmit(i) =>
      var run := c.nodes[i].proposer.run;
      Put(c, i, c.nodes[i].(proposer := Running(SetSend(run, true, run.sentAt))))
    case Drive(i, now, draws) => DriveOnce(c, i, now, draws)
    case OnRecord(msg) => Answer(c, msg)
    case OnReply(msg, now, draws) =>
      (match Reconstitute(c.nodes[msg.dst].proposer.run, msg.src, msg.reqStep, msg.first)
       case None => c
       case Some(first) => TakeReply(c, msg.dst, msg.src, msg.reqStep, msg.step, first, msg.priorAgg, now, draws))
    case Learn(i, j) => Put(c, i, Settle(c.nodes[i], c.nodes[j].recorder.value))
  }

  /** The cluster after a sequence of events; an event that cannot happen does nothing. */
  function Execute(ids: seq<ReplicaId>, events: seq<Event>): (c: Cluster)
    ensures |c.nodes| == c.N() && c.ids == ids
  {
    if events == [] then Init(ids)
    else
      var before := Execute(ids, events[..|events| - 1]);
      var e := events[|events| - 1];
      if Enabled(before, e) then Apply(before, e) else before
  }
}
