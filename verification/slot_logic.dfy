/** What one replica does for one slot: its recorder and its proposer side by side. */
module SlotLogic {
  import opened Types
  import opened Recorder
  import opened Proposer

  datatype RecorderSlot = Open(isr: Isr) | Decided(value: Bytes)

  datatype ProposerState = Idle | Running(run: RunState) | Done

  /** What a folded reply asks of the replica: nothing, to send the step it moved to, or
      to decide the slot. */
  datatype Reaction = Quiet | Resend | Choose(value: Bytes)

  /** The place of a replica in its group. */
  datatype Seat = Seat(ids: seq<ReplicaId>, idx: nat) {
    predicate Valid() { idx < |ids| }
    function Me(): ReplicaId requires Valid() { ids[idx] }
    function N(): nat { |ids| }
    predicate IsLeader() { idx == 0 }
    function Quorum(): nat { |ids| / 2 + 1 }
  }

  /** The vectors of a proposer fit a group of `n` recorders. */
  predicate Fits(run: RunState, n: nat) {
    |run.replied| == n && (run.priorities == [] || |run.priorities| == n)
  }

  /** Folds one reconstituted reply and runs the phase logic it may complete. */
  function FoldReply(run: RunState, seat: Seat, now: nat, draws: seq<Draw>,
                     from: nat, reqStep: nat, replyStep: nat, first: Proposal, priorAgg: Option<Proposal>): (RunState,
                       Reaction)
    requires seat.Valid() && Fits(run, seat.N()) && |draws| == seat.N() && from < seat.N()
  {
    var (folded, result) := Fold(run, from, reqStep, replyStep, first, priorAgg, seat.Quorum());
    match result
    case Ignored => (folded, Quiet)
    case CatchUp(step, adopt) =>
      (BeginStep(folded.(step := step, proposal := adopt), seat.Me(), seat.idx, seat.IsLeader(), now, draws), Resend)
    case Quorum =>
      match StepComplete(folded)
      case (complete, Decided(value)) => (complete, Choose(value))
      case (complete, Advance) => (BeginStep(complete, seat.Me(), seat.idx, seat.IsLeader(), now, draws), Resend)
      case (complete, Retry) => (complete, Quiet)
  }

  /** The proposal an elided first component stands for, if it can still be rebuilt. */
  function Reconstitute(run: RunState, from: nat, reqStep: nat, first: ReplyFirst): Option<Proposal>
    requires run.priorities == [] || from < |run.priorities|
  {
    match first
    case Full(proposal) => Some(proposal)
    case Echo => if reqStep == run.step then Some(ProposalFor(run.proposal, run.priorities, from)) else None
  }

  /** The first component a recorder answers a request with: elided only for a reply at
      the request's own step. */
  function AnswerFirst(summary: Summary, step: nat, request: Proposal): ReplyFirst {
    if summary.step == step then ReplyWith(summary.first, request) else Full(summary.first)
  }

  /** A first component is elided exactly for a reply at the request's own step whose first
      proposal is the request's. */
  lemma ElidedExactly(summary: Summary, step: nat, request: Proposal)
    ensures AnswerFirst(summary, step, request).Echo? <==> summary.step == step && summary.first == request
    ensures AnswerFirst(summary, step, request).Full? ==>
      AnswerFirst(summary, step, request).proposal == summary.first
  {
  }
}
