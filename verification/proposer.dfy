/** The proposer role for one slot. */
module Proposer {
  import opened Types

  /** An active proposer: its step `4 * round + phase`, the template it spreads, its
      per-recorder draws (nonempty exactly in a randomized phase 0), and what the counted
      replies of this step amount to. */
  datatype RunState = RunState(
    step: nat,
    proposal: Proposal,
    priorities: seq<Priority>,
    replied: seq<bool>,
    replyCount: nat,
    bestFirst: Option<Proposal>,
    bestAgg: Option<Proposal>,
    allFirstHigh: bool,
    sentAt: nat,
    needsSend: bool)

  datatype Folded = Ignored | CatchUp(step: nat, adopt: Proposal) | Quorum

  datatype StepOutcome = Decided(value: Bytes) | Advance | Retry

  function NoReplies(n: nat): (r: seq<bool>) {
    seq(n, _ => false)
  }

  function Draws(run: RunState, me: ReplicaId, meIdx: nat, draws: seq<Draw>): RunState
    requires meIdx < |draws|
  {
    run.(priorities := draws, proposal := Proposal(draws[meIdx], me, run.proposal.value))
  }

  /** A proposer enters at round 1 phase 0 with a fresh value; the leader skips the draw. */
  function Start(value: Bytes, me: ReplicaId, meIdx: nat, n: nat, fastPathLeader: bool, now: nat,
        draws: seq<Draw>): RunState
    requires meIdx < n == |draws|
  {
    var run := RunState(4, Proposal(PRIORITY_H, me, value), [], NoReplies(n), 0, None, None, true, now, true);
    if fastPathLeader then run else Draws(run, me, meIdx, draws)
  }

  /** The exact proposal sent to the recorder at schedule index `idx` in this step. */
  function ProposalFor(proposal: Proposal, priorities: seq<Priority>, idx: nat): Proposal
    requires priorities == [] || idx < |priorities|
  {
    if priorities == [] then proposal else proposal.(priority := priorities[idx])
  }

  function ResetTracking(run: RunState): RunState {
    run.(replied := NoReplies(|run.replied|), replyCount := 0, bestFirst := None, bestAgg := None, allFirstHigh := true)
  }

  /** Whether entering `step` draws fresh priorities. */
  predicate Randomizes(step: nat, leaderFirstRound: bool) {
    step % 4 == 0 && !(step == 4 && leaderFirstRound)
  }

  function BeginStep(run: RunState, me: ReplicaId, meIdx: nat, leaderFirstRound: bool, now: nat,
        draws: seq<Draw>): RunState
    requires meIdx < |draws|
  {
    var reset := ResetTracking(run).(priorities := [], sentAt := now, needsSend := true);
    if Randomizes(run.step, leaderFirstRound) then Draws(reset, me, meIdx, draws) else reset
  }

  /** A reply of the current step, counted. */
  function Count(run: RunState, from: nat, first: Proposal, priorAgg: Option<Proposal>): RunState
    requires from < |run.replied|
  {
    run.(replied := run.replied[from := true],
         replyCount := run.replyCount + 1,
         allFirstHigh := run.allFirstHigh && first.priority == PRIORITY_H,
         bestFirst := Some(Max(run.bestFirst, first)),
         bestAgg := if priorAgg.Some? then Some(Max(run.bestAgg, priorAgg.value)) else run.bestAgg)
  }

  /** Folds one reply in: a recorder ahead is caught up with, a stale or repeated reply is
      ignored, any other is counted. */
  function Fold(run: RunState, from: nat, reqStep: nat, replyStep: nat, first: Proposal, priorAgg: Option<Proposal>,
        quorum: nat): (RunState, Folded)
    requires from < |run.replied|
  {
    if replyStep > run.step then
      (run, CatchUp(replyStep, first))
    else if reqStep != run.step || replyStep != run.step || run.replied[from] then
      (run, Ignored)
    else
      var counted := Count(run, from, first, priorAgg);
      (counted, if counted.replyCount == quorum then Quorum else Ignored)
  }

  /** The phase logic at a quorum of same-step replies. */
  function StepComplete(run: RunState): (RunState, StepOutcome)
    requires run.bestFirst.Some?
  {
    match run.step % 4
    case 0 =>
      if run.allFirstHigh then (run.(bestFirst := None), Decided(run.bestFirst.value.value))
      else (run.(bestFirst := None, proposal := run.bestFirst.value, step := run.step + 1), Advance)
    case 1 => (run.(step := run.step + 1), Advance)
    case 2 =>
      if run.bestAgg == Some(run.proposal) then (run, Decided(run.proposal.value))
      else (run.(step := run.step + 1), Advance)
    case _ =>
      if run.bestAgg.Some? then (run.(bestAgg := None, proposal := run.bestAgg.value, step := run.step + 1), Advance)
      else (ResetTracking(run), Retry)
  }

  /** The proposer as it is kept, updated in place. */
  class Run {
    var step: nat
    var proposal: Proposal
    var priorities: seq<Priority>
    const replied: array<bool>
    var replyCount: nat
    var bestFirst: Option<Proposal>
    var bestAgg: Option<Proposal>
    var allFirstHigh: bool
    var sentAt: nat
    var needsSend: bool

    function View(): RunState
      reads this, replied
    {
      RunState(step, proposal, priorities, replied[..], replyCount, bestFirst, bestAgg, allFirstHigh, sentAt, needsSend)
    }

    constructor (value: Bytes, me: ReplicaId, meIdx: nat, n: nat, fastPathLeader: bool, now: nat, draws: seq<Draw>)
      requires meIdx < n == |draws|
      ensures View() == Start(value, me, meIdx, n, fastPathLeader, now, draws)
      ensures fresh(replied)
    {
      step := 4;
      proposal := Proposal(PRIORITY_H, me, value);
      priorities := [];
      replied := new bool[n](_ => false);
      replyCount := 0;
      bestFirst, bestAgg := None, None;
      allFirstHigh := true;
      sentAt, needsSend := now, true;
      new;
      assert replied[..] == NoReplies(n);
      if !fastPathLeader {
        DrawPriorities(me, meIdx, draws);
      }
    }

    method DrawPriorities(me: ReplicaId, meIdx: nat, draws: seq<Draw>)
      requires meIdx < |draws|
      modifies this`priorities, this`proposal
      ensures View() == Draws(old(View()), me, meIdx, draws)
    {
      priorities := draws;
      proposal := proposal.(proposer := me);
      proposal := proposal.(priority := priorities[meIdx]);
    }

    method Reset()
      modifies this`replyCount, this`bestFirst, this`bestAgg, this`allFirstHigh, replied
      ensures View() == ResetTracking(old(View()))
    {
      for i := 0 to replied.Length
        invariant forall k :: 0 <= k < i ==> !replied[k]
      {
        replied[i] := false;
      }
      replyCount := 0;
      bestFirst, bestAgg := None, None;
      allFirstHigh := true;
      assert replied[..] == NoReplies(replied.Length);
    }

    method Begin(me: ReplicaId, meIdx: nat, leaderFirstRound: bool, now: nat, draws: seq<Draw>)
      requires meIdx < |draws|
      modifies this, replied
      ensures View() == BeginStep(old(View()), me, meIdx, leaderFirstRound, now, draws)
    {
      Reset();
      priorities := [];
      if step % 4 == 0 && !(step == 4 && leaderFirstRound) {
        DrawPriorities(me, meIdx, draws);
      }
      sentAt := now;
      needsSend := true;
    }

    method FoldIn(from: nat, reqStep: nat, replyStep: nat, first: Proposal, priorAgg: Option<Proposal>,
          quorum: nat) returns (result: Folded)
      requires from < replied.Length
      modifies this, replied
      ensures (View(), result) == Fold(old(View()), from, reqStep, replyStep, first, priorAgg, quorum)
    {
      if replyStep > step {
        return CatchUp(replyStep, first);
      }
      if reqStep != step || replyStep != step || replied[from] {
        return Ignored;
      }
      replied[from] := true;
      replyCount := replyCount + 1;
      allFirstHigh := allFirstHigh && first.priority == PRIORITY_H;
      bestFirst := RaiseTo(bestFirst, first);
      if priorAgg.Some? {
        bestAgg := RaiseTo(bestAgg, priorAgg.value);
      }
      assert replied[..] == old(replied[..])[from := true];
      return if replyCount == quorum then Quorum else Ignored;
    }

    /** The running maximum after one more proposal. */
    static method RaiseTo(best: Option<Proposal>, candidate: Proposal) returns (r: Option<Proposal>)
      ensures r == Some(Max(best, candidate))
    {
      r := best;
      if best.None? || Less(best.value, candidate) {
        r := Some(candidate);
      }
    }

    method Complete() returns (outcome: StepOutcome)
      requires bestFirst.Some?
      modifies this, replied
      ensures (View(), outcome) == StepComplete(old(View()))
    {
      if step % 4 == 0 {
        var best := bestFirst.value;
        bestFirst := None;
        if allFirstHigh {
          return Decided(best.value);
        }
        proposal := best;
      } else if step % 4 == 2 {
        if bestAgg == Some(proposal) {
          return Decided(proposal.value);
        }
      } else if step % 4 == 3 {
        if bestAgg.None? {
          Reset();
          return Retry;
        }
        proposal := bestAgg.value;
        bestAgg := None;
      }
      step := step + 1;
      return Advance;
    }
  }
}
