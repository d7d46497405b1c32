/** The interval summary register. */
module Recorder {
  // The recorder's interval summary register (ISR), one per undecided slot.

  import opened Types

  /** The register: current step, first and largest proposal of that step, and the
      largest proposal of the step before. */
  datatype Isr = Isr(
    step: nat,
    first: Option<Proposal>,
    currentAgg: Option<Proposal>,
    priorAgg: Option<Proposal>)
  {
    predicate WellFormed() {
      if step == 0 then this == Fresh else first.Some? && currentAgg.Some?
    }
  }

  const Fresh := Isr(0, None, None, None)

  datatype Summary = Summary(step: nat, first: Proposal, priorAgg: Option<Proposal>)

  /** How a reply names the first proposal: elided when it is the request's own. */
  datatype ReplyFirst = Echo | Full(proposal: Proposal)

  predicate AggLess(current: Option<Proposal>, candidate: Proposal) {
    match current
    case None => true
    case Some(existing) => Less(existing, candidate)
  }

  /** The register after one invocation. */
  function Record(isr: Isr, step: nat, proposal: Proposal): Isr {
    if step == isr.step then
      if AggLess(isr.currentAgg, proposal) then isr.(currentAgg := Some(proposal)) else isr
    else if step > isr.step then
      Isr(step, Some(proposal), Some(proposal), if step == isr.step + 1 then isr.currentAgg else None)
    else
      isr
  }

  lemma RecordKeepsWellFormed(isr: Isr, step: nat, proposal: Proposal)
    requires isr.WellFormed() && step > 0
    ensures Record(isr, step, proposal).WellFormed()
    ensures Record(isr, step, proposal).step == if step > isr.step then step else isr.step
  {
  }

  function Summarize(isr: Isr): Summary
    requires isr.first.Some?
  {
    Summary(isr.step, isr.first.value, isr.priorAgg)
  }

  function ReplyWith(summaryFirst: Proposal, request: Proposal): ReplyFirst {
    if summaryFirst == request then Echo else Full(summaryFirst)
  }

  /** The register as the recorder keeps it, updated in place. */
  class IsrSlot {
    var step: nat
    var first: Option<Proposal>
    var currentAgg: Option<Proposal>
    var priorAgg: Option<Proposal>

    constructor ()
      ensures Value() == Fresh
    {
      step, first, currentAgg, priorAgg := 0, None, None, None;
    }

    function Value(): Isr
      reads this
    {
      Isr(step, first, currentAgg, priorAgg)
    }

    /** Handles one invocation; the flag says whether the register changed. */
    method RecordInPlace(s: nat, proposal: Proposal) returns (summary: Summary, changed: bool)
      requires Value().WellFormed() && s > 0
      modifies this
      ensures Value() == Record(old(Value()), s, proposal) && Value().WellFormed()
      ensures summary == Summarize(Value())
      ensures changed <==> Value() != old(Value())
    {
      RecordKeepsWellFormed(Value(), s, proposal);
      changed := false;
      if s == step {
        if AggLess(currentAgg, proposal) {
          if currentAgg.Some? {
            OrderTotal(currentAgg.value, proposal);
          }
          currentAgg := Some(proposal);
          changed := true;
        }
      } else if s > step {
        priorAgg := if s == step + 1 then currentAgg else None;
        step := s;
        first := Some(proposal);
        currentAgg := Some(proposal);
        changed := true;
      }
      summary := Summary(step, first.value, priorAgg);
    }
  }

  // ---- the register as a summary of its whole history ----

  datatype Call = Call(step: nat, proposal: Proposal)

  /** The register after a whole sequence of invocations. */
  function Replay(calls: seq<Call>): Isr {
    if calls == [] then Fresh
    else
      var last := calls[|calls| - 1];
      Record(Replay(calls[..|calls| - 1]), last.step, last.proposal)
  }

  /** An invocation is accepted when no earlier one was at a later step. */
  predicate Accepted(calls: seq<Call>, k: nat)
    requires k < |calls|
  {
    forall i :: 0 <= i < k ==> calls[i].step <= calls[k].step
  }

  /** `best` is the largest proposal accepted at `step`, nil when there was none. */
  ghost predicate IsLargestAccepted(calls: seq<Call>, step: nat, best: Option<Proposal>) {
    match best
    case None => forall k: nat :: k < |calls| && Accepted(calls, k) ==> calls[k].step != step
    case Some(p) =>
      && (exists k: nat :: k < |calls| && Accepted(calls, k) && calls[k] == Call(step, p))
      && forall k: nat :: k < |calls| && Accepted(calls, k) && calls[k].step == step ==> AtMost(calls[k].proposal, p)
  }

  /** `first` is the earliest proposal accepted at `step`. */
  ghost predicate IsFirstAccepted(calls: seq<Call>, step: nat, first: Proposal) {
    exists k: nat :: k < |calls| && Accepted(calls, k) && calls[k] == Call(step, first)
      && forall i: nat :: i < k ==> calls[i].step < step
  }

  /** `step` is the largest step of any invocation, 0 when there was none. */
  ghost predicate IsLatestStep(calls: seq<Call>, step: nat) {
    && (forall k: nat :: k < |calls| ==> calls[k].step <= step)
    && (calls != [] ==> exists k: nat :: k < |calls| && calls[k].step == step)
  }

  ghost predicate Summarizes(isr: Isr, calls: seq<Call>) {
    && isr.WellFormed()
    && IsLatestStep(calls, isr.step)
    && (isr.first.Some? ==> IsFirstAccepted(calls, isr.step, isr.first.value))
    && (isr.step > 0 ==> IsLargestAccepted(calls, isr.step, isr.currentAgg))
    && (isr.step > 0 ==> IsLargestAccepted(calls, isr.step - 1, isr.priorAgg))
  }

  lemma AcceptedInPrefix(calls: seq<Call>, k: nat)
    requires k + 1 < |calls|
    ensures Accepted(calls, k) <==> Accepted(calls[..|calls| - 1], k)
  {
  }

  /** The calls before the last are accepted as they were without it. */
  lemma AcceptedBefore(calls: seq<Call>)
    requires calls != []
    ensures
      var n := |calls| - 1;
      forall k: nat :: k < n ==> (Accepted(calls, k) <==> Accepted(calls[..n], k)) && calls[k] == calls[..n][k]
  {
    var n := |calls| - 1;
    forall k: nat | k < n ensures Accepted(calls, k) <==> Accepted(calls[..n], k) {
      AcceptedInPrefix(calls, k);
    }
  }

  /** A call accepted at a step raises the largest there, or leaves it if it is larger. */
  lemma LargestRaised(calls: seq<Call>, step: nat, best: Option<Proposal>)
    requires calls != [] && IsLargestAccepted(calls[..|calls| - 1], step, best)
    requires calls[|calls| - 1].step == step && Accepted(calls, |calls| - 1)
    ensures IsLargestAccepted(calls, step, Some(Max(best, calls[|calls| - 1].proposal)))
  {
    hide Accepted, AtMost;
    var n := |calls| - 1;
    var top := Max(best, calls[n].proposal);
    AcceptedBefore(calls);
    if top == calls[n].proposal {
      assert calls[n] == Call(step, top);
    } else {
      var k: nat :| k < n && Accepted(calls[..n], k) && calls[..n][k] == Call(step, best.value);
      assert Accepted(calls, k) && calls[k] == Call(step, top);
    }
    forall k: nat | k < |calls| && Accepted(calls, k) && calls[k].step == step
      ensures AtMost(calls[k].proposal, top)
    {
      if k < n {
        assert calls[..n][k].step == step && Accepted(calls[..n], k);
        OrderTransitive(calls[k].proposal, best.value, top);
      }
    }
  }

  /** Any other call leaves the largest of a step alone. */
  lemma LargestKept(calls: seq<Call>, step: nat, best: Option<Proposal>)
    requires calls != [] && IsLargestAccepted(calls[..|calls| - 1], step, best)
    requires !(calls[|calls| - 1].step == step && Accepted(calls, |calls| - 1))
    ensures IsLargestAccepted(calls, step, best)
  {
    hide Accepted, AtMost;
    var n := |calls| - 1;
    AcceptedBefore(calls);
    if best.Some? {
      var k: nat :| k < n && Accepted(calls[..n], k) && calls[..n][k] == Call(step, best.value);
      assert Accepted(calls, k) && calls[k] == Call(step, best.value);
    }
    forall k: nat | k < |calls| && Accepted(calls, k) && calls[k].step == step
      ensures best.Some? && AtMost(calls[k].proposal, best.value)
    {
      assert k < n && calls[..n][k].step == step && Accepted(calls[..n], k);
    }
  }

  lemma LargestExtends(calls: seq<Call>, step: nat, best: Option<Proposal>)
    requires calls != []
    requires IsLargestAccepted(calls[..|calls| - 1], step, best)
    ensures
      var n := |calls| - 1;
      IsLargestAccepted(calls, step,
        if calls[n].step == step && Accepted(calls, n) then Some(Max(best, calls[n].proposal)) else best)
  {
    hide IsLargestAccepted, Accepted;
    var n := |calls| - 1;
    if calls[n].step == step && Accepted(calls, n) {
      LargestRaised(calls, step, best);
    } else {
      LargestKept(calls, step, best);
    }
  }

  /** The latest step after one more invocation; at a later one nothing was accepted yet. */
  lemma LatestExtends(calls: seq<Call>, before: seq<Call>, step: nat)
    requires calls != [] && before == calls[..|calls| - 1] && IsLatestStep(before, step)
    requires |calls| == 1 ==> step == 0
    requires forall k: nat :: k < |calls| ==> calls[k].step > 0
    ensures IsLatestStep(calls, if calls[|calls| - 1].step > step then calls[|calls| - 1].step else step)
    ensures Accepted(calls, |calls| - 1) <==> calls[|calls| - 1].step >= step
    ensures forall s: nat :: s > step || s == 0 ==> IsLargestAccepted(before, s, None)
    ensures calls[|calls| - 1].step > step ==>
      IsFirstAccepted(calls, calls[|calls| - 1].step, calls[|calls| - 1].proposal)
  {
    var n := |calls| - 1;
    assert forall k: nat :: k < n ==> calls[k] == before[k];
    if n > 0 {
      var k: nat :| k < n && before[k].step == step;
      assert calls[k].step == step;
    }
    if calls[n].step > step {
      assert calls[n] == Call(calls[n].step, calls[n].proposal);
    }
  }

  /** One invocation keeps the register the summary of the whole history. */
  lemma RecordSummarizes(calls: seq<Call>, isr: Isr)
    requires calls != [] && Summarizes(isr, calls[..|calls| - 1])
    requires |calls| == 1 ==> isr.step == 0
    requires forall k: nat :: k < |calls| ==> calls[k].step > 0
    ensures Summarizes(Record(isr, calls[|calls| - 1].step, calls[|calls| - 1].proposal), calls)
  {
    var s, p := calls[|calls| - 1].step, calls[|calls| - 1].proposal;
    RecordKeepsWellFormed(isr, s, p);
    LatestExtends(calls, calls[..|calls| - 1], isr.step);
    if s > isr.step {
      LargestExtends(calls, s, None);
      LargestExtends(calls, s - 1, if s == isr.step + 1 then isr.currentAgg else None);
    } else {
      LargestExtends(calls, isr.step, isr.currentAgg);
      LargestExtends(calls, isr.step - 1, isr.priorAgg);
      FirstExtends(calls, isr.step, isr.first.value);
      OrderTotal(isr.currentAgg.value, p);
    }
  }

  /** After any sequence of invocations the register's step is the largest seen, its
      first and current aggregate are the first and largest proposals accepted there, and
      its prior aggregate is the largest accepted one step before, nil when there was none. */
  lemma {:induction false} ReplaySummarizes(calls: seq<Call>)
    requires forall k: nat :: k < |calls| ==> calls[k].step > 0
    ensures Summarizes(Replay(calls), calls)
  {
    if calls != [] {
      var n := |calls| - 1;
      var before := calls[..n];
      ReplaySummarizes(before);
      RecordSummarizes(calls, Replay(before));
    }
  }

  lemma FirstExtends(calls: seq<Call>, step: nat, first: Proposal)
    requires calls != [] && IsFirstAccepted(calls[..|calls| - 1], step, first)
    ensures IsFirstAccepted(calls, step, first)
  {
    var before := calls[..|calls| - 1];
    var k: nat :| k < |before| && Accepted(before, k) && before[k] == Call(step, first)
      && forall i: nat :: i < k ==> before[i].step < step;
    AcceptedInPrefix(calls, k);
    assert forall i: nat :: i < k ==> calls[i] == before[i];
    assert calls[k] == Call(step, first);
  }

  /** Retransmissions are idempotent: repeating any past invocation, current or stale,
      leaves the register as it is. */
  lemma RepeatIsIgnored(calls: seq<Call>, k: nat)
    requires forall i: nat :: i < |calls| ==> calls[i].step > 0
    requires k < |calls|
    ensures Record(Replay(calls), calls[k].step, calls[k].proposal) == Replay(calls)
  {
    ReplaySummarizes(calls);
    var isr := Replay(calls);
    if calls[k].step == isr.step {
      assert Accepted(calls, k);
      OrderTotal(isr.currentAgg.value, calls[k].proposal);
    }
  }
}
