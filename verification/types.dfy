/** Plain values and their order. */
module Types {
  // The plain values of the protocol and the total order on proposals.

  datatype Option<+T> = None | Some(value: T) {
    function GetOr(default: T): T {
      match this
      case Some(v) => v
      case None => default
    }
  }

  type Byte = b: int | 0 <= b < 256
  type Bytes = seq<Byte>

  /** Replica ids are nonzero; schedules hold them sorted and distinct. */
  type ReplicaId = nat

  type Slot = nat

  datatype CommandId = CommandId(origin: ReplicaId, boot: nat, seqno: nat)

  datatype Command = Command(id: CommandId, data: Bytes)

  /** The reserved fast-path priority, the largest 32-bit value. */
  const PRIORITY_H: nat := 0xFFFF_FFFF

  /** A 32-bit priority; 0 is the nil value and is never sent. */
  type Priority = p: int | 0 <= p <= PRIORITY_H

  /** What a randomized phase 0 can draw: anything but nil and the reserved priority. */
  type Draw = p: int | 1 <= p < PRIORITY_H witness 1

  datatype Proposal = Proposal(priority: Priority, proposer: ReplicaId, value: Bytes)

  const MAX_COMMAND_BYTES: nat := 0x4000_0000
  const COMMAND_WIRE_OVERHEAD: nat := 28
  const MAX_BATCH_BYTES_LIMIT: nat := 0x4000_0000

  // ---- the order on proposals ----

  /** Lexicographic comparison of byte strings, a proper prefix being smaller. */
  predicate BytesLess(a: Bytes, b: Bytes) {
    if b == [] then false
    else if a == [] then true
    else a[0] < b[0] || (a[0] == b[0] && BytesLess(a[1..], b[1..]))
  }

  /** Proposals are ordered by priority, then proposer, then value. */
  predicate Less(p: Proposal, q: Proposal) {
    || p.priority < q.priority
    || (p.priority == q.priority && p.proposer < q.proposer)
    || (p.priority == q.priority && p.proposer == q.proposer && BytesLess(p.value, q.value))
  }

  predicate AtMost(p: Proposal, q: Proposal) {
    p == q || Less(p, q)
  }

  lemma {:induction false} BytesTrichotomy(a: Bytes, b: Bytes)
    ensures a == b || BytesLess(a, b) || BytesLess(b, a)
    ensures !(BytesLess(a, b) && BytesLess(b, a))
    ensures a == b ==> !BytesLess(a, b)
  {
    if a != [] && b != [] {
      BytesTrichotomy(a[1..], b[1..]);
      if a[0] == b[0] && a[1..] == b[1..] {
        assert a == [a[0]] + a[1..] && b == [b[0]] + b[1..];
      }
    }
  }

  lemma {:induction false} BytesTransitive(a: Bytes, b: Bytes, c: Bytes)
    requires BytesLess(a, b) && BytesLess(b, c)
    ensures BytesLess(a, c)
  {
    if a != [] && a[0] == b[0] == c[0] {
      BytesTransitive(a[1..], b[1..], c[1..]);
    }
  }

  /** The order is total and antisymmetric, so maxima are unique. */
  lemma OrderTotal(p: Proposal, q: Proposal)
    ensures AtMost(p, q) || AtMost(q, p)
    ensures AtMost(p, q) && AtMost(q, p) ==> p == q
    ensures Less(p, q) <==> !AtMost(q, p)
  {
    BytesTrichotomy(p.value, q.value);
  }

  /** `a` is smaller than `b` at their first difference: it ends there, or holds less there. */
  predicate SmallerAt(a: Bytes, b: Bytes, k: nat) {
    k <= |a| && k < |b| && a[..k] == b[..k] && (k == |a| || a[k] < b[k])
  }

  lemma {:induction false} BytesOrder(a: Bytes, b: Bytes) returns (k: nat)
    ensures BytesLess(a, b) <==> SmallerAt(a, b, k)
    ensures (exists j: nat :: SmallerAt(a, b, j)) <==> SmallerAt(a, b, k)
  {
    k := 0;
    if b != [] && a != [] && a[0] == b[0] {
      var j := BytesOrder(a[1..], b[1..]);
      k := j + 1;
      Shifted(a, b, j);
      if i: nat :| SmallerAt(a, b, i) {
        assert i > 0;
        Shifted(a, b, i - 1);
      }
    }
  }

  lemma Shifted(a: Bytes, b: Bytes, k: nat)
    requires a != [] && b != [] && a[0] == b[0]
    ensures SmallerAt(a[1..], b[1..], k) <==> SmallerAt(a, b, k + 1)
  {
    if k + 1 <= |a| && k + 1 <= |b| {
      assert a[..k + 1] == [a[0]] + a[1..][..k] && b[..k + 1] == [b[0]] + b[1..][..k];
      if a[..k + 1] == b[..k + 1] {
        assert a[1..][..k] == a[..k + 1][1..] == b[..k + 1][1..] == b[1..][..k];
      }
    }
  }

  /** The order is by priority first, then by proposer, then by the value's bytes. */
  lemma OrderIs(p: Proposal, q: Proposal)
    ensures Less(p, q) <==>
      || p.priority < q.priority
      || (p.priority == q.priority && p.proposer < q.proposer)
      || (p.priority == q.priority && p.proposer == q.proposer && exists k: nat :: SmallerAt(p.value, q.value, k))
  {
    var k := BytesOrder(p.value, q.value);
  }

  lemma OrderTransitive(p: Proposal, q: Proposal, r: Proposal)
    requires AtMost(p, q) && AtMost(q, r)
    ensures AtMost(p, r)
  {
    if Less(p, q) && Less(q, r) && p.priority == q.priority == r.priority && p.proposer == q.proposer == r.proposer {
      BytesTransitive(p.value, q.value, r.value);
    }
  }

  /** The larger of an optional proposal (nil is least) and a proposal. */
  function Max(current: Option<Proposal>, candidate: Proposal): (r: Proposal)
    ensures r == candidate || current == Some(r)
    ensures AtMost(candidate, r)
    ensures current.Some? ==> AtMost(current.value, r)
  {
    match current
    case None => candidate
    case Some(existing) =>
      OrderTotal(existing, candidate);
      if Less(existing, candidate) then candidate else existing
  }
}
