/** The command pool and the delivered-command bookkeeping. */
module Pooling {
  import opened Types

  // ---- sums over maps ----

  ghost function Sum<K(!new)>(m: map<K, nat>): nat
    decreases |m|
  {
    if m == map[] then 0
    else
      var k :| k in m;
      m[k] + Sum(m - {k})
  }

  /** A sum may be taken from any key first. */
  lemma {:induction false} SumSplit<K(!new)>(m: map<K, nat>, k: K)
    requires k in m
    ensures Sum(m) == m[k] + Sum(m - {k})
    decreases |m|
  {
    var j :| j in m && Sum(m) == m[j] + Sum(m - {j});
    if j != k {
      SumSplit(m - {j}, k);
      SumSplit(m - {k}, j);
      assert m - {j} - {k} == m - {k} - {j};
    }
  }

  lemma SumInsert<K(!new)>(m: map<K, nat>, k: K, v: nat)
    ensures Sum(m[k := v]) == v + Sum(m - {k})
    ensures k !in m ==> Sum(m[k := v]) == v + Sum(m)
  {
    SumSplit(m[k := v], k);
    assert m[k := v] - {k} == m - {k};
    if k !in m {
      assert m - {k} == m;
    }
  }

  // ---- the pool ----

  /** A submitted but undelivered command: its data, the slot it rides in as part of one
      of our own proposals, and when and how often it was forwarded. */
  datatype PoolEntry = PoolEntry(data: Bytes, proposedIn: Option<Slot>, lastForward: nat, forwardAttempts: nat)

  function Cost(dataLen: nat): nat {
    dataLen + COMMAND_WIRE_OVERHEAD
  }

  function NewEntry(data: Bytes, now: nat): PoolEntry {
    PoolEntry(data, None, now, 0)
  }

  ghost function Costs(entries: map<CommandId, PoolEntry>): map<CommandId, nat> {
    map id | id in entries :: Cost(|entries[id].data|)
  }

  /** The accounted cost of a set of entries. */
  ghost function TotalCost(entries: map<CommandId, PoolEntry>): nat {
    Sum(Costs(entries))
  }

  lemma TotalCostInsert(entries: map<CommandId, PoolEntry>, id: CommandId, entry: PoolEntry)
    ensures TotalCost(entries[id := entry]) == Cost(|entry.data|) + TotalCost(entries - {id})
    ensures id !in entries ==> TotalCost(entries[id := entry]) == Cost(|entry.data|) + TotalCost(entries)
    ensures id in entries ==> TotalCost(entries) == Cost(|entries[id].data|) + TotalCost(entries - {id})
  {
    SumInsert(Costs(entries), id, Cost(|entry.data|));
    assert Costs(entries[id := entry]) == Costs(entries)[id := Cost(|entry.data|)];
    assert Costs(entries - {id}) == Costs(entries) - {id};
    if id in entries {
      SumSplit(Costs(entries), id);
    }
  }

  /** Entries changed in anything but their data cost the same. */
  lemma TotalCostSame(entries: map<CommandId, PoolEntry>, others: map<CommandId, PoolEntry>)
    requires entries.Keys == others.Keys && forall id :: id in entries ==> others[id].data == entries[id].data
    ensures TotalCost(entries) == TotalCost(others)
  {
    assert Costs(entries) == Costs(others);
  }

  class Pool {
    var entries: map<CommandId, PoolEntry>
    var bytes: nat

    constructor ()
      ensures entries == map[] && Valid()
    {
      entries := map[];
      bytes := 0;
    }

    /** The byte counter is the cost of what is held. */
    ghost predicate Valid()
      reads this
    {
      bytes == TotalCost(entries)
    }

    /** Holds a command. The counter stays right exactly when the id was not held, or was
        held with as many bytes: replacing an entry does not adjust it. */
    method Insert(id: CommandId, data: Bytes, now: nat)
      requires Valid()
      modifies this
      ensures entries == old(entries)[id := PoolEntry(data, None, now, 0)]
      ensures Valid() <==> id !in old(entries) || |old(entries)[id].data| == |data|
      ensures id !in old(entries) ==> bytes == old(bytes) + Cost(|data|)
    {
      var cost := Cost(|data|);
      var entry := PoolEntry(data, None, now, 0);
      TotalCostInsert(entries, id, entry);
      if id !in entries {
        bytes := bytes + cost;
      }
      entries := entries[id := entry];
    }

    method Remove(id: CommandId)
      requires Valid()
      modifies this
      ensures Valid() && entries == old(entries) - {id}
    {
      if id in entries {
        TotalCostInsert(entries, id, entries[id]);
        bytes := bytes - Cost(|entries[id].data|);
        entries := entries - {id};
      } else {
        assert entries - {id} == entries;
      }
    }

    /** Whether some entry rides in none of our proposals. */
    method HasUnassigned() returns (r: bool)
      ensures r == AnyUnassigned(entries)
    {
      var rest := entries.Keys;
      while rest != {}
        invariant rest <= entries.Keys
        invariant forall id :: id in entries && id !in rest ==> entries[id].proposedIn.Some?
        decreases rest
      {
        var id :| id in rest;
        if entries[id].proposedIn.None? {
          return true;
        }
        rest := rest - {id};
      }
      return false;
    }
  }

  ghost predicate AnyUnassigned(entries: map<CommandId, PoolEntry>) {
    exists id :: id in entries && entries[id].proposedIn.None?
  }

  /** Where the counter goes wrong: replacing a held command by a longer one. */
  lemma ReplacingMiscounts(id: CommandId, short: Bytes, long: Bytes, now: nat)
    requires |short| != |long|
    ensures
      var held := map[id := NewEntry(short, now)];
      TotalCost(held[id := NewEntry(long, now)]) != TotalCost(held)
  {
    var held := map[id := NewEntry(short, now)];
    TotalCostInsert(held, id, NewEntry(long, now));
  }

  // ---- delivered commands ----

  /** The delivered sequence numbers of one origin: all up to the mark, and a sparse set. */
  datatype OriginDedup = OriginDedup(highWater: nat, above: set<nat>) {
    predicate Has(seqno: nat) {
      seqno <= highWater || seqno in above
    }

    /** The sparse set holds only what the mark cannot absorb. */
    predicate Tight() {
      highWater + 1 !in above && forall s :: s in above ==> s > highWater
    }
  }

  type DedupMap = map<(ReplicaId, nat), OriginDedup>

  predicate AllTight(d: DedupMap) {
    forall o :: o in d ==> d[o].Tight()
  }

  function OriginOf(d: DedupMap, id: CommandId): OriginDedup {
    if (id.origin, id.boot) in d then d[(id.origin, id.boot)] else OriginDedup(0, {})
  }

  function HighWater(d: DedupMap, origin: ReplicaId, boot: nat): nat {
    if (origin, boot) in d then d[(origin, boot)].highWater else 0
  }

  predicate IsDelivered(d: DedupMap, id: CommandId) {
    (id.origin, id.boot) in d && d[(id.origin, id.boot)].Has(id.seqno)
  }

  /** Absorbs into the mark what follows it without a gap. */
  function Drain(o: OriginDedup): OriginDedup
    decreases |o.above|
  {
    if o.highWater + 1 in o.above then Drain(OriginDedup(o.highWater + 1, o.above - {o.highWater + 1})) else o
  }

  function Marked(o: OriginDedup, seqno: nat): OriginDedup {
    if o.Has(seqno) then o else Drain(OriginDedup(o.highWater, o.above + {seqno}))
  }

  function MarkDelivered(d: DedupMap, id: CommandId): DedupMap {
    d[(id.origin, id.boot) := Marked(OriginOf(d, id), id.seqno)]
  }

  /** Draining changes the representation, not what is delivered, and never lowers the mark. */
  lemma {:induction false} DrainKeeps(o: OriginDedup)
    requires forall s :: s in o.above ==> s > o.highWater
    ensures Drain(o).Tight() && Drain(o).highWater >= o.highWater && Drain(o).above <= o.above
    ensures forall s: nat :: Drain(o).Has(s) <==> o.Has(s)
    decreases |o.above|
  {
    if o.highWater + 1 in o.above {
      DrainKeeps(OriginDedup(o.highWater + 1, o.above - {o.highWater + 1}));
    }
  }

  /** Marking adds exactly one sequence number, keeps the representation tight, and the
      mark never goes back. */
  lemma MarkedAdds(o: OriginDedup, seqno: nat)
    requires o.Tight()
    ensures Marked(o, seqno).Tight() && Marked(o, seqno).highWater >= o.highWater
    ensures forall s: nat :: Marked(o, seqno).Has(s) <==> o.Has(s) || s == seqno
    ensures Marked(o, seqno).above <= o.above + {seqno}
  {
    if !o.Has(seqno) {
      DrainKeeps(OriginDedup(o.highWater, o.above + {seqno}));
    }
  }

  /** A tight representation is determined by what it has delivered, so replicas that
      delivered the same commands hold the same state. */
  lemma TightIsCanonical(o: OriginDedup, p: OriginDedup)
    requires o.Tight() && p.Tight() && forall s: nat :: o.Has(s) <==> p.Has(s)
    ensures o == p
  {
    assert p.Has(o.highWater + 1) <==> o.Has(o.highWater + 1);
    assert o.Has(p.highWater + 1) <==> p.Has(p.highWater + 1);
    assert o.highWater == p.highWater;
    forall s: nat ensures s in o.above <==> s in p.above {
      assert o.Has(s) <==> p.Has(s);
    }
    assert o.above == p.above;
  }

  class Dedup {
    var perOrigin: DedupMap

    constructor ()
      ensures perOrigin == map[]
    {
      perOrigin := map[];
    }

    /** Records a delivery; false if it was already delivered. */
    method Mark(id: CommandId) returns (isNew: bool)
      modifies this
      ensures perOrigin == MarkDelivered(old(perOrigin), id)
      ensures isNew <==> !OriginOf(old(perOrigin), id).Has(id.seqno)
    {
      var key := (id.origin, id.boot);
      var origin := OriginOf(perOrigin, id);
      if id.seqno <= origin.highWater || id.seqno in origin.above {
        perOrigin := perOrigin[key := origin];
        return false;
      }
      var mark, above := origin.highWater, origin.above + {id.seqno};
      while mark + 1 in above
        invariant Drain(OriginDedup(mark, above)) == Drain(OriginDedup(origin.highWater, origin.above + {id.seqno}))
        decreases |above|
      {
        above := above - {mark + 1};
        mark := mark + 1;
      }
      perOrigin := perOrigin[key := OriginDedup(mark, above)];
      return true;
    }
  }
}
