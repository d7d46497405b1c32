/** Each slot as a protocol run. */
module Projection {
  // Each slot of a group of replicas, seen as one run of the consensus protocol.

  import opened Types
  import opened Proposer
  import opened SlotLogic
  import opened ReplicaState
  import opened ReplicaInvariant
  import opened Emissions
  import C = Consensus
  import CI = ConsensusInvariant
  import CS = ConsensusSteps
  import Batch

  /** The states of all replicas, in schedule order. */
  type World = seq<State>

  function SlotOf(a: Action): Slot
    requires IsSlotSend(a)
  {
    a.message.payload.slot
  }

  predicate IsFor(a: Action, slot: Slot) {
    IsSlotSend(a) && SlotOf(a) == slot
  }

  /** A consensus message as the protocol sees it. */
  function AsMsg(i: nat, a: Action): C.Msg
    requires IsSlotSend(a)
  {
    match a.message.payload
    case Record(_, step, proposal) => C.Record(i, a.to, step, proposal)
    case RecordReply(_, reqStep, step, first, priorAgg) => C.Reply(i, a.to, reqStep, step, first, priorAgg)
  }

  /** Everything sent for a slot so far. */
  ghost function Net(w: World, slot: Slot): set<C.Msg> {
    set i: nat, k: nat | i < |w| && k < |w[i].actions| && IsFor(w[i].actions[k], slot) :: AsMsg(i, w[i].actions[k])
  }

  ghost function Project(ids: seq<ReplicaId>, w: World, slot: Slot): C.Cluster
    requires |w| == |ids|
  {
    C.Cluster(ids, seq(|ids|, i requires 0 <= i < |ids| => NodeOf(w[i], slot)), Net(w, slot))
  }

  lemma NetBy(w: World, slot: Slot, msg: C.Msg) returns (i: nat, k: nat)
    requires msg in Net(w, slot)
    ensures i < |w| && k < |w[i].actions| && IsFor(w[i].actions[k], slot) && msg == AsMsg(i, w[i].actions[k])
  {
    i, k :| i < |w| && k < |w[i].actions| && IsFor(w[i].actions[k], slot) && msg == AsMsg(i, w[i].actions[k]);
  }

  lemma InNet(w: World, slot: Slot, i: nat, k: nat)
    requires i < |w| && k < |w[i].actions| && IsFor(w[i].actions[k], slot)
    ensures AsMsg(i, w[i].actions[k]) in Net(w, slot)
  {
  }

  /** What holds with more messages about holds with fewer. */
  lemma FewerMessages(c: C.Cluster, d: C.Cluster)
    requires CI.Inv(d) && c.ids == d.ids && c.nodes == d.nodes && c.net <= d.net
    ensures CI.Inv(c)
  {
    hide CI.NodeOk, CI.MsgOk, CI.HistGrows;
    forall j: nat | j < d.N() ensures CI.HistGrows(d.nodes[j].hist, c.nodes[j].hist) {
      CI.HistGrowsReflexive(d.nodes[j].hist);
    }
    assert CI.Grows(d, c);
    forall i: nat | i < c.N() ensures CI.NodeOk(c, i) {
      CI.NodeStays(d, c, i);
    }
    forall m | m in c.net ensures CI.MsgOk(c, m) {
      CI.MsgStays(d, c, m);
    }
  }

  /** What a replica's new actions add to a slot's network. */
  ghost predicate NewIn(i: nat, st: State, next: State, slot: Slot, net: set<C.Msg>) {
    && Extends(st, next)
    && forall k :: |st.actions| <= k < |next.actions| && IsFor(next.actions[k], slot) ==>
      AsMsg(i, next.actions[k]) in net
  }

  lemma NetGrows(w: World, i: nat, next: State, slot: Slot, net: set<C.Msg>)
    requires i < |w| && Net(w, slot) <= net && NewIn(i, w[i], next, slot, net)
    ensures Net(w[i := next], slot) <= net
  {
    hide IsSlotSend;
    forall msg | msg in Net(w[i := next], slot) ensures msg in net {
      var j, k := NetBy(w[i := next], slot, msg);
      if j != i || k < |w[i].actions| {
        assert w[i := next][j].actions[k] == w[j].actions[k];
        InNet(w, slot, j, k);
      }
    }
  }

  /** One step of a replica that is one event of the protocol. */
  lemma Simulates(ids: seq<ReplicaId>, w: World, i: nat, next: State, slot: Slot, e: C.Event)
    requires |w| == |ids| && i < |w| && CI.Inv(Project(ids, w, slot)) && C.Enabled(Project(ids, w, slot), e)
    requires
      var c := Project(ids, w, slot);
      var d := C.Apply(c, e);
      && d.ids == ids && d.nodes == c.nodes[i := NodeOf(next, slot)] && c.net <= d.net
        && NewIn(i, w[i], next, slot, d.net)
    ensures CI.Inv(Project(ids, w[i := next], slot))
    ensures CI.Grows(Project(ids, w, slot), C.Apply(Project(ids, w, slot), e))
  {
    hide CI.Inv, C.Enabled, C.Apply, NodeOf, Net, NewIn, CI.Grows;
    var c := Project(ids, w, slot);
    var d := C.Apply(c, e);
    CS.EventKeeps(c, e);
    NetGrows(w, i, next, slot, d.net);
    var after := Project(ids, w[i := next], slot);
    assert after.nodes == d.nodes;
    FewerMessages(after, d);
  }

  /** One step of a replica that the slot does not notice. */
  lemma Stutters(ids: seq<ReplicaId>, w: World, i: nat, next: State, slot: Slot)
    requires |w| == |ids| && i < |w| && CI.Inv(Project(ids, w, slot))
    requires NodeOf(next, slot) == NodeOf(w[i], slot) && NewIn(i, w[i], next, slot, Net(w, slot))
    ensures CI.Inv(Project(ids, w[i := next], slot))
  {
    hide CI.Inv, NodeOf, Net, NewIn;
    NetGrows(w, i, next, slot, Net(w, slot));
    var c := Project(ids, w, slot);
    var after := Project(ids, w[i := next], slot);
    assert after.nodes == c.nodes;
    FewerMessages(after, c);
  }

  lemma NoneNew(i: nat, st: State, next: State, slot: Slot, net: set<C.Msg>)
    requires NoSlotSends(st, next)
    ensures NewIn(i, st, next, slot, net)
  {
  }

  // ---- the node a step leaves ----

  lemma NodeSame(st: State, next: State, s: Slot)
    requires next.slots == st.slots && next.hist == st.hist && next.log == st.log
    ensures NodeOf(next, s) == NodeOf(st, s)
  {
  }

  lemma NodeElsewhere(st: State, next: State, slot: Slot, s: Slot)
    requires OnlySlot(st, next, slot) && s != slot
    ensures NodeOf(next, s) == NodeOf(st, s)
  {
  }

  lemma NodeInstalled(cfg: Config, st: State, slot: Slot, value: Bytes, mine: bool, now: nat, s: Slot)
    requires cfg.me < |cfg.ids|
    ensures NodeOf(Install(cfg, st, slot, value, mine, now), s) == if s == slot then C.Settle(NodeOf(st, slot), value)
      else NodeOf(st, s)
  {
    hide ToOthers, Commands, Release;
  }

  lemma NodeKept(st: State, slot: Slot, run: RunState)
    requires slot in st.slots
    ensures NodeOf(Kept(st, slot, run), slot) == C.React(NodeOf(st, slot), run, Quiet)
  {
  }

  lemma NodeMoved(cfg: Config, st: State, slot: Slot, run: RunState)
    requires slot in st.slots
    ensures NodeOf(Moved(cfg, st, slot, run), slot) == C.React(NodeOf(st, slot), run, Resend)
  {
    var put := PutSlot(st, slot, st.slots[slot], C.React(NodeOf(st, slot), run, Resend));
    NodeSame(put, Moved(cfg, st, slot, run), slot);
  }

  lemma NodeSettled(cfg: Config, st: State, slot: Slot, run: RunState, reaction: Reaction, now: nat, s: Slot)
    requires cfg.me < |cfg.ids| && slot in st.slots
    ensures NodeOf(Settled(cfg, st, slot, run, reaction, now), s) == if s == slot
      then C.React(NodeOf(st, slot), run, reaction) else NodeOf(st, s)
  {
    hide NodeOf, Install, Kept, Moved, OnlySlot;
    match reaction
    case Choose(value) => NodeInstalled(cfg, st, slot, value, true, now, s);
    case Quiet =>
      NodeKept(st, slot, run);
      if s != slot {
        NodeElsewhere(st, Kept(st, slot, run), slot, s);
      }
    case Resend =>
      NodeMoved(cfg, st, slot, run);
      if s != slot {
        NodeElsewhere(st, Moved(cfg, st, slot, run), slot, s);
      }
  }

  lemma NodeEmitted(st: State, more: seq<Action>, s: Slot)
    ensures NodeOf(Emit(st, more), s) == NodeOf(st, s)
  {
    hide Emit;
    NodeSame(st, Emit(st, more), s);
  }

  lemma NodeOwnRecord(cfg: Config, st: State, slot: Slot, now: nat, s: Slot)
    requires CanDrive(cfg, st, slot)
    ensures
      var run := C.SetSend(st.slots[slot].proposer.run, false, now);
      NodeOf(OwnRecord(cfg, st, slot, now), s) ==
        if s == slot
          then C.Accept(NodeOf(st, slot).(proposer := Running(run)), run.step, C.TemplateOf(run).For(cfg.me))
          else NodeOf(st, s)
  {
    hide C.Accept, NodeOf;
    if s != slot {
      NodeElsewhere(st, OwnRecord(cfg, st, slot, now), slot, s);
    }
  }

  lemma NodeRecorded(st: State, slot: Slot, step: nat, proposal: Proposal, now: nat, s: Slot)
    requires NodeOf(st, slot).recorder.Open? && NodeOf(st, slot).recorder.isr.WellFormed() && step >= 4
    ensures NodeOf(Recorded(st, slot, step, proposal, now), s) == if s == slot
      then C.Accept(NodeOf(st, slot), step, proposal) else NodeOf(st, s)
  {
    hide C.Accept, NodeOf;
    if s != slot {
      NodeElsewhere(st, Recorded(st, slot, step, proposal, now), slot, s);
    }
  }

  lemma NodeOpened(cfg: Config, rng: Rng, st: State, slot: Slot, cmds: seq<Command>, asLeader: bool, now: nat, s: Slot)
    requires cfg.me < |cfg.ids|
    ensures
      var run := Proposer.Start(Batch.BatchBytes(cmds), cfg.ids[cfg.me], cfg.me, cfg.N(), cfg.IsLeader(), now,
        DrawsAt(rng, st.drawn, cfg.N()));
      NodeOf(OpenSlot(cfg, rng, st, slot, cmds, asLeader, now), s) == if s == slot
        then C.React(NodeOf(st, slot), run, Resend) else NodeOf(st, s)
  {
    hide Assign, NodeOf, Proposer.Start, DrawsAt, C.React;
    var run := Proposer.Start(Batch.BatchBytes(cmds), cfg.ids[cfg.me], cfg.me, cfg.N(), cfg.IsLeader(), now,
      DrawsAt(rng, st.drawn, cfg.N()));
    var started := PutSlot(st, slot, SlotOr(st, slot, now), C.React(NodeOf(st, slot), run, Resend));
    NodeSame(started, OpenSlot(cfg, rng, st, slot, cmds, asLeader, now), s);
    if s != slot {
      NodeElsewhere(st, started, slot, s);
    }
  }

  lemma NodeRetransmitted(st: State, slot: Slot, s: Slot)
    requires slot in st.slots && st.slots[slot].proposer.Running?
    ensures
      var run := st.slots[slot].proposer.run;
      NodeOf(Retransmitted(st, slot), s) ==
        if s == slot then NodeOf(st, slot).(proposer := Running(C.SetSend(run, true, run.sentAt))) else NodeOf(st, s)
  {
    hide NodeOf;
    if s != slot {
      NodeElsewhere(st, Retransmitted(st, slot), slot, s);
    }
  }

  lemma NodeObserved(cfg: Config, st: State, now: nat, s: Slot)
    requires StorageOk(cfg, st) && LogOk(st) && st.contig + 1 !in st.slots
    ensures NodeOf(Observed(st, now), s) == NodeOf(st, s)
  {
    if s != st.contig + 1 {
      NodeElsewhere(st, Observed(st, now), st.contig + 1, s);
    } else {
      assert s !in st.retained;
    }
  }

  lemma NodeFreed(cfg: Config, st: State, s: Slot)
    requires StorageOk(cfg, st) && LogOk(st) && st.gcFloor + 1 <= st.contig
    ensures NodeOf(FreeNext(st), s) == NodeOf(st, s)
  {
    if s == st.gcFloor + 1 {
      assert s in st.retained;
      SlotFacts(cfg, st, s);
    }
  }

  lemma NodeDelivered(st: State, s: Slot)
    requires st.contig + 1 in st.retained
    ensures NodeOf(DeliverNext(st), s) == NodeOf(st, s)
  {
    hide Filter, Commands, Without;
  }

  /** A logged decision is the node's decision. */
  lemma NodeLogged(cfg: Config, st: State, s: Slot)
    requires StorageOk(cfg, st) && LogOk(st)
    ensures s in st.log ==> NodeOf(st, s).recorder == RecorderSlot.Decided(st.log[s])
    ensures s !in st.log ==> NodeOf(st, s).recorder.Open?
  {
    if s in st.slots {
      SlotFacts(cfg, st, s);
    }
  }
}
