/** Replica steps as protocol events. */
module Simulation {
  // Every step of a replica is, for each slot, one event of the consensus protocol or none.

  import opened Types
  import opened Recorder
  import opened SlotLogic
  import opened ReplicaState
  import opened ReplicaInvariant
  import opened ReplicaMoves
  import opened ReplicaRest
  import opened Emissions
  import opened Projection
  import C = Consensus
  import CI = ConsensusInvariant
  import Batch

  /** Replica `i` of a group with these ids, and the protocol's invariant for slot `s`. */
  ghost predicate At(ids: seq<ReplicaId>, cfg: Config, w: World, i: nat, s: Slot) {
    && |w| == |ids| && i < |w| && cfg.ids == ids && cfg.me == i && CI.Inv(Project(ids, w, s))
  }

  lemma NodeIs(ids: seq<ReplicaId>, w: World, i: nat, s: Slot)
    requires |w| == |ids| && i < |w|
    ensures
      var c := Project(ids, w, s);
      |c.nodes| == c.N() && c.N() == |ids| && c.ids == ids && c.nodes[i] == NodeOf(w[i], s) && c.net == Net(w, s)
  {
    hide NodeOf, Net;
  }

  // ---- recording ----

  lemma RecordProjects(ids: seq<ReplicaId>, cfg: Config, w: World, i: nat, from: nat, slot: Slot, step: nat,
        p: Proposal, now: nat, s: Slot)
    requires At(ids, cfg, w, i, s) && StorageOk(cfg, w[i]) && LogOk(w[i]) && CanRecord(cfg, w[i], from, slot, step)
    requires C.Record(from, i, step, p) in Net(w, slot)
    ensures CI.Inv(Project(ids, w[i := RecordAt(cfg, w[i], from, slot, step, p, now)], s))
  {
    hide CI.Inv, RecordAt, Recorded, Emit, NodeOf, Net, NewIn, StorageOk, LogOk, NoSlotSends, C.Apply, C.Enabled,
      Project;
    var st := w[i];
    var next := RecordAt(cfg, st, from, slot, step, p, now);
    RecordAtIs(cfg, st, from, slot, step, p, now);
    RecordEmits(cfg, st, from, slot, step, p, now);
    if slot in st.slots && st.slots[slot].recorder.Decided? {
      NodeSame(st, next, s);
      NoneNew(i, st, next, s, Net(w, s));
      Stutters(ids, w, i, next, s);
    } else {
      NodeRecorded(st, slot, step, p, now, s);
      NodeSame(Recorded(st, slot, step, p, now), next, s);
      if s != slot {
        OtherReply(cfg, st, i, from, slot, step, p, now, s, Net(w, s));
        Stutters(ids, w, i, next, s);
      } else {
        AnswerIs(ids, cfg, w, i, from, slot, step, p, now);
        Simulates(ids, w, i, next, slot, C.OnRecord(C.Record(from, i, step, p)));
      }
    }
  }

  lemma OtherReply(cfg: Config, st: State, i: nat, from: nat, slot: Slot, step: nat, p: Proposal, now: nat, s: Slot,
        net: set<C.Msg>)
    requires CanRecord(cfg, st, from, slot, step) && s != slot
    requires !(slot in st.slots && st.slots[slot].recorder.Decided?)
    ensures NewIn(i, st, RecordAt(cfg, st, from, slot, step, p, now), s, net)
  {
    hide RecordAt, Recorded, NodeOf, Emit;
    RecordAtIs(cfg, st, from, slot, step, p, now);
  }

  lemma AnswerIs(ids: seq<ReplicaId>, cfg: Config, w: World, i: nat, from: nat, slot: Slot, step: nat, p: Proposal,
        now: nat)
    requires |w| == |ids| && i < |w| && cfg.ids == ids && cfg.me == i && CanRecord(cfg, w[i], from, slot, step)
    requires !(slot in w[i].slots && w[i].slots[slot].recorder.Decided?) && C.Record(from, i, step, p) in Net(w, slot)
    ensures
      var c := Project(ids, w, slot);
      var e := C.OnRecord(C.Record(from, i, step, p));
      var next := RecordAt(cfg, w[i], from, slot, step, p, now);
      && C.Enabled(c, e)
      && var d := C.Apply(c, e);
      && d.ids == ids && d.nodes == c.nodes[i := NodeOf(next, slot)] && c.net <= d.net
        && NewIn(i, w[i], next, slot, d.net)
  {
    hide RecordAt, Recorded, NodeOf, Emit, Net, C.HistRecord, Recorder.Record;
    NodeIs(ids, w, i, slot);
    RecordAtIs(cfg, w[i], from, slot, step, p, now);
    NodeRecorded(w[i], slot, step, p, now, slot);
    NodeSame(Recorded(w[i], slot, step, p, now), RecordAt(cfg, w[i], from, slot, step, p, now), slot);
    RecordedNode(w[i], slot, step, p, now);
  }

  lemma RecordedNode(st: State, slot: Slot, step: nat, p: Proposal, now: nat)
    requires NodeOf(st, slot).recorder.Open? && NodeOf(st, slot).recorder.isr.WellFormed() && step >= 4
    ensures Recorded(st, slot, step, p, now).slots[slot].recorder == C.Accept(NodeOf(st, slot), step, p).recorder
  {
    hide C.HistRecord, Recorder.Record;
  }

  // ---- replies ----

  lemma ReplyProjects(ids: seq<ReplicaId>, cfg: Config, rng: Rng, w: World, i: nat, from: nat, slot: Slot,
        reqStep: nat, step: nat, first: ReplyFirst, priorAgg: Option<Proposal>, now: nat, s: Slot)
    requires At(ids, cfg, w, i, s) && CanFold(cfg, w[i], slot) && from < cfg.N()
    requires C.Reply(from, i, reqStep, step, first, priorAgg) in Net(w, slot)
    ensures CI.Inv(Project(ids, w[i := ReplyAt(cfg, rng, w[i], slot, from, reqStep, step, first, priorAgg, now)], s))
  {
    hide CI.Inv, ReplyAt, NodeOf, Net, NewIn, NoSlotSends, C.Apply, C.Enabled, Project, CanFold;
    var st := w[i];
    var next := ReplyAt(cfg, rng, st, slot, from, reqStep, step, first, priorAgg, now);
    ReplyEmits(cfg, rng, st, slot, from, reqStep, step, first, priorAgg, now);
    NodeReplied(cfg, rng, st, slot, from, reqStep, step, first, priorAgg, now, s);
    if s != slot {
      NoneNew(i, st, next, s, Net(w, s));
      Stutters(ids, w, i, next, s);
    } else {
      NodeIs(ids, w, i, slot);
      FoldIs(ids, cfg, rng, w, i, from, slot, reqStep, step, first, priorAgg, now);
      var e := C.OnReply(C.Reply(from, i, reqStep, step, first, priorAgg), now, DrawsAt(rng, st.drawn, cfg.N()));
      NoneNew(i, st, next, slot, C.Apply(Project(ids, w, slot), e).net);
      Simulates(ids, w, i, next, slot, e);
    }
  }

  /** The node after a reply, in the protocol's terms. */
  function Replied(cfg: Config, rng: Rng, st: State, slot: Slot, from: nat, reqStep: nat, step: nat,
        first: ReplyFirst, priorAgg: Option<Proposal>, now: nat): C.Node
    requires CanFold(cfg, st, slot) && from < cfg.N()
  {
    match Reconstitute(st.slots[slot].proposer.run, from, reqStep, first)
    case None => NodeOf(st, slot)
    case Some(p) =>
      var (run, reaction) := FoldReply(st.slots[slot].proposer.run, cfg.MySeat(), now, DrawsAt(rng, st.drawn, cfg.N()),
          from, reqStep, step, p, priorAgg);
      C.React(NodeOf(st, slot), run, reaction)
  }

  lemma NodeReplied(cfg: Config, rng: Rng, st: State, slot: Slot, from: nat, reqStep: nat, step: nat,
        first: ReplyFirst, priorAgg: Option<Proposal>, now: nat, s: Slot)
    requires CanFold(cfg, st, slot) && from < cfg.N()
    ensures
      NodeOf(ReplyAt(cfg, rng, st, slot, from, reqStep, step, first, priorAgg, now), s) ==
        if s == slot then Replied(cfg, rng, st, slot, from, reqStep, step, first, priorAgg, now) else NodeOf(st, s)
  {
    hide NodeOf, FoldReply, Settled, C.React;
    match Reconstitute(st.slots[slot].proposer.run, from, reqStep, first)
    case None =>
    case Some(p) =>
      var (run, reaction) := FoldReply(st.slots[slot].proposer.run, cfg.MySeat(), now, DrawsAt(rng, st.drawn, cfg.N()),
          from, reqStep, step, p, priorAgg);
      NodeSettled(cfg, st, slot, run, reaction, now, s);
  }

  lemma FoldIs(ids: seq<ReplicaId>, cfg: Config, rng: Rng, w: World, i: nat, from: nat, slot: Slot, reqStep: nat,
        step: nat, first: ReplyFirst, priorAgg: Option<Proposal>, now: nat)
    requires |w| == |ids| && i < |w| && cfg.ids == ids && cfg.me == i && CanFold(cfg, w[i], slot) && from < cfg.N()
    requires C.Reply(from, i, reqStep, step, first, priorAgg) in Net(w, slot)
    ensures
      var c := Project(ids, w, slot);
      var e := C.OnReply(C.Reply(from, i, reqStep, step, first, priorAgg), now, DrawsAt(rng, w[i].drawn, cfg.N()));
      && C.Enabled(c, e)
      && var d := C.Apply(c, e);
      d.ids == ids && d.nodes == c.nodes[i := Replied(cfg, rng, w[i], slot, from, reqStep, step, first, priorAgg, now)]
        && c.net <= d.net
  {
    hide FoldReply, C.React, Net, DrawsAt;
    NodeIs(ids, w, i, slot);
  }

  // ---- driving ----

  lemma DriveProjects(ids: seq<ReplicaId>, cfg: Config, rng: Rng, w: World, i: nat, slot: Slot, now: nat, s: Slot)
    requires At(ids, cfg, w, i, s) && CanDrive(cfg, w[i], slot)
    ensures CI.Inv(Project(ids, w[i := DriveAt(cfg, rng, w[i], slot, now)], s))
  {
    hide CI.Inv, DriveAt, NodeOf, Net, NewIn, C.Apply, C.Enabled, Project, CanDrive, DriveEmitted, Emitted;
    var st := w[i];
    var next := DriveAt(cfg, rng, st, slot, now);
    DriveEmits(cfg, rng, st, slot, now);
    NodeDriven(cfg, rng, st, slot, now, s);
    if s != slot {
      OtherDrive(cfg, st, next, i, slot, s, Net(w, s));
      Stutters(ids, w, i, next, s);
    } else {
      DriveIs(ids, cfg, rng, w, i, slot, now);
      Simulates(ids, w, i, next, slot, C.Drive(i, now, DrawsAt(rng, st.drawn, cfg.N())));
    }
  }

  lemma OtherDrive(cfg: Config, st: State, next: State, i: nat, slot: Slot, s: Slot, net: set<C.Msg>)
    requires DriveEmitted(cfg, st, next, slot) && s != slot
    ensures NewIn(i, st, next, s, net)
  {
  }

  /** The node after one pass of driving, in the protocol's terms. */
  function DrivenNode(cfg: Config, rng: Rng, st: State, slot: Slot, now: nat): C.Node
    requires CanDrive(cfg, st, slot)
  {
    var (run, reaction) := DriveFold(cfg, rng, st, slot, now);
    C.React(NodeOf(OwnRecord(cfg, st, slot, now), slot), run, reaction)
  }

  lemma NodeDriven(cfg: Config, rng: Rng, st: State, slot: Slot, now: nat, s: Slot)
    requires CanDrive(cfg, st, slot)
    ensures NodeOf(DriveAt(cfg, rng, st, slot, now), s) == if s == slot then DrivenNode(cfg, rng, st, slot, now)
      else NodeOf(st, s)
  {
    hide NodeOf, FoldReply, Settled, C.React, OwnRecord, Emit, DriveSends;
    var recorded := OwnRecord(cfg, st, slot, now);
    var (run, reaction) := DriveFold(cfg, rng, st, slot, now);
    NodeOwnRecord(cfg, st, slot, now, s);
    NodeSettled(cfg, recorded, slot, run, reaction, now, s);
    var after := Settled(cfg, recorded, slot, run, reaction, now);
    NodeEmitted(after, DriveSends(cfg, after, slot), s);
  }

  lemma DriveIs(ids: seq<ReplicaId>, cfg: Config, rng: Rng, w: World, i: nat, slot: Slot, now: nat)
    requires |w| == |ids| && i < |w| && cfg.ids == ids && cfg.me == i && CanDrive(cfg, w[i], slot)
    ensures
      var c := Project(ids, w, slot);
      var e := C.Drive(i, now, DrawsAt(rng, w[i].drawn, cfg.N()));
      var next := DriveAt(cfg, rng, w[i], slot, now);
      && C.Enabled(c, e)
      && var d := C.Apply(c, e);
      && d.ids == ids && d.nodes == c.nodes[i := NodeOf(next, slot)] && c.net <= d.net
        && NewIn(i, w[i], next, slot, d.net)
  {
    hide DriveAt, C.Apply, NewIn, NodeOf, OwnRecord, FoldReply, DrivenNode, DrawsAt, Net;
    var c := Project(ids, w, slot);
    var e := C.Drive(i, now, DrawsAt(rng, w[i].drawn, cfg.N()));
    DriveEnabled(ids, cfg, rng, w, i, slot, now);
    DriveNodes(ids, cfg, rng, w, i, slot, now);
    NodeDriven(cfg, rng, w[i], slot, now, slot);
    DriveEmits(cfg, rng, w[i], slot, now);
    DriveNet(cfg, w[i], DriveAt(cfg, rng, w[i], slot, now), c, C.Apply(c, e), i, slot);
  }

  lemma DriveEnabled(ids: seq<ReplicaId>, cfg: Config, rng: Rng, w: World, i: nat, slot: Slot, now: nat)
    requires |w| == |ids| && i < |w| && cfg.ids == ids && cfg.me == i && CanDrive(cfg, w[i], slot)
    ensures C.Enabled(Project(ids, w, slot), C.Drive(i, now, DrawsAt(rng, w[i].drawn, cfg.N())))
  {
    hide Net, DrawsAt;
    NodeIs(ids, w, i, slot);
  }

  lemma DriveNodes(ids: seq<ReplicaId>, cfg: Config, rng: Rng, w: World, i: nat, slot: Slot, now: nat)
    requires |w| == |ids| && i < |w| && cfg.ids == ids && cfg.me == i && CanDrive(cfg, w[i], slot)
    requires C.Enabled(Project(ids, w, slot), C.Drive(i, now, DrawsAt(rng, w[i].drawn, cfg.N())))
    ensures
      var c := Project(ids, w, slot);
      var d := C.Apply(c, C.Drive(i, now, DrawsAt(rng, w[i].drawn, cfg.N())));
      && d.ids == ids && d.nodes == c.nodes[i := DrivenNode(cfg, rng, w[i], slot, now)]
        && d.net == c.net + C.Sends(d, i)
  {
    hide Net, DrawsAt, FoldReply, C.React, Recorder.Record, C.HistRecord, OwnRecord, C.Sends, Summarize;
    NodeIs(ids, w, i, slot);
    NodeOwnRecord(cfg, w[i], slot, now, slot);
    OwnRecordAdvances(cfg, w[i], slot, now);
    SendsByNodes(ids, w, i, slot, C.Apply(Project(ids, w, slot), C.Drive(i, now, DrawsAt(rng, w[i].drawn, cfg.N()))));
  }

  lemma SendsByNodes(ids: seq<ReplicaId>, w: World, i: nat, slot: Slot, d: C.Cluster)
    requires |w| == |ids| && i < |w| && i < |d.nodes|
    ensures forall net :: C.Sends(d.(net := net), i) == C.Sends(d, i)
  {
    hide Net;
    forall net ensures C.Sends(d.(net := net), i) == C.Sends(d, i) {
      assert d.nodes[i].proposer.Running? ==>
        C.Broadcast(d.(net := net), i, d.nodes[i].proposer.run) == C.Broadcast(d, i, d.nodes[i].proposer.run);
    }
  }

  lemma DriveNet(cfg: Config, st: State, next: State, c: C.Cluster, d: C.Cluster, i: nat, slot: Slot)
    requires DriveEmitted(cfg, st, next, slot) && i < |d.nodes| == d.N() && cfg.ids == d.ids && cfg.me == i
    requires d.nodes[i] == NodeOf(next, slot) && d.net == c.net + C.Sends(d, i)
    ensures c.net <= d.net && NewIn(i, st, next, slot, d.net)
  {
    forall k | |st.actions| <= k < |next.actions| && IsFor(next.actions[k], slot)
      ensures AsMsg(i, next.actions[k]) in d.net
    {
      var run := next.slots[slot].proposer.run;
      var j := next.actions[k].to;
      assert C.Record(i, j, run.step, C.TemplateOf(run).For(j)) in C.Broadcast(d, i, run);
    }
  }

  // ---- opening, retransmitting, learning ----

  lemma OpenProjects(ids: seq<ReplicaId>, cfg: Config, rng: Rng, w: World, i: nat, slot: Slot, cmds: seq<Command>,
        asLeader: bool, now: nat, s: Slot)
    requires At(ids, cfg, w, i, s) && StorageOk(cfg, w[i]) && LogOk(w[i]) && CanOpen(cfg, w[i], slot, cmds, asLeader)
    ensures CI.Inv(Project(ids, w[i := OpenSlot(cfg, rng, w[i], slot, cmds, asLeader, now)], s))
  {
    hide CI.Inv, OpenSlot, NodeOf, Net, NewIn, C.Apply, C.Enabled, Project, CanOpen, NoSlotSends, StorageOk, LogOk,
      Emitted;
    var st := w[i];
    var next := OpenSlot(cfg, rng, st, slot, cmds, asLeader, now);
    OpenEmits(cfg, rng, st, slot, cmds, asLeader, now);
    QuietEmits(cfg, st, next);
    NodeOpened(cfg, rng, st, slot, cmds, asLeader, now, s);
    if s != slot {
      NoneNew(i, st, next, s, Net(w, s));
      Stutters(ids, w, i, next, s);
    } else {
      var e := C.Event.Start(i, Batch.BatchBytes(cmds), now, DrawsAt(rng, st.drawn, cfg.N()));
      NodeIs(ids, w, i, slot);
      StartProjects(ids, cfg, rng, w, i, slot, cmds, asLeader, now);
      NoneNew(i, st, next, slot, C.Apply(Project(ids, w, slot), e).net);
      Simulates(ids, w, i, next, slot, e);
    }
  }

  lemma StartProjects(ids: seq<ReplicaId>, cfg: Config, rng: Rng, w: World, i: nat, slot: Slot, cmds: seq<Command>,
        asLeader: bool, now: nat)
    requires |w| == |ids| && i < |w| && cfg.ids == ids && cfg.me == i
    requires StorageOk(cfg, w[i]) && LogOk(w[i]) && CanOpen(cfg, w[i], slot, cmds, asLeader)
    ensures
      var c := Project(ids, w, slot);
      var e := C.Event.Start(i, Batch.BatchBytes(cmds), now, DrawsAt(rng, w[i].drawn, cfg.N()));
      && C.Enabled(c, e)
      && var d := C.Apply(c, e);
      d.ids == ids && d.nodes == c.nodes[i := NodeOf(OpenSlot(cfg, rng, w[i], slot, cmds, asLeader, now), slot)]
        && c.net <= d.net
  {
    hide Net, DrawsAt, C.React, Proposer.Start, OpenSlot, Batch.BatchBytes, StorageOk, LogOk;
    NodeIs(ids, w, i, slot);
    OpenedRecorder(cfg, w[i], slot, cmds, asLeader);
    NodeOpened(cfg, rng, w[i], slot, cmds, asLeader, now, slot);
  }

  lemma RetransmitProjects(ids: seq<ReplicaId>, cfg: Config, w: World, i: nat, slot: Slot, s: Slot)
    requires At(ids, cfg, w, i, s) && CanFold(cfg, w[i], slot)
    ensures CI.Inv(Project(ids, w[i := Retransmitted(w[i], slot)], s))
  {
    hide CI.Inv, Retransmitted, NodeOf, Net, NewIn, C.Apply, C.Enabled, Project, NoSlotSends, Emitted, OnlySlot;
    var st := w[i];
    var next := Retransmitted(st, slot);
    QuietEmits(cfg, st, next);
    NodeRetransmitted(st, slot, s);
    if s != slot {
      NoneNew(i, st, next, s, Net(w, s));
      Stutters(ids, w, i, next, s);
    } else {
      NodeIs(ids, w, i, slot);
      RetransmitIs(ids, cfg, w, i, slot);
      NoneNew(i, st, next, slot, C.Apply(Project(ids, w, slot), C.Retransmit(i)).net);
      Simulates(ids, w, i, next, slot, C.Retransmit(i));
    }
  }

  lemma RetransmitIs(ids: seq<ReplicaId>, cfg: Config, w: World, i: nat, slot: Slot)
    requires |w| == |ids| && i < |w| && cfg.ids == ids && cfg.me == i && CanFold(cfg, w[i], slot)
    ensures
      var c := Project(ids, w, slot);
      && C.Enabled(c, C.Retransmit(i))
      && var d := C.Apply(c, C.Retransmit(i));
      d.ids == ids && d.nodes == c.nodes[i := NodeOf(Retransmitted(w[i], slot), slot)] && c.net <= d.net
  {
    hide Net, Retransmitted;
    NodeIs(ids, w, i, slot);
    NodeRetransmitted(w[i], slot, slot);
  }

  /** A decision is learned only as some replica made or learned it before. */
  lemma LearnProjects(ids: seq<ReplicaId>, cfg: Config, w: World, i: nat, j: nat, other: Config, slot: Slot,
        value: Bytes, now: nat, s: Slot)
    requires At(ids, cfg, w, i, s) && StorageOk(cfg, w[i]) && LogOk(w[i]) && CanLearn(cfg, w[i], slot, value)
    requires j < |w| && StorageOk(other, w[j]) && LogOk(w[j]) && Logged(w[j], slot, value)
    ensures CI.Inv(Project(ids, w[i := Install(cfg, w[i], slot, value, false, now)], s))
  {
    hide CI.Inv, Install, NodeOf, Net, NewIn, C.Apply, C.Enabled, Project, NoSlotSends, Emitted, CanLearn, StorageOk,
      LogOk;
    var st := w[i];
    var next := Install(cfg, st, slot, value, false, now);
    InstallEmits(cfg, st, slot, value, false, now);
    NodeInstalled(cfg, st, slot, value, false, now, s);
    if s != slot {
      NoneNew(i, st, next, s, Net(w, s));
      Stutters(ids, w, i, next, s);
    } else {
      NodeIs(ids, w, i, slot);
      LearnIs(ids, cfg, w, i, j, other, slot, value, now);
      NoneNew(i, st, next, slot, C.Apply(Project(ids, w, slot), C.Learn(i, j)).net);
      Simulates(ids, w, i, next, slot, C.Learn(i, j));
    }
  }

  lemma LearnIs(ids: seq<ReplicaId>, cfg: Config, w: World, i: nat, j: nat, other: Config, slot: Slot, value: Bytes,
        now: nat)
    requires |w| == |ids| && i < |w| && cfg.ids == ids && cfg.me == i
    requires StorageOk(cfg, w[i]) && LogOk(w[i]) && CanLearn(cfg, w[i], slot, value)
    requires j < |w| && StorageOk(other, w[j]) && LogOk(w[j]) && Logged(w[j], slot, value)
    ensures
      var c := Project(ids, w, slot);
      && C.Enabled(c, C.Learn(i, j))
      && var d := C.Apply(c, C.Learn(i, j));
      d.ids == ids && d.nodes == c.nodes[i := NodeOf(Install(cfg, w[i], slot, value, false, now), slot)]
        && c.net <= d.net
  {
    hide Net, Install, StorageOk, LogOk, NodeOf, TotalBytes;
    NodeIs(ids, w, i, slot);
    NodeIs(ids, w, j, slot);
    NodeInstalled(cfg, w[i], slot, value, false, now, slot);
    NodeLogged(other, w[j], slot);
    LearnFresh(cfg, w[i], slot, value);
    NodeLogged(cfg, w[i], slot);
  }

  lemma LearnFresh(cfg: Config, st: State, slot: Slot, value: Bytes)
    requires StorageOk(cfg, st) && LogOk(st) && CanLearn(cfg, st, slot, value)
    ensures slot !in st.log
  {
  }
}
