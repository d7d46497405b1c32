/** What messages are worth. */
module Honesty {
  // What replicas may rely on in the messages they get, and that every message sent fits the
  // wire format.

  import opened Types
  import opened Encoding
  import opened Proposer
  import opened SlotLogic
  import opened ReplicaState
  import opened Delivery
  import opened ReplicaRuns
  import opened ReplicaRest
  import opened Emissions
  import opened Projection
  import opened Simulation
  import opened GroupRuns
  import opened GroupSteps
  import opened Guarantees
  import C = Consensus
  import CI = ConsensusInvariant
  import CS = ConsensusSteps
  import Agreement
  import Wire
  import Batch

  // ---- the premises of a replica hold in every group ----

  /** No reply in the network would stall the proposer it answers. */
  lemma RepliesNeverStall(g: Group, w: World, i: nat, j: nat, message: Wire.Message)
    requires WorldOk(g, w) && j < |w| && Sent(w, i, j, message) && message.payload.RecordReply?
    ensures Fitting(g, w)
    ensures
      var p := message.payload;
      !WouldStall(g.configs[j], w[j], i, p.slot, p.reqStep, p.step, p.first, p.priorAgg)
  {
    hide WorldOk, CI.Inv, Sent, Net, Stalls, Project, Sound, SubmittedOk, CanFold, Reconstitute;
    FittingFacts(g, w);
    SenderIn(w, i, j, message);
    SoundAt(g, w, j);
    var p := message.payload;
    SlotAt(g, w, p.slot);
    InSlotNet(w, i, j, message, p.slot);
    if CanFold(g.configs[j], w[j], p.slot) {
      NodeIs(g.ids, w, j, p.slot);
      CanFoldMeans(g.configs[j], w[j], p.slot);
      var msg := C.Reply(i, j, p.reqStep, p.step, p.first, p.priorAgg);
      FoldNeverStalls(Project(g.ids, w, p.slot), msg);
    }
  }

  lemma CanFoldMeans(cfg: Config, st: State, slot: Slot)
    requires CanFold(cfg, st, slot)
    ensures slot in st.slots && NodeOf(st, slot).proposer == st.slots[slot].proposer && st.slots[slot].proposer.Running?
    ensures Fits(st.slots[slot].proposer.run, cfg.N())
  {
  }

  lemma FoldNeverStalls(c: C.Cluster, msg: C.Msg)
    requires CI.Inv(c) && msg in c.net && msg.Reply? && CI.Known(c, msg.dst) && c.nodes[msg.dst].proposer.Running?
    requires Fits(c.nodes[msg.dst].proposer.run, c.N()) && msg.src < c.N()
    ensures
      var run := c.nodes[msg.dst].proposer.run;
      match Reconstitute(run, msg.src, msg.reqStep, msg.first)
      case None => true
      case Some(p) => !Stalls(run, msg.src, msg.reqStep, msg.step, p, msg.priorAgg, c.Quorum())
  {
    hide CI.Inv, CI.Truthful, Reconstitute, StepComplete;
    var run := c.nodes[msg.dst].proposer.run;
    CS.RebuiltTruthful(c, msg);
    var rebuilt := Reconstitute(run, msg.src, msg.reqStep, msg.first);
    if rebuilt.Some? && Fold(run, msg.src, msg.reqStep, msg.step, rebuilt.value, msg.priorAgg, c.Quorum()).1 == Quorum {
      Agreement.StallUnreachable(c, msg.dst, msg.src, msg.step, rebuilt.value, msg.priorAgg);
    }
  }

  /** Every message in the network meets the premises its receiver relies on, at any time. */
  lemma NetworkIsHonest(g: Group, w: World, i: nat, j: nat, message: Wire.Message)
    requires WorldOk(g, w) && j < |w| && Sent(w, i, j, message)
    ensures Fitting(g, w) && HonestMessage(g.configs[j], w[j], i, message)
  {
    hide WorldOk, Sent, WouldStall, Known, WasSubmitted, Batch.IdFits;
    FittingFacts(g, w);
    SenderIn(w, i, j, message);
    if message.payload.RecordReply? {
      RepliesNeverStall(g, w, i, j, message);
    } else if message.payload.Forward? {
      MessageAt(g, w, i, j, message);
      var cmds := message.payload.commands;
      forall k | 0 <= k < |cmds| ensures Known(g.configs[j], w[j], cmds[k].id) && Batch.IdFits(cmds[k].id) {
        SubmittedIsKnown(g, w, j, cmds[k]);
      }
    }
  }

  // ---- every message fits the format ----

  /** Values that entered a slot are short enough, and ids are 64-bit and nonzero. */
  ghost predicate Encodable(c: C.Cluster) {
    && (forall i :: 0 <= i < |c.ids| ==> 0 < c.ids[i] < U64_LIMIT)
    && forall i: nat :: CI.Known(c, i) && 4 in CI.Hist(c, i).sent ==> |CI.Hist(c, i).sent[4].proposal.value| < U32_LIMIT
  }

  lemma SentValueFits(c: C.Cluster, i: nat, s: nat)
    requires CI.Inv(c) && Encodable(c) && CI.Known(c, i) && s in CI.Hist(c, i).sent
    ensures |CI.Hist(c, i).sent[s].proposal.value| < U32_LIMIT
  {
    hide CI.Inv;
    CS.SentFacts(c, i, s);
    var o: nat :| CI.Known(c, o) && 4 in CI.Hist(c, o).sent
      && CI.Hist(c, o).sent[4].proposal.value == CI.Hist(c, i).sent[s].proposal.value;
  }

  /** What a template spreads to a recorder fits the format: drawn priorities are nonzero,
      and later phases only pass on what was offered before. */
  lemma {:induction false} TemplateFits(c: C.Cluster, i: nat, s: nat, j: nat)
    requires CI.Inv(c) && Encodable(c) && CI.Known(c, i) && s in CI.Hist(c, i).sent && j < c.N()
    ensures Wire.ProposalFits(CI.Hist(c, i).sent[s].For(j))
    decreases s, 0
  {
    hide CI.Inv;
    CS.SentFacts(c, i, s);
    SentValueFits(c, i, s);
    var p := CI.Hist(c, i).sent[s].proposal;
    if s % 4 == 1 {
      Agreement.SentExists(c, i, s);
      var q := CI.ExistsBy(c, s - 1, p);
      FirstWasOffered(c, q, s - 1, p);
    } else if s % 4 >= 2 {
      Agreement.SentCommon(c, i, s);
      var q := CI.CommonBy(c, s - 1, p);
      SpreadFits(c, s - 1, p);
    }
  }

  lemma {:induction false} FirstWasOffered(c: C.Cluster, q: set<nat>, s: nat, p: Proposal)
    requires CI.Inv(c) && Encodable(c) && CI.BestFirst(c, q, s, p)
    ensures Wire.ProposalFits(p)
    decreases s, 2
  {
    hide CI.Inv;
    var j: nat :| j in q && CI.Known(c, j) && s in CI.Hist(c, j).first && CI.Hist(c, j).first[s] == p;
    CS.FirstFacts(c, j, s);
    OfferedFits(c, j, s, p);
  }

  lemma {:induction false} OfferedFits(c: C.Cluster, j: nat, s: nat, p: Proposal)
    requires CI.Inv(c) && Encodable(c) && CI.Known(c, j) && CI.Offered(c, j, s, p)
    ensures Wire.ProposalFits(p)
    decreases s, 1
  {
    hide CI.Inv;
    var i: nat :| CI.Known(c, i) && s in CI.Hist(c, i).sent && p == CI.Hist(c, i).sent[s].For(j);
    TemplateFits(c, i, s, j);
  }

  lemma {:induction false} SpreadFits(c: C.Cluster, s: nat, p: Proposal)
    requires CI.Inv(c) && Encodable(c) && CI.Spread(c, s, p) && s % 4 != 0
    ensures Wire.ProposalFits(p)
    decreases s, 1
  {
    hide CI.Inv;
    var i: nat :| CI.Known(c, i) && s in CI.Hist(c, i).sent && p == CI.Hist(c, i).sent[s].proposal;
    CS.SentFacts(c, i, s);
    TemplateFits(c, i, s, i);
  }

  /** Consensus messages fit, but for their step counters. */
  lemma MsgFits(c: C.Cluster, msg: C.Msg)
    requires CI.Inv(c) && Encodable(c) && msg in c.net
    ensures msg.Record? ==> Wire.ProposalFits(msg.proposal)
    ensures msg.Reply? ==> Wire.FirstFits(msg.first) && Wire.OptionFits(msg.priorAgg)
  {
    hide Wire.ProposalFits, CI.NodeOk;
    assert CI.MsgOk(c, msg);
    if msg.Record? {
      TemplateFits(c, msg.src, msg.step, msg.dst);
    } else {
      ReplyFits(c, msg);
    }
  }

  lemma ReplyFits(c: C.Cluster, msg: C.Msg)
    requires CI.Inv(c) && Encodable(c) && msg.Reply? && CI.MsgOk(c, msg)
    ensures Wire.FirstFits(msg.first) && Wire.OptionFits(msg.priorAgg)
  {
    hide Wire.ProposalFits, CI.Inv, Encodable;
    var j := msg.src;
    if msg.first.Full? {
      CS.FirstFacts(c, j, msg.step);
      OfferedFits(c, j, msg.step, msg.first.proposal);
    }
    if msg.priorAgg.Some? {
      CS.AggFacts(c, j, msg.step - 1);
      OfferedFits(c, j, msg.step - 1, msg.priorAgg.value);
    }
  }

  lemma ProjectEncodable(g: Group, w: World, s: Slot)
    requires WorldOk(g, w)
    ensures Fitting(g, w) && CI.Inv(Project(g.ids, w, s)) && Encodable(Project(g.ids, w, s))
  {
    hide WorldOk, CI.Inv, Net, Sound, SubmittedOk, HistAt, BatchTrue, Batch.BatchBytes;
    FittingFacts(g, w);
    SlotAt(g, w, s);
    SoundAt(g, w, 0);
    var c := Project(g.ids, w, s);
    forall i: nat | CI.Known(c, i) && 4 in CI.Hist(c, i).sent
      ensures |CI.Hist(c, i).sent[4].proposal.value| < U32_LIMIT
    {
      NodeIs(g.ids, w, i, s);
      NodeHist(w[i], s);
      EntryAt(g, w, i, s);
      var cmds, k := EnteredBatch(g, w, i, s, HistAt(w[i], s).sent[4].proposal.value);
      BatchIsSmall(g, w, i, s, cmds, k);
    }
  }

  lemma NodeHist(st: State, s: Slot)
    ensures NodeOf(st, s).hist == HistAt(st, s)
  {
  }

  lemma BatchIsSmall(g: Group, w: World, i: nat, s: Slot, cmds: seq<Command>, k: nat)
    requires Fitting(g, w) && i < |w| && BatchTrue(g, w, i, s, cmds, k)
    ensures 0 < |Batch.BatchBytes(cmds)| < U32_LIMIT
  {
    hide WasSubmitted, Batch.CommandsFit, Filled, Batch.EncodeList, InWindow;
  }

  lemma DecisionIsSmall(g: Group, w: World, i: nat, slot: Slot, value: Bytes)
    requires WorldOk(g, w) && i < |w| && Logged(w[i], slot, value)
    ensures 0 < |value| < U32_LIMIT
  {
    hide WorldOk, BatchTrue, Batch.BatchBytes, Commands;
    var o, cmds, k := DecidedBatch(g, w, i, slot);
    BatchIsSmall(g, w, o, slot, cmds, k);
  }

  lemma {:induction false} CountBound(values: seq<Bytes>)
    requires forall k :: 0 <= k < |values| ==> values[k] != []
    ensures |values| <= BytesOf(values)
  {
    if values != [] {
      CountBound(values[..|values| - 1]);
    }
  }

  lemma ForwardFits(g: Group, w: World, i: nat, cmds: seq<Command>)
    requires WorldOk(g, w) && i < |w| && Fitting(g, w) && (forall k :: 0 <= k < |cmds| ==> WasSubmitted(g, w, cmds[k]))
    requires |cmds| > 1 ==> Batch.CommandsSize(cmds) <= MAX_BATCH_BYTES_LIMIT
    ensures Batch.CommandsFit(cmds)
  {
    hide WorldOk, WasSubmitted, Known, Batch.IdFits, Batch.BatchBytes, Batch.EncodeCommands;
    Batch.EncodedSize(cmds);
    forall k | 0 <= k < |cmds| ensures Batch.CommandFits(cmds[k]) {
      SubmittedIsKnown(g, w, i, cmds[k]);
      SubmittedIsSmall(g, w, cmds[k]);
    }
  }

  lemma SubmittedIsSmall(g: Group, w: World, cmd: Command)
    requires WorldOk(g, w) && Fitting(g, w) && WasSubmitted(g, w, cmd)
    ensures |cmd.data| <= MAX_COMMAND_BYTES
  {
    hide WorldOk, Sound;
    var o: nat :| o < |w| && Gave(g.configs[o], w[o], cmd);
    SoundAt(g, w, o);
  }

  /** The slot and step counters a message carries are within the wire's integer widths. */
  predicate CountersFit(m: Wire.Message) {
    m.decided < U64_LIMIT &&
    match m.payload
    case Record(slot, step, _) => slot < U64_LIMIT && step < U32_LIMIT
    case RecordReply(slot, reqStep, step, _, _) => slot < U64_LIMIT && reqStep < U32_LIMIT && step < U32_LIMIT
    case Decide(slot, _) => slot < U64_LIMIT
    case Learn(fromSlot) => fromSlot < U64_LIMIT
    case LearnReply(firstSlot, _) => firstSlot < U64_LIMIT
    case _ => true
  }

  /** Every message a replica sends fits the wire format as long as its counters do: the
      size limits keep every length within 32 bits. So it survives encoding and decoding. */
  lemma SentMessageFits(g: Group, w: World, i: nat, j: nat, message: Wire.Message)
    requires WorldOk(g, w) && Sent(w, i, j, message) && CountersFit(message)
    ensures Wire.MessageFits(message) && Wire.ParseMessage(Wire.MessageBytes(message)) == Some(message)
  {
    hide WorldOk, Sent, Wire.MessageBytes, Wire.ParseMessage, WasSubmitted, Wire.ProposalFits, Batch.CommandsFit,
      Sound, SubmittedOk, PayloadTrue;
    FittingFacts(g, w);
    SenderIn(w, i, j, message);
    MessageAt(g, w, i, j, message);
    SoundAt(g, w, i);
    PayloadIsEncodable(g, w, i, j, message);
    Wire.MessageRoundTrip(message);
  }

  lemma PayloadIsEncodable(g: Group, w: World, i: nat, j: nat, message: Wire.Message)
    requires WorldOk(g, w) && Fitting(g, w) && i < |w| && Sent(w, i, j, message) && MsgTrue(g, w, i, message)
      && CountersFit(message)
    ensures Wire.PayloadFits(message.payload)
  {
    hide WorldOk, Sent, WasSubmitted, Wire.ProposalFits, Batch.CommandsFit, CI.Inv, Project, Encodable, Net;
    var p := message.payload;
    if p.Record? || p.RecordReply? {
      ProjectEncodable(g, w, p.slot);
      InSlotNet(w, i, j, message, p.slot);
      NodeIs(g.ids, w, i, p.slot);
      MsgFits(Project(g.ids, w, p.slot), AsMsg(i, Send(j, message)));
    } else if p.Decide? {
      DecisionIsSmall(g, w, i, p.slot, p.value);
    } else if p.Forward? {
      ForwardFits(g, w, i, p.commands);
    } else if p.LearnReply? {
      ChunkFits(g, w, i, p.firstSlot, p.values);
    }
  }

  lemma ChunkFits(g: Group, w: World, i: nat, first: Slot, values: seq<Bytes>)
    requires WorldOk(g, w) && i < |w| && PayloadTrue(w[i], Wire.LearnReply(first, values))
      && PayloadSized(Wire.LearnReply(first, values))
    ensures Wire.ValuesFit(values)
  {
    hide WorldOk, BytesOf;
    forall k | 0 <= k < |values| ensures 0 < |values[k]| < U32_LIMIT {
      assert Logged(w[i], first + k, values[k]);
      DecisionIsSmall(g, w, i, first + k, values[k]);
    }
    if values != [] {
      CountBound(values[..|values| - 1]);
    }
  }
}
