/** The group and its network. */
module GroupRuns {
  // All replicas together, over a network that may lose, duplicate and reorder,
  // and what holds in every state of every run.

  import opened Types
  import opened Encoding
  import opened Pooling
  import opened ReplicaState
  import opened ReplicaInvariant
  import opened Delivery
  import opened Retention
  import opened ReplicaRuns
  import opened Emissions
  import opened Projection
  import opened Custody
  import CI = ConsensusInvariant
  import Wire
  import Batch

  /** A group: its ids in schedule order, and each member's configuration and draws. */
  datatype Group = Group(ids: seq<ReplicaId>, configs: seq<Config>, rngs: seq<Rng>) {
    ghost predicate Valid() {
      && ids != [] && |configs| == |ids| && |rngs| == |ids|
      && forall i :: 0 <= i < |ids| ==> configs[i].Valid() && configs[i].ids == ids && configs[i].me == i
    }
  }

  function StartWorld(g: Group): World
    requires |g.configs| == |g.ids|
  {
    seq(|g.ids|, i requires 0 <= i < |g.ids| => Initial(g.configs[i]))
  }

  /** `from` has sent the message to `to`, at some time: from then on it may arrive at any
      time, any number of times, or never. */
  ghost predicate Sent(w: World, from: nat, to: nat, message: Wire.Message) {
    from < |w| && exists k: nat :: k < |w[from].actions| && w[from].actions[k] == Send(to, message)
  }

  ghost predicate Justifies(w: World, from: nat, to: nat, message: Wire.Message, m: Micro) {
    Sent(w, from, to, message) && Carries(from, message, m)
  }

  /** A replica steps of its own accord, or takes up part of a message sent to it. */
  ghost predicate Justified(w: World, i: nat, m: Micro) {
    IsLocal(m) || exists from, message :: Justifies(w, from, i, message, m)
  }

  ghost predicate Fitting(g: Group, w: World) {
    g.Valid() && |w| == |g.ids|
  }

  /** One replica takes one step. */
  ghost predicate Moves(g: Group, w: World, i: nat, m: Micro, next: World) {
    && Fitting(g, w) && i < |w| && Justified(w, i, m)
    && ReplicaState.Enabled(g.configs[i], w[i], m)
    && next == w[i := ReplicaState.Apply(g.configs[i], g.rngs[i], w[i], m)]
  }

  /** A run of the group: the states its steps lead through. A crashed replica is one that
      takes no more steps. */
  ghost predicate IsHistory(g: Group, moves: seq<(nat, Micro)>, worlds: seq<World>) {
    && g.Valid() && |worlds| == |moves| + 1 && worlds[0] == StartWorld(g)
    && forall k {:trigger moves[k]} :: 0 <= k < |moves| ==> Moves(g, worlds[k], moves[k].0, moves[k].1, worlds[k + 1])
  }

  // ---- what holds of a reachable group ----

  /** The command was submitted at its origin, with this data. */
  ghost predicate Gave(cfg: Config, st: State, cmd: Command) {
    && cfg.me < |cfg.ids| && cmd.id == OwnId(cfg, cmd.id.seqno) && 1 <= cmd.id.seqno <= st.nextSeq
    && cmd.id.seqno in st.submitted && st.submitted[cmd.id.seqno] == cmd.data
  }

  ghost predicate WasSubmitted(g: Group, w: World, cmd: Command)
    requires Fitting(g, w)
  {
    exists o: nat :: o < |w| && Gave(g.configs[o], w[o], cmd)
  }

  ghost predicate SubmittedOk(st: State) {
    st.nextSeq <= U64_MAX && forall q :: q in st.submitted ==>
      1 <= q <= st.nextSeq && |st.submitted[q]| <= MAX_COMMAND_BYTES
  }

  ghost predicate EachSound(g: Group, w: World)
    requires Fitting(g, w)
  {
    forall i: nat :: i < |w| ==> Sound(g.configs[i], w[i]) && SubmittedOk(w[i])
  }

  ghost predicate EachSlot(g: Group, w: World)
    requires Fitting(g, w)
  {
    forall s: Slot :: CI.Inv(Project(g.ids, w, s))
  }

  /** What a message of replica `i` says is so. */
  ghost predicate MsgTrue(g: Group, w: World, i: nat, message: Wire.Message)
    requires Fitting(g, w) && i < |w|
  {
    && message.from == g.ids[i] && message.decided <= w[i].contig && PayloadSized(message.payload)
    && match message.payload
       case Forward(cmds) => forall k :: 0 <= k < |cmds| ==> WasSubmitted(g, w, cmds[k])
       case _ => PayloadTrue(w[i], message.payload)
  }

  ghost predicate MessagesTrue(g: Group, w: World)
    requires Fitting(g, w)
  {
    forall i: nat, j: nat, message :: i < |w| && Sent(w, i, j, message) ==> MsgTrue(g, w, i, message)
  }

  ghost predicate PoolsTrue(g: Group, w: World)
    requires Fitting(g, w)
  {
    forall i: nat, id :: i < |w| && id in w[i].pool ==> WasSubmitted(g, w, Command(id, w[i].pool[id].data))
  }

  /** A batch for slot `s`: submitted commands, each within the window of what its batcher
      had delivered, `k` slots below `s`. */
  ghost predicate BatchTrue(g: Group, w: World, i: nat, s: Slot, cmds: seq<Command>, k: nat)
    requires Fitting(g, w) && i < |w|
  {
    && Batch.CommandsFit(cmds) && |Batch.BatchBytes(cmds)| < U32_LIMIT
    && k < s && k <= w[i].contig && Filled(w[i].log, k)
    && forall c :: 0 <= c < |cmds| ==> WasSubmitted(g, w, cmds[c]) && InWindow(DedupAfter(w[i].log, k), cmds[c].id)
  }

  ghost predicate EnteredTrue(g: Group, w: World, i: nat, s: Slot, value: Bytes)
    requires Fitting(g, w) && i < |w|
  {
    exists cmds, k: nat :: value == Batch.BatchBytes(cmds) && BatchTrue(g, w, i, s, cmds, k)
  }

  ghost predicate EntriesTrue(g: Group, w: World)
    requires Fitting(g, w)
  {
    forall i: nat, s: Slot :: i < |w| && 4 in HistAt(w[i], s).sent ==>
      EnteredTrue(g, w, i, s, HistAt(w[i], s).sent[4].proposal.value)
  }

  /** No replica believes another further than it is. */
  ghost predicate AcksTrue(w: World) {
    forall i: nat, j: nat :: i < |w| && j < |w| ==> |w[i].peerAcked| == |w| && w[i].peerAcked[j] <= w[j].contig
  }

  ghost predicate WorldOk(g: Group, w: World) {
    && Fitting(g, w) && EachSound(g, w) && EachSlot(g, w) && MessagesTrue(g, w) && PoolsTrue(g, w) && EntriesTrue(g, w)
      && AcksTrue(w)
  }

  // ---- growth ----

  /** Nothing decided or submitted is taken back, and frontiers only advance. */
  ghost predicate Grown(st: State, next: State) {
    && st.contig <= next.contig && LogExtends(st.log, next.log) && st.nextSeq <= next.nextSeq
    && forall q :: q in st.submitted ==> q in next.submitted && next.submitted[q] == st.submitted[q]
  }

  ghost predicate WorldGrown(w: World, next: World) {
    |w| == |next| && forall i: nat :: i < |w| ==> Grown(w[i], next[i])
  }

  lemma DeliverGrows(st: State)
    requires st.contig + 1 in st.retained
    ensures DeliverNext(st).contig == st.contig + 1 && DeliverNext(st).log == st.log
    ensures DeliverNext(st).nextSeq == st.nextSeq && DeliverNext(st).submitted == st.submitted
      && DeliverNext(st).peerAcked == st.peerAcked
  {
    hide Filter, Commands, Without;
  }

  lemma SubmitGrows(cfg: Config, st: State, data: Bytes, now: nat)
    requires SubmittedOk(st) && cfg.me < |cfg.ids| && st.nextSeq < U64_MAX && |data| <= MAX_COMMAND_BYTES
    ensures Grown(st, Submitted(cfg, st, data, now)) && SubmittedOk(Submitted(cfg, st, data, now))
  {
    hide Submitted;
  }

  lemma ApplyIs(cfg: Config, rng: Rng, st: State, m: Micro)
    requires ReplicaState.Enabled(cfg, st, m)
    ensures m.SubmitStep? ==>
      && st.nextSeq < U64_MAX && |m.data| <= MAX_COMMAND_BYTES && cfg.me < |cfg.ids|
      && ReplicaState.Apply(cfg, rng, st, m) == Submitted(cfg, st, m.data, m.now)
    ensures m.PoolStep? ==> ReplicaState.Apply(cfg, rng, st, m) == Pooled(st, m.cmd, m.now)
    ensures m.DeliverStep? ==> st.contig + 1 in st.retained && ReplicaState.Apply(cfg, rng, st, m) == DeliverNext(st)
  {
    hide RecordAt, ReplyAt, DriveAt, OpenSlot, Install, Retransmitted, Observed, DeliverNext, FreeNext, CanRecord,
      CanOpen, CanLearn,
      CanFold, CanDrive, Takeable, Acked, SelfAcked, Submitted, Pooled, Reforwarded, Refreshed, Requested, Answered,
        LearnEnded,
      LearnTimedOut, Pinged, Least, Forwardable, IsChunk, TotalCost, TotalBytes, Known;
  }

  lemma StepGrows(cfg: Config, rng: Rng, st: State, m: Micro)
    requires Sound(cfg, st) && SubmittedOk(st) && ReplicaState.Enabled(cfg, st, m)
    ensures Grown(st, ReplicaState.Apply(cfg, rng, st, m)) && SubmittedOk(ReplicaState.Apply(cfg, rng, st, m))
  {
    hide ReplicaState.Enabled, ReplicaState.Apply, StorageOk, LogOk, PoolOk, DeliveryOk, BudgetOk, Submitted,
      DeliverNext, Pooled;
    ApplyIs(cfg, rng, st, m);
    StepKeepsDelivery(cfg, rng, st, m);
    if m.SubmitStep? {
      SubmitGrows(cfg, st, m.data, m.now);
    } else if m.PoolStep? {
      PooledGrows(st, m.cmd, m.now);
    } else {
      StepShrinks(cfg, rng, st, m);
      if m.DeliverStep? {
        DeliverGrows(st);
      }
    }
  }

  lemma PooledGrows(st: State, cmd: Command, now: nat)
    ensures Pooled(st, cmd, now).nextSeq == st.nextSeq && Pooled(st, cmd, now).submitted == st.submitted
    ensures Pooled(st, cmd, now).pool == st.pool[cmd.id := NewEntry(cmd.data, now)]
  {
  }

  lemma GrownReflexive(st: State)
    ensures Grown(st, st)
  {
  }

  lemma WorldGrows(w: World, i: nat, next: State)
    requires i < |w| && Grown(w[i], next)
    ensures WorldGrown(w, w[i := next])
  {
    hide Grown;
    forall j: nat | j < |w| ensures Grown(w[j], w[i := next][j]) {
      if j != i {
        GrownReflexive(w[j]);
      }
    }
  }

  lemma SubmittedStays(g: Group, w: World, next: World, cmd: Command)
    requires Fitting(g, w) && Fitting(g, next) && WorldGrown(w, next) && WasSubmitted(g, w, cmd)
    ensures WasSubmitted(g, next, cmd)
  {
    var o: nat :| o < |w| && Gave(g.configs[o], w[o], cmd);
    assert Grown(w[o], next[o]);
    assert Gave(g.configs[o], next[o], cmd);
  }

  lemma PayloadStays(st: State, next: State, p: Wire.Payload)
    requires PayloadTrue(st, p) && Grown(st, next) && !p.Forward?
    ensures PayloadTrue(next, p)
  {
  }

  lemma MsgTrueStays(g: Group, w: World, next: World, i: nat, message: Wire.Message)
    requires Fitting(g, w) && Fitting(g, next) && WorldGrown(w, next) && i < |w| && MsgTrue(g, w, i, message)
    ensures MsgTrue(g, next, i, message)
  {
    hide WasSubmitted, PayloadTrue, PayloadSized;
    assert Grown(w[i], next[i]);
    if message.payload.Forward? {
      var cmds := message.payload.commands;
      forall k | 0 <= k < |cmds| ensures WasSubmitted(g, next, cmds[k]) {
        SubmittedStays(g, w, next, cmds[k]);
      }
    } else {
      PayloadStays(w[i], next[i], message.payload);
    }
  }

  lemma EnteredStays(g: Group, w: World, next: World, i: nat, s: Slot, value: Bytes)
    requires Fitting(g, w) && Fitting(g, next) && WorldGrown(w, next) && i < |w| && EnteredTrue(g, w, i, s, value)
    ensures EnteredTrue(g, next, i, s, value)
  {
    hide WasSubmitted, InWindow, Batch.BatchBytes, Batch.CommandsFit;
    var cmds, k: nat :| value == Batch.BatchBytes(cmds) && BatchTrue(g, w, i, s, cmds, k);
    assert Grown(w[i], next[i]);
    PrefixDetermines(w[i].log, next[i].log, k);
    forall c | 0 <= c < |cmds| ensures WasSubmitted(g, next, cmds[c]) {
      SubmittedStays(g, w, next, cmds[c]);
    }
    assert BatchTrue(g, next, i, s, cmds, k);
  }
}
