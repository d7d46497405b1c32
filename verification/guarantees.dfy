/** What the group promises. */
module Guarantees {
  // One log, delivered everywhere in the same order, each command once, as it was submitted.

  import opened Types
  import opened Pooling
  import opened ReplicaState
  import opened ReplicaInvariant
  import opened Delivery
  import opened Retention
  import opened Riding
  import opened ReplicaRuns
  import opened ReplicaRest
  import opened Projection
  import opened Simulation
  import opened GroupRuns
  import opened GroupSteps
  import CI = ConsensusInvariant
  import CS = ConsensusSteps
  import Agreement
  import Batch

  // ---- one log ----

  lemma LoggedIsChosen(g: Group, w: World, i: nat, s: Slot)
    requires WorldOk(g, w) && i < |w| && s in w[i].log
    ensures Fitting(g, w) && CI.Inv(Project(g.ids, w, s)) && CI.Chosen(Project(g.ids, w, s), w[i].log[s])
  {
    hide WorldOk, CI.Inv, StorageOk, LogOk, PoolOk, DeliveryOk, BudgetOk, SubmittedOk, Net, NodeOf, CI.Chosen;
    FittingFacts(g, w);
    SoundAt(g, w, i);
    SlotAt(g, w, s);
    NodeLogged(g.configs[i], w[i], s);
    NodeIs(g.ids, w, i, s);
    CS.DecidedFacts(Project(g.ids, w, s), i);
  }

  /** Any two replicas that decided a slot decided it alike. */
  lemma LogsAgree(g: Group, w: World, i: nat, j: nat, s: Slot)
    requires WorldOk(g, w) && i < |w| && j < |w| && s in w[i].log && s in w[j].log
    ensures w[i].log[s] == w[j].log[s]
  {
    hide WorldOk, CI.Inv, CI.Chosen, Project;
    LoggedIsChosen(g, w, i, s);
    LoggedIsChosen(g, w, j, s);
    Agreement.ChosenUnique(Project(g.ids, w, s), w[i].log[s], w[j].log[s]);
  }

  lemma {:induction false} HistoryGrows(g: Group, moves: seq<(nat, Micro)>, worlds: seq<World>, a: nat, b: nat, i: nat)
    requires IsHistory(g, moves, worlds) && a <= b <= |moves| && i < |g.ids|
    ensures |worlds[a]| == |worlds[b]| == |g.ids| && Grown(worlds[a][i], worlds[b][i])
    decreases b
  {
    hide WorldOk, Moves, Grown;
    HistoryOk(g, moves, worlds, b);
    FittingFacts(g, worlds[b]);
    if a == b {
      GrownReflexive(worlds[a][i]);
    } else {
      HistoryGrows(g, moves, worlds, a, b - 1, i);
      HistoryOk(g, moves, worlds, b - 1);
      assert Moves(g, worlds[b - 1], moves[b - 1].0, moves[b - 1].1, worlds[b]);
      MoveKeepsWorld(g, worlds[b - 1], moves[b - 1].0, moves[b - 1].1, worlds[b]);
      GrownTwice(worlds[a][i], worlds[b - 1][i], worlds[b][i]);
    }
  }

  lemma GrownTwice(a: State, b: State, c: State)
    requires Grown(a, b) && Grown(b, c)
    ensures Grown(a, c)
  {
  }

  /** Log agreement: whatever any replica has decided for a slot at any time is what any
      replica decides for it at any other time. */
  lemma LogAgreement(g: Group, moves: seq<(nat, Micro)>, worlds: seq<World>, a: nat, b: nat, i: nat, j: nat, s: Slot)
    requires IsHistory(g, moves, worlds) && a <= b <= |moves| && i < |worlds[a]| && j < |worlds[b]|
    requires s in worlds[a][i].log && s in worlds[b][j].log
    ensures worlds[a][i].log[s] == worlds[b][j].log[s]
  {
    hide WorldOk, Moves;
    HistoryOk(g, moves, worlds, a);
    FittingFacts(g, worlds[a]);
    HistoryGrows(g, moves, worlds, a, b, i);
    HistoryOk(g, moves, worlds, b);
    LogsAgree(g, worlds[b], i, j, s);
  }

  // ---- the same deliveries ----

  lemma {:induction false} ExpectedPrefix(log: Log, k: nat, n: nat)
    requires Filled(log, n) && k <= n
    ensures Expected(log, n)[..k] == Expected(log, k)
  {
    hide Filter, Commands;
    if k < n {
      ExpectedPrefix(log, k, n - 1);
      assert Expected(log, n)[..n - 1] == Expected(log, n - 1);
      assert Expected(log, n)[..k] == Expected(log, n)[..n - 1][..k];
    }
  }

  /** At two replicas, and at any two times, one has delivered a prefix of what the other has:
      slot by slot the same commands, with no gap. */
  lemma DeliveriesAgree(g: Group, moves: seq<(nat, Micro)>, worlds: seq<World>, a: nat, b: nat, i: nat, j: nat)
    requires IsHistory(g, moves, worlds) && a <= b <= |moves| && i < |worlds[a]| && j < |worlds[b]|
    ensures
      var x, y := Deliveries(worlds[a][i].actions), Deliveries(worlds[b][j].actions);
      && (x <= y || y <= x)
      && |x| == worlds[a][i].contig
      && forall k :: 0 <= k < |x| ==> x[k].Deliver? && x[k].slot == k + 1
  {
    hide WorldOk, Moves, Sound, DeliveryOk, SubmittedOk, Expected, DedupAfter, Deliveries;
    HistoryOk(g, moves, worlds, a);
    HistoryOk(g, moves, worlds, b);
    DeliveredIs(g, worlds[a], i);
    DeliveredIs(g, worlds[b], j);
    var p, q := worlds[a][i], worlds[b][j];
    var k := if p.contig <= q.contig then p.contig else q.contig;
    forall s | 1 <= s <= k ensures p.log[s] == q.log[s] {
      LogAgreement(g, moves, worlds, a, b, i, j, s);
    }
    PrefixDetermines(p.log, q.log, k);
    ExpectedPrefix(p.log, k, p.contig);
    ExpectedPrefix(q.log, k, q.contig);
  }

  lemma DeliveredIs(g: Group, w: World, i: nat)
    requires WorldOk(g, w) && i < |w|
    ensures Filled(w[i].log, w[i].contig) && w[i].dedup == DedupAfter(w[i].log, w[i].contig)
    ensures Deliveries(w[i].actions) == Expected(w[i].log, w[i].contig)
  {
    hide WorldOk, StorageOk, LogOk, PoolOk, BudgetOk, SubmittedOk, Filled, DedupAfter, Expected, Deliveries;
    SoundAt(g, w, i);
  }

  lemma {:induction false} ExpectedAt(log: Log, n: nat, k: nat)
    requires Filled(log, n) && k < n
    ensures Expected(log, n)[k] == Deliver(k + 1, KeptAt(log, k + 1))
  {
    hide Filter, Commands, KeptAt;
    if k < n - 1 {
      ExpectedAt(log, n - 1, k);
    }
  }

  /** No command is delivered twice at a replica. */
  lemma ExactlyOnce(g: Group, w: World, i: nat, j: nat, a: nat, k: nat, b: nat)
    requires WorldOk(g, w) && i < |w|
    requires
      var x := Deliveries(w[i].actions);
      && j < |x| && k < |x| && (j < k || (j == k && a < b))
      && x[j].Deliver? && a < |x[j].commands| && x[k].Deliver? && b < |x[k].commands|
    ensures Deliveries(w[i].actions)[j].commands[a].id != Deliveries(w[i].actions)[k].commands[b].id
  {
    hide WorldOk, Deliveries, Expected, DedupAfter, KeptAt;
    DeliveredIs(g, w, i);
    var log, n := w[i].log, w[i].contig;
    ExpectedAt(log, n, j);
    ExpectedAt(log, n, k);
    DeliveredOnce(log, n, j + 1, a, k + 1, b);
  }

  // ---- validity ----

  /** A decided value is a batch that some replica claimed for the slot. */
  lemma DecidedBatch(g: Group, w: World, i: nat, s: Slot) returns (o: nat, cmds: seq<Command>, k: nat)
    requires WorldOk(g, w) && i < |w| && s in w[i].log
    ensures Fitting(g, w) && o < |w| && w[i].log[s] == Batch.BatchBytes(cmds) && BatchTrue(g, w, o, s, cmds, k)
    ensures Commands(w[i].log[s]) == cmds
  {
    hide WorldOk, CI.Inv, CI.Chosen, BatchTrue, Commands, Batch.BatchBytes;
    LoggedIsChosen(g, w, i, s);
    Agreement.DecisionWasEntered(Project(g.ids, w, s), w[i].log[s]);
    o := EnteredBy(g, w, s, w[i].log[s]);
    EntryAt(g, w, o, s);
    cmds, k := EnteredBatch(g, w, o, s, w[i].log[s]);
    BatchFits(g, w, o, s, cmds, k);
    DecodedBatch(cmds);
  }

  lemma EnteredBy(g: Group, w: World, s: Slot, value: Bytes) returns (o: nat)
    requires Fitting(g, w) && CI.Entered(Project(g.ids, w, s), value)
    ensures o < |w| && 4 in HistAt(w[o], s).sent && HistAt(w[o], s).sent[4].proposal.value == value
  {
    hide Net;
    var c := Project(g.ids, w, s);
    o :| CI.Known(c, o) && 4 in CI.Hist(c, o).sent && CI.Hist(c, o).sent[4].proposal.value == value;
    NodeIs(g.ids, w, o, s);
  }

  lemma EnteredBatch(g: Group, w: World, i: nat, s: Slot, value: Bytes) returns (cmds: seq<Command>, k: nat)
    requires Fitting(g, w) && i < |w| && EnteredTrue(g, w, i, s, value)
    ensures value == Batch.BatchBytes(cmds) && BatchTrue(g, w, i, s, cmds, k)
  {
    hide BatchTrue, Batch.BatchBytes;
    cmds, k :| value == Batch.BatchBytes(cmds) && BatchTrue(g, w, i, s, cmds, k);
  }

  lemma BatchFits(g: Group, w: World, i: nat, s: Slot, cmds: seq<Command>, k: nat)
    requires Fitting(g, w) && i < |w| && BatchTrue(g, w, i, s, cmds, k)
    ensures Batch.CommandsFit(cmds) && forall c :: 0 <= c < |cmds| ==> WasSubmitted(g, w, cmds[c])
  {
    hide WasSubmitted, Batch.CommandsFit, Filled;
  }

  /** Every command of a decided slot was submitted at its origin with exactly this data. */
  lemma DecidedWasSubmitted(g: Group, w: World, i: nat, s: Slot, cmd: Command)
    requires WorldOk(g, w) && i < |w| && s in w[i].log && cmd in Commands(w[i].log[s])
    ensures Fitting(g, w) && WasSubmitted(g, w, cmd)
  {
    hide WorldOk, WasSubmitted, BatchTrue, Commands, Batch.CommandsFit;
    var o, cmds, k := DecidedBatch(g, w, i, s);
    BatchFits(g, w, o, s, cmds, k);
  }

  /** End-to-end validity: every delivered command was submitted at its origin, with exactly
      the data delivered. */
  lemma DeliveredWasSubmitted(g: Group, w: World, i: nat, k: nat, c: nat)
    requires WorldOk(g, w) && i < |w|
    requires k < |Deliveries(w[i].actions)| && Deliveries(w[i].actions)[k].Deliver?
      && c < |Deliveries(w[i].actions)[k].commands|
    ensures Fitting(g, w) && WasSubmitted(g, w, Deliveries(w[i].actions)[k].commands[c])
  {
    hide WorldOk, WasSubmitted, Deliveries, Expected, DedupAfter, Filter, Commands;
    DeliveredIs(g, w, i);
    var log := w[i].log;
    ExpectedAt(log, w[i].contig, k);
    FilterSelects(DedupAfter(log, k), Commands(log[k + 1]), c);
    DecidedWasSubmitted(g, w, i, k + 1, KeptAt(log, k + 1)[c]);
  }

  lemma SameIdSameCommand(g: Group, w: World, a: Command, b: Command)
    requires WorldOk(g, w) && Fitting(g, w) && WasSubmitted(g, w, a) && WasSubmitted(g, w, b) && a.id == b.id
    ensures a == b
  {
    hide WorldOk, Gave;
    FittingFacts(g, w);
    var i: nat :| i < |w| && Gave(g.configs[i], w[i], a);
    var j: nat :| j < |w| && Gave(g.configs[j], w[j], b);
    GaveOrigin(g.configs[i], w[i], a);
    GaveOrigin(g.configs[j], w[j], b);
    DistinctIds(g.configs[i], i);
    GaveOnce(g.configs[i], w[i], a, b);
  }

  lemma GaveOrigin(cfg: Config, st: State, cmd: Command)
    requires Gave(cfg, st, cmd)
    ensures cfg.me < |cfg.ids| && cmd.id.origin == cfg.ids[cfg.me]
  {
  }

  lemma GaveOnce(cfg: Config, st: State, a: Command, b: Command)
    requires Gave(cfg, st, a) && Gave(cfg, st, b) && a.id == b.id
    ensures a == b
  {
  }

  /** Nothing decided is lost: every command of a slot up to a replica's frontier is among the
      commands the replica delivered in that slot or in an earlier one. */
  lemma NothingIsLost(g: Group, w: World, i: nat, s: Slot, cmd: Command) returns (t: nat, c: nat)
    requires WorldOk(g, w) && i < |w| && 1 <= s <= w[i].contig && s in w[i].log && cmd in Commands(w[i].log[s])
    ensures 1 <= t <= s <= |Deliveries(w[i].actions)| && Deliveries(w[i].actions)[t - 1].Deliver?
    ensures
      var delivered := Deliveries(w[i].actions)[t - 1];
      delivered.slot == t && c < |delivered.commands| && delivered.commands[c] == cmd
  {
    hide WorldOk, WasSubmitted, Deliveries, Expected, DedupAfter, Filter, Commands, Fitting, Known;
    DeliveredIs(g, w, i);
    FittingFacts(g, w);
    DecidedWasSubmitted(g, w, i, s, cmd);
    SubmittedIsKnown(g, w, i, cmd);
    KnownStartsAtOne(g.configs[i], w[i], cmd.id);
    var k :| 0 <= k < |Commands(w[i].log[s])| && Commands(w[i].log[s])[k] == cmd;
    assert Rides(Commands(w[i].log[s]), cmd.id);
    t, c := DecidedIsDelivered(w[i].log, w[i].contig, s, cmd.id);
    ExpectedAt(w[i].log, w[i].contig, t - 1);
    DeliveredWasSubmitted(g, w, i, t - 1, c);
    SameIdSameCommand(g, w, cmd, KeptAt(w[i].log, t)[c]);
  }

  lemma KnownStartsAtOne(cfg: Config, st: State, id: CommandId)
    requires Known(cfg, st, id)
    ensures id.seqno >= 1
  {
  }

  // ---- nothing stranded ----

  lemma SubmittedIsKnown(g: Group, w: World, i: nat, cmd: Command)
    requires WorldOk(g, w) && i < |w| && Fitting(g, w) && WasSubmitted(g, w, cmd)
    ensures Known(g.configs[i], w[i], cmd.id) && Batch.IdFits(cmd.id)
  {
    hide WorldOk, Sound;
    SoundAt(g, w, i);
    var o: nat :| o < |w| && Gave(g.configs[o], w[o], cmd);
    SoundAt(g, w, o);
    DistinctIds(g.configs[i], i);
  }

  /** Only ids that were given out are ever decided, so every run is honest. */
  lemma LogIsKnown(g: Group, w: World, i: nat)
    requires WorldOk(g, w) && i < |w|
    ensures LogKnown(g.configs[i], w[i])
  {
    hide WorldOk, Known, Commands, WasSubmitted, Batch.IdFits;
    FittingFacts(g, w);
    forall s | s in w[i].log ensures BatchKnown(g.configs[i], w[i], Commands(w[i].log[s])) {
      var cmds := Commands(w[i].log[s]);
      forall k | 0 <= k < |cmds| ensures Known(g.configs[i], w[i], cmds[k].id) {
        DecidedWasSubmitted(g, w, i, s, cmds[k]);
        SubmittedIsKnown(g, w, i, cmds[k]);
      }
    }
  }

  /** No stranded command: at every replica, in every reachable state, whatever waits in the
      pool is undelivered, and whatever is marked as proposed rides in a slot still to be
      delivered that our proposer drives or that was decided with it. */
  lemma {:induction false} NothingStranded(g: Group, moves: seq<(nat, Micro)>, worlds: seq<World>, k: nat, i: nat)
    requires IsHistory(g, moves, worlds) && k <= |moves| && i < |g.ids|
    ensures |worlds[k]| == |g.ids| && RideOk(worlds[k][i])
    decreases k
  {
    hide WorldOk, Moves, RideOk, LogKnown;
    HistoryOk(g, moves, worlds, k);
    FittingFacts(g, worlds[k]);
    if k == 0 {
      InitialSound(g.configs[i]);
    } else {
      NothingStranded(g, moves, worlds, k - 1, i);
      HistoryOk(g, moves, worlds, k - 1);
      assert Moves(g, worlds[k - 1], moves[k - 1].0, moves[k - 1].1, worlds[k]);
      MoveKeepsRide(g, worlds[k - 1], moves[k - 1].0, moves[k - 1].1, worlds[k], i);
    }
  }

  lemma MoveKeepsRide(g: Group, w: World, j: nat, m: Micro, next: World, i: nat)
    requires WorldOk(g, w) && Moves(g, w, j, m, next) && i < |w| == |next| && RideOk(w[i])
    ensures RideOk(next[i])
  {
    hide WorldOk, Moves, RideOk, LogKnown, Sound, SubmittedOk, ReplicaState.Enabled, ReplicaState.Apply, WorldGrown,
      Justified;
    MovesTo(g, w, j, m, next);
    if i == j {
      SoundAt(g, w, i);
      LogIsKnown(g, w, i);
      StepsKeepRide(g.configs[i], g.rngs[i], w[i], m, next[i]);
    }
  }

  // ---- bounded bookkeeping ----

  /** The sparse sequence numbers of every origin lie within the window above its mark. */
  ghost predicate Bounded(d: DedupMap) {
    forall o :: o in d ==> OriginBounded(d[o])
  }

  ghost predicate OriginBounded(o: OriginDedup) {
    forall s :: s in o.above ==> s <= o.highWater + DEDUP_WINDOW
  }

  /** Marks never go back. */
  ghost predicate MarksGrow(d: DedupMap, e: DedupMap) {
    forall origin, boot :: HighWater(d, origin, boot) <= HighWater(e, origin, boot)
  }

  lemma MarkedBounded(d: DedupMap, id: CommandId)
    requires AllTight(d) && Bounded(d) && InWindow(d, id)
    ensures Bounded(MarkDelivered(d, id)) && MarksGrow(d, MarkDelivered(d, id))
  {
    hide Drain, Marked;
    MarkedAdds(OriginOf(d, id), id.seqno);
    var e := MarkDelivered(d, id);
    forall o | o in e ensures OriginBounded(e[o]) {
      if o in d {
        assert OriginBounded(d[o]);
      }
    }
  }

  lemma {:induction false} FilterBounded(base: DedupMap, d: DedupMap, cmds: seq<Command>)
    requires AllTight(d) && Bounded(d) && MarksGrow(base, d) && forall c :: 0 <= c < |cmds| ==>
      InWindow(base, cmds[c].id)
    ensures Bounded(Filter(d, cmds).0) && MarksGrow(base, Filter(d, cmds).0)
  {
    hide MarkDelivered, AllTight, Bounded;
    if cmds != [] {
      var shorter := cmds[..|cmds| - 1];
      FilterBounded(base, d, shorter);
      FilterTight(d, shorter);
      MarkedBounded(Filter(d, shorter).0, cmds[|cmds| - 1].id);
    }
  }

  lemma {:induction false} MarksGrowAlong(log: Log, k: nat, n: nat)
    requires Filled(log, n) && k <= n
    ensures MarksGrow(DedupAfter(log, k), DedupAfter(log, n))
    decreases n
  {
    hide Filter, Commands, MarksGrow, AllTight;
    if k == n {
      MarksReflexive(DedupAfter(log, n));
    } else {
      MarksGrowAlong(log, k, n - 1);
      DedupTight(log, n - 1);
      FilterGrows(DedupAfter(log, n - 1), Commands(log[n]));
      MarksTwice(DedupAfter(log, k), DedupAfter(log, n - 1), DedupAfter(log, n));
    }
  }

  lemma MarksReflexive(d: DedupMap)
    ensures MarksGrow(d, d)
  {
  }

  lemma MarksTwice(a: DedupMap, b: DedupMap, c: DedupMap)
    requires MarksGrow(a, b) && MarksGrow(b, c)
    ensures MarksGrow(a, c)
  {
  }

  lemma {:induction false} FilterGrows(d: DedupMap, cmds: seq<Command>)
    requires AllTight(d)
    ensures MarksGrow(d, Filter(d, cmds).0)
  {
    hide AllTight, MarkDelivered;
    if cmds != [] {
      var shorter := cmds[..|cmds| - 1];
      FilterGrows(d, shorter);
      FilterTight(d, shorter);
      MarkGrows(Filter(d, shorter).0, cmds[|cmds| - 1].id);
    }
  }

  lemma MarkGrows(d: DedupMap, id: CommandId)
    requires AllTight(d)
    ensures MarksGrow(d, MarkDelivered(d, id))
  {
    hide Drain, Marked;
    MarkedAdds(OriginOf(d, id), id.seqno);
  }

  /** What the batcher of a slot had delivered is a prefix of what its deliverer has. */
  lemma BatcherIsBehind(g: Group, w: World, i: nat, o: nat, k: nat)
    requires WorldOk(g, w) && i < |w| && o < |w| && k <= w[i].contig && k <= w[o].contig
    requires Filled(w[i].log, k) && Filled(w[o].log, k)
    ensures DedupAfter(w[o].log, k) == DedupAfter(w[i].log, k)
  {
    hide WorldOk, DedupAfter, Expected;
    forall s | 1 <= s <= k ensures w[o].log[s] == w[i].log[s] {
      LogsAgree(g, w, o, i, s);
    }
    PrefixDetermines(w[o].log, w[i].log, k);
  }

  lemma {:induction false} PrefixBounded(g: Group, w: World, i: nat, n: nat)
    requires WorldOk(g, w) && i < |w| && n <= w[i].contig && Filled(w[i].log, n)
    ensures Bounded(DedupAfter(w[i].log, n))
    decreases n
  {
    hide WorldOk, Bounded, Filter, Commands, AllTight, BatchTrue, MarksGrow, InWindow, Batch.BatchBytes;
    var log := w[i].log;
    if n == 0 {
      NothingBounded();
    } else {
      PrefixBounded(g, w, i, n - 1);
      DedupTight(log, n - 1);
      var o, cmds, k := DecidedBatch(g, w, i, n);
      BatchWindow(g, w, o, n, cmds, k);
      BatcherIsBehind(g, w, i, o, k);
      MarksGrowAlong(log, k, n - 1);
      FilterBounded(DedupAfter(log, k), DedupAfter(log, n - 1), cmds);
    }
  }

  lemma NothingBounded()
    ensures Bounded(map[])
  {
  }

  lemma BatchWindow(g: Group, w: World, i: nat, s: Slot, cmds: seq<Command>, k: nat)
    requires Fitting(g, w) && i < |w| && BatchTrue(g, w, i, s, cmds, k)
    ensures k < s && k <= w[i].contig && Filled(w[i].log, k) && forall c :: 0 <= c < |cmds| ==>
      InWindow(DedupAfter(w[i].log, k), cmds[c].id)
  {
    hide WasSubmitted, Batch.CommandsFit, InWindow;
  }

  /** Bounded dedup state: at every replica, after every delivery, every sparse sequence
      number lies within the window above its origin's mark. */
  lemma DedupIsBounded(g: Group, w: World, i: nat)
    requires WorldOk(g, w) && i < |w|
    ensures forall o, s :: o in w[i].dedup && s in w[i].dedup[o].above ==> s <= w[i].dedup[o].highWater + DEDUP_WINDOW
  {
    hide WorldOk, DedupAfter, Expected, Deliveries;
    DeliveredIs(g, w, i);
    PrefixBounded(g, w, i, w[i].contig);
    assert forall o :: o in w[i].dedup ==> OriginBounded(w[i].dedup[o]);
  }
}
