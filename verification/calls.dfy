/** Calls are moves of the group. */
module Calls {
  // Whatever a call adds to a replica's trail extends the history of the group the replica
  // belongs to, so every guarantee of the group is one about calls.

  import opened Types
  import opened ReplicaState
  import opened ReplicaInvariant
  import opened Delivery
  import opened Retention
  import opened Riding
  import opened ReplicaRuns
  import opened ReplicaRest
  import opened Emissions
  import opened Announcements
  import opened Projection
  import opened GroupRuns
  import opened GroupSteps
  import opened Guarantees
  import opened Honesty
  import Wire

  // ---- one replica's trail ----

  /** A trail determines the states it leads through. */
  lemma {:induction false} SameStates(cfg: Config, rng: Rng, trail: seq<Micro>, a: seq<State>, b: seq<State>, k: nat)
    requires IsRun(cfg, rng, trail, a) && IsRun(cfg, rng, trail, b) && k <= |trail|
    ensures a[k] == b[k]
  {
    hide Steps;
    if k > 0 {
      SameStates(cfg, rng, trail, a, b, k - 1);
      assert Steps(cfg, rng, a[k - 1], trail[k - 1], a[k]);
      assert Steps(cfg, rng, b[k - 1], trail[k - 1], b[k]);
      SameStep(cfg, rng, a[k - 1], trail[k - 1], a[k], b[k]);
    }
  }

  lemma SameStep(cfg: Config, rng: Rng, st: State, m: Micro, a: State, b: State)
    requires Steps(cfg, rng, st, m, a) && Steps(cfg, rng, st, m, b)
    ensures a == b
  {
    hide Enabled, Apply;
  }

  lemma RanPrefix(cfg: Config, rng: Rng, trail: seq<Micro>, states: seq<State>, k: nat)
    requires IsRun(cfg, rng, trail, states) && k <= |trail|
    ensures Ran(cfg, rng, trail[..k], states[k])
  {
    hide Steps;
    var part, shorter := trail[..k], states[..k + 1];
    assert IsRun(cfg, rng, part, shorter) by {
      forall j {:trigger part[j]} | 0 <= j < |part| ensures Steps(cfg, rng, shorter[j], part[j], shorter[j + 1]) {
        assert Steps(cfg, rng, states[j], trail[j], states[j + 1]);
      }
    }
  }

  /** One more step on a trail comes from the state the trail leads to. */
  lemma LastStep(cfg: Config, rng: Rng, trail: seq<Micro>, m: Micro, next: State) returns (st: State)
    requires Ran(cfg, rng, trail + [m], next)
    ensures Ran(cfg, rng, trail, st) && Steps(cfg, rng, st, m, next)
  {
    hide Steps;
    var states :| IsRun(cfg, rng, trail + [m], states) && states[|trail + [m]|] == next;
    RanPrefix(cfg, rng, trail + [m], states, |trail|);
    assert (trail + [m])[..|trail|] == trail && (trail + [m])[|trail|] == m;
    st := states[|trail|];
  }

  lemma RanOnce(cfg: Config, rng: Rng, trail: seq<Micro>, a: State, b: State)
    requires Ran(cfg, rng, trail, a) && Ran(cfg, rng, trail, b)
    ensures a == b
  {
    hide Steps;
    var x :| IsRun(cfg, rng, trail, x) && x[|trail|] == a;
    var y :| IsRun(cfg, rng, trail, y) && y[|trail|] == b;
    SameStates(cfg, rng, trail, x, y, |trail|);
  }

  // ---- extending a history ----

  /** The moves of one replica that takes some steps. */
  function MovesOf(i: nat, steps: seq<Micro>): seq<(nat, Micro)> {
    seq(|steps|, k requires 0 <= k < |steps| => (i, steps[k]))
  }

  /** What entitles replica `i` to a step: its own accord, or a message of another replica. */
  ghost predicate Entitled(w: World, i: nat, from: nat, message: Wire.Message, m: Micro) {
    IsLocal(m) || (from != i && Justifies(w, from, i, message, m))
  }

  /** The history `moves`, `worlds` goes on with these steps of replica `i` and leads it to
      `next`, the others being as they were. */
  ghost predicate GoesOn(g: Group, moves: seq<(nat, Micro)>, worlds: seq<World>, i: nat, steps: seq<Micro>, next: State,
                         longer: seq<World>) {
    && IsHistory(g, moves + MovesOf(i, steps), longer) && worlds <= longer
    && |worlds| == |moves| + 1 && i < |worlds[|moves|]| && longer[|moves| + |steps|] == worlds[|moves|][i := next]
  }

  lemma EntitledStays(w: World, i: nat, next: State, from: nat, message: Wire.Message, m: Micro)
    requires i < |w| && Entitled(w, i, from, message, m)
    ensures Justified(w[i := next], i, m)
  {
    hide Carries;
    if !IsLocal(m) {
      var later := w[i := next];
      var k: nat :| k < |w[from].actions| && w[from].actions[k] == Send(i, message);
      assert later[from].actions[k] == Send(i, message);
      assert Justifies(later, from, i, message, m);
    }
  }

  lemma OneMoreMove(g: Group, moves: seq<(nat, Micro)>, worlds: seq<World>, i: nat, m: Micro, next: State)
    requires IsHistory(g, moves, worlds) && i < |worlds[|moves|]| && Fitting(g, worlds[|moves|])
    requires Steps(g.configs[i], g.rngs[i], worlds[|moves|][i], m, next) && Justified(worlds[|moves|], i, m)
    ensures IsHistory(g, moves + [(i, m)], worlds + [worlds[|moves|][i := next]])
  {
    hide Justified, ReplicaState.Enabled, ReplicaState.Apply, Fitting;
    var longer, w := moves + [(i, m)], worlds[|moves|];
    var states := worlds + [w[i := next]];
    assert Moves(g, w, i, m, w[i := next]);
    forall k {:trigger longer[k]} | 0 <= k < |longer|
      ensures Moves(g, states[k], longer[k].0, longer[k].1, states[k + 1])
    {
      if k < |moves| {
        assert longer[k] == moves[k];
        assert Moves(g, worlds[k], moves[k].0, moves[k].1, worlds[k + 1]);
      }
    }
  }

  lemma HistoryShape(g: Group, moves: seq<(nat, Micro)>, worlds: seq<World>)
    requires IsHistory(g, moves, worlds)
    ensures g.Valid() && |worlds| == |moves| + 1 && Fitting(g, worlds[|moves|])
  {
    hide WorldOk, Moves;
    HistoryOk(g, moves, worlds, |moves|);
    FittingFacts(g, worlds[|moves|]);
  }

  lemma MovesAppend(moves: seq<(nat, Micro)>, i: nat, steps: seq<Micro>, m: Micro)
    ensures moves + MovesOf(i, steps + [m]) == moves + MovesOf(i, steps) + [(i, m)]
    ensures moves + MovesOf(i, []) == moves
  {
    assert MovesOf(i, steps + [m]) == MovesOf(i, steps) + [(i, m)];
  }

  lemma GoesOnce(g: Group, moves: seq<(nat, Micro)>, worlds: seq<World>, i: nat, steps: seq<Micro>, st: State,
      shorter: seq<World>, m: Micro, next: State) returns (longer: seq<World>)
    requires |worlds| == |moves| + 1 && i < |worlds[|moves|]| && GoesOn(g, moves, worlds, i, steps, st, shorter)
    requires i < |g.configs| && i < |g.rngs| && Steps(g.configs[i], g.rngs[i], st, m, next)
    requires Justified(worlds[|moves|][i := st], i, m)
    ensures GoesOn(g, moves, worlds, i, steps + [m], next, longer)
  {
    hide IsHistory, Steps, Justified, Fitting;
    var done := moves + MovesOf(i, steps);
    HistoryShape(g, done, shorter);
    OneMoreMove(g, done, shorter, i, m, next);
    MovesAppend(moves, i, steps, m);
    longer := shorter + [worlds[|moves|][i := st][i := next]];
    assert worlds[|moves|][i := st][i := next] == worlds[|moves|][i := next];
  }

  /** Steps of a replica that are its own or take up a message sent to it extend any history
      that has led the replica where the steps begin. */
  lemma {:induction false} HistoryGoesOn(g: Group, moves: seq<(nat, Micro)>, worlds: seq<World>, i: nat,
      before: seq<Micro>, steps: seq<Micro>, next: State, from: nat, message: Wire.Message) returns (longer: seq<World>)
    requires IsHistory(g, moves, worlds) && i < |g.ids| && i < |worlds[|moves|]|
    requires Ran(g.configs[i], g.rngs[i], before, worlds[|moves|][i])
    requires Ran(g.configs[i], g.rngs[i], before + steps, next)
    requires forall k :: 0 <= k < |steps| ==> Entitled(worlds[|moves|], i, from, message, steps[k])
    ensures GoesOn(g, moves, worlds, i, steps, next, longer)
    decreases |steps|
  {
    hide Ran, IsHistory, Entitled, Steps, Justified, GoesOn;
    HistoryShape(g, moves, worlds);
    var cfg, rng, w := g.configs[i], g.rngs[i], worlds[|moves|];
    if steps == [] {
      assert before + steps == before;
      RanOnce(cfg, rng, before, w[i], next);
      longer := worlds;
      NothingMore(g, moves, worlds, i);
    } else {
      var front, m := steps[..|steps| - 1], steps[|steps| - 1];
      assert before + steps == before + front + [m] && steps == front + [m];
      var st := LastStep(cfg, rng, before + front, m, next);
      assert forall k :: 0 <= k < |front| ==> front[k] == steps[k];
      var shorter := HistoryGoesOn(g, moves, worlds, i, before, front, st, from, message);
      EntitledStays(w, i, st, from, message, m);
      longer := GoesOnce(g, moves, worlds, i, front, st, shorter, m, next);
    }
  }

  lemma NothingMore(g: Group, moves: seq<(nat, Micro)>, worlds: seq<World>, i: nat)
    requires IsHistory(g, moves, worlds) && i < |worlds[|moves|]|
    ensures GoesOn(g, moves, worlds, i, [], worlds[|moves|][i], worlds)
  {
    hide Moves;
    assert moves + MovesOf(i, []) == moves && worlds[|moves|][i := worlds[|moves|][i]] == worlds[|moves|];
  }

  /** What a call adds to the trail of replica `i` is its own or takes up the message. */
  lemma CallGoesOn(g: Group, moves: seq<(nat, Micro)>, worlds: seq<World>, i: nat, before: seq<Micro>,
        after: seq<Micro>,
      next: State, from: nat, message: Wire.Message) returns (longer: seq<World>)
    requires IsHistory(g, moves, worlds) && i < |g.ids| && i < |worlds[|moves|]|
    requires Ran(g.configs[i], g.rngs[i], before, worlds[|moves|][i]) && Ran(g.configs[i], g.rngs[i], after, next)
    requires
      || LocalSince(before, after)
      || (from != i && Sent(worlds[|moves|], from, i, message) && CausedSince(from, message, before, after))
    ensures before <= after && GoesOn(g, moves, worlds, i, after[|before|..], next, longer)
  {
    hide Ran, IsHistory, GoesOn, Sent, Carries;
    HistoryShape(g, moves, worlds);
    var steps := after[|before|..];
    assert before + steps == after;
    forall k | 0 <= k < |steps| ensures Entitled(worlds[|moves|], i, from, message, steps[k]) {
      assert steps[k] == after[|before| + k];
    }
    longer := HistoryGoesOn(g, moves, worlds, i, before, steps, next, from, message);
  }

  // ---- a group of one ----

  /** Alone, a replica takes no step that takes up a message. */
  lemma AloneIsLocal(cfg: Config, rng: Rng, st: State, m: Micro, next: State)
    requires Steps(cfg, rng, st, m, next) && cfg.N() == 1
    ensures IsLocal(m)
  {
    hide Apply, CanFold, CanDrive, Takeable, CanOpen, Forwardable, IsChunk;
  }

  lemma AloneSince(cfg: Config, rng: Rng, trail: seq<Micro>, st: State)
    requires Ran(cfg, rng, trail, st) && cfg.N() == 1
    ensures LocalSince([], trail)
  {
    hide Steps;
    var states :| IsRun(cfg, rng, trail, states) && states[|trail|] == st;
    forall k | 0 <= k < |trail| ensures IsLocal(trail[k]) {
      assert Steps(cfg, rng, states[k], trail[k], states[k + 1]);
      AloneIsLocal(cfg, rng, states[k], trail[k], states[k + 1]);
    }
  }

  /** The run of a lone replica is a history of its group of one, so nothing is stranded. */
  lemma LoneRides(cfg: Config, rng: Rng, trail: seq<Micro>, st: State)
    requires Ran(cfg, rng, trail, st) && cfg.N() == 1
    ensures RideOk(st)
  {
    hide Ran, RideOk, LocalSince, Sent;
    RanSound(cfg, rng, trail, st);
    RanNothing(cfg, rng);
    AloneSince(cfg, rng, trail, st);
    var g := Group(cfg.ids, [cfg], [rng]);
    var start := [StartWorld(g)];
    var longer := CallGoesOn(g, [], start, 0, [], trail, st, 0, Wire.Message(0, 0, Wire.Ping));
    assert trail[0..] == trail && [] + MovesOf(0, trail) == MovesOf(0, trail);
    NothingStranded(g, MovesOf(0, trail), longer, |trail|, 0);
  }

  // ---- a message in a history ----

  /** Any message sent to a replica meets the premises of its receiver, at any time. */
  lemma MessageIsHonest(g: Group, moves: seq<(nat, Micro)>, worlds: seq<World>, i: nat, from: nat,
        message: Wire.Message)
    requires IsHistory(g, moves, worlds) && i < |worlds[|moves|]| && Sent(worlds[|moves|], from, i, message)
    ensures i < |g.configs| && from < |g.ids| && message.from == g.ids[from]
    ensures forall f :: 0 <= f < |g.ids| && g.ids[f] == message.from ==> f == from
    ensures HonestMessage(g.configs[i], worlds[|moves|][i], from, message)
  {
    hide Moves, WorldOk, Sent, HonestMessage;
    var w := worlds[|moves|];
    HistoryOk(g, moves, worlds, |moves|);
    FittingFacts(g, w);
    NetworkIsHonest(g, w, from, i, message);
    SenderIn(w, from, i, message);
    MessageAt(g, w, from, i, message);
    assert g.configs[0].Valid() && g.configs[0].ids == g.ids;
  }

  // ---- what a trail emitted ----

  /** Nothing emitted is taken back. */
  lemma {:induction false} ActionsGrow(cfg: Config, rng: Rng, trail: seq<Micro>, states: seq<State>, j: nat, k: nat)
    requires IsRun(cfg, rng, trail, states) && j <= k <= |trail|
    ensures Extends(states[j], states[k])
    decreases k
  {
    hide Steps, Sound;
    if j < k {
      ActionsGrow(cfg, rng, trail, states, j, k - 1);
      RunSound(cfg, rng, trail, states, k - 1);
      assert Steps(cfg, rng, states[k - 1], trail[k - 1], states[k]);
      StepExtends(cfg, rng, states[k - 1], trail[k - 1], states[k]);
    }
  }

  lemma StepExtends(cfg: Config, rng: Rng, st: State, m: Micro, next: State)
    requires Sound(cfg, st) && Steps(cfg, rng, st, m, next)
    ensures Extends(st, next)
  {
    hide StorageOk, LogOk, PoolOk, DeliveryOk, BudgetOk, ReplicaState.Enabled, ReplicaState.Apply;
    StepEmits(cfg, rng, st, m);
  }

  lemma AnswerAdds(cfg: Config, rng: Rng, st: State, m: Micro, next: State)
    requires Steps(cfg, rng, st, m, next) && m.AnswerStep? && cfg.me < |cfg.ids|
    ensures
      var reply := Wire.LearnReply(m.fromSlot, m.values);
      next.actions == st.actions + [Send(m.to, Wire.Message(cfg.ids[cfg.me], st.contig, reply))]
  {
    hide IsChunk;
  }

  /** Each step of a trail was one between the states before and after it. */
  lemma Between(cfg: Config, rng: Rng, trail: seq<Micro>, st: State, before: seq<Micro>, start: State, k: nat)
    returns (mid: State, next: State)
    requires Ran(cfg, rng, trail, st) && Ran(cfg, rng, before, start) && before <= trail && |before| <= k < |trail|
    ensures Ran(cfg, rng, trail[..k], mid) && Steps(cfg, rng, mid, trail[k], next)
    ensures Extends(start, mid) && Extends(next, st)
  {
    hide Steps;
    var states: seq<State> :| IsRun(cfg, rng, trail, states) && states[|trail|] == st;
    mid, next := states[k], states[k + 1];
    assert Steps(cfg, rng, mid, trail[k], next);
    RanPrefix(cfg, rng, trail, states, k);
    RanPrefix(cfg, rng, trail, states, |before|);
    assert trail[..|before|] == before;
    RanOnce(cfg, rng, before, states[|before|], start);
    ActionsGrow(cfg, rng, trail, states, |before|, k);
    ActionsGrow(cfg, rng, trail, states, k + 1, |trail|);
  }

  /** An answer on the trail was sent, with the values it names, after all that was emitted
      when the trail was shorter. */
  lemma AnswerIsSent(cfg: Config, rng: Rng, trail: seq<Micro>, st: State, before: seq<Micro>, start: State, k: nat)
    returns (a: nat)
    requires Ran(cfg, rng, trail, st) && Ran(cfg, rng, before, start) && before <= trail
    requires |before| <= k < |trail| && trail[k].AnswerStep? && cfg.me < |cfg.ids|
    ensures |start.actions| <= a < |st.actions|
    ensures IsMessage(st.actions[a], trail[k].to, Wire.LearnReply(trail[k].fromSlot, trail[k].values))
  {
    hide Steps, Ran;
    var mid, next := Between(cfg, rng, trail, st, before, start, k);
    AnswerAdds(cfg, rng, mid, trail[k], next);
    a := |mid.actions|;
    assert next.actions[a] == st.actions[..|next.actions|][a];
  }

  /** So was the answer to a record, by a replica that by then had it recorded or knew the
      slot decided. */
  lemma RecordIsSent(cfg: Config, rng: Rng, trail: seq<Micro>, st: State, before: seq<Micro>, start: State, k: nat)
    returns (a: nat, next: State)
    requires Ran(cfg, rng, trail, st) && Ran(cfg, rng, before, start) && before <= trail
    requires |before| <= k < |trail| && trail[k].RecordStep?
    ensures |start.actions| <= a < |st.actions| && Extends(next, st) && Ran(cfg, rng, trail[..k + 1], next)
    ensures AnswerTo(st.actions[a], next, trail[k].from, trail[k].slot, trail[k].step, trail[k].proposal)
  {
    hide Steps, Ran, AnswerTo;
    var mid;
    mid, next := Between(cfg, rng, trail, st, before, start, k);
    RanStep(cfg, rng, trail[..k], mid, trail[k], next);
    assert trail[..k] + [trail[k]] == trail[..k + 1];
    RecordStepTells(cfg, rng, mid, trail[k], next);
    a := |mid.actions|;
    assert next.actions[a] == st.actions[..|next.actions|][a];
  }

  lemma RecordStepTells(cfg: Config, rng: Rng, st: State, m: Micro, next: State)
    requires Steps(cfg, rng, st, m, next) && m.RecordStep?
    ensures RecordAnswered(st, next, m.from, m.slot, m.step, m.proposal)
  {
    hide RecordAt, RecordAnswered;
    RecordIsAnswered(cfg, st, m.from, m.slot, m.step, m.proposal, m.now);
  }

  /** What was emitted when the trail was shorter is still there. */
  lemma LaterExtends(cfg: Config, rng: Rng, before: seq<Micro>, start: State, trail: seq<Micro>, st: State)
    requires Ran(cfg, rng, before, start) && Ran(cfg, rng, trail, st) && before <= trail
    ensures Extends(start, st)
  {
    hide Steps;
    var states: seq<State> :| IsRun(cfg, rng, trail, states) && states[|trail|] == st;
    RanPrefix(cfg, rng, trail, states, |before|);
    assert trail[..|before|] == before;
    RanOnce(cfg, rng, before, states[|before|], start);
    ActionsGrow(cfg, rng, trail, states, |before|, |trail|);
  }

  // ---- what a trail noted and learned ----

  /** What is noted of another replica's frontier never falls. */
  lemma {:induction false} AcksGrow(cfg: Config, rng: Rng, trail: seq<Micro>, states: seq<State>, i: nat, k: nat,
      j: nat)
    requires IsRun(cfg, rng, trail, states) && i <= k <= |trail| && j < cfg.N() && j != cfg.me
    ensures |states[i].peerAcked| == |states[k].peerAcked| == cfg.N()
    ensures states[i].peerAcked[j] <= states[k].peerAcked[j]
    decreases k
  {
    hide Steps, Sound;
    RunSound(cfg, rng, trail, states, k);
    AckedOf(cfg, states[k]);
    if i < k {
      AcksGrow(cfg, rng, trail, states, i, k - 1, j);
      assert Steps(cfg, rng, states[k - 1], trail[k - 1], states[k]);
      OneStepAcks(cfg, rng, states[k - 1], trail[k - 1], states[k], j);
    }
  }

  lemma AckedOf(cfg: Config, st: State)
    requires Sound(cfg, st)
    ensures |st.peerAcked| == cfg.N()
  {
  }

  lemma OneStepAcks(cfg: Config, rng: Rng, st: State, m: Micro, next: State, j: nat)
    requires Steps(cfg, rng, st, m, next) && j < |st.peerAcked| && j != cfg.me && |next.peerAcked| == |st.peerAcked|
    ensures next.peerAcked[j] >= st.peerAcked[j]
    ensures m.Header? && m.from == j ==> next.peerAcked[j] >= m.decided
  {
    hide ReplicaState.Enabled, ReplicaState.Apply;
    StepAcks(cfg, rng, st, m);
  }

  /** A header on the trail was noted, and still is. */
  lemma HeaderNoted(cfg: Config, rng: Rng, trail: seq<Micro>, st: State, k: nat)
    requires Ran(cfg, rng, trail, st) && k < |trail| && trail[k].Header? && trail[k].from < cfg.N()
      && trail[k].from != cfg.me
    ensures |st.peerAcked| == cfg.N() && st.peerAcked[trail[k].from] >= trail[k].decided
  {
    hide Steps;
    var states: seq<State> :| IsRun(cfg, rng, trail, states) && states[|trail|] == st;
    var j := trail[k].from;
    AcksGrow(cfg, rng, trail, states, k, k + 1, j);
    AcksGrow(cfg, rng, trail, states, k + 1, |trail|, j);
    assert Steps(cfg, rng, states[k], trail[k], states[k + 1]);
    OneStepAcks(cfg, rng, states[k], trail[k], states[k + 1], j);
  }

  /** What is decided stays decided. */
  lemma {:induction false} LogsGrow(cfg: Config, rng: Rng, trail: seq<Micro>, states: seq<State>, i: nat, k: nat)
    requires IsRun(cfg, rng, trail, states) && i <= k <= |trail|
    ensures LogExtends(states[i].log, states[k].log)
    decreases k
  {
    hide Steps, Sound;
    if i < k {
      LogsGrow(cfg, rng, trail, states, i, k - 1);
      RunSound(cfg, rng, trail, states, k - 1);
      assert Steps(cfg, rng, states[k - 1], trail[k - 1], states[k]);
      OneStepLog(cfg, rng, states[k - 1], trail[k - 1], states[k]);
    }
  }

  lemma OneStepLog(cfg: Config, rng: Rng, st: State, m: Micro, next: State)
    requires Sound(cfg, st) && Steps(cfg, rng, st, m, next)
    ensures LogExtends(st.log, next.log)
  {
    hide StorageOk, LogOk, PoolOk, DeliveryOk, BudgetOk, ReplicaState.Enabled, ReplicaState.Apply;
    StepKeepsDelivery(cfg, rng, st, m);
    if m.DeliverStep? {
      DeliverIs(cfg, rng, st, m);
      DeliverGrows(st);
    }
  }

  lemma DeliverIs(cfg: Config, rng: Rng, st: State, m: Micro)
    requires ReplicaState.Enabled(cfg, st, m) && m.DeliverStep?
    ensures st.contig + 1 in st.retained && ReplicaState.Apply(cfg, rng, st, m) == DeliverNext(st)
  {
    hide DeliverNext;
  }

  lemma LearnStepLogs(cfg: Config, rng: Rng, st: State, m: Micro, next: State)
    requires Steps(cfg, rng, st, m, next) && m.LearnStep?
    ensures m.slot in next.log && next.log[m.slot] == m.value
  {
    hide Install, CanLearn;
    InstallLogs(cfg, st, m.slot, m.value, false, m.now);
  }

  /** A decision learned on the trail is decided. */
  lemma LearnedIsDecided(cfg: Config, rng: Rng, trail: seq<Micro>, st: State, k: nat)
    requires Ran(cfg, rng, trail, st) && k < |trail| && trail[k].LearnStep?
    ensures trail[k].slot in st.log && st.log[trail[k].slot] == trail[k].value
  {
    hide Steps;
    var states: seq<State> :| IsRun(cfg, rng, trail, states) && states[|trail|] == st;
    assert Steps(cfg, rng, states[k], trail[k], states[k + 1]);
    LearnStepLogs(cfg, rng, states[k], trail[k], states[k + 1]);
    LogsGrow(cfg, rng, trail, states, k + 1, |trail|);
  }

  /** A decided value that fits is taken: afterwards its slot is decided here. */
  lemma FittingIsDecided(cfg: Config, rng: Rng, before: seq<Micro>, start: State, trail: seq<Micro>, st: State,
      slot: Slot, value: Bytes, now: nat)
    requires Ran(cfg, rng, before, start) && Ran(cfg, rng, trail, st) && cfg.N() > 1
    requires LocalSince(before + if CanLearn(cfg, start, slot, value) then [LearnStep(slot, value, now)] else [], trail)
    requires slot > start.gcFloor
    requires slot <= start.contig + 1 || TotalBytes(start.retained) + |value| <= cfg.maxRetainedBytes
    ensures slot in st.log
  {
    hide Ran, LocalSince, CanLearn, StorageOk, LogOk, PoolOk, DeliveryOk, BudgetOk;
    var m := LearnStep(slot, value, now);
    RanSound(cfg, rng, before, start);
    if CanLearn(cfg, start, slot, value) {
      LocalGrows(before + [m], trail);
      assert trail[|before|] == (before + [m])[|before|] == m;
      LearnedIsDecided(cfg, rng, trail, st, |before|);
    } else {
      assert before + [] == before;
      LocalGrows(before, trail);
      RefusedIsDecided(cfg, start, slot, value);
      StillDecided(cfg, rng, before, start, trail, st, slot);
    }
  }

  lemma RefusedIsDecided(cfg: Config, st: State, slot: Slot, value: Bytes)
    requires StorageOk(cfg, st) && LogOk(st) && !CanLearn(cfg, st, slot, value) && cfg.N() > 1 && slot > st.gcFloor
    requires slot <= st.contig + 1 || TotalBytes(st.retained) + |value| <= cfg.maxRetainedBytes
    ensures slot in st.log
  {
    hide TotalBytes;
    SlotFacts(cfg, st, slot);
  }

  lemma StillDecided(cfg: Config, rng: Rng, before: seq<Micro>, start: State, trail: seq<Micro>, st: State, slot: Slot)
    requires Ran(cfg, rng, before, start) && Ran(cfg, rng, trail, st) && before <= trail && slot in start.log
    ensures slot in st.log && st.log[slot] == start.log[slot]
  {
    hide Steps;
    var states: seq<State> :| IsRun(cfg, rng, trail, states) && states[|trail|] == st;
    RanPrefix(cfg, rng, trail, states, |before|);
    assert trail[..|before|] == before;
    RanOnce(cfg, rng, before, states[|before|], start);
    LogsGrow(cfg, rng, trail, states, |before|, |trail|);
  }
}
