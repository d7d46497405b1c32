/** The runs of one replica. */
module ReplicaRuns {
  // Every reachable state of one replica, over all sequences of steps.

  import opened Types
  import opened ReplicaState
  import opened ReplicaInvariant
  import opened Delivery
  import opened Retention
  import opened Riding
  import Wire

  /** What holds whatever a replica is sent. */
  ghost predicate Sound(cfg: Config, st: State) {
    StorageOk(cfg, st) && LogOk(st) && PoolOk(cfg, st) && DeliveryOk(st) && BudgetOk(cfg, st)
  }

  lemma InitialSound(cfg: Config)
    requires cfg.Valid()
    ensures Sound(cfg, Initial(cfg)) && RideOk(Initial(cfg))
  {
    var st := Initial(cfg);
    assert RemoteAhead(st) == map[];
    assert Sizes(RemoteAhead(st)) == map[];
  }

  lemma StepKeepsSound(cfg: Config, rng: Rng, st: State, m: Micro)
    requires Sound(cfg, st) && Enabled(cfg, st, m)
    ensures Sound(cfg, Apply(cfg, rng, st, m))
  {
    hide StorageOk, LogOk, PoolOk, DeliveryOk, BudgetOk, Enabled, Apply;
    StepKeepsStorage(cfg, rng, st, m);
    StepKeepsPool(cfg, rng, st, m);
    StepKeepsDelivery(cfg, rng, st, m);
    StepKeepsBudget(cfg, rng, st, m);
  }

  /** One possible step. */
  ghost predicate Steps(cfg: Config, rng: Rng, st: State, m: Micro, next: State) {
    Enabled(cfg, st, m) && next == Apply(cfg, rng, st, m)
  }

  /** A run: the states that a sequence of possible steps leads through. */
  ghost predicate IsRun(cfg: Config, rng: Rng, trail: seq<Micro>, states: seq<State>) {
    && cfg.Valid() && |states| == |trail| + 1 && states[0] == Initial(cfg)
    && forall k {:trigger trail[k]} :: 0 <= k < |trail| ==> Steps(cfg, rng, states[k], trail[k], states[k + 1])
  }

  ghost predicate Ran(cfg: Config, rng: Rng, trail: seq<Micro>, st: State) {
    exists states :: IsRun(cfg, rng, trail, states) && states[|trail|] == st
  }

  lemma RanNothing(cfg: Config, rng: Rng)
    requires cfg.Valid()
    ensures Ran(cfg, rng, [], Initial(cfg))
  {
    assert IsRun(cfg, rng, [], [Initial(cfg)]);
  }

  lemma RanStep(cfg: Config, rng: Rng, trail: seq<Micro>, st: State, m: Micro, next: State)
    requires Ran(cfg, rng, trail, st) && Steps(cfg, rng, st, m, next)
    ensures Ran(cfg, rng, trail + [m], next)
  {
    hide Steps;
    var states :| IsRun(cfg, rng, trail, states) && states[|trail|] == st;
    assert IsRun(cfg, rng, trail + [m], states + [next]) by {
      forall k {:trigger (trail + [m])[k]} | 0 <= k < |trail + [m]|
        ensures Steps(cfg, rng, (states + [next])[k], (trail + [m])[k], (states + [next])[k + 1])
      {
        if k < |trail| {
          assert Steps(cfg, rng, states[k], trail[k], states[k + 1]);
        }
      }
    }
  }

  lemma StepsKeepSound(cfg: Config, rng: Rng, st: State, m: Micro, next: State)
    requires Sound(cfg, st) && Steps(cfg, rng, st, m, next)
    ensures Sound(cfg, next)
  {
    hide Sound, Enabled, Apply;
    StepKeepsSound(cfg, rng, st, m);
  }

  /** Every state of every run is sound. */
  lemma {:induction false} RunSound(cfg: Config, rng: Rng, trail: seq<Micro>, states: seq<State>, k: nat)
    requires IsRun(cfg, rng, trail, states) && k <= |trail|
    ensures Sound(cfg, states[k])
  {
    hide Sound, Steps;
    if k == 0 {
      InitialSound(cfg);
    } else {
      RunSound(cfg, rng, trail, states, k - 1);
      assert Steps(cfg, rng, states[k - 1], trail[k - 1], states[k]);
      StepsKeepSound(cfg, rng, states[k - 1], trail[k - 1], states[k]);
    }
  }

  lemma RanSound(cfg: Config, rng: Rng, trail: seq<Micro>, st: State)
    requires Ran(cfg, rng, trail, st)
    ensures Sound(cfg, st) && cfg.Valid()
  {
    hide Sound, Steps;
    var states :| IsRun(cfg, rng, trail, states) && states[|trail|] == st;
    RunSound(cfg, rng, trail, states, |trail|);
  }

  /** Along the whole run only ids their origins gave out were decided here. */
  ghost predicate Honest(cfg: Config, states: seq<State>) {
    forall k :: 0 <= k < |states| ==> LogKnown(cfg, states[k])
  }

  /** In every honest run, nothing is ever stranded. */
  lemma {:induction false} NeverStranded(cfg: Config, rng: Rng, trail: seq<Micro>, states: seq<State>, k: nat)
    requires IsRun(cfg, rng, trail, states) && Honest(cfg, states) && k <= |trail|
    ensures RideOk(states[k])
  {
    hide Steps, LogKnown, RideOk, Sound;
    if k == 0 {
      InitialSound(cfg);
    } else {
      NeverStranded(cfg, rng, trail, states, k - 1);
      RunSound(cfg, rng, trail, states, k - 1);
      assert Steps(cfg, rng, states[k - 1], trail[k - 1], states[k]);
      StepsKeepRide(cfg, rng, states[k - 1], trail[k - 1], states[k]);
    }
  }

  lemma StepsKeepRide(cfg: Config, rng: Rng, st: State, m: Micro, next: State)
    requires Sound(cfg, st) && LogKnown(cfg, st) && RideOk(st) && Steps(cfg, rng, st, m, next)
    ensures RideOk(next)
  {
    hide StorageOk, PoolOk, DeliveryOk, LogKnown, RideOk, Enabled, Apply, LogOk, BudgetOk;
    StepKeepsRide(cfg, rng, st, m);
  }

  /** The steps a replica takes of its own accord, whatever it is sent. */
  predicate IsLocal(m: Micro) {
    !(m.Header? || m.RecordStep? || m.ReplyStep? || m.LearnStep? || m.PoolStep? || m.AnswerStep? || m.EndLearn?)
  }

  /** Only steps of its own accord were taken since. */
  ghost predicate LocalSince(before: seq<Micro>, after: seq<Micro>) {
    before <= after && forall k :: |before| <= k < |after| ==> IsLocal(after[k])
  }

  lemma LocalMore(a: seq<Micro>, b: seq<Micro>, c: seq<Micro>)
    requires LocalSince(a, b) && LocalSince(b, c)
    ensures LocalSince(a, c)
  {
    forall k | |a| <= k < |c| ensures IsLocal(c[k]) {
      if k < |b| {
        assert c[k] == b[k];
      }
    }
  }

  lemma LocalGrows(a: seq<Micro>, b: seq<Micro>)
    requires LocalSince(a, b)
    ensures a <= b
  {
  }

  lemma LocalOne(a: seq<Micro>, m: Micro)
    requires IsLocal(m)
    ensures LocalSince(a, a + [m])
  {
  }

  lemma LocalNone(a: seq<Micro>)
    ensures LocalSince(a, a)
  {
  }

  /** What of a message a step may take up. */
  predicate Carries(from: nat, message: Wire.Message, m: Micro) {
    match m
    case Header(f, decided) => f == from && decided == message.decided
    case RecordStep(f, slot, step, proposal, _) => f == from && message.payload == Wire.Record(slot, step, proposal)
    case ReplyStep(f, slot, reqStep, step, first, priorAgg, _) =>
      f == from && message.payload == Wire.RecordReply(slot, reqStep, step, first, priorAgg)
    case LearnStep(slot, value, _) => CarriesDecision(message.payload, slot, value)
    case PoolStep(cmd, _) => message.payload.Forward? && cmd in message.payload.commands
    case AnswerStep(to, fromSlot, _) => to == from && message.payload == Wire.Learn(fromSlot)
    case EndLearn => message.payload.LearnReply?
    case _ => true
  }

  predicate CarriesDecision(p: Wire.Payload, slot: Slot, value: Bytes) {
    match p
    case Decide(s, v) => s == slot && v == value
    case LearnReply(firstSlot, values) => firstSlot <= slot < firstSlot + |values| && values[slot - firstSlot] == value
    case _ => false
  }

  /** The first step taken since opened a slot. */
  ghost predicate Opened(before: seq<Micro>, after: seq<Micro>) {
    |before| < |after| && before <= after && after[|before|].OpenStep?
  }

  lemma OpenedFirst(before: seq<Micro>, since: seq<Micro>, after: seq<Micro>, slot: Slot, cmds: seq<Command>,
        asLeader: bool, now: nat)
    requires since == before + [OpenStep(slot, cmds, asLeader, now)] && LocalSince(since, after)
    ensures Opened(before, after) && after[|before|] == OpenStep(slot, cmds, asLeader, now)
  {
    assert after[|before|] == since[|before|];
  }

  lemma OpenedStays(start: seq<Micro>, before: seq<Micro>, after: seq<Micro>)
    requires LocalSince(start, before) && Opened(before, after)
    ensures Opened(start, before) ==> Opened(start, after) && after[|start|] == before[|start|]
    ensures start == before ==> Opened(start, after)
  {
  }

  /** Every step taken since is the replica's own or takes up part of the message. */
  ghost predicate CausedSince(from: nat, message: Wire.Message, before: seq<Micro>, after: seq<Micro>) {
    before <= after && forall k :: |before| <= k < |after| ==> Carries(from, message, after[k])
  }

  lemma CausedGrows(from: nat, message: Wire.Message, before: seq<Micro>, after: seq<Micro>)
    requires CausedSince(from, message, before, after)
    ensures before <= after
  {
  }

  lemma RequestIsLocal(before: seq<Micro>, after: seq<Micro>, to: nat, now: nat)
    requires after == before || after == before + [RequestStep(to, now)]
    ensures LocalSince(before, after)
  {
  }

  lemma LocalIsCaused(from: nat, message: Wire.Message, a: seq<Micro>, b: seq<Micro>)
    requires LocalSince(a, b)
    ensures CausedSince(from, message, a, b)
  {
  }

  lemma CausedMore(from: nat, message: Wire.Message, a: seq<Micro>, b: seq<Micro>, c: seq<Micro>)
    requires CausedSince(from, message, a, b) && CausedSince(from, message, b, c)
    ensures CausedSince(from, message, a, c)
  {
    forall k | |a| <= k < |c| ensures Carries(from, message, c[k]) {
      if k < |b| {
        assert c[k] == b[k];
      }
    }
  }

  lemma CausedOne(from: nat, message: Wire.Message, a: seq<Micro>, m: Micro)
    requires Carries(from, message, m)
    ensures CausedSince(from, message, a, a + [m])
  {
  }
}
