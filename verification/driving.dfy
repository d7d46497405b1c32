/** The application's loop around a replica: the calls it makes, and what they come to in the group. */
module Driving {
  import opened Types
  import opened Pooling
  import opened ReplicaState
  import opened ReplicaRuns
  import opened ReplicaMoves
  import opened ReplicaRest
  import opened Projection
  import opened GroupRuns
  import opened Calls
  import opened Delivery
  import opened Retention
  import opened Deadlines
  import opened Announcements
  import opened Wakeups
  import opened GroupSteps
  import opened Guarantees
  import opened Recovery
  import R = Replica
  import Wire

  /** The object is replica `i` of the group, in the state the history has led it to. */
  ghost predicate Plays(r: R.Replica, g: Group, moves: seq<(nat, Micro)>, worlds: seq<World>, i: nat)
    reads r, r.pool, r.dedup
  {
    && IsHistory(g, moves, worlds) && i < |g.ids| && i < |worlds[|moves|]|
    && r.cfg == g.configs[i] && r.rng == g.rngs[i]
    && r.Valid() && Ready(r.cfg, r.state) && r.state == worlds[|moves|][i]
  }

  /** The group's history went on with steps of replica `i` only. */
  ghost predicate Went(moves: seq<(nat, Micro)>, worlds: seq<World>, i: nat, next: State, ms: seq<(nat, Micro)>,
        ws: seq<World>) {
    && |worlds| == |moves| + 1 && |ws| == |ms| + 1 && moves <= ms && worlds <= ws
    && i < |worlds[|moves|]| && ws[|ms|] == worlds[|moves|][i := next]
  }

  /** What one replica does leaves the others where they were. */
  lemma OthersStay(r: R.Replica, g: Group, moves: seq<(nat, Micro)>, worlds: seq<World>, i: nat, j: nat, next: State,
      ms: seq<(nat, Micro)>, ws: seq<World>)
    requires Plays(r, g, moves, worlds, j) && i != j && IsHistory(g, ms, ws) && Went(moves, worlds, i, next, ms, ws)
    ensures Plays(r, g, ms, ws, j)
  {
    hide IsHistory, Ready;
    HistoryShape(g, ms, ws);
  }

  lemma SeatIs(g: Group, moves: seq<(nat, Micro)>, worlds: seq<World>, j: nat)
    requires IsHistory(g, moves, worlds) && j < |g.ids|
    ensures |worlds| == |moves| + 1 && |g.configs| == |g.ids| && g.configs[j].me == j && g.configs[j].ids == g.ids
    ensures g.configs[j].pipeline >= 1
  {
    hide IsHistory;
    HistoryShape(g, moves, worlds);
  }

  /** A fresh replica stands at the start of every history of its group. */
  method Join(g: Group, i: nat) returns (r: R.Replica)
    requires g.Valid() && i < |g.ids|
    ensures fresh(r) && fresh(r.pool) && fresh(r.dedup) && Plays(r, g, [], [StartWorld(g)], i)
  {
    r := new R.Replica(g.configs[i], g.rngs[i]);
  }

  /** Hands out the next action to perform: one the replica emitted, and if it is to be sent,
      the group may receive it from now on. */
  method Poll(r: R.Replica, ghost g: Group, ghost moves: seq<(nat, Micro)>, ghost worlds: seq<World>, ghost i: nat)
    returns (a: Option<Action>)
    requires Plays(r, g, moves, worlds, i)
    modifies r
    ensures Plays(r, g, moves, worlds, i)
    ensures a == if old(r.actions) == [] then None else Some(old(r.actions)[0])
    ensures r.actions == if old(r.actions) == [] then [] else old(r.actions)[1..]
    ensures r.polled == if a.None? then old(r.polled) else old(r.polled) + 1
    ensures if a.None? then r.polled == |r.state.actions|
      else old(r.polled) < |r.state.actions| && a.value == r.state.actions[old(r.polled)]
    ensures a.Some? ==> a.value in worlds[|moves|][i].actions
    ensures a.Some? && a.value.Send? ==> Sent(worlds[|moves|], i, a.value.to, a.value.message)
  {
    hide IsHistory, Ran, Ready;
    ghost var k := r.polled;
    HistoryShape(g, moves, worlds);
    a := r.PollAction();
    assert a.Some? ==> r.state.actions[k] == a.value;
  }

  /** A call that only adds steps of the replica's own, or that take up a message sent to it,
      goes on with the group's history. */
  lemma Continues(r: R.Replica, g: Group, moves: seq<(nat, Micro)>, worlds: seq<World>, i: nat, before: seq<Micro>,
      from: nat, message: Wire.Message) returns (ms: seq<(nat, Micro)>, ws: seq<World>)
    requires IsHistory(g, moves, worlds) && i < |g.ids| && i < |worlds[|moves|]|
    requires r.cfg == g.configs[i] && r.rng == g.rngs[i] && r.Valid() && Ready(r.cfg, r.state)
    requires Ran(r.cfg, r.rng, before, worlds[|moves|][i])
    requires
      || LocalSince(before, r.trail)
      || (from != i && Sent(worlds[|moves|], from, i, message) && CausedSince(from, message, before, r.trail))
    ensures Plays(r, g, ms, ws, i) && Went(moves, worlds, i, r.state, ms, ws)
  {
    hide Ran, IsHistory, Ready, LocalSince, CausedSince, Sent;
    HistoryShape(g, moves, worlds);
    ws := CallGoesOn(g, moves, worlds, i, before, r.trail, r.state, from, message);
    ms := moves + MovesOf(i, r.trail[|before|..]);
    HistoryShape(g, ms, ws);
  }

  /** The frontier never falls. */
  lemma ContigGrows(g: Group, moves: seq<(nat, Micro)>, worlds: seq<World>, i: nat, next: State,
      ms: seq<(nat, Micro)>, ws: seq<World>)
    requires IsHistory(g, ms, ws) && i < |g.ids| && Went(moves, worlds, i, next, ms, ws)
    ensures worlds[|moves|][i].contig <= next.contig
  {
    hide IsHistory;
    assert ws[|moves|] == worlds[|moves|];
    HistoryGrows(g, ms, ws, |moves|, |ms|, i);
  }

  /** Submits a command: refused, it leaves the replica as it was; accepted, it has the next
      sequence number and waits in the pool, where a leader leaves it only for the pipeline.
      Nothing pending is dropped. */
  method Submit(r: R.Replica, now: nat, data: Bytes, ghost g: Group, ghost moves: seq<(nat, Micro)>,
      ghost worlds: seq<World>, ghost i: nat)
    returns (result: R.SubmitResult, ghost ms: seq<(nat, Micro)>, ghost ws: seq<World>)
    requires Plays(r, g, moves, worlds, i) && r.nextSeq < U64_MAX
    modifies r, r.pool, r.dedup
    ensures Plays(r, g, ms, ws, i) && Went(moves, worlds, i, r.state, ms, ws) && r.polled == old(r.polled)
    ensures result.CommandTooLarge? <==> |data| > MAX_COMMAND_BYTES
    ensures result.PoolFull? <==>
      |data| <= MAX_COMMAND_BYTES && old(TotalCost(r.state.pool)) + Cost(|data|) > r.cfg.maxPoolBytes
    ensures !result.Accepted? ==> r.state == old(r.state) && r.trail == old(r.trail)
    ensures result.Accepted? ==>
      && i < |r.cfg.ids| && result == R.Accepted(OwnId(r.cfg, old(r.nextSeq) + 1))
      && LocalSince(old(r.trail) + [SubmitStep(data, now)], r.trail)
      && if r.cfg.IsLeader() then NoRoom(r.cfg, r.state)
         else ToldSince(|old(r.state).actions|, r.state, 0, Wire.Forward([Command(result.id, data)]))
  {
    hide Ran, IsHistory, Ready, LocalSince, Saturated, TotalCost, NoRoom, ToldSince;
    ghost var before := r.trail;
    SeatIs(g, moves, worlds, i);
    result := r.Submit(now, data);
    SaturatedIs(r.cfg, r.state);
    LocalOne(before, SubmitStep(data, now));
    LocalNone(before);
    if r.trail != before {
      LocalMore(before, before + [SubmitStep(data, now)], r.trail);
    }
    ms, ws := Continues(r, g, moves, worlds, i, before, i, Wire.Message(0, 0, Wire.Ping));
  }

  /** A decided value due next, or one that fits, is decided on here, unless it was freed. */
  ghost predicate DecisionTaken(cfg: Config, st: State, next: State, p: Wire.Payload) {
    p.Decide? && p.slot > st.gcFloor
    && (p.slot <= st.contig + 1 || TotalBytes(st.retained) + |p.value| <= cfg.maxRetainedBytes) ==>
      p.slot in next.log && next.log[p.slot] == p.value
  }

  predicate AnswersRecord(a: Action, to: nat, slot: Slot, step: nat) {
    && a.Send? && a.to == to
    && match a.message.payload
       case Decide(s, _) => s == slot
       case RecordReply(s, reqStep, _, _, _) => s == slot && reqStep == step
       case _ => false
  }

  /** A record within reach is answered, with the decision or the register of the slot. */
  ghost predicate RecordTaken(cfg: Config, st: State, next: State, from: nat, p: Wire.Payload) {
    p.Record? && p.step >= 4 && st.gcFloor < p.slot <= st.contig + 4 * cfg.pipeline + 64 ==>
      exists a :: |st.actions| <= a < |next.actions| && AnswersRecord(next.actions[a], from, p.slot, p.step)
  }

  /** The step that takes a record up brings the answer. */
  lemma RecordReceived(cfg: Config, rng: Rng, before: seq<Micro>, st: State, after: seq<Micro>, next: State, from: nat,
      p: Wire.Payload, now: nat)
    requires Ran(cfg, rng, before, st) && Ran(cfg, rng, after, next) && before <= after && p.Record?
    requires |before| + 1 < |after| && after[|before| + 1] == RecordStep(from, p.slot, p.step, p.proposal, now)
    ensures exists a :: |st.actions| <= a < |next.actions| && AnswersRecord(next.actions[a], from, p.slot, p.step)
  {
    hide Ran;
    var a, mid := RecordIsSent(cfg, rng, after, next, before, st, |before| + 1);
    assert AnswersRecord(next.actions[a], from, p.slot, p.step);
  }

  /** What a message decided by another replica comes to. */
  lemma Takes(r: R.Replica, g: Group, moves: seq<(nat, Micro)>, worlds: seq<World>, i: nat, from: nat,
      message: Wire.Message, now: nat, before: seq<Micro>, st: State, ms: seq<(nat, Micro)>, ws: seq<World>)
    requires IsHistory(g, moves, worlds) && i < |g.ids| && i < |worlds[|moves|]| && st == worlds[|moves|][i]
    requires Plays(r, g, ms, ws, i) && Went(moves, worlds, i, r.state, ms, ws)
    requires Ran(r.cfg, r.rng, before, st) && from != i && Sent(worlds[|moves|], from, i, message)
    requires from < |st.peerAcked| && before + [Header(from, message.decided)] <= r.trail
    requires TookUp(r.cfg, Acked(st, from, message.decided), from, message, now,
        before + [Header(from, message.decided)], r.trail)
    ensures from < |r.state.peerAcked| && r.state.peerAcked[from] >= message.decided
    ensures DecisionTaken(r.cfg, st, r.state, message.payload)
    ensures RecordTaken(r.cfg, st, r.state, from, message.payload)
  {
    hide Ran, IsHistory, Ready, LocalSince, Sent, Acked, TotalBytes, CanLearn, AnswersRecord;
    HistoryShape(g, ms, ws);
    SeatIs(g, moves, worlds, i);
    SeatIs(g, ms, ws, i);
    var noted := before + [Header(from, message.decided)];
    var p := message.payload;
    OthersSeat(g, moves, worlds, i, from, message);
    assert r.trail[|before|] == noted[|before|];
    HeaderNoted(r.cfg, r.rng, r.trail, r.state, |before|);
    if p.Decide? && p.slot > st.gcFloor
      && (p.slot <= st.contig + 1 || TotalBytes(st.retained) + |p.value| <= r.cfg.maxRetainedBytes)
    {
      var mid := Acked(st, from, message.decided);
      Seated(r.cfg, r.rng, before, st);
      RanHeader(r.cfg, r.rng, before, st, from, message.decided);
      SameFrame(st, from, message.decided);
      FittingIsDecided(r.cfg, r.rng, noted, mid, r.trail, r.state, p.slot, p.value, now);
      DecidedAlike(g, ms, ws, i, from, worlds[|moves|], message);
    } else if p.Record? && p.step >= 4 && st.gcFloor < p.slot <= st.contig + 4 * r.cfg.pipeline + 64 {
      SameFrame(st, from, message.decided);
      LocalGrows(noted + [RecordStep(from, p.slot, p.step, p.proposal, now)], r.trail);
      assert r.trail[|before| + 1] == (noted + [RecordStep(from, p.slot, p.step, p.proposal, now)])[|before| + 1];
      RecordReceived(r.cfg, r.rng, before, st, r.trail, r.state, from, p, now);
    }
  }

  lemma SameFrame(st: State, from: nat, decided: Slot)
    requires from < |st.peerAcked|
    ensures
      var next := Acked(st, from, decided);
      next.gcFloor == st.gcFloor && next.contig == st.contig && next.retained == st.retained
  {
  }

  /** The sender of a message is another replica of the same group. */
  lemma OthersSeat(g: Group, moves: seq<(nat, Micro)>, worlds: seq<World>, i: nat, from: nat, message: Wire.Message)
    requires IsHistory(g, moves, worlds) && i < |g.ids| && Sent(worlds[|moves|], from, i, message) && from != i
    ensures from < |g.ids| && |g.configs| == |g.ids| && g.configs[i].N() == |g.ids| && g.configs[i].N() > 1
  {
    hide IsHistory;
    HistoryShape(g, moves, worlds);
    HistoryOk(g, moves, worlds, |moves|);
    FittingFacts(g, worlds[|moves|]);
    SeatIs(g, moves, worlds, i);
  }

  /** A value told by a replica that decided it is the value decided anywhere else. */
  lemma DecidedAlike(g: Group, ms: seq<(nat, Micro)>, ws: seq<World>, i: nat, from: nat, w: World,
      message: Wire.Message)
    requires IsHistory(g, ms, ws) && i < |w| && i < |ws[|ms|]| && ws[|ms|] == w[i := ws[|ms|][i]] && from != i
    requires Sent(w, from, i, message) && message.payload.Decide? && message.payload.slot in ws[|ms|][i].log
    ensures ws[|ms|][i].log[message.payload.slot] == message.payload.value
  {
    hide IsHistory, WorldOk;
    HistoryShape(g, ms, ws);
    HistoryOk(g, ms, ws, |ms|);
    var last := ws[|ms|];
    assert last[from] == w[from];
    assert Sent(last, from, i, message);
    MessageAt(g, last, from, i, message);
    LogsAgree(g, last, i, from, message.payload.slot);
  }

  /** Every decision of its own that a replica holds was sent to every other replica, which may
      receive it from then on. */
  lemma DecisionsAreSent(r: R.Replica, g: Group, moves: seq<(nat, Micro)>, worlds: seq<World>, i: nat, s: Slot, j: nat)
    returns (message: Wire.Message)
    requires Plays(r, g, moves, worlds, i) && s in r.state.own && j < |g.ids| && j != i
    ensures s in r.state.log && Sent(worlds[|moves|], i, j, message)
    ensures message.payload == Wire.Decide(s, r.state.log[s])
  {
    hide IsHistory, Ready, Ran;
    SeatIs(g, moves, worlds, i);
    RanAnnounced(r.cfg, r.rng, r.trail, r.state);
    assert DecisionTold(r.state, s, j);
    var k :| 0 <= k < |r.state.actions| && IsMessage(r.state.actions[k], j, Wire.Decide(s, r.state.log[s]));
    message := r.state.actions[k].message;
  }

  /** Feeds a message that some replica of the group sent to this one, however long ago and
      however often it was fed already. What `Receive` asks of a message holds of it, so what
      `Receive` promises follows: unless it is one of our own, the message is taken up, decided
      values it carries are delivered, and whoever is ahead is asked for more. */
  method Receive(r: R.Replica, now: nat, message: Wire.Message, ghost g: Group, ghost moves: seq<(nat, Micro)>,
      ghost worlds: seq<World>, ghost i: nat, ghost from: nat)
    returns (ghost ms: seq<(nat, Micro)>, ghost ws: seq<World>)
    requires Plays(r, g, moves, worlds, i) && Sent(worlds[|moves|], from, i, message)
    modifies r, r.pool, r.dedup
    ensures Plays(r, g, ms, ws, i) && Went(moves, worlds, i, r.state, ms, ws) && r.polled == old(r.polled)
    ensures from == i ==> r.state == old(r.state) && r.trail == old(r.trail)
    ensures r.contig >= old(r.contig)
    ensures from != i ==>
      && from < |old(r.state).peerAcked| && var noted := Acked(old(r.state), from, message.decided);
      && TookUp(r.cfg, noted, from, message, now, old(r.trail) + [Header(from, message.decided)], r.trail)
      && CaughtUp(message, old(r.contig), r.contig) && Asking(r.cfg, r.state, message.decided, now)
      && FreedAcked(r.cfg, r.state)
    ensures from != i ==>
      && from < |r.state.peerAcked| && r.state.peerAcked[from] >= message.decided
      && DecisionTaken(r.cfg, old(r.state), r.state, message.payload)
      && RecordTaken(r.cfg, old(r.state), r.state, from, message.payload)
    ensures r.retainedBytes <= r.cfg.maxRetainedBytes + TotalBytes(OwnAhead(r.state))
  {
    hide Ran, IsHistory, Ready, LocalSince, CausedSince, Sent, HonestMessage, TookUp, CaughtUp, Asking, FreedAcked,
      Acked, OwnAhead, TotalBytes, DecisionTaken, RecordTaken;
    ghost var before, st := r.trail, r.state;
    HistoryShape(g, moves, worlds);
    MessageIsHonest(g, moves, worlds, i, from, message);
    r.Receive(now, message);
    LocalNone(before);
    if from != i {
      CausedOne(from, message, before, Header(from, message.decided));
      CausedMore(from, message, before, before + [Header(from, message.decided)], r.trail);
    }
    ms, ws := Continues(r, g, moves, worlds, i, before, from, message);
    ContigGrows(g, moves, worlds, i, r.state, ms, ws);
    if from != i {
      CausedGrows(from, message, before + [Header(from, message.decided)], r.trail);
      Takes(r, g, moves, worlds, i, from, message, now, before, st, ms, ws);
    }
  }

  /** Lets time pass: nothing that is due is left undone, and a leader leaves batchable work
      waiting only for the pipeline. Where nothing is due, nothing happens. */
  method Tick(r: R.Replica, now: nat, ghost g: Group, ghost moves: seq<(nat, Micro)>, ghost worlds: seq<World>,
        ghost i: nat)
    returns (ghost ms: seq<(nat, Micro)>, ghost ws: seq<World>)
    requires Plays(r, g, moves, worlds, i)
    modifies r, r.pool, r.dedup
    ensures Plays(r, g, ms, ws, i) && Went(moves, worlds, i, r.state, ms, ws) && r.polled == old(r.polled)
    ensures now < U64_MAX ==> !HasWork(r.cfg, r.state, now)
    ensures r.cfg.IsLeader() ==> NoRoom(r.cfg, r.state)
    ensures AtEase(r.cfg, old(r.state), now) ==> r.state == old(r.state)
  {
    hide Ran, IsHistory, Ready, LocalSince, Saturated, IsDeadline, HasWork, NoRoom, AtEase;
    ghost var before := r.trail;
    SeatIs(g, moves, worlds, i);
    r.Tick(now);
    SaturatedIs(r.cfg, r.state);
    ms, ws := Continues(r, g, moves, worlds, i, before, i, Wire.Message(0, 0, Wire.Ping));
  }

  /** Sleeps until the replica's own wakeup: no sooner is there anything to do. */
  method SleepUntil(r: R.Replica, ghost g: Group, ghost moves: seq<(nat, Micro)>, ghost worlds: seq<World>,
      ghost i: nat)
    returns (earliest: Option<nat>)
    requires Plays(r, g, moves, worlds, i)
    ensures forall now: nat :: now < U64_MAX ==>
        ((earliest.Some? && earliest.value <= now) <==> HasWork(r.cfg, r.state, now))
  {
    hide IsHistory, Ready, Ran, HasWork, Earliest;
    earliest := r.NextWakeup();
  }

  // ---- catching up ----

  /** What entitles a call to an answer: a Learn of the straggler, from the slot it waits for. */
  ghost predicate Asks(w: World, i: nat, j: nat, learn: Wire.Message) {
    && i < |w| && j < |w| && i != j && w[j].contig < w[i].contig
    && Sent(w, j, i, learn) && learn.payload == Wire.Learn(w[j].contig + 1)
  }

  /** Pending among the actions of `r`: this run of decided values, for replica `j`. */
  ghost predicate Pending(r: R.Replica, a: nat, j: nat, firstSlot: Slot, values: seq<Bytes>)
    reads r
  {
    && r.polled <= a < |r.state.actions| && r.state.actions[a].Send? && r.state.actions[a].to == j
    && r.state.actions[a].message.payload == Wire.LearnReply(firstSlot, values)
  }

  /** Without evictions the slot a straggler waits for is held by whoever delivered it, also
      once its request was noted. */
  lemma HeldForStraggler(g: Group, moves: seq<(nat, Micro)>, worlds: seq<World>, i: nat, j: nat, decided: Slot)
    requires IsHistory(g, moves, worlds) && NoEvictions(moves) && i < |worlds[|moves|]| && j < |worlds[|moves|]|
    requires j < |worlds[|moves|][i].peerAcked|
    ensures
      var noted := Acked(worlds[|moves|][i], j, decided);
      noted.gcFloor <= worlds[|moves|][j].contig && noted.contig == worlds[|moves|][i].contig
        && noted.retained == worlds[|moves|][i].retained
  {
    hide IsHistory, NoEvictions;
    NothingFreedEarly(g, moves, worlds, |moves|);
  }

  /** A chunk is one of the values held. */
  lemma SameChunk(st: State, next: State, fromSlot: Slot, values: seq<Bytes>)
    requires IsChunk(st, fromSlot, values) && st.contig == next.contig && st.retained == next.retained
    ensures IsChunk(next, fromSlot, values) && values != []
  {
    forall k | 0 <= k < |values| ensures RetainedAs(next, fromSlot + k, values[k]) {
      assert RetainedAs(st, fromSlot + k, values[k]);
    }
  }

  lemma AnswerGiven(cfg: Config, st: State, from: nat, learn: Wire.Message, now: nat, before: seq<Micro>,
      after: seq<Micro>) returns (values: seq<Bytes>)
    requires TookUp(cfg, st, from, learn, now, before, after) && learn.payload.Learn?
    requires st.gcFloor < learn.payload.fromSlot <= st.contig
    ensures before <= after && |before| < |after| && after[|before|] == AnswerStep(from, learn.payload.fromSlot, values)
    ensures IsChunk(st, learn.payload.fromSlot, values)
  {
    hide IsChunk;
    values := after[|before|].values;
    assert before + [AnswerStep(from, learn.payload.fromSlot, values)] <= after;
  }

  /** A replica ahead answers: a chunk of decided values, from the slot the straggler waits
      for, is now pending. */
  method Answer(ahead: R.Replica, now: nat, learn: Wire.Message, ghost g: Group, ghost moves: seq<(nat, Micro)>,
      ghost worlds: seq<World>, ghost i: nat, ghost j: nat)
    returns (ghost ms: seq<(nat, Micro)>, ghost ws: seq<World>, ghost values: seq<Bytes>, ghost a: nat)
    requires Plays(ahead, g, moves, worlds, i) && NoEvictions(moves) && Asks(worlds[|moves|], i, j, learn)
    modifies ahead, ahead.pool, ahead.dedup
    ensures Plays(ahead, g, ms, ws, i) && Went(moves, worlds, i, ahead.state, ms, ws)
    ensures values != [] && IsChunk(old(ahead.state), worlds[|moves|][j].contig + 1, values)
    ensures Pending(ahead, a, j, worlds[|moves|][j].contig + 1, values)
  {
    hide Ran, IsHistory, Ready, LocalSince, Sent, NoEvictions, Asking, FreedAcked, Acked, OwnAhead, TotalBytes, IsChunk,
      TookUp, CaughtUp;
    SeatIs(g, moves, worlds, i);
    ghost var st, before, first := ahead.state, ahead.trail, worlds[|moves|][j].contig + 1;
    ms, ws := Receive(ahead, now, learn, g, moves, worlds, i, j);
    HeldForStraggler(g, moves, worlds, i, j, learn.decided);
    ghost var noted := before + [Header(j, learn.decided)];
    values := AnswerGiven(ahead.cfg, Acked(st, j, learn.decided), j, learn, now, noted, ahead.trail);
    SameChunk(Acked(st, j, learn.decided), st, first, values);
    a := AnswerIsSent(ahead.cfg, ahead.rng, ahead.trail, ahead.state, before, st, |noted|);
  }

  /** A chunk that starts no later than the slot that was due next lies behind the frontier. */
  ghost predicate Absorbed(a: Action, j: nat, due: Slot, contig: Slot) {
    a.Send? && a.to == j && a.message.payload.LearnReply? && a.message.payload.firstSlot <= due ==>
      contig + 1 >= a.message.payload.firstSlot + |a.message.payload.values|
  }

  ghost predicate AllAbsorbed(actions: seq<Action>, lo: nat, hi: nat, j: nat, due: Slot, contig: Slot) {
    lo <= hi <= |actions| && forall k :: lo <= k < hi ==> Absorbed(actions[k], j, due, contig)
  }

  lemma OneMoreAbsorbed(actions: seq<Action>, lo: nat, hi: nat, j: nat, due: Slot, contig: Slot, next: Slot)
    requires AllAbsorbed(actions, lo, hi, j, due, contig) && hi < |actions| && due <= contig + 1 && contig <= next
    requires actions[hi].Send? && actions[hi].to == j ==> CaughtUp(actions[hi].message, contig, next)
    ensures AllAbsorbed(actions, lo, hi + 1, j, due, next)
  {
  }

  lemma WentOn(moves: seq<(nat, Micro)>, worlds: seq<World>, i: nat, mid: State, ms0: seq<(nat, Micro)>,
      ws0: seq<World>, next: State, ms: seq<(nat, Micro)>, ws: seq<World>)
    requires Went(moves, worlds, i, mid, ms0, ws0) && Went(ms0, ws0, i, next, ms, ws)
    ensures Went(moves, worlds, i, next, ms, ws)
  {
  }

  lemma NotYetWent(g: Group, moves: seq<(nat, Micro)>, worlds: seq<World>, i: nat)
    requires IsHistory(g, moves, worlds) && i < |worlds[|moves|]|
    ensures Went(moves, worlds, i, worlds[|moves|][i], moves, worlds)
  {
    hide IsHistory;
    HistoryShape(g, moves, worlds);
    assert worlds[|moves|][i := worlds[|moves|][i]] == worlds[|moves|];
  }

  /** Carries everything pending at one replica and addressed to another across, in order:
      every chunk the receiver could use then lies behind its frontier. */
  method Carry(ahead: R.Replica, behind: R.Replica, now: nat, ghost g: Group, ghost moves: seq<(nat, Micro)>,
      ghost worlds: seq<World>, ghost i: nat, ghost j: nat)
    returns (ghost ms: seq<(nat, Micro)>, ghost ws: seq<World>)
    requires Plays(ahead, g, moves, worlds, i) && Plays(behind, g, moves, worlds, j) && i != j
    requires ahead != behind && ahead.pool != behind.pool && ahead.dedup != behind.dedup
    modifies ahead, behind, behind.pool, behind.dedup
    ensures Plays(ahead, g, ms, ws, i) && Plays(behind, g, ms, ws, j) && Went(moves, worlds, j, behind.state, ms, ws)
    ensures ahead.actions == [] && ahead.state == old(ahead.state) && behind.contig >= old(behind.contig)
    ensures AllAbsorbed(ahead.state.actions, old(ahead.polled), |ahead.state.actions|, j, old(behind.contig) + 1,
      behind.contig)
  {
    hide IsHistory, Ran, Ready, Sent, TookUp, Asking, FreedAcked, Acked, OwnAhead, TotalBytes, Absorbed, CaughtUp, Went;
    ms, ws := moves, worlds;
    SeatIs(g, moves, worlds, j);
    NotYetWent(g, moves, worlds, j);
    ghost var lo, due := ahead.polled, behind.contig + 1;
    while ahead.actions != []
      invariant Plays(ahead, g, ms, ws, i) && Plays(behind, g, ms, ws, j)
      invariant Went(moves, worlds, j, behind.state, ms, ws)
      invariant ahead.state == old(ahead.state) && behind.contig >= old(behind.contig)
      invariant AllAbsorbed(ahead.state.actions, lo, ahead.polled, j, due, behind.contig)
      decreases |ahead.actions|
    {
      ghost var k, contig, st, ms0, ws0 := ahead.polled, behind.contig, behind.state, ms, ws;
      var a := Poll(ahead, g, ms, ws, i);
      if a.value.Send? && a.value.to == behind.cfg.me {
        ms, ws := Receive(behind, now, a.value.message, g, ms, ws, j, i);
        OthersStay(ahead, g, ms0, ws0, j, i, behind.state, ms, ws);
        WentOn(moves, worlds, j, st, ms0, ws0, behind.state, ms, ws);
      }
      OneMoreAbsorbed(ahead.state.actions, lo, k, j, due, contig, behind.contig);
    }
  }

  /** A chunk ends where the frontier or a full chunk does. */
  lemma ChunkIsFull(st: State, fromSlot: Slot, values: seq<Bytes>)
    requires IsChunk(st, fromSlot, values)
    ensures fromSlot + |values| - 1 == st.contig || BytesOf(values) >= 0x10_0000
  {
  }

  /** A straggler catches up: in a history without evictions a replica ahead answers its Learn
      with decided values, from the slot it waits for to the other's frontier or until they
      fill a chunk, and once the answer was carried across, it has delivered all of them. */
  method CatchUp(ahead: R.Replica, behind: R.Replica, now: nat, later: nat, learn: Wire.Message, ghost g: Group,
      ghost moves: seq<(nat, Micro)>, ghost worlds: seq<World>, ghost i: nat, ghost j: nat)
    returns (ghost ms: seq<(nat, Micro)>, ghost ws: seq<World>, ghost values: seq<Bytes>)
    requires Plays(ahead, g, moves, worlds, i) && Plays(behind, g, moves, worlds, j) && NoEvictions(moves)
    requires ahead != behind && ahead.pool != behind.pool && ahead.dedup != behind.dedup
    requires i != j && behind.contig < ahead.contig
    requires Sent(worlds[|moves|], j, i, learn) && learn.payload == Wire.Learn(behind.contig + 1)
    modifies ahead, ahead.pool, ahead.dedup, behind, behind.pool, behind.dedup
    ensures Plays(ahead, g, ms, ws, i) && Plays(behind, g, ms, ws, j) && moves <= ms && worlds <= ws
    ensures values != [] && IsChunk(old(ahead.state), old(behind.contig) + 1, values)
    ensures behind.contig >= old(behind.contig) + |values|
    ensures behind.contig >= old(ahead.state.contig) || BytesOf(values) >= 0x10_0000
  {
    hide IsHistory, Ran, Ready, Sent, IsChunk, NoEvictions;
    ghost var a: nat;
    ms, ws, values, a := Answer(ahead, now, learn, g, moves, worlds, i, j);
    ChunkIsFull(old(ahead.state), old(behind.contig) + 1, values);
    OthersStay(behind, g, moves, worlds, i, j, ahead.state, ms, ws);
    ms, ws := Carry(ahead, behind, later, g, ms, ws, i, j);
    assert Absorbed(ahead.state.actions[a], j, old(behind.contig) + 1, behind.contig);
  }

  /** Two replicas of a group deliver alike: of what they have emitted for delivery, in order
      and without a gap, one is a prefix of the other. */
  lemma ReplicasAgree(r: R.Replica, s: R.Replica, g: Group, moves: seq<(nat, Micro)>, worlds: seq<World>, i: nat,
        j: nat)
    requires Plays(r, g, moves, worlds, i) && Plays(s, g, moves, worlds, j)
    ensures
      var x, y := Deliveries(r.state.actions), Deliveries(s.state.actions);
      && (x <= y || y <= x) && |x| == r.contig && |y| == s.contig
      && forall k :: 0 <= k < |x| ==> x[k].Deliver? && x[k].slot == k + 1
  {
    hide IsHistory, Ran, Ready;
    HistoryShape(g, moves, worlds);
    DeliveriesAgree(g, moves, worlds, |moves|, |moves|, i, j);
    DeliveriesAgree(g, moves, worlds, |moves|, |moves|, j, i);
  }
}
