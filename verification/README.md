# Raxos: agreement, delivery and catch-up

Raxos is a deterministic, I/O-free Rust implementation of QuePaxa (Tennage et al.,
"QuePaxa: Escaping the Tyranny of Timeouts in Consensus", SOSP 2023). This project models the
consensus protocol, the whole replica state machine around it, and the wire format, and proves
what the code and its documentation promise: agreement, exactly-once in-order delivery, validity,
bounded state, recoverable stragglers, no stranded command, timely wakeups and a bijective codec.

`dafny verify dfyconfig.toml` checks all of it.

## How it is built

The model has four layers, each tied to the next.

1. **One slot of the protocol** (`consensus.dfy`, `consensus_invariant.dfy`, `consensus_steps.dfy`,
   `agreement.dfy`, `outcomes.dfy`, `progress.dfy`). A cluster of any size n ≥ 1 with an interval summary register and a proposer
   at every replica. The network is a set of messages that only grows; a message in it may be
   delivered at any time, any number of times or never, which covers loss, duplication and
   reordering. A crashed replica takes no more steps. Priority draws are arbitrary in [1, H-1].
   The recorder and proposer transitions are the functions of `recorder.dfy`, `proposer.dfy` and
   `slot_logic.dfy`; the classes `IsrSlot` and `Run` update their fields in place, as the program
   does, and are proved against those functions. `Outcomes` says what every reply makes of the
   proposer it reaches in terms of what recorders saw, without naming the proposer's functions,
   and `Progress` that any quorum can always finish.
2. **One replica** (`replica_state.dfy`, `replica_invariant.dfy`, `delivery.dfy`, `retention.dfy`,
   `riding.dfy`, `replica_runs.dfy`, `announcements.dfy`, `draws.dfy`, `clocks.dfy`). A replica's state as a value and the atomic steps its
   handlers are made of, with what every step keeps. The history fields (`hist`, `log`, `own`,
   `submitted`, and the full list of actions) record the past and never influence a step. `Announcements` says what
   is owed to the others and was sent to them.
3. **The program** (`pool.dfy`, `replica.dfy`, with `replica_moves.dfy`, `replica_rest.dfy`,
   `deadlines.dfy` and `wakeups.dfy`). `class Replica` has the program's fields, loops and recursion. Every method
   says which atomic steps it takes: the ghost field `trail` lists them, `state` is where they
   lead, and `Valid()` says that the fields hold exactly that state. `LocalSince` and
   `CausedSince` say that what was added to the trail is the replica's own doing, or takes up part
   of the one message received.
4. **The group** (`emissions.dfy`, `projection.dfy`, `simulation.dfy`, `custody.dfy`, `group.dfy`,
   `group_steps.dfy`, `guarantees.dfy`, `recovery.dfy`, `honesty.dfy`). Any number of replicas
   taking such steps over the same kind of network. Each slot of the group is a run of layer 1:
   every step of a replica is, for each slot, one protocol event or none. All theorems about the
   group follow from one invariant, `GroupRuns.WorldOk`, that holds in every state of every
   history.

Layers 3 and 4 meet in `calls.dfy` and `driving.dfy`. `Calls` proves that what a call adds to a
replica's trail extends any history of the group that led the replica there. `Driving` is the
application's loop of src/lib.rs:24-41 around `class Replica`: joining, submitting, receiving any
message some replica sent, ticking and polling each go on with the group's history, so every
theorem of layer 4 is one about these calls.

`encoding.dfy`, `batch.dfy` and `wire.dfy` are the codec: pure encoders and parsers with their
round trips, and the imperative `Encode`, `Decode` and `Cursor` proved against them. `layout.dfy`
fixes every byte: it spells the format out offset by offset, apart from the encoders, and proves
the two equal.

## Premises

- Replicas are honest and crash-stop, and a message's `from` is truthful (src/lib.rs:15-21).
- (origin, boot) is unique to one process, and sequence numbers start at 1.
- A configuration is as `Config::new` and its setters leave it: replica ids sorted, distinct and
  nonzero, `me` among them, delays and limits clamped (`Config.Valid`).
- Counters do not overflow: a replica submits fewer than 2^64 - 1 commands, and slot numbers and
  steps fit their wire fields. The 64-bit arithmetic of deadlines saturates, as in the program.
- Clocks are arbitrary: `now` may be anything in each call.

`Replica.Receive` states two more premises on a message (`HonestMessage`): forwarded ids were
given out by their origins, and a reply does not complete phase 3 with no prior aggregate at all.
Neither is assumed of the network: `Honesty.NetworkIsHonest` proves both of every message a
replica of the group ever sends, at whatever time it arrives, and `Driving.Receive` calls
`Receive` with no premise but that the message was sent.

## A finding

`Pool::insert` replaces an entry whose id is already held without adjusting the byte counter.
`Pooling.Pool.Insert` states exactly when the counter stays right (the id is new, or the data is
as long as before) and `Pooling.ReplacingMiscounts` gives the inputs where it does not. The
program's callers insert new ids only (src/replica.rs:236, src/replica.rs:805-814), so the counter
of a replica is always right, which `Replica.Replica.Valid` includes.

## Model

| member | source | states |
|---|---|---|
| Types.OrderTotal | src/types.rs:82-90 | proposals are totally ordered by priority, proposer and value bytes: any two compare, and equal only if identical |
| Types.OrderTransitive | src/types.rs:82-90 | the proposal order is transitive |
| Types.OrderIs | src/types.rs:82-90 | the order is by priority, then by proposer, then lexicographic on the value bytes: smaller at the first difference, or a proper prefix |
| Types.Max | src/recorder.rs:69-74 | the running maximum is one of its two arguments and at least both |
| Recorder.IsrSlot.RecordInPlace | src/recorder.rs:37-67 | the register updated in place becomes the specified one, the summary is read off it, and the flag tells exactly whether anything changed |
| Recorder.ReplaySummarizes | src/recorder.rs:12-23 | after any sequence of invocations S is the largest step seen, F_c the first proposal accepted at S, A_c the maximum accepted at S, and A_p the maximum accepted at S-1, nil exactly if there was none |
| Recorder.RepeatIsIgnored | src/recorder.rs:33-36 | repeating any earlier invocation, however late, leaves the register as it is |
| Proposer.Run.constructor | src/proposer.rs:70-99 | a started run is at step 4 with priority H for the leader, and with one draw per recorder for everyone else |
| Proposer.Run.DrawPriorities | src/proposer.rs:101-112 | the per-recorder draws are cached and the template takes our identity and our own draw |
| Proposer.Run.Begin | src/proposer.rs:140-156 | a new step starts with no replies counted and is randomized exactly at phase 0, but for the leader's step 4 |
| Proposer.Run.FoldIn | src/proposer.rs:160-197 | folding a reply in place catches up, ignores or counts it, as specified |
| Proposer.Run.Complete | src/proposer.rs:201-242 | a completed step decides, advances or stalls, as the phase logic does of which `Outcomes` proves what it means |
| ConsensusInvariant.QuorumsMeet | src/replica.rs:168 | any two quorums of n/2+1 share a recorder |
| ConsensusSteps.EventKeeps | src/replica.rs:440-743 | every event of every replica (start, retransmission, a pass of driving, an invocation, a reply, a learned decision) keeps the protocol invariant and takes nothing back |
| ConsensusSteps.CountTallied | src/proposer.rs:181-191 | counting a truthful reply keeps best first and best aggregate the maxima over exactly the recorders counted |
| ConsensusSteps.NoStall | src/proposer.rs:226-237 | a phase-3 quorum always includes a non-nil prior aggregate |
| ConsensusSteps.BestFirstBacks | src/proposer.rs:203-215 | what a proposer takes into phase 1 is the best first of a quorum at phase 0, whatever recorder it is sent to |
| ConsensusSteps.AcknowledgedBacks | src/proposer.rs:216-225 | a proposal carried on to phase 2 or 3 has been aggregated by a quorum in the phase before |
| Outcomes.StartMeans | src/proposer.rs:70-112 | a proposer enters at step 4 with nobody counted, spreading its value to every recorder: the leader under the reserved priority, anyone else with recorder k's own draw for recorder k |
| Outcomes.AnyDriveMeans | src/replica.rs:594-675 | a pass of driving records the step at the proposer's own recorder, whose answer then means what any reply of that recorder would; if the proposer still waits, exactly that step was sent to everyone else |
| Outcomes.ReplyInRun | src/proposer.rs:160-242 | after any run, a reply from the network makes of its proposer exactly what its recorder held: catching up adopts that recorder's step and first proposal; a stale, mismatched or repeated one changes nothing; any other is counted, and the one that completes a quorum decides or moves on, by phase, as the largest first or the largest aggregate recorded in that quorum demands |
| Outcomes.PhaseTwoDecides | src/proposer.rs:219-225 | after any run, the reply that completes phase 2 decides the value spread exactly if what is spread is the largest aggregate with which the quorum left phase 1, whatever its priority |
| Outcomes.FastPathDecides | src/proposer.rs:203-214 | after any run, the reply that completes a phase 0 decides exactly if every recorder of the quorum saw the reserved priority first |
| Progress.AnyQuorumDecides | src/replica.rs:594-675 | from every state that any run leads to, whatever the others did or failed to do, there are further events of proposer i and of the recorders of any quorum it belongs to, and of no one else, that leave replica i decided; if it has no proposal yet, with any value |
| Agreement.ReachableInv | src/replica.rs:440-743 | the protocol invariant holds after every run, for any group size |
| Agreement.RunsOnlyGrow | src/recorder.rs:37-67 | however a run continues, nothing recorded, sent or decided is taken back, and a decided recorder keeps its value |
| Agreement.AgreementOverRuns | src/replica.rs:682-709 | agreement: a decision made anywhere at any time, by fast path, phase 2 or learning, equals every decision made anywhere else, earlier or later |
| Agreement.ChosenUnique | src/proposer.rs:201-242 | at most one value is ever chosen in a slot, on either path and in any rounds |
| Agreement.DecisionIsChosen | src/proposer.rs:219-225 | an event on which a proposer decides in phase 2, a reply or a pass of driving, leaves its proposal chosen: a quorum left phase 1 with nothing above it and aggregated it in phase 2 |
| Agreement.DecisionLock | src/proposer.rs:219-225 | once some proposer decides p in phase 2, then however the run goes on, nothing above p is spread or recorded at that step, and everything sent or first recorded from the next round on carries p's value, after catch-up and new draws too |
| Agreement.NothingSpreadAbove | src/proposer.rs:219-225 | no proposer spreads anything above a chosen proposal in its phase 2 |
| Agreement.PhaseThreeAdoptsDecision | src/proposer.rs:226-227 | once some proposer decides p in phase 2, then however the run goes on, any reply on which a proposer completes phase 3 of that round makes it adopt exactly p |
| Agreement.CarriedForever | src/proposer.rs:101-127 | a value that all templates carry from some step on is carried by all later ones, so neither new draws nor catch-up bring another in |
| Agreement.FastPathDominance | src/proposer.rs:203-215 | once a quorum holds a priority-H first at step 4, every proposer leaves step 4 with exactly the leader's proposal and everything sent later carries its value |
| Agreement.HighOnlyAtStart | src/proposer.rs:149-153 | the reserved priority is offered in no phase 0 but the leader's step 4 |
| Agreement.StallUnreachable | src/proposer.rs:226-237 | no truthful reply that completes a quorum leads to the defensive stall, for proposers that caught up too |
| Agreement.EchoIsLossless | src/replica.rs:525-535 | whenever a reply is accepted, elided or not, the proposal rebuilt is the first its recorder held at the step it replied for |
| Agreement.DecisionWasEntered | src/proposer.rs:68-69 | a chosen value is one that some proposer started the slot with |
| Encoding.LittleEndianRoundTrip | src/types.rs:195-203 | byte k of an encoded number is its digit of weight 256^k, and reading the bytes back gives the number, cut off at the field's width |
| Encoding.LittleEndianOnto | src/types.rs:195-203 | every byte string is the encoding of the number it reads as, whose digit of weight 256^k is byte k |
| Encoding.Cursor.Take | src/types.rs:205-213 | takes exactly the next bytes if that many are left; otherwise takes none |
| Encoding.Cursor.Uint | src/types.rs:195-203 | reads one fixed-width number off the rest of the input, the byte k of it being its digit of weight 256^k, or fails without moving |
| Batch.BatchRoundTrip | src/types.rs:133-180 | decoding an encoded batch gives the batch |
| Batch.BatchCanonical | src/types.rs:154-180 | an accepted value is the encoding of the batch it decodes to, and that batch fits the format |
| Batch.BatchPrefixFree | src/types.rs:176-178 | no proper extension, and so no proper prefix, of an accepted value is accepted |
| Batch.EncodedSize | src/types.rs:134-141 | an encoded batch is exactly 5 bytes plus 28 and the data length for each command |
| Batch.EncodeBatch | src/types.rs:134-152 | the encoding loop produces the specified bytes, whose layout `Layout.BatchLayout` fixes |
| Batch.DecodeBatch | src/types.rs:159-180 | the decoding loop accepts and returns exactly what the specified parser does, which `Layout.ValuesDecodeExactly` fixes |
| Wire.MessageRoundTrip | src/wire.rs:95-245 | decoding an encoded message gives the message, for every message that fits the format |
| Wire.MessageCanonical | src/wire.rs:164-244 | an accepted input is the encoding of the message it decodes to, which fits the format: nonzero sender, priorities and proposers, known kind and version, no trailing bytes |
| Wire.MessagePrefixFree | src/wire.rs:236-238 | no proper extension, and so no proper prefix, of an accepted input is accepted |
| Wire.Encode | src/wire.rs:97-162 | serializing appends, field by field and in loops, exactly the specified bytes, whose layout `Layout.MessageLayout` fixes |
| Wire.Decode | src/wire.rs:168-244 | parsing any input through the cursor accepts and returns exactly what the specified parser does, which `Layout.DecodesExactly` fixes |
| Layout.BatchLayout | src/types.rs:142-151 | bytes are the encoding of a batch if and only if they are tag 0, the count in 4 bytes, then per command origin, boot and sequence number in 8 bytes each, the length in 4 and the data, every number least significant byte first, and nothing more |
| Layout.ValuesDecodeExactly | src/types.rs:159-180 | bytes decode to a batch if and only if they are laid out as that batch and its fields fit |
| Layout.MessageLayout | src/wire.rs:97-162 | bytes are the encoding of a message if and only if byte 0 is 1, byte 1 the number of its kind, bytes 2-9 the sender, bytes 10-17 the watermark, and each field of its kind stands at its offset, every number least significant byte first, and nothing more follows |
| Layout.DecodesExactly | src/wire.rs:168-244 | an input decodes to a message if and only if it is laid out as that message and the message fits the format |
| Pooling.Pool.Insert | src/pool.rs:36-47 | the entry is held as unassigned, last forwarded now and never before, and the byte counter stays right exactly if the id was new or its data as long as before |
| Pooling.Pool.Remove | src/pool.rs:49-53 | the entry is gone and the byte counter is the cost of what is left |
| Pooling.ReplacingMiscounts | src/pool.rs:44-46 | replacing a held entry by one of another length leaves a counter that is wrong |
| Pooling.Pool.HasUnassigned | src/pool.rs:55-59 | tells exactly whether some entry rides in no proposal |
| Pooling.Dedup.Mark | src/pool.rs:100-109 | marking drains the sparse set into the mark, and says whether the command was new |
| Pooling.MarkedAdds | src/pool.rs:62-70 | marking adds exactly one sequence number to what counts as delivered, never lowers the mark, and leaves nothing in the sparse set that the mark could absorb |
| Pooling.TightIsCanonical | src/pool.rs:66-70 | the bookkeeping of an origin is a function of what it has delivered |
| ReplicaInvariant.StepKeepsStorage | src/replica.rs:682-799 | every step keeps retained slots exactly the decided ones with equal values, contiguous from the floor to the frontier; running proposers have open recorders, and open slots lie within the window above the frontier |
| ReplicaInvariant.StepKeepsPool | src/replica.rs:222-256 | every step keeps the pool undelivered, of given-out ids, and every command submitted here delivered or still held with its data |
| Delivery.PrefixDetermines | src/pool.rs:66-70 | what is delivered, and the delivered-command bookkeeping, are functions of the decided prefix alone |
| Delivery.DeliveredExactly | src/replica.rs:756-761 | a command counts as delivered after a prefix exactly if some slot of the prefix holds it |
| Delivery.DeliveredOnce | src/replica.rs:756-761 | two places of the delivered sequence never hold the same command |
| Delivery.FilterIs | src/replica.rs:756-766 | of a batch exactly the commands are kept that were not delivered before and do not repeat an earlier one of the batch, in batch order |
| Delivery.DecidedIsDelivered | src/replica.rs:745-771 | a command of a decided slot is among those delivered in that slot or in an earlier one |
| Delivery.StepKeepsDelivery | src/replica.rs:745-771 | every step keeps the deliveries emitted so far exactly those the decided prefix determines, in slot order without gaps |
| Retention.StepKeepsBudget | src/replica.rs:686-697 | no step lets the remote values decided beyond the next slot exceed the retention budget |
| Retention.SweptIsBounded | src/replica.rs:783-798 | after collection, retained bytes are within the budget plus our own decisions above the frontier |
| Riding.StepKeepsRide | src/replica.rs:726-739 | no step strands a command: a pool entry is undelivered, and one marked as proposed rides in a slot above the frontier that our proposer runs or that was decided with it |
| ReplicaRuns.RunSound | src/replica.rs:157-1126 | storage, log, pool, delivery and budget invariants hold in every state of every run of one replica, whatever it is sent |
| ReplicaRuns.NeverStranded | src/pool.rs:9-11 | in every run in which only given-out ids get decided, nothing is ever stranded |
| Announcements.RunAnnounces | src/replica.rs:713-724 | in every state of every run of one replica, whatever it is sent: each of its own decisions was sent to every other replica, each step its proposers wait at was sent to every other replica as it is for that one, whoever a Learn is awaited from was sent one, and every attempt to forward an own command went to the replica whose turn it was |
| Announcements.DriveTells | src/replica.rs:645-669 | every pass of driving that leaves the step to be waited for sends it to every other replica anew, with the proposal for that recorder |
| Announcements.BroadcastOnce | src/replica.rs:714-724 | a broadcast is one message for each other replica and none more |
| Announcements.RecordIsAnswered | src/replica.rs:456-495 | a record that is taken adds one message, to its sender: the decision if the slot has one, otherwise its register's step, first proposal and prior aggregate, with the first elided exactly if it is the request's own at the request's step |
| Drawing.RunDraws | src/proposer.rs:101-112 | in every state of every run, each step spread with draws has a stretch of the random stream of its own, one number per recorder in order, and no number is in two of them |
| Clocks.StepClocks | src/replica.rs:469-475 | no step moves when a slot was first observed; when it last progressed moves to the present exactly on a record of another replica that changes its register; a new slot starts both clocks |
| SlotLogic.ElidedExactly | src/replica.rs:476-488 | a first proposal is elided exactly in a reply at the request's own step whose first proposal is the request's |
| Replica.Replica.constructor | src/replica.rs:159-189 | a new replica is the initial state, with nothing taken |
| Replica.Replica.PollAction | src/replica.rs:211-213 | the oldest pending action is handed out, each once and in order; no other call takes one off |
| Replica.Replica.Submit | src/replica.rs:222-256 | refused exactly if too large or over the pool limit, and then nothing changes; otherwise the next id is given out and the command pooled; a leader leaves work waiting only for the pipeline, anyone else has sent the command to the leader and counts one attempt |
| Replica.Replica.Receive | src/replica.rs:260-298 | a message from an unknown replica or ourselves changes nothing; otherwise its watermark is noted, its payload taken up, whoever is ahead asked, and all that everyone acknowledged freed; what is retained is within budget but for our own decisions ahead |
| Replica.Replica.OnRecord | src/replica.rs:440-496 | an invocation in a freed slot, below step 4 or beyond the window changes nothing; any other is recorded and answered by exactly one message, the decision or the register, with the echo elided exactly for our proposal at the same step |
| Replica.Replica.OnRecordReply | src/replica.rs:501-559 | a reply to a running proposer is folded in, and its outcome, of which `Outcomes.ReplyInRun` says what it must be, carried through (decided and announced, driven on, or awaited); a stale echo or a reply to nobody changes nothing |
| Replica.Replica.Drive | src/replica.rs:594-675 | terminates; in a group of several the step ends up sent to every other replica with our own recorder's answer counted, alone it decides and delivers |
| Replica.Replica.DrivePass | src/replica.rs:601-671 | one pass records locally, folds our own answer in, and broadcasts unless that moved the proposer on or decided |
| Replica.Replica.Activate | src/replica.rs:563-589 | the slot is opened with the claimed batch first, and its proposer driven |
| Replica.Replica.DecideSlot | src/replica.rs:682-743 | a value from elsewhere is dropped exactly if the slot is freed or decided, or lies ahead of the next one and does not fit the budget; an accepted one is installed first and everything downstream of it run, the next slot delivered at once; a decision of our own is sent to every other replica by the call |
| Replica.Replica.ReleaseLosers | src/replica.rs:726-739 | exactly the entries that rode in the slot and are not in its batch become batchable again |
| Replica.Replica.TryDeliver | src/replica.rs:745-771 | delivers until the next slot is undecided, then frees; terminates |
| Replica.Replica.DeliverOne | src/replica.rs:747-766 | the next slot's commands not delivered before are emitted in batch order, marked, and taken out of the pool |
| Replica.Replica.MaybeGc | src/replica.rs:773-799 | afterwards nothing everyone acknowledged is held, and past the budget nothing delivered is; no slot above the frontier goes |
| Replica.Replica.MaybeOpenSlots | src/replica.rs:822-865 | terminates; a leader goes on until the pipeline is full, the window is reached or nothing is batchable, and others do nothing |
| Replica.Replica.OpenOne | src/replica.rs:831-862 | the slot opened is the next after every known one, with a full batch, and the unassigned commands get fewer |
| Replica.Replica.TakeUnassignedBatch | src/replica.rs:868-904 | the batch is the longest run of batchable commands in id order that fits the limit, at least one if there is any, and exactly these are marked as riding |
| Replica.Replica.OnForward | src/replica.rs:803-818 | each command in turn is pooled unless delivered, held, too large or beyond the room left |
| Replica.Replica.MaybeRequestLearn | src/replica.rs:1070-1086 | a Learn is sent exactly if the other is ahead and no request is in flight within its delay |
| Replica.Replica.OnLearn | src/replica.rs:1088-1115 | a request for what was freed or is not delivered is not answered; any other gets the retained values from that slot on, up to the first that fills the chunk or to the frontier |
| Replica.Replica.OnLearnReply | src/replica.rs:1117-1125 | the request ends, and a run of values starting no later than the next slot is delivered to its end |
| Replica.Replica.EnsureFrontierObserved | src/replica.rs:912-921 | the frontier slot is observed exactly if it was not and commands or later slots need it |
| Replica.Replica.HedgeActivateDue | src/replica.rs:928-951 | afterwards no idle open slot is due; the lowest due slot is opened first, with a full batch of the pending commands, and without a due slot none is |
| Replica.Replica.RetransmitDue | src/replica.rs:955-976 | every running proposer that is due has its step sent to every other replica again, and afterwards none is due; the pool is untouched, and with none due nothing changes |
| Replica.Replica.ReforwardDue | src/replica.rs:978-1021 | a leader does nothing; otherwise every due command goes out exactly once, to the next target of its rotation, in id order and in batch-bounded messages, its attempt is counted and its deadline advances |
| Replica.Replica.LearnTick | src/replica.rs:1023-1047 | an expired request is given up and counted; with none in flight, a Learn for the slot due next goes to the replica ahead with exactly (attempts mod the number ahead) replicas ahead before it, and to none if none is ahead |
| Replica.Replica.PingTick | src/replica.rs:1054-1066 | every replica is sent a ping exactly when the interval has passed |
| Replica.Replica.Tick | src/replica.rs:303-311 | afterwards every deadline is later than now and nothing is due (for now below 2^64 - 1), and a leader leaves work waiting only for the pipeline; where nothing was due, nothing changes |
| Replica.Replica.NextWakeup | src/replica.rs:318-382 | the least of all deadlines, which has come exactly when something is due: a hedge, a retransmission, the frontier, a re-forwarding, a Learn or a ping; nothing if there is none |
| Replica.Replica.WithinBudget | src/replica.rs:205-208 | between calls, the byte counter is at most the budget plus our own decisions above the frontier |
| Wakeups.DeadlineIsWork | src/replica.rs:318-382 | a deadline that has come means that something is due, said of the state alone with literal delays |
| Wakeups.WorkHasDeadline | src/replica.rs:318-382 | whatever is due has a deadline that has come: none of the six kinds of work goes without a wakeup |
| Wakeups.EarliestIsExact | src/replica.rs:313-317 | the earliest deadline has come if and only if something is due |
| Wakeups.TickRetries | src/replica.rs:1023-1047 | the replica asked is the one ahead that has (attempts mod the number ahead) others ahead with a smaller index |
| Wakeups.EachAheadIsAsked | src/replica.rs:1034-1042 | while the same replicas stay ahead, of as many expiries in a row as there are of them exactly one leads to asking each of them, so a dead one cannot pin catching up |
| Calls.HistoryGoesOn | src/lib.rs:24-41 | steps of a replica that are its own or take up a message another sent to it extend any history of the group that led the replica where they begin, to a history that leads it where they end |
| Calls.LoneRides | src/pool.rs:9-11 | in a group of one, after any run, nothing is stranded |
| Calls.MessageIsHonest | src/replica.rs:260-298 | any message sent to a replica, in any history, meets the premises of the one call that receives it |
| Calls.AnswerIsSent | src/replica.rs:1108-1114 | an answer to a Learn on a replica's trail stands among its actions, addressed to the asker and with the values it names, after all that was emitted before |
| Calls.RecordIsSent | src/replica.rs:456-495 | so does the answer to every record on it, as the decision or the register of its slot demanded then |
| Calls.HeaderNoted | src/replica.rs:266-276 | once a message was taken up, what is noted of its sender is at least the watermark it advertised, for good |
| Calls.FittingIsDecided | src/replica.rs:682-709 | a value told for a slot not freed is decided on, if it is due next or fits the budget |
| Driving.Join | src/replica.rs:159-189 | a new replica stands at the start of its group's history |
| Driving.Submit | src/replica.rs:215-258 | submitting goes on with the group's history by steps of this replica only; it is refused exactly when the data is too large or the pool would overflow, and then changes nothing; otherwise the command has the next sequence number, and a leader leaves it waiting only for the pipeline while anyone else has sent it to the leader; no pending action is dropped |
| Driving.Receive | src/replica.rs:260-298 | feeding any message that was sent to this replica, however late or often, goes on with the group's history by steps of this replica only; another's message is taken up as its kind demands and its watermark noted, a record within reach is answered, a decision that fits is decided on, a chunk of decided values it could use is delivered to its end, whoever is ahead has been asked, what everyone acknowledged is freed, retention is within its budget, the frontier never falls and no pending action is dropped |
| Driving.Tick | src/lib.rs:31-32 | letting time pass goes on with the history in the same way; nothing that is due is left undone, a leader leaves batchable work waiting only for the pipeline, and where nothing was due nothing happens |
| Driving.SleepUntil | src/replica.rs:313-317 | the wakeup a replica asks for has come exactly when there is something to do |
| Driving.Poll | src/lib.rs:33-36 | the oldest pending action is handed out, one the replica emitted, and if it is to be sent the group may receive it from then on |
| Driving.DecisionsAreSent | src/replica.rs:713-724 | at any time, every decision of its own that a replica holds was sent to every other replica of the group, which may receive it from then on |
| Driving.OthersStay | src/lib.rs:24-26 | a call of one replica leaves the objects of the others where the longer history has them |
| Driving.Answer | src/replica.rs:1088-1115 | in a history without evictions, a replica ahead of a straggler, fed the straggler's Learn, has pending a nonempty chunk of its decided values that starts at the slot the straggler waits for |
| Driving.Carry | src/lib.rs:33-38 | once all pending actions of one replica were handed out and those for another fed to it, every chunk the receiver could use lies behind its frontier, and both are where one longer history leads them |
| Driving.CatchUp | src/replica.rs:1034-1037 | a straggler catches up: in a history without evictions, fed the straggler's Learn, a replica ahead answers with the decided values from the slot the straggler waits for, and once its answers were carried across, the straggler's frontier has risen by all of them: it has reached where the other's was, or delivered at least 1 MiB |
| Driving.ReplicasAgree | src/lib.rs:20-22 | of what two replica objects of a group have emitted for delivery, one is a prefix of the other, without gaps and as long as their frontiers |
| Deadlines.AloneNonePending | src/replica.rs:348-358 | alone, once nothing is batchable and nothing is stranded, the frontier needs no further service |
| Deadlines.RotationReachesAll | src/replica.rs:405-413 | of any n-1 consecutive transmissions of a command, one goes to each other replica, so a dead leader cannot strand it |
| Deadlines.TargetInTurn | src/replica.rs:405-413 | the target of an attempt is the replica with (attempts mod n-1) others before it in schedule order |
| ReplicaRest.SaturatedIs | src/replica.rs:822-860 | a leader is left without room exactly if its pipeline is full, its window reached, or every pooled command is proposed already or over 1024 above its origin's mark |
| ReplicaRest.FullBatchTakes | src/replica.rs:868-904 | a full batch takes only batchable commands, and leaves behind only those that come after all it takes |
| ReplicaRest.TakesUpAll | src/replica.rs:803-818 | with room for the whole list, every forwarded command is pooled that is neither delivered, held, repeated nor too large |
| ReplicaRest.TakesUpOnly | src/replica.rs:803-818 | nothing is pooled but commands of the list that are neither delivered, held nor too large |
| ReplicaRest.DrivePassMany | src/replica.rs:601-671 | in a group of several, a pass never decides, and the passes left get fewer: one catch-up to our own recorder suffices |
| ReplicaRest.DrivePassAlone | src/replica.rs:601-675 | in a group of one, the first pass decides the value just proposed |
| Emissions.StepEmits | src/replica.rs:392-403 | whatever a step sends is true of the sender's state, goes to another replica, and advertises exactly the sender's frontier |
| Projection.Simulates | src/replica.rs:440-743 | a replica step that is one protocol event for a slot keeps the protocol invariant for that slot of the group |
| Projection.Stutters | src/replica.rs:440-743 | a replica step that a slot does not notice keeps it too |
| Simulation.RecordProjects | src/replica.rs:440-496 | recording and answering is, for every slot, one protocol event or none |
| Simulation.ReplyProjects | src/replica.rs:501-559 | so is folding in a reply, the elided first component rebuilt |
| Simulation.DriveProjects | src/replica.rs:594-675 | so is a pass of driving, its broadcast included |
| Simulation.OpenProjects | src/replica.rs:563-589 | so is opening a slot with a claimed batch |
| Simulation.LearnProjects | src/replica.rs:682-709 | so is installing a decision told by another replica |
| Custody.StepEnters | src/replica.rs:563-567 | no step but opening a slot lets a new value enter it |
| GroupSteps.MoveKeepsWorld | src/replica.rs:157-1126 | any step of any replica keeps the group invariant, and takes nothing decided, submitted or delivered back |
| GroupSteps.HistoryOk | src/replica.rs:157-1126 | the group invariant holds in every state of every history |
| Guarantees.LogsAgree | src/replica.rs:127-132 | any two replicas that decided a slot decided it alike, freed slots included |
| Guarantees.LogAgreement | src/types.rs:18-21 | a slot decided anywhere at any time has that value everywhere forever |
| Guarantees.DeliveriesAgree | src/replica.rs:41-47 | of the deliveries of two replicas, at any two times, one is a prefix of the other, with slots 1, 2, 3 … and as many as the frontier says |
| Guarantees.ExactlyOnce | src/replica.rs:44-47 | no command is delivered twice at a replica |
| Guarantees.NothingIsLost | src/replica.rs:745-771 | every command of a slot up to a replica's frontier is among those that replica delivered in that slot or in an earlier one |
| Guarantees.DecidedWasSubmitted | src/replica.rs:563-567 | every command of a decided slot was submitted at its origin with exactly that data |
| Guarantees.DeliveredWasSubmitted | src/replica.rs:215-218 | every delivered command was submitted at its origin with exactly that data, through pooling, forwarding, batching, encoding, adoption, learning and decoding |
| Guarantees.NothingStranded | src/pool.rs:9-11 | at every replica, in every state of every history, whatever the pool holds is undelivered and whatever is marked as proposed really rides |
| Guarantees.DedupIsBounded | src/replica.rs:25-28 | at every replica after every delivery each sparse sequence number is at most 1024 above its origin's mark |
| Recovery.NothingFreedEarly | src/replica.rs:773-782 | in every history in which the escape hatch does not fire, no replica's floor is above any replica's frontier |
| Recovery.StragglerIsServed | src/replica.rs:1034-1037 | in such a history, a Learn from any lagging replica to any replica ahead of it has a nonempty answer, and its first value is one the straggler can take up |
| Honesty.RepliesNeverStall | src/proposer.rs:226-237 | no reply in the network would stall the proposer it answers |
| Honesty.NetworkIsHonest | src/replica.rs:260-298 | every message in the network meets the premises of its receiver, whenever it arrives |
| Honesty.SentMessageFits | src/types.rs:114-117 | every message a replica sends fits the wire format as long as its counters do, so it survives encoding and decoding |

## Left out

- The bits of src/rng.rs: draws come from an arbitrary stream of values in [1, H-1], so nothing rests on their distribution.
- Expected rounds and latency: only safety, termination of every call and deadlines are stated.
- src/sim.rs, a test harness, and the test modules.
- The clamps of src/config.rs: their outcome is a premise (`Config.Valid`).
- Process restarts and forged messages: outside the crash-stop model the crate declares.
- `Debug`, `Display` and `Error` implementations, `leader()`, `decided()` and `kind_name`.
- Sharing of `Arc` values and the capacities of vectors: values are values.
- The action queue's messages name their target by position in the schedule, not by id.
- Slot states are values in the replica's map: `IsrSlot` and `Run` are proved, as classes, against the functions that the replica applies to those values, but the replica does not hold objects of these classes.
- `saturating_add` of sizes near the top of `usize` in the retention check: sizes are unbounded.
- `debug_assert!` and branches that no call reaches: `activate` on a busy or decided slot, `decode_batch` failing on a decided value, `Retry`. The model proves its callers never get there, and omits them where they would do nothing.
- The comment on `Ping` in src/wire.rs:68-69 speaks of a leader's heartbeat with an echo. In the code every replica pings all others and nobody echoes (src/replica.rs:1049-1066); the model follows the code.
- Replica.Replica.Submit: requires fewer than 2^64 - 1 earlier submissions, where the program's counter would wrap.
- Replica.Replica.Receive: requires `HonestMessage`; what a forged message would do is outside the crash-stop model. `Driving.Receive` discharges it for every message of the group.
- Replica.Replica.OnRecordReply: requires that the reply does not stall phase 3, as part of `HonestMessage`; the stall is proved unreachable (`Agreement.StallUnreachable`, `Honesty.RepliesNeverStall`).
- Replica.Replica.OnForward: requires ids that their origins gave out, as part of `HonestMessage`; an id of ours from the future would make the next submission replace a held entry, the case of the finding above.
- Honesty.SentMessageFits: requires that slot numbers, steps and watermarks fit their fields; nothing in the program bounds them.
