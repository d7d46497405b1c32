/** The bytes of the two formats, one by one. */
module Layout {
  // Where every byte of a message and of a consensus value stands, said of the bytes alone,
  // without the encoders; and that the encoders and parsers agree with it exactly.

  import opened Types
  import opened Recorder
  import opened Encoding
  import opened Batch
  import opened Wire

  // ---- fields at offsets ----

  predicate At(b: Bytes, at: nat, x: Bytes) {
    at + |x| <= |b| && b[at..at + |x|] == x
  }

  predicate ByteAt(b: Bytes, at: nat, x: Byte) {
    at < |b| && b[at] == x
  }

  predicate DigitAt(b: Bytes, at: nat, x: nat, k: nat) {
    at + k < |b| && b[at + k] == (x / Pow256(k)) % 256
  }

  /** A number of `width` bytes, the least significant byte first. */
  predicate UintAt(b: Bytes, at: nat, width: nat, x: nat) {
    at + width <= |b| && forall k: nat :: k < width ==> DigitAt(b, at, x, k)
  }

  /** A 32-bit length and that many bytes. */
  predicate BytesAt(b: Bytes, at: nat, data: Bytes) {
    UintAt(b, at, 4, |data|) && At(b, at + 4, data)
  }

  predicate CommandAt(b: Bytes, at: nat, cmd: Command) {
    && UintAt(b, at, 8, cmd.id.origin) && UintAt(b, at + 8, 8, cmd.id.boot) && UintAt(b, at + 16, 8, cmd.id.seqno)
    && BytesAt(b, at + 24, cmd.data)
  }

  /** How far into a list of commands its `k`-th begins: 28 bytes and the data for each
      before it. */
  function CommandStart(cmds: seq<Command>, k: nat): nat
    requires k <= |cmds|
  {
    if k == 0 then 0 else CommandStart(cmds, k - 1) + 28 + |cmds[k - 1].data|
  }

  /** A 32-bit count and that many commands. */
  predicate CommandsAt(b: Bytes, at: nat, cmds: seq<Command>) {
    && UintAt(b, at, 4, |cmds|)
    && forall k: nat :: k < |cmds| ==> CommandAt(b, at + 4 + CommandStart(cmds, k), cmds[k])
  }

  predicate ProposalAt(b: Bytes, at: nat, p: Proposal) {
    UintAt(b, at, 4, p.priority) && UintAt(b, at + 4, 8, p.proposer) && BytesAt(b, at + 12, p.value)
  }

  /** Zero for an elided first proposal, otherwise one and the proposal. */
  predicate FirstAt(b: Bytes, at: nat, f: ReplyFirst) {
    match f
    case Echo => ByteAt(b, at, 0)
    case Full(p) => ByteAt(b, at, 1) && ProposalAt(b, at + 1, p)
  }

  function FirstSize(f: ReplyFirst): nat {
    match f
    case Echo => 1
    case Full(p) => 17 + |p.value|
  }

  predicate OptionAt(b: Bytes, at: nat, o: Option<Proposal>) {
    match o
    case None => ByteAt(b, at, 0)
    case Some(p) => ByteAt(b, at, 1) && ProposalAt(b, at + 1, p)
  }

  function OptionSize(o: Option<Proposal>): nat {
    match o
    case None => 1
    case Some(p) => 17 + |p.value|
  }

  function ValueStart(values: seq<Bytes>, k: nat): nat
    requires k <= |values|
  {
    if k == 0 then 0 else ValueStart(values, k - 1) + 4 + |values[k - 1]|
  }

  /** A 32-bit count and that many values. */
  predicate ValuesAt(b: Bytes, at: nat, values: seq<Bytes>) {
    && UintAt(b, at, 4, |values|)
    && forall k: nat :: k < |values| ==> BytesAt(b, at + 4 + ValueStart(values, k), values[k])
  }

  // ---- the two formats ----

  /** A consensus value: tag 0 and the commands. */
  predicate IsBatch(b: Bytes, cmds: seq<Command>) {
    |b| == 5 + CommandStart(cmds, |cmds|) && ByteAt(b, 0, 0) && CommandsAt(b, 1, cmds)
  }

  /** A message: version 1, its kind, the sender's id and watermark, and from byte 18 on
      what its kind calls for, to the last byte. */
  predicate IsMessage(b: Bytes, m: Message) {
    && ByteAt(b, 0, 1) && UintAt(b, 2, 8, m.from) && UintAt(b, 10, 8, m.decided)
    && match m.payload
       case Record(slot, step, proposal) =>
         && ByteAt(b, 1, 1) && UintAt(b, 18, 8, slot) && UintAt(b, 26, 4, step) && ProposalAt(b, 30, proposal)
         && |b| == 46 + |proposal.value|
       case RecordReply(slot, reqStep, step, first, priorAgg) =>
         && ByteAt(b, 1, 2) && UintAt(b, 18, 8, slot) && UintAt(b, 26, 4, reqStep) && UintAt(b, 30, 4, step)
         && FirstAt(b, 34, first) && OptionAt(b, 34 + FirstSize(first), priorAgg)
         && |b| == 34 + FirstSize(first) + OptionSize(priorAgg)
       case Decide(slot, value) =>
         ByteAt(b, 1, 3) && UintAt(b, 18, 8, slot) && BytesAt(b, 26, value) && |b| == 30 + |value|
       case Forward(commands) =>
         ByteAt(b, 1, 4) && CommandsAt(b, 18, commands) && |b| == 22 + CommandStart(commands, |commands|)
       case Learn(fromSlot) => ByteAt(b, 1, 5) && UintAt(b, 18, 8, fromSlot) && |b| == 26
       case LearnReply(firstSlot, values) =>
         && ByteAt(b, 1, 6) && UintAt(b, 18, 8, firstSlot) && ValuesAt(b, 26, values)
         && |b| == 30 + ValueStart(values, |values|)
       case Ping => ByteAt(b, 1, 7) && |b| == 18
  }

  // ---- each field is what its encoder writes ----

  lemma Join(b: Bytes, at: nat, x: Bytes, y: Bytes)
    ensures At(b, at, x + y) <==> At(b, at, x) && At(b, at + |x|, y)
  {
    var z := x + y;
    if at + |z| <= |b| {
      assert b[at..at + |z|] == b[at..at + |x|] + b[at + |x|..at + |x| + |y|];
      if At(b, at, z) {
        assert b[at..at + |x|] == z[..|x|] == x;
        assert b[at + |x|..at + |x| + |y|] == z[|x|..] == y;
      }
    }
  }

  lemma UintIs(b: Bytes, at: nat, width: nat, x: nat)
    ensures UintAt(b, at, width, x) <==> At(b, at, LittleEndian(x, width))
  {
    hide LittleEndian, Pow256;
    var e := LittleEndian(x, width);
    Digits(x, width);
    if UintAt(b, at, width, x) {
      forall k: nat | k < width ensures b[at..at + width][k] == e[k] {
        assert DigitAt(b, at, x, k);
      }
      assert b[at..at + width] == e;
    }
    if At(b, at, e) {
      forall k: nat | k < width ensures DigitAt(b, at, x, k) {
        assert b[at..at + width][k] == e[k];
      }
    }
  }

  lemma ByteIs(b: Bytes, at: nat, x: Byte)
    ensures ByteAt(b, at, x) <==> At(b, at, [x])
  {
    if at < |b| {
      assert b[at..at + 1] == [b[at]];
    }
  }

  lemma BytesIs(b: Bytes, at: nat, data: Bytes)
    ensures BytesAt(b, at, data) <==> At(b, at, EncodeBytes(data))
  {
    hide LittleEndian, UintAt, At;
    UintIs(b, at, 4, |data|);
    Join(b, at, LittleEndian(|data|, 4), data);
  }

  lemma CommandIs(b: Bytes, at: nat, cmd: Command)
    ensures CommandAt(b, at, cmd) <==> At(b, at, EncodeCommand(cmd))
    ensures |EncodeCommand(cmd)| == 28 + |cmd.data|
  {
    hide LittleEndian, UintAt, At, BytesAt;
    var x, y, z := LittleEndian(cmd.id.origin, 8), LittleEndian(cmd.id.boot, 8), LittleEndian(cmd.id.seqno, 8);
    UintIs(b, at, 8, cmd.id.origin);
    UintIs(b, at + 8, 8, cmd.id.boot);
    UintIs(b, at + 16, 8, cmd.id.seqno);
    BytesIs(b, at + 24, cmd.data);
    Join(b, at, x, y);
    Join(b, at, x + y, z);
    Join(b, at, x + y + z, EncodeBytes(cmd.data));
  }

  lemma StartOf(cmds: seq<Command>, n: nat)
    requires n <= |cmds|
    ensures CommandStart(cmds, n) == if n == 0 then 0 else CommandStart(cmds, n - 1) + 28 + |cmds[n - 1].data|
  {
  }

  lemma Nothing(b: Bytes, at: nat)
    requires at <= |b|
    ensures At(b, at, [])
  {
  }

  /** The first `n` commands stand in the bytes, one after another. */
  predicate RunOfCommands(b: Bytes, at: nat, cmds: seq<Command>, n: nat) {
    n <= |cmds| && forall k: nat :: k < n ==> CommandAt(b, at + CommandStart(cmds, k), cmds[k])
  }

  lemma {:induction false} CommandRunIs(b: Bytes, at: nat, cmds: seq<Command>, n: nat)
    requires n <= |cmds| && at <= |b|
    ensures |EncodeCommands(cmds[..n])| == CommandStart(cmds, n)
    ensures RunOfCommands(b, at, cmds, n) <==> At(b, at, EncodeCommands(cmds[..n]))
  {
    hide CommandAt, EncodeCommand, EncodeCommands, CommandStart, At;
    StartOf(cmds, n);
    if n == 0 {
      NoCommands();
      assert cmds[..0] == [];
      Nothing(b, at);
    } else {
      CommandRunIs(b, at, cmds, n - 1);
      assert cmds[..n] == cmds[..n - 1] + [cmds[n - 1]];
      EncodeCommandsAppend(cmds[..n - 1], cmds[n - 1]);
      CommandIs(b, at + CommandStart(cmds, n - 1), cmds[n - 1]);
      Join(b, at, EncodeCommands(cmds[..n - 1]), EncodeCommand(cmds[n - 1]));
    }
  }

  lemma CommandsIs(b: Bytes, at: nat, cmds: seq<Command>)
    requires at + 4 <= |b|
    ensures CommandsAt(b, at, cmds) <==> At(b, at, EncodeList(cmds))
    ensures |EncodeList(cmds)| == 4 + CommandStart(cmds, |cmds|)
  {
    hide LittleEndian, UintAt, At, CommandAt, EncodeCommands, CommandStart;
    UintIs(b, at, 4, |cmds|);
    CommandRunIs(b, at + 4, cmds, |cmds|);
    assert cmds[..|cmds|] == cmds;
    Join(b, at, LittleEndian(|cmds|, 4), EncodeCommands(cmds));
  }

  lemma ProposalIs(b: Bytes, at: nat, p: Proposal)
    ensures ProposalAt(b, at, p) <==> At(b, at, EncodeProposal(p))
    ensures |EncodeProposal(p)| == 16 + |p.value|
  {
    hide LittleEndian, UintAt, At, BytesAt;
    UintIs(b, at, 4, p.priority);
    UintIs(b, at + 4, 8, p.proposer);
    BytesIs(b, at + 12, p.value);
    Join(b, at, LittleEndian(p.priority, 4), LittleEndian(p.proposer, 8));
    Join(b, at, LittleEndian(p.priority, 4) + LittleEndian(p.proposer, 8), EncodeBytes(p.value));
  }

  lemma FirstIs(b: Bytes, at: nat, f: ReplyFirst)
    ensures FirstAt(b, at, f) <==> At(b, at, EncodeFirst(f))
    ensures |EncodeFirst(f)| == FirstSize(f)
  {
    hide At, EncodeProposal, ProposalAt, ByteAt;
    ByteIs(b, at, 0);
    ByteIs(b, at, 1);
    if f.Full? {
      ProposalIs(b, at + 1, f.proposal);
      Join(b, at, [1], EncodeProposal(f.proposal));
    }
  }

  lemma OptionIs(b: Bytes, at: nat, o: Option<Proposal>)
    ensures OptionAt(b, at, o) <==> At(b, at, EncodeOption(o))
    ensures |EncodeOption(o)| == OptionSize(o)
  {
    hide At, EncodeProposal, ProposalAt, ByteAt;
    ByteIs(b, at, 0);
    ByteIs(b, at, 1);
    if o.Some? {
      ProposalIs(b, at + 1, o.value);
      Join(b, at, [1], EncodeProposal(o.value));
    }
  }

  lemma ValueStartOf(values: seq<Bytes>, n: nat)
    requires n <= |values|
    ensures ValueStart(values, n) == if n == 0 then 0 else ValueStart(values, n - 1) + 4 + |values[n - 1]|
    ensures n == 0 ==> EncodeValues([]) == []
  {
  }

  predicate RunOfValues(b: Bytes, at: nat, values: seq<Bytes>, n: nat) {
    n <= |values| && forall k: nat :: k < n ==> BytesAt(b, at + ValueStart(values, k), values[k])
  }

  lemma {:induction false} ValueRunIs(b: Bytes, at: nat, values: seq<Bytes>, n: nat)
    requires n <= |values| && at <= |b|
    ensures |EncodeValues(values[..n])| == ValueStart(values, n)
    ensures RunOfValues(b, at, values, n) <==> At(b, at, EncodeValues(values[..n]))
  {
    hide BytesAt, LittleEndian, EncodeValues, ValueStart, At;
    ValueStartOf(values, n);
    if n == 0 {
      assert values[..0] == [];
      Nothing(b, at);
    } else {
      ValueRunIs(b, at, values, n - 1);
      assert values[..n] == values[..n - 1] + [values[n - 1]];
      EncodeValuesAppend(values[..n - 1], values[n - 1]);
      BytesIs(b, at + ValueStart(values, n - 1), values[n - 1]);
      Join(b, at, EncodeValues(values[..n - 1]), EncodeBytes(values[n - 1]));
    }
  }

  lemma ValuesIs(b: Bytes, at: nat, values: seq<Bytes>)
    requires at + 4 <= |b|
    ensures ValuesAt(b, at, values) <==> At(b, at, LittleEndian(|values|, 4) + EncodeValues(values))
    ensures |EncodeValues(values)| == ValueStart(values, |values|)
  {
    hide LittleEndian, UintAt, At, BytesAt, EncodeValues, ValueStart;
    UintIs(b, at, 4, |values|);
    ValueRunIs(b, at + 4, values, |values|);
    assert values[..|values|] == values;
    Join(b, at, LittleEndian(|values|, 4), EncodeValues(values));
  }

  // ---- each format is what its encoder writes ----

  lemma Whole(b: Bytes, x: Bytes)
    ensures b == x <==> At(b, 0, x) && |b| == |x|
  {
    if |b| == |x| {
      assert b[0..|x|] == b;
    }
  }

  /** The encoding of a batch is the one byte string of the format. */
  lemma BatchLayout(b: Bytes, cmds: seq<Command>)
    ensures b == BatchBytes(cmds) <==> IsBatch(b, cmds)
  {
    hide EncodeList, CommandsAt, At, ByteAt, CommandStart;
    Whole(b, BatchBytes(cmds));
    ByteIs(b, 0, 0);
    Join(b, 0, [VALUE_TAG_BATCH], EncodeList(cmds));
    if |b| >= 5 {
      CommandsIs(b, 1, cmds);
    } else {
      EncodedList(cmds);
    }
  }

  lemma EncodedList(cmds: seq<Command>)
    ensures |EncodeList(cmds)| == 4 + CommandStart(cmds, |cmds|)
  {
    hide EncodeList, CommandStart;
    CommandsIs([0, 0, 0, 0], 0, cmds);
  }

  lemma HeaderIs(b: Bytes, m: Message)
    ensures At(b, 0, EncodeHeader(m)) <==>
      ByteAt(b, 0, 1) && ByteAt(b, 1, Kind(m.payload)) && UintAt(b, 2, 8, m.from) && UintAt(b, 10, 8, m.decided)
  {
    hide LittleEndian, UintAt, At, ByteAt, Kind;
    ByteIs(b, 0, VERSION);
    ByteIs(b, 1, Kind(m.payload));
    UintIs(b, 2, 8, m.from);
    UintIs(b, 10, 8, m.decided);
    Join(b, 0, [VERSION], [Kind(m.payload)]);
    assert [VERSION] + [Kind(m.payload)] == [VERSION, Kind(m.payload)];
    Join(b, 0, [VERSION, Kind(m.payload)], LittleEndian(m.from, 8));
    Join(b, 0, [VERSION, Kind(m.payload)] + LittleEndian(m.from, 8), LittleEndian(m.decided, 8));
  }

  lemma RecordLayout(b: Bytes, slot: Slot, step: nat, p: Proposal)
    ensures At(b, 18, EncodePayload(Record(slot, step, p))) <==>
      UintAt(b, 18, 8, slot) && UintAt(b, 26, 4, step) && ProposalAt(b, 30, p)
    ensures |EncodePayload(Record(slot, step, p))| == 28 + |p.value|
  {
    hide LittleEndian, UintAt, At, ProposalAt, EncodeProposal;
    UintIs(b, 18, 8, slot);
    UintIs(b, 26, 4, step);
    ProposalIs(b, 30, p);
    Join(b, 18, LittleEndian(slot, 8), LittleEndian(step, 4));
    Join(b, 18, LittleEndian(slot, 8) + LittleEndian(step, 4), EncodeProposal(p));
  }

  lemma ReplyLayout(b: Bytes, slot: Slot, reqStep: nat, step: nat, first: ReplyFirst, priorAgg: Option<Proposal>)
    ensures At(b, 18, EncodePayload(RecordReply(slot, reqStep, step, first, priorAgg))) <==>
      && UintAt(b, 18, 8, slot) && UintAt(b, 26, 4, reqStep) && UintAt(b, 30, 4, step)
      && FirstAt(b, 34, first) && OptionAt(b, 34 + FirstSize(first), priorAgg)
    ensures |EncodePayload(RecordReply(slot, reqStep, step, first, priorAgg))| ==
      16 + FirstSize(first) + OptionSize(priorAgg)
  {
    hide LittleEndian, UintAt, At, FirstAt, EncodeFirst, OptionAt, EncodeOption, FirstSize, OptionSize;
    UintIs(b, 18, 8, slot);
    UintIs(b, 26, 4, reqStep);
    UintIs(b, 30, 4, step);
    FirstIs(b, 34, first);
    OptionIs(b, 34 + FirstSize(first), priorAgg);
    var steps := LittleEndian(reqStep, 4) + LittleEndian(step, 4);
    var body := EncodeFirst(first) + EncodeOption(priorAgg);
    Join(b, 18, LittleEndian(slot, 8), steps + body);
    Join(b, 26, steps, body);
    Join(b, 26, LittleEndian(reqStep, 4), LittleEndian(step, 4));
    Join(b, 34, EncodeFirst(first), EncodeOption(priorAgg));
  }

  lemma DecideLayout(b: Bytes, slot: Slot, value: Bytes)
    ensures At(b, 18, EncodePayload(Decide(slot, value))) <==> UintAt(b, 18, 8, slot) && BytesAt(b, 26, value)
    ensures |EncodePayload(Decide(slot, value))| == 12 + |value|
  {
    hide LittleEndian, UintAt, At, BytesAt;
    UintIs(b, 18, 8, slot);
    BytesIs(b, 26, value);
    Join(b, 18, LittleEndian(slot, 8), EncodeBytes(value));
  }

  lemma LearnReplyLayout(b: Bytes, firstSlot: Slot, values: seq<Bytes>)
    requires |b| >= 30
    ensures At(b, 18, EncodePayload(LearnReply(firstSlot, values))) <==>
      UintAt(b, 18, 8, firstSlot) && ValuesAt(b, 26, values)
    ensures |EncodePayload(LearnReply(firstSlot, values))| == 12 + ValueStart(values, |values|)
  {
    hide LittleEndian, UintAt, At, ValuesAt, EncodeValues, ValueStart;
    UintIs(b, 18, 8, firstSlot);
    ValuesIs(b, 26, values);
    Join(b, 18, LittleEndian(firstSlot, 8), LittleEndian(|values|, 4) + EncodeValues(values));
    assert LittleEndian(firstSlot, 8) + (LittleEndian(|values|, 4) + EncodeValues(values)) ==
      EncodePayload(LearnReply(firstSlot, values));
  }

  /** Some bytes to measure an encoding against. */
  function Blank(): Bytes {
    seq(30, _ => 0)
  }

  /** How long the encoding of a payload is. */
  lemma PayloadLength(p: Payload) returns (n: nat)
    ensures |EncodePayload(p)| == n
    ensures n == match p
      case Record(_, _, proposal) => 28 + |proposal.value|
      case RecordReply(_, _, _, first, priorAgg) => 16 + FirstSize(first) + OptionSize(priorAgg)
      case Decide(_, value) => 12 + |value|
      case Forward(commands) => 4 + CommandStart(commands, |commands|)
      case Learn(_) => 8
      case LearnReply(_, values) => 12 + ValueStart(values, |values|)
      case Ping => 0
  {
    hide LittleEndian, EncodeList, CommandStart, ValueStart, FirstSize, OptionSize;
    n := |EncodePayload(p)|;
    match p
    case Record(slot, step, proposal) => RecordLayout(Blank(), slot, step, proposal);
    case RecordReply(slot, reqStep, step, first, priorAgg) =>
      ReplyLayout(Blank(), slot, reqStep, step, first, priorAgg);
    case Decide(slot, value) => DecideLayout(Blank(), slot, value);
    case Forward(commands) => EncodedList(commands);
    case Learn(_) =>
    case LearnReply(firstSlot, values) => LearnReplyLayout(Blank(), firstSlot, values);
    case Ping =>
  }

  /** What the kind of a message calls for, from byte 18 on. */
  lemma PayloadIs(b: Bytes, m: Message)
    requires |b| == 18 + |EncodePayload(m.payload)| && At(b, 0, EncodeHeader(m))
    ensures At(b, 18, EncodePayload(m.payload)) <==> IsMessage(b, m)
  {
    hide LittleEndian, UintAt, At, ProposalAt, BytesAt, FirstAt, OptionAt, CommandsAt, ValuesAt, EncodeProposal,
      EncodeBytes, EncodeFirst, EncodeOption, EncodeList, EncodeValues, CommandStart, ValueStart, FirstSize,
      OptionSize, ByteAt;
    HeaderIs(b, m);
    var n := PayloadLength(m.payload);
    match m.payload
    case Record(slot, step, proposal) => RecordLayout(b, slot, step, proposal);
    case RecordReply(slot, reqStep, step, first, priorAgg) => ReplyLayout(b, slot, reqStep, step, first, priorAgg);
    case Decide(slot, value) => DecideLayout(b, slot, value);
    case Forward(commands) => CommandsIs(b, 18, commands);
    case Learn(fromSlot) => UintIs(b, 18, 8, fromSlot);
    case LearnReply(firstSlot, values) => LearnReplyLayout(b, firstSlot, values);
    case Ping => Nothing(b, 18);
  }

  /** The encoding of a message is the one byte string of the format. */
  lemma MessageLayout(b: Bytes, m: Message)
    ensures b == MessageBytes(m) <==> IsMessage(b, m)
  {
    hide EncodeHeader, EncodePayload, At, LittleEndian;
    HeaderIs(b, m);
    HeaderSize(m);
    var n := PayloadLength(m.payload);
    Whole(b, MessageBytes(m));
    Join(b, 0, EncodeHeader(m), EncodePayload(m.payload));
    if |b| == 18 + n && At(b, 0, EncodeHeader(m)) {
      PayloadIs(b, m);
    }
  }

  lemma HeaderSize(m: Message)
    ensures |EncodeHeader(m)| == 18
  {
  }

  // ---- and what the parsers accept ----

  /** Exactly the byte strings of the format decode, each to the message it spells. */
  lemma DecodesExactly(b: Bytes, m: Message)
    ensures ParseMessage(b) == Some(m) <==> IsMessage(b, m) && MessageFits(m)
  {
    hide ParseMessage, MessageBytes, IsMessage, MessageFits;
    MessageLayout(b, m);
    if ParseMessage(b) == Some(m) {
      MessageCanonical(b);
    }
    if IsMessage(b, m) && MessageFits(m) {
      MessageRoundTrip(m);
    }
  }

  /** Exactly the byte strings of the format are values, each with one meaning. */
  lemma ValuesDecodeExactly(b: Bytes, cmds: seq<Command>)
    ensures ParseBatch(b) == Some(cmds) <==> IsBatch(b, cmds) && CommandsFit(cmds)
  {
    hide ParseBatch, BatchBytes, IsBatch, CommandsFit;
    BatchLayout(b, cmds);
    if ParseBatch(b) == Some(cmds) {
      BatchCanonical(b);
    }
    if IsBatch(b, cmds) && CommandsFit(cmds) {
      BatchRoundTrip(cmds);
    }
  }
}
