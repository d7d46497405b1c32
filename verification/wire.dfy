/** The messages replicas exchange and their wire format. */
module Wire {
  import opened Types
  import opened Recorder
  import opened Encoding
  import opened Batch

  datatype Payload =
    | Record(slot: Slot, step: nat, proposal: Proposal)
    | RecordReply(slot: Slot, reqStep: nat, step: nat, first: ReplyFirst, priorAgg: Option<Proposal>)
    | Decide(slot: Slot, value: Bytes)
    | Forward(commands: seq<Command>)
    | Learn(fromSlot: Slot)
    | LearnReply(firstSlot: Slot, values: seq<Bytes>)
    | Ping

  /** A message, its sender, and the sender's contiguous decided watermark. */
  datatype Message = Message(from: ReplicaId, decided: Slot, payload: Payload)

  const VERSION: Byte := 1

  function Kind(p: Payload): Byte {
    match p
    case Record(_, _, _) => 1
    case RecordReply(_, _, _, _, _) => 2
    case Decide(_, _) => 3
    case Forward(_) => 4
    case Learn(_) => 5
    case LearnReply(_, _) => 6
    case Ping => 7
  }

  // ---- what fits the format ----

  predicate ProposalFits(p: Proposal) {
    0 < p.priority && 0 < p.proposer < U64_LIMIT && |p.value| < U32_LIMIT
  }

  predicate FirstFits(f: ReplyFirst) {
    match f
    case Echo => true
    case Full(p) => ProposalFits(p)
  }

  predicate OptionFits(o: Option<Proposal>) {
    o.Some? ==> ProposalFits(o.value)
  }

  predicate ValuesFit(values: seq<Bytes>) {
    |values| < U32_LIMIT && forall k :: 0 <= k < |values| ==> |values[k]| < U32_LIMIT
  }

  predicate PayloadFits(p: Payload) {
    match p
    case Record(slot, step, proposal) => slot < U64_LIMIT && step < U32_LIMIT && ProposalFits(proposal)
    case RecordReply(slot, reqStep, step, first, priorAgg) =>
      slot < U64_LIMIT && reqStep < U32_LIMIT && step < U32_LIMIT && FirstFits(first) && OptionFits(priorAgg)
    case Decide(slot, value) => slot < U64_LIMIT && |value| < U32_LIMIT
    case Forward(commands) => CommandsFit(commands)
    case Learn(fromSlot) => fromSlot < U64_LIMIT
    case LearnReply(firstSlot, values) => firstSlot < U64_LIMIT && ValuesFit(values)
    case Ping => true
  }

  predicate MessageFits(m: Message) {
    0 < m.from < U64_LIMIT && m.decided < U64_LIMIT && PayloadFits(m.payload)
  }

  // ---- proposals ----

  function EncodeProposal(p: Proposal): Bytes {
    LittleEndian(p.priority, 4) + LittleEndian(p.proposer, 8) + EncodeBytes(p.value)
  }

  function ParseProposal(b: Bytes): Parse<Proposal> {
    match ParseUint(b, 4)
    case None => None
    case Some((priority, b1)) =>
      UintCanonical(b, 4);
      Limits();
      match ParseUint(b1, 8)
      case None => None
      case Some((proposer, b2)) =>
        if priority == 0 || proposer == 0 then None
        else
          match ParseBytes(b2)
          case None => None
          case Some((value, b3)) => Some((Proposal(priority, proposer, value), b3))
  }

  lemma ProposalRoundTrip(p: Proposal, rest: Bytes)
    requires ProposalFits(p)
    ensures ParseProposal(EncodeProposal(p) + rest) == Some((p, rest))
  {
    Limits();
    var x, y, z := LittleEndian(p.priority, 4), LittleEndian(p.proposer, 8), EncodeBytes(p.value);
    assert EncodeProposal(p) + rest == x + (y + (z + rest));
    UintRoundTrip(p.priority, 4, y + (z + rest));
    UintRoundTrip(p.proposer, 8, z + rest);
    BytesRoundTrip(p.value, rest);
  }

  lemma ProposalCanonical(b: Bytes)
    requires ParseProposal(b).Some?
    ensures var (p, rest) := ParseProposal(b).value; ProposalFits(p) && b == EncodeProposal(p) + rest
  {
    hide LittleEndian, FromLittleEndian, ParseUint, ParseBytes;
    Limits();
    var (priority, b1) := ParseUint(b, 4).value;
    var (proposer, b2) := ParseUint(b1, 8).value;
    var (value, b3) := ParseBytes(b2).value;
    UintCanonical(b, 4);
    UintCanonical(b1, 8);
    BytesCanonical(b2);
    Regroup(LittleEndian(priority, 4), LittleEndian(proposer, 8), EncodeBytes(value), b3);
  }

  // ---- optional components ----

  function EncodeFirst(f: ReplyFirst): Bytes {
    match f
    case Echo => [0]
    case Full(p) => [1] + EncodeProposal(p)
  }

  function ParseFirst(b: Bytes): Parse<ReplyFirst> {
    if b == [] then None
    else if b[0] == 0 then Some((Echo, b[1..]))
    else if b[0] == 1 then
      match ParseProposal(b[1..])
      case None => None
      case Some((p, rest)) => Some((Full(p), rest))
    else None
  }

  lemma FirstRoundTrip(f: ReplyFirst, rest: Bytes)
    requires FirstFits(f)
    ensures ParseFirst(EncodeFirst(f) + rest) == Some((f, rest))
  {
    hide ParseProposal, EncodeProposal;
    var b := EncodeFirst(f) + rest;
    match f
    case Echo => assert b[1..] == rest;
    case Full(p) =>
      assert b[1..] == EncodeProposal(p) + rest;
      ProposalRoundTrip(p, rest);
  }

  lemma FirstCanonical(b: Bytes)
    requires ParseFirst(b).Some?
    ensures var (f, rest) := ParseFirst(b).value; FirstFits(f) && b == EncodeFirst(f) + rest
  {
    assert b == [b[0]] + b[1..];
    if b[0] == 1 {
      ProposalCanonical(b[1..]);
    }
  }

  function EncodeOption(o: Option<Proposal>): Bytes {
    match o
    case None => [0]
    case Some(p) => [1] + EncodeProposal(p)
  }

  function ParseOption(b: Bytes): Parse<Option<Proposal>> {
    if b == [] then None
    else if b[0] == 0 then Some((None, b[1..]))
    else if b[0] == 1 then
      match ParseProposal(b[1..])
      case None => None
      case Some((p, rest)) => Some((Some(p), rest))
    else None
  }

  lemma OptionRoundTrip(o: Option<Proposal>, rest: Bytes)
    requires OptionFits(o)
    ensures ParseOption(EncodeOption(o) + rest) == Some((o, rest))
  {
    hide ParseProposal, EncodeProposal;
    var b := EncodeOption(o) + rest;
    match o
    case None => assert b[1..] == rest;
    case Some(p) =>
      assert b[1..] == EncodeProposal(p) + rest;
      ProposalRoundTrip(p, rest);
  }

  lemma OptionCanonical(b: Bytes)
    requires ParseOption(b).Some?
    ensures var (o, rest) := ParseOption(b).value; OptionFits(o) && b == EncodeOption(o) + rest
  {
    assert b == [b[0]] + b[1..];
    if b[0] == 1 {
      ProposalCanonical(b[1..]);
    }
  }

  // ---- counted lists of values ----

  function EncodeValues(values: seq<Bytes>): Bytes {
    if values == [] then [] else EncodeBytes(values[0]) + EncodeValues(values[1..])
  }

  function ParseValues(b: Bytes, count: nat): Parse<seq<Bytes>> {
    if count == 0 then Some(([], b))
    else
      match ParseBytes(b)
      case None => None
      case Some((value, b1)) =>
        match ParseValues(b1, count - 1)
        case None => None
        case Some((values, b2)) => Some(([value] + values, b2))
  }

  lemma {:induction false} ValuesRoundTrip(values: seq<Bytes>, rest: Bytes)
    requires forall k :: 0 <= k < |values| ==> |values[k]| < U32_LIMIT
    ensures ParseValues(EncodeValues(values) + rest, |values|) == Some((values, rest))
  {
    if values == [] {
      assert EncodeValues(values) + rest == rest;
    } else {
      var tail := EncodeValues(values[1..]) + rest;
      assert EncodeValues(values) + rest == EncodeBytes(values[0]) + tail;
      BytesRoundTrip(values[0], tail);
      ValuesRoundTrip(values[1..], rest);
      assert [values[0]] + values[1..] == values;
    }
  }

  lemma {:induction false} ValuesCanonical(b: Bytes, count: nat)
    requires ParseValues(b, count).Some?
    ensures
      var (values, rest) := ParseValues(b, count).value;
      |values| == count && (forall k :: 0 <= k < |values| ==> |values[k]| < U32_LIMIT)
        && b == EncodeValues(values) + rest
    decreases count
  {
    hide EncodeBytes, ParseBytes;
    if count > 0 {
      BytesCanonical(b);
      var (value, b1) := ParseBytes(b).value;
      ValuesCanonical(b1, count - 1);
      var (values, b2) := ParseValues(b1, count - 1).value;
      assert ([value] + values)[1..] == values;
      assert b == EncodeBytes(value) + (EncodeValues(values) + b2);
    }
  }

  lemma {:induction false} EncodeValuesAppend(values: seq<Bytes>, value: Bytes)
    ensures EncodeValues(values + [value]) == EncodeValues(values) + EncodeBytes(value)
  {
    if values == [] {
      assert EncodeValues([value]) == EncodeBytes(value) + EncodeValues([]);
    } else {
      EncodeValuesAppend(values[1..], value);
      assert (values + [value])[1..] == values[1..] + [value];
    }
  }

  // ---- payloads ----

  function EncodePayload(p: Payload): Bytes {
    match p
    case Record(slot, step, proposal) => LittleEndian(slot, 8) + LittleEndian(step, 4) + EncodeProposal(proposal)
    case RecordReply(slot, reqStep, step, first, priorAgg) =>
      LittleEndian(slot, 8) + (LittleEndian(reqStep, 4) + LittleEndian(step,
        4) + (EncodeFirst(first) + EncodeOption(priorAgg)))
    case Decide(slot, value) => LittleEndian(slot, 8) + EncodeBytes(value)
    case Forward(commands) => EncodeList(commands)
    case Learn(fromSlot) => LittleEndian(fromSlot, 8)
    case LearnReply(firstSlot, values) => LittleEndian(firstSlot, 8) + LittleEndian(|values|, 4) + EncodeValues(values)
    case Ping => []
  }

  function ParseRecord(b: Bytes): Parse<Payload> {
    match ParseUint(b, 8)
    case None => None
    case Some((slot, b1)) =>
      match ParseUint(b1, 4)
      case None => None
      case Some((step, b2)) =>
        match ParseProposal(b2)
        case None => None
        case Some((proposal, b3)) => Some((Record(slot, step, proposal), b3))
  }

  /** The step fields and the two components of a reply. */
  function ParseReplyBody(slot: nat, b: Bytes): Parse<Payload> {
    match ParseUint(b, 4)
    case None => None
    case Some((reqStep, b1)) =>
      match ParseUint(b1, 4)
      case None => None
      case Some((step, b2)) =>
        match ParseFirst(b2)
        case None => None
        case Some((first, b3)) =>
          match ParseOption(b3)
          case None => None
          case Some((priorAgg, b4)) => Some((RecordReply(slot, reqStep, step, first, priorAgg), b4))
  }

  function ParseReply(b: Bytes): Parse<Payload> {
    match ParseUint(b, 8)
    case None => None
    case Some((slot, b1)) => ParseReplyBody(slot, b1)
  }

  function ParseDecide(b: Bytes): Parse<Payload> {
    match ParseUint(b, 8)
    case None => None
    case Some((slot, b1)) =>
      match ParseBytes(b1)
      case None => None
      case Some((value, b2)) => Some((Decide(slot, value), b2))
  }

  function ParseForward(b: Bytes): Parse<Payload> {
    match ParseList(b)
    case None => None
    case Some((commands, rest)) => Some((Forward(commands), rest))
  }

  function ParseLearn(b: Bytes): Parse<Payload> {
    match ParseUint(b, 8)
    case None => None
    case Some((fromSlot, rest)) => Some((Learn(fromSlot), rest))
  }

  function ParseLearnReply(b: Bytes): Parse<Payload> {
    match ParseUint(b, 8)
    case None => None
    case Some((firstSlot, b1)) =>
      match ParseUint(b1, 4)
      case None => None
      case Some((count, b2)) =>
        match ParseValues(b2, count)
        case None => None
        case Some((values, b3)) => Some((LearnReply(firstSlot, values), b3))
  }

  function ParsePayload(kind: Byte, b: Bytes): Parse<Payload> {
    match kind
    case 1 => ParseRecord(b)
    case 2 => ParseReply(b)
    case 3 => ParseDecide(b)
    case 4 => ParseForward(b)
    case 5 => ParseLearn(b)
    case 6 => ParseLearnReply(b)
    case 7 => Some((Ping, b))
    case _ => None
  }

  lemma RecordRoundTrip(slot: nat, step: nat, proposal: Proposal, rest: Bytes)
    requires PayloadFits(Record(slot, step, proposal))
    ensures ParseRecord(EncodePayload(Record(slot, step, proposal)) + rest) ==
      Some((Record(slot, step, proposal), rest))
  {
    hide LittleEndian, FromLittleEndian, ParseUint, ParseProposal, EncodeProposal;
    Limits();
    var x, y, z := LittleEndian(slot, 8), LittleEndian(step, 4), EncodeProposal(proposal);
    Regroup(x, y, z, rest);
    UintRoundTrip(slot, 8, y + (z + rest));
    UintRoundTrip(step, 4, z + rest);
    ProposalRoundTrip(proposal, rest);
  }

  lemma ReplyBodyRoundTrip(slot: nat, reqStep: nat, step: nat, first: ReplyFirst, priorAgg: Option<Proposal>,
        rest: Bytes)
    requires PayloadFits(RecordReply(slot, reqStep, step, first, priorAgg))
    ensures
      var b := LittleEndian(reqStep, 4) + LittleEndian(step, 4) + (EncodeFirst(first) + EncodeOption(priorAgg));
      ParseReplyBody(slot, b + rest) == Some((RecordReply(slot, reqStep, step, first, priorAgg), rest))
  {
    hide LittleEndian, FromLittleEndian, ParseUint, ParseFirst, EncodeFirst, ParseOption, EncodeOption;
    Limits();
    var x, y, z, w := LittleEndian(reqStep, 4), LittleEndian(step, 4), EncodeFirst(first), EncodeOption(priorAgg);
    assert x + y + (z + w) + rest == x + (y + (z + (w + rest)));
    UintRoundTrip(reqStep, 4, y + (z + (w + rest)));
    UintRoundTrip(step, 4, z + (w + rest));
    FirstRoundTrip(first, w + rest);
    OptionRoundTrip(priorAgg, rest);
  }

  lemma ReplyRoundTrip(slot: nat, reqStep: nat, step: nat, first: ReplyFirst, priorAgg: Option<Proposal>, rest: Bytes)
    requires PayloadFits(RecordReply(slot, reqStep, step, first, priorAgg))
    ensures
      var p := RecordReply(slot, reqStep, step, first, priorAgg);
      ParseReply(EncodePayload(p) + rest) == Some((p, rest))
  {
    hide LittleEndian, FromLittleEndian, ParseUint, ParseReplyBody, EncodeFirst, EncodeOption;
    Limits();
    var body := LittleEndian(reqStep, 4) + LittleEndian(step, 4) + (EncodeFirst(first) + EncodeOption(priorAgg));
    assert EncodePayload(RecordReply(slot, reqStep, step, first, priorAgg)) + rest ==
      LittleEndian(slot, 8) + (body + rest);
    UintRoundTrip(slot, 8, body + rest);
    ReplyBodyRoundTrip(slot, reqStep, step, first, priorAgg, rest);
  }

  lemma LearnReplyRoundTrip(firstSlot: nat, values: seq<Bytes>, rest: Bytes)
    requires PayloadFits(LearnReply(firstSlot, values))
    ensures ParseLearnReply(EncodePayload(LearnReply(firstSlot, values)) + rest) ==
      Some((LearnReply(firstSlot, values), rest))
  {
    hide LittleEndian, FromLittleEndian, ParseUint, ParseValues, EncodeValues;
    Limits();
    var x, y, z := LittleEndian(firstSlot, 8), LittleEndian(|values|, 4), EncodeValues(values);
    Regroup(x, y, z, rest);
    UintRoundTrip(firstSlot, 8, y + (z + rest));
    UintRoundTrip(|values|, 4, z + rest);
    ValuesRoundTrip(values, rest);
  }

  lemma DecideRoundTrip(slot: nat, value: Bytes, rest: Bytes)
    requires PayloadFits(Decide(slot, value))
    ensures ParseDecide(EncodePayload(Decide(slot, value)) + rest) == Some((Decide(slot, value), rest))
  {
    hide LittleEndian, FromLittleEndian, ParseUint, ParseBytes, EncodeBytes;
    Limits();
    assert LittleEndian(slot, 8) + EncodeBytes(value) + rest == LittleEndian(slot, 8) + (EncodeBytes(value) + rest);
    UintRoundTrip(slot, 8, EncodeBytes(value) + rest);
    BytesRoundTrip(value, rest);
  }

  lemma PayloadRoundTrip(p: Payload, rest: Bytes)
    requires PayloadFits(p)
    ensures ParsePayload(Kind(p), EncodePayload(p) + rest) == Some((p, rest))
  {
    hide LittleEndian, FromLittleEndian, ParseUint, EncodeProposal, EncodeFirst, EncodeOption, EncodeList, EncodeBytes,
      ParseRecord, ParseReply, ParseDecide, ParseList, ParseLearnReply, EncodeValues;
    match p
    case Record(slot, step, proposal) => RecordRoundTrip(slot, step, proposal, rest);
    case RecordReply(slot, reqStep, step, first, priorAgg) => ReplyRoundTrip(slot, reqStep, step, first, priorAgg,
      rest);
    case Decide(slot, value) => DecideRoundTrip(slot, value, rest);
    case Forward(commands) => ListRoundTrip(commands, rest);
    case Learn(fromSlot) =>
      Limits();
      UintRoundTrip(fromSlot, 8, rest);
    case LearnReply(firstSlot, values) => LearnReplyRoundTrip(firstSlot, values, rest);
    case Ping => assert [] + rest == rest;
  }

  lemma RecordCanonical(b: Bytes)
    requires ParseRecord(b).Some?
    ensures var (p, rest) := ParseRecord(b).value; PayloadFits(p) && b == EncodePayload(p) + rest
  {
    hide LittleEndian, FromLittleEndian, ParseUint, ParseProposal, EncodeProposal, ProposalFits;
    Limits();
    var (slot, b1) := ParseUint(b, 8).value;
    var (step, b2) := ParseUint(b1, 4).value;
    var (proposal, b3) := ParseProposal(b2).value;
    UintCanonical(b, 8);
    UintCanonical(b1, 4);
    ProposalCanonical(b2);
    Regroup(LittleEndian(slot, 8), LittleEndian(step, 4), EncodeProposal(proposal), b3);
  }

  lemma ReplyBodyCanonical(slot: nat, b: Bytes)
    requires slot < U64_LIMIT && ParseReplyBody(slot, b).Some?
    ensures
      var (p, rest) := ParseReplyBody(slot, b).value;
      && PayloadFits(p) && p.RecordReply? && p.slot == slot
      && b == LittleEndian(p.reqStep, 4) + LittleEndian(p.step,
        4) + (EncodeFirst(p.first) + EncodeOption(p.priorAgg)) + rest
  {
    hide LittleEndian, FromLittleEndian, ParseUint, ParseFirst, EncodeFirst, ParseOption, EncodeOption, FirstFits,
      OptionFits;
    Limits();
    var (reqStep, b1) := ParseUint(b, 4).value;
    var (step, b2) := ParseUint(b1, 4).value;
    var (first, b3) := ParseFirst(b2).value;
    var (priorAgg, b4) := ParseOption(b3).value;
    UintCanonical(b, 4);
    UintCanonical(b1, 4);
    FirstCanonical(b2);
    OptionCanonical(b3);
    var x, y, z, w := LittleEndian(reqStep, 4), LittleEndian(step, 4), EncodeFirst(first), EncodeOption(priorAgg);
    assert x + y + (z + w) + b4 == x + (y + (z + (w + b4)));
  }

  lemma ReplyCanonical(b: Bytes)
    requires ParseReply(b).Some?
    ensures var (p, rest) := ParseReply(b).value; PayloadFits(p) && p.RecordReply? && b == EncodePayload(p) + rest
  {
    hide LittleEndian, FromLittleEndian, ParseUint, ParseReplyBody, EncodeFirst, EncodeOption, FirstFits, OptionFits;
    Limits();
    var (slot, b1) := ParseUint(b, 8).value;
    UintCanonical(b, 8);
    ReplyBodyCanonical(slot, b1);
    var (p, rest) := ParseReplyBody(slot, b1).value;
    var body := LittleEndian(p.reqStep, 4) + LittleEndian(p.step,
      4) + (EncodeFirst(p.first) + EncodeOption(p.priorAgg));
    assert LittleEndian(slot, 8) + (body + rest) == LittleEndian(slot, 8) + body + rest;
  }

  lemma DecideCanonical(b: Bytes)
    requires ParseDecide(b).Some?
    ensures var (p, rest) := ParseDecide(b).value; PayloadFits(p) && b == EncodePayload(p) + rest
  {
    hide LittleEndian, FromLittleEndian, ParseUint, ParseBytes, EncodeBytes;
    Limits();
    var (slot, b1) := ParseUint(b, 8).value;
    var (value, b2) := ParseBytes(b1).value;
    UintCanonical(b, 8);
    BytesCanonical(b1);
    assert LittleEndian(slot, 8) + (EncodeBytes(value) + b2) == LittleEndian(slot, 8) + EncodeBytes(value) + b2;
  }

  lemma LearnReplyCanonical(b: Bytes)
    requires ParseLearnReply(b).Some?
    ensures var (p, rest) := ParseLearnReply(b).value; PayloadFits(p) && b == EncodePayload(p) + rest
  {
    hide LittleEndian, FromLittleEndian, ParseUint, ParseValues, EncodeValues;
    Limits();
    var (firstSlot, b1) := ParseUint(b, 8).value;
    var (count, b2) := ParseUint(b1, 4).value;
    var (values, b3) := ParseValues(b2, count).value;
    UintCanonical(b, 8);
    UintCanonical(b1, 4);
    ValuesCanonical(b2, count);
    Regroup(LittleEndian(firstSlot, 8), LittleEndian(count, 4), EncodeValues(values), b3);
  }

  lemma PayloadCanonical(kind: Byte, b: Bytes)
    requires ParsePayload(kind, b).Some?
    ensures
      var (p, rest) := ParsePayload(kind, b).value;
      PayloadFits(p) && Kind(p) == kind && b == EncodePayload(p) + rest
  {
    hide LittleEndian, FromLittleEndian, ParseUint, EncodeProposal, EncodeFirst, EncodeOption, EncodeList, EncodeBytes,
      ParseProposal, ParseReplyBody, ParseBytes, ParseList, ParseValues, EncodeValues,
      CommandsFit, ValuesFit, ProposalFits, FirstFits, OptionFits;
    match kind
    case 1 => RecordCanonical(b);
    case 2 => ReplyCanonical(b);
    case 3 => DecideCanonical(b);
    case 4 => ListCanonical(b);
    case 5 =>
      Limits();
      UintCanonical(b, 8);
    case 6 => LearnReplyCanonical(b);
    case 7 => assert [] + b == b;
  }

  // ---- messages ----

  function EncodeHeader(m: Message): Bytes {
    [VERSION, Kind(m.payload)] + LittleEndian(m.from, 8) + LittleEndian(m.decided, 8)
  }

  function MessageBytes(m: Message): Bytes {
    EncodeHeader(m) + EncodePayload(m.payload)
  }

  /** The whole input is one message, or it is refused. */
  function ParseMessage(data: Bytes): Option<Message> {
    if |data| < 2 || data[0] != VERSION then None
    else ParseAfter(data[1], data[2..])
  }

  /** A message whose version and kind are read. */
  function ParseAfter(kind: Byte, b: Bytes): Option<Message> {
    match ParseUint(b, 8)
    case None => None
    case Some((from, b1)) =>
      if from == 0 then None
      else
        match ParseUint(b1, 8)
        case None => None
        case Some((decided, b2)) =>
          match ParsePayload(kind, b2)
          case None => None
          case Some((payload, rest)) => if rest == [] then Some(Message(from, decided, payload)) else None
  }

  lemma HeaderRoundTrip(m: Message, rest: Bytes)
    requires MessageFits(m)
    ensures
      var data := EncodeHeader(m) + rest;
      && |data| >= 2 && data[0] == VERSION && data[1] == Kind(m.payload)
      && ParseUint(data[2..], 8) == Some((m.from, LittleEndian(m.decided, 8) + rest))
      && ParseUint(LittleEndian(m.decided, 8) + rest, 8) == Some((m.decided, rest))
  {
    hide LittleEndian, FromLittleEndian, ParseUint, PayloadFits;
    Limits();
    var x, y := LittleEndian(m.from, 8), LittleEndian(m.decided, 8);
    assert (EncodeHeader(m) + rest)[2..] == x + (y + rest);
    UintRoundTrip(m.from, 8, y + rest);
    UintRoundTrip(m.decided, 8, rest);
  }

  /** Decoding undoes encoding, for every message that fits the format. */
  lemma MessageRoundTrip(m: Message)
    requires MessageFits(m)
    ensures ParseMessage(MessageBytes(m)) == Some(m)
  {
    hide LittleEndian, FromLittleEndian, ParseUint, PayloadFits, EncodeHeader, EncodePayload, ParsePayload;
    HeaderRoundTrip(m, EncodePayload(m.payload));
    PayloadRoundTrip(m.payload, []);
    assert EncodePayload(m.payload) + [] == EncodePayload(m.payload);
  }

  /** Every accepted input is the encoding of the message it decodes to. */
  lemma MessageCanonical(data: Bytes)
    requires ParseMessage(data).Some?
    ensures MessageFits(ParseMessage(data).value) && data == MessageBytes(ParseMessage(data).value)
  {
    hide LittleEndian, FromLittleEndian, ParseUint, PayloadFits, EncodePayload, ParsePayload, Kind;
    Limits();
    var (from, b1) := ParseUint(data[2..], 8).value;
    var (decided, b2) := ParseUint(b1, 8).value;
    UintCanonical(data[2..], 8);
    UintCanonical(b1, 8);
    PayloadCanonical(data[1], b2);
    var m := ParseMessage(data).value;
    assert data == [data[0], data[1]] + data[2..];
    assert data == [data[0],
      data[1]] + (LittleEndian(from, 8) + (LittleEndian(decided, 8) + (EncodePayload(m.payload) + [])));
  }

  /** No accepted input can be extended to, or cut down to, another accepted one. */
  lemma MessagePrefixFree(data: Bytes, more: Bytes)
    requires ParseMessage(data).Some? && ParseMessage(data + more).Some?
    ensures more == []
  {
    hide LittleEndian, FromLittleEndian, ParseUint, PayloadFits, EncodeHeader, EncodePayload, ParsePayload;
    MessageCanonical(data);
    var m := ParseMessage(data).value;
    assert data + more == EncodeHeader(m) + (EncodePayload(m.payload) + more);
    HeaderRoundTrip(m, EncodePayload(m.payload) + more);
    PayloadRoundTrip(m.payload, more);
  }

  // ---- the same, on buffers ----

  method AppendBytes(out: Bytes, data: Bytes) returns (r: Bytes)
    ensures r == out + EncodeBytes(data)
  {
    r := out + LittleEndian(|data|, 4);
    r := r + data;
  }

  method AppendProposal(out: Bytes, p: Proposal) returns (r: Bytes)
    ensures r == out + EncodeProposal(p)
  {
    r := out + LittleEndian(p.priority, 4);
    r := r + LittleEndian(p.proposer, 8);
    r := AppendBytes(r, p.value);
  }

  method AppendFirst(out: Bytes, f: ReplyFirst) returns (r: Bytes)
    ensures r == out + EncodeFirst(f)
  {
    match f
    case Echo => r := out + [0];
    case Full(p) =>
      r := AppendProposal(out + [1], p);
  }

  method AppendOption(out: Bytes, o: Option<Proposal>) returns (r: Bytes)
    ensures r == out + EncodeOption(o)
  {
    match o
    case None => r := out + [0];
    case Some(p) =>
      r := AppendProposal(out + [1], p);
  }

  lemma EncodeNoCommands(b: Bytes)
    ensures b + EncodeCommands([]) == b
  {
  }

  method AppendCommands(out: Bytes, commands: seq<Command>) returns (r: Bytes)
    ensures r == out + EncodeList(commands)
  {
    hide LittleEndian, EncodeCommands, EncodeCommand;
    r := out + LittleEndian(|commands|, 4);
    ghost var head := r;
    EncodeNoCommands(head);
    for i := 0 to |commands|
      invariant r == head + EncodeCommands(commands[..i])
    {
      EncodeCommandsAppend(commands[..i], commands[i]);
      assert commands[..i + 1] == commands[..i] + [commands[i]];
      r := AppendCommand(r, commands[i]);
    }
    assert commands[..|commands|] == commands;
  }

  method AppendValues(out: Bytes, values: seq<Bytes>) returns (r: Bytes)
    ensures r == out + (LittleEndian(|values|, 4) + EncodeValues(values))
  {
    r := out + LittleEndian(|values|, 4);
    ghost var head := r;
    for i := 0 to |values|
      invariant r == head + EncodeValues(values[..i])
    {
      EncodeValuesAppend(values[..i], values[i]);
      assert values[..i + 1] == values[..i] + [values[i]];
      r := AppendBytes(r, values[i]);
    }
    assert values[..|values|] == values;
  }

  method AppendPayload(out: Bytes, p: Payload) returns (r: Bytes)
    ensures r == out + EncodePayload(p)
  {
    hide LittleEndian, EncodeProposal, EncodeFirst, EncodeOption, EncodeList, EncodeValues, EncodeBytes;
    match p
    case Record(slot, step, proposal) =>
      r := out + LittleEndian(slot, 8);
      r := r + LittleEndian(step, 4);
      r := AppendProposal(r, proposal);
    case RecordReply(slot, reqStep, step, first, priorAgg) =>
      r := out + LittleEndian(slot, 8);
      r := r + LittleEndian(reqStep, 4);
      r := r + LittleEndian(step, 4);
      r := AppendFirst(r, first);
      r := AppendOption(r, priorAgg);
    case Decide(slot, value) =>
      r := AppendBytes(out + LittleEndian(slot, 8), value);
    case Forward(commands) => r := AppendCommands(out, commands);
    case Learn(fromSlot) => r := out + LittleEndian(fromSlot, 8);
    case LearnReply(firstSlot, values) =>
      r := AppendValues(out + LittleEndian(firstSlot, 8), values);
    case Ping => r := out;
  }

  /** Serializes a message. */
  method Encode(m: Message) returns (out: Bytes)
    ensures out == MessageBytes(m)
  {
    hide LittleEndian, EncodePayload;
    out := [VERSION];
    out := out + [Kind(m.payload)];
    out := out + LittleEndian(m.from, 8);
    out := out + LittleEndian(m.decided, 8);
    out := AppendPayload(out, m.payload);
  }

  method ReadProposal(c: Cursor) returns (r: Option<Proposal>)
    requires c.Valid()
    modifies c
    ensures c.Valid()
    ensures var parsed := ParseProposal(old(c.Rest()));
      if parsed.None? then r == None else r == Some(parsed.value.0) && c.Rest() == parsed.value.1
  {
    ghost var start := c.Rest();
    var priority := c.Uint(4);
    if priority.None? { return None; }
    UintCanonical(start, 4);
    Limits();
    var proposer := c.Uint(8);
    if proposer.None? { return None; }
    if priority.value == 0 || proposer.value == 0 { return None; }
    var value := c.LengthPrefixed();
    if value.None? { return None; }
    r := Some(Proposal(priority.value, proposer.value, value.value));
  }

  method ReadFirst(c: Cursor) returns (r: Option<ReplyFirst>)
    requires c.Valid()
    modifies c
    ensures c.Valid()
    ensures var parsed := ParseFirst(old(c.Rest()));
      if parsed.None? then r == None else r == Some(parsed.value.0) && c.Rest() == parsed.value.1
  {
    hide ParseProposal;
    var tag := c.U8();
    if tag == Some(0) {
      r := Some(Echo);
    } else if tag == Some(1) {
      var p := ReadProposal(c);
      r := if p.None? then None else Some(Full(p.value));
    } else {
      r := None;
    }
  }

  method ReadOption(c: Cursor) returns (r: Option<Option<Proposal>>)
    requires c.Valid()
    modifies c
    ensures c.Valid()
    ensures var parsed := ParseOption(old(c.Rest()));
      if parsed.None? then r == None else r == Some(parsed.value.0) && c.Rest() == parsed.value.1
  {
    hide ParseProposal;
    var tag := c.U8();
    if tag == Some(0) {
      r := Some(None);
    } else if tag == Some(1) {
      var p := ReadProposal(c);
      r := if p.None? then None else Some(Some(p.value));
    } else {
      r := None;
    }
  }

  lemma OneMoreValue(done: seq<Bytes>, value: Bytes, b: Bytes, after: Bytes, count: nat)
    requires ParseBytes(b) == Some((value, after)) && count > 0
    ensures ContinuedValues(done, ParseValues(b, count)) ==
      ContinuedValues(done + [value], ParseValues(after, count - 1))
  {
    var rest := ParseValues(after, count - 1);
    if rest.Some? {
      assert done + ([value] + rest.value.0) == (done + [value]) + rest.value.0;
    }
  }

  ghost function ContinuedValues(done: seq<Bytes>, rest: Parse<seq<Bytes>>): Parse<seq<Bytes>> {
    if rest.None? then None else Some((done + rest.value.0, rest.value.1))
  }

  method ReadValues(c: Cursor, count: nat) returns (r: Option<seq<Bytes>>)
    requires c.Valid()
    modifies c
    ensures c.Valid()
    ensures var parsed := ParseValues(old(c.Rest()), count);
      if parsed.None? then r == None else r == Some(parsed.value.0) && c.Rest() == parsed.value.1
  {
    hide ParseBytes;
    var values: seq<Bytes> := [];
    ghost var whole := ParseValues(c.Rest(), count);
    assert whole.Some? ==> [] + whole.value.0 == whole.value.0;
    for i := 0 to count
      invariant c.Valid()
      invariant whole == ContinuedValues(values, ParseValues(c.Rest(), count - i))
    {
      ghost var before := c.Rest();
      var value := c.LengthPrefixed();
      if value.None? { return None; }
      OneMoreValue(values, value.value, before, c.Rest(), count - i);
      values := values + [value.value];
    }
    assert values + [] == values;
    r := Some(values);
  }

  method ReadReply(c: Cursor) returns (r: Option<Payload>)
    requires c.Valid()
    modifies c
    ensures c.Valid()
    ensures var parsed := ParseReply(old(c.Rest()));
      if parsed.None? then r == None else r == Some(parsed.value.0) && c.Rest() == parsed.value.1
  {
    hide ParseUint, ParseFirst, ParseOption;
    var slot := c.Uint(8);
    if slot.None? { return None; }
    var reqStep := c.Uint(4);
    if reqStep.None? { return None; }
    var step := c.Uint(4);
    if step.None? { return None; }
    var first := ReadFirst(c);
    if first.None? { return None; }
    var priorAgg := ReadOption(c);
    if priorAgg.None? { return None; }
    r := Some(RecordReply(slot.value, reqStep.value, step.value, first.value, priorAgg.value));
  }

  method ReadRecord(c: Cursor) returns (r: Option<Payload>)
    requires c.Valid()
    modifies c
    ensures c.Valid()
    ensures var parsed := ParseRecord(old(c.Rest()));
      if parsed.None? then r == None else r == Some(parsed.value.0) && c.Rest() == parsed.value.1
  {
    hide ParseUint, ParseProposal;
    var slot := c.Uint(8);
    if slot.None? { return None; }
    var step := c.Uint(4);
    if step.None? { return None; }
    var proposal := ReadProposal(c);
    if proposal.None? { return None; }
    r := Some(Record(slot.value, step.value, proposal.value));
  }

  method ReadLearnReply(c: Cursor) returns (r: Option<Payload>)
    requires c.Valid()
    modifies c
    ensures c.Valid()
    ensures var parsed := ParseLearnReply(old(c.Rest()));
      if parsed.None? then r == None else r == Some(parsed.value.0) && c.Rest() == parsed.value.1
  {
    hide ParseUint, ParseValues;
    var firstSlot := c.Uint(8);
    if firstSlot.None? { return None; }
    var count := c.Uint(4);
    if count.None? { return None; }
    var values := ReadValues(c, count.value);
    if values.None? { return None; }
    r := Some(LearnReply(firstSlot.value, values.value));
  }

  method ReadPayload(kind: Byte, c: Cursor) returns (r: Option<Payload>)
    requires c.Valid()
    modifies c
    ensures c.Valid()
    ensures var parsed := ParsePayload(kind, old(c.Rest()));
      if parsed.None? then r == None else r == Some(parsed.value.0) && c.Rest() == parsed.value.1
  {
    hide ParseUint, ParseRecord, ParseReply, ParseLearnReply, ParseBytes, ParseCommands;
    match kind
    case 1 => r := ReadRecord(c);
    case 2 => r := ReadReply(c);
    case 3 =>
      var slot := c.Uint(8);
      if slot.None? { return None; }
      var value := c.LengthPrefixed();
      r := if value.None? then None else Some(Decide(slot.value, value.value));
    case 4 =>
      var count := c.Uint(4);
      if count.None? { return None; }
      var commands := ReadCommands(c, count.value);
      r := if commands.None? then None else Some(Forward(commands.value));
    case 5 =>
      var fromSlot := c.Uint(8);
      r := if fromSlot.None? then None else Some(Learn(fromSlot.value));
    case 6 => r := ReadLearnReply(c);
    case 7 => r := Some(Ping);
    case _ => r := None;
  }

  method ReadBody(kind: Byte, c: Cursor) returns (r: Option<Message>)
    requires c.Valid()
    modifies c
    ensures r == ParseAfter(kind, old(c.Rest()))
  {
    hide ParseUint, ParsePayload;
    var from := c.Uint(8);
    if from.None? || from.value == 0 { return None; }
    var decided := c.Uint(8);
    if decided.None? { return None; }
    var payload := ReadPayload(kind, c);
    if payload.None? { return None; }
    var done := c.Finished();
    r := if done then Some(Message(from.value, decided.value, payload.value)) else None;
  }

  method ReadMessage(c: Cursor) returns (r: Option<Message>)
    requires c.Valid()
    modifies c
    ensures r == ParseMessage(old(c.Rest()))
  {
    hide ParseAfter;
    ghost var data := c.Rest();
    var version := c.U8();
    if version != Some(VERSION) { return None; }
    var kind := c.U8();
    if kind.None? { return None; }
    assert data[1..][0] == data[1] && data[1..][1..] == data[2..];
    r := ReadBody(kind.value, c);
  }

  /** Parses a message, refusing unknown versions and kinds, zero ids, truncation and
      trailing bytes. */
  method Decode(data: Bytes) returns (r: Option<Message>)
    ensures r == ParseMessage(data)
  {
    hide ParseMessage;
    var c := new Cursor(data);
    r := ReadMessage(c);
  }
}
