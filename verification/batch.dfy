/** Consensus values: batches of commands. */
module Batch {
  import opened Types
  import opened Encoding

  const VALUE_TAG_BATCH: Byte := 0

  // ---- command ids and commands ----

  predicate IdFits(id: CommandId) {
    id.origin < U64_LIMIT && id.boot < U64_LIMIT && id.seqno < U64_LIMIT
  }

  predicate CommandFits(cmd: Command) {
    IdFits(cmd.id) && |cmd.data| < U32_LIMIT
  }

  predicate CommandsFit(cmds: seq<Command>) {
    |cmds| < U32_LIMIT && forall k :: 0 <= k < |cmds| ==> CommandFits(cmds[k])
  }

  function EncodeId(id: CommandId): Bytes {
    LittleEndian(id.origin, 8) + LittleEndian(id.boot, 8) + LittleEndian(id.seqno, 8)
  }

  function ParseId(b: Bytes): Parse<CommandId> {
    match ParseUint(b, 8)
    case None => None
    case Some((origin, b1)) =>
      match ParseUint(b1, 8)
      case None => None
      case Some((boot, b2)) =>
        match ParseUint(b2, 8)
        case None => None
        case Some((seqno, b3)) => Some((CommandId(origin, boot, seqno), b3))
  }

  lemma IdRoundTrip(id: CommandId, rest: Bytes)
    requires IdFits(id)
    ensures ParseId(EncodeId(id) + rest) == Some((id, rest))
  {
    Limits();
    var o, b, s := LittleEndian(id.origin, 8), LittleEndian(id.boot, 8), LittleEndian(id.seqno, 8);
    assert EncodeId(id) + rest == o + (b + (s + rest));
    UintRoundTrip(id.origin, 8, b + (s + rest));
    UintRoundTrip(id.boot, 8, s + rest);
    UintRoundTrip(id.seqno, 8, rest);
  }

  lemma IdCanonical(b: Bytes)
    requires ParseId(b).Some?
    ensures var (id, rest) := ParseId(b).value; IdFits(id) && b == EncodeId(id) + rest
  {
    hide LittleEndian, FromLittleEndian, ParseUint;
    Limits();
    var (origin, b1) := ParseUint(b, 8).value;
    var (boot, b2) := ParseUint(b1, 8).value;
    var (seqno, b3) := ParseUint(b2, 8).value;
    UintCanonical(b, 8);
    UintCanonical(b1, 8);
    UintCanonical(b2, 8);
    Regroup(LittleEndian(origin, 8), LittleEndian(boot, 8), LittleEndian(seqno, 8), b3);
  }

  lemma Regroup(x: Bytes, y: Bytes, z: Bytes, rest: Bytes)
    ensures x + (y + (z + rest)) == x + y + z + rest
  {
  }

  function EncodeCommand(cmd: Command): Bytes {
    EncodeId(cmd.id) + EncodeBytes(cmd.data)
  }

  function ParseCommand(b: Bytes): Parse<Command> {
    match ParseId(b)
    case None => None
    case Some((id, b1)) =>
      match ParseBytes(b1)
      case None => None
      case Some((data, b2)) => Some((Command(id, data), b2))
  }

  lemma CommandRoundTrip(cmd: Command, rest: Bytes)
    requires CommandFits(cmd)
    ensures ParseCommand(EncodeCommand(cmd) + rest) == Some((cmd, rest))
  {
    assert EncodeCommand(cmd) + rest == EncodeId(cmd.id) + (EncodeBytes(cmd.data) + rest);
    IdRoundTrip(cmd.id, EncodeBytes(cmd.data) + rest);
    BytesRoundTrip(cmd.data, rest);
  }

  lemma CommandCanonical(b: Bytes)
    requires ParseCommand(b).Some?
    ensures var (cmd, rest) := ParseCommand(b).value; CommandFits(cmd) && b == EncodeCommand(cmd) + rest
  {
    IdCanonical(b);
    BytesCanonical(ParseId(b).value.1);
  }

  // ---- counted lists of commands ----

  function EncodeCommands(cmds: seq<Command>): Bytes {
    if cmds == [] then [] else EncodeCommand(cmds[0]) + EncodeCommands(cmds[1..])
  }

  function ParseCommands(b: Bytes, count: nat): Parse<seq<Command>> {
    if count == 0 then Some(([], b))
    else
      match ParseCommand(b)
      case None => None
      case Some((cmd, b1)) =>
        match ParseCommands(b1, count - 1)
        case None => None
        case Some((cmds, b2)) => Some(([cmd] + cmds, b2))
  }

  lemma {:induction false} CommandsRoundTrip(cmds: seq<Command>, rest: Bytes)
    requires forall k :: 0 <= k < |cmds| ==> CommandFits(cmds[k])
    ensures ParseCommands(EncodeCommands(cmds) + rest, |cmds|) == Some((cmds, rest))
  {
    if cmds == [] {
      assert EncodeCommands(cmds) + rest == rest;
    } else {
      var tail := EncodeCommands(cmds[1..]) + rest;
      assert EncodeCommands(cmds) + rest == EncodeCommand(cmds[0]) + tail;
      CommandRoundTrip(cmds[0], tail);
      CommandsRoundTrip(cmds[1..], rest);
      assert [cmds[0]] + cmds[1..] == cmds;
    }
  }

  lemma {:induction false} CommandsCanonical(b: Bytes, count: nat)
    requires ParseCommands(b, count).Some?
    ensures
      var (cmds, rest) := ParseCommands(b, count).value;
      |cmds| == count && (forall k :: 0 <= k < |cmds| ==> CommandFits(cmds[k])) && b == EncodeCommands(cmds) + rest
    decreases count
  {
    hide ParseCommand, EncodeCommand;
    if count > 0 {
      CommandCanonical(b);
      var (cmd, b1) := ParseCommand(b).value;
      CommandsCanonical(b1, count - 1);
      var (cmds, b2) := ParseCommands(b1, count - 1).value;
      var all := [cmd] + cmds;
      assert all[1..] == cmds;
      assert EncodeCommands(all) == EncodeCommand(cmd) + EncodeCommands(cmds);
      assert b == EncodeCommands(all) + b2;
      forall k | 0 <= k < |all| ensures CommandFits(all[k]) {
        assert k > 0 ==> all[k] == cmds[k - 1];
      }
    }
  }

  lemma {:induction false} EncodeCommandsAppend(cmds: seq<Command>, cmd: Command)
    ensures EncodeCommands(cmds + [cmd]) == EncodeCommands(cmds) + EncodeCommand(cmd)
  {
    hide EncodeCommand;
    if cmds == [] {
      assert EncodeCommands([cmd]) == EncodeCommand(cmd) + EncodeCommands([]);
    } else {
      EncodeCommandsAppend(cmds[1..], cmd);
      assert (cmds + [cmd])[1..] == cmds[1..] + [cmd];
    }
  }

  /** A counted list: its 32-bit length, then its commands. */
  function EncodeList(cmds: seq<Command>): Bytes {
    LittleEndian(|cmds|, 4) + EncodeCommands(cmds)
  }

  function ParseList(b: Bytes): Parse<seq<Command>> {
    match ParseUint(b, 4)
    case None => None
    case Some((count, b1)) => ParseCommands(b1, count)
  }

  lemma ListRoundTrip(cmds: seq<Command>, rest: Bytes)
    requires CommandsFit(cmds)
    ensures ParseList(EncodeList(cmds) + rest) == Some((cmds, rest))
  {
    Limits();
    assert EncodeList(cmds) + rest == LittleEndian(|cmds|, 4) + (EncodeCommands(cmds) + rest);
    UintRoundTrip(|cmds|, 4, EncodeCommands(cmds) + rest);
    CommandsRoundTrip(cmds, rest);
  }

  lemma ListCanonical(b: Bytes)
    requires ParseList(b).Some?
    ensures var (cmds, rest) := ParseList(b).value; CommandsFit(cmds) && b == EncodeList(cmds) + rest
  {
    Limits();
    UintCanonical(b, 4);
    var (count, b1) := ParseUint(b, 4).value;
    CommandsCanonical(b1, count);
  }

  // ---- batches ----

  function BatchBytes(cmds: seq<Command>): Bytes {
    [VALUE_TAG_BATCH] + EncodeList(cmds)
  }

  function ParseBatch(value: Bytes): Option<seq<Command>> {
    if value == [] || value[0] != VALUE_TAG_BATCH then None
    else
      match ParseList(value[1..])
      case None => None
      case Some((cmds, rest)) => if rest == [] then Some(cmds) else None
  }

  /** Decoding undoes encoding. */
  lemma BatchRoundTrip(cmds: seq<Command>)
    requires CommandsFit(cmds)
    ensures ParseBatch(BatchBytes(cmds)) == Some(cmds)
  {
    assert BatchBytes(cmds)[1..] == EncodeList(cmds) + [];
    ListRoundTrip(cmds, []);
  }

  /** Only encodings decode, so every accepted value has one meaning and one form. */
  lemma BatchCanonical(value: Bytes)
    requires ParseBatch(value).Some?
    ensures CommandsFit(ParseBatch(value).value) && value == BatchBytes(ParseBatch(value).value)
  {
    ListCanonical(value[1..]);
  }

  /** No extension of an accepted value, and so no proper prefix of one, is accepted. */
  lemma BatchPrefixFree(value: Bytes, more: Bytes)
    requires ParseBatch(value).Some? && ParseBatch(value + more).Some?
    ensures more == []
  {
    hide ParseList, EncodeList;
    BatchCanonical(value);
    var cmds := ParseBatch(value).value;
    assert (value + more)[1..] == EncodeList(cmds) + more;
    ListRoundTrip(cmds, more);
  }

  /** The encoded size, exactly. */
  function CommandsSize(cmds: seq<Command>): nat {
    if cmds == [] then 0 else COMMAND_WIRE_OVERHEAD + |cmds[0].data| + CommandsSize(cmds[1..])
  }

  lemma {:induction false} EncodedSize(cmds: seq<Command>)
    ensures |EncodeCommands(cmds)| == CommandsSize(cmds)
    ensures |BatchBytes(cmds)| == 5 + CommandsSize(cmds)
    ensures |cmds| * COMMAND_WIRE_OVERHEAD <= CommandsSize(cmds)
  {
    if cmds != [] {
      EncodedSize(cmds[1..]);
    }
  }

  // ---- the same, on buffers ----

  method AppendCommand(out: Bytes, cmd: Command) returns (r: Bytes)
    ensures r == out + EncodeCommand(cmd)
  {
    r := out + LittleEndian(cmd.id.origin, 8);
    r := r + LittleEndian(cmd.id.boot, 8);
    r := r + LittleEndian(cmd.id.seqno, 8);
    r := r + LittleEndian(|cmd.data|, 4);
    r := r + cmd.data;
  }

  lemma NoCommands()
    ensures EncodeCommands([]) == []
  {
  }

  /** Encodes a batch of commands as a consensus value. */
  method EncodeBatch(cmds: seq<Command>) returns (out: Bytes)
    ensures out == BatchBytes(cmds)
  {
    hide EncodeCommands, LittleEndian;
    NoCommands();
    out := [VALUE_TAG_BATCH];
    out := out + LittleEndian(|cmds|, 4);
    ghost var head := out;
    for i := 0 to |cmds|
      invariant out == head + EncodeCommands(cmds[..i])
    {
      EncodeCommandsAppend(cmds[..i], cmds[i]);
      assert cmds[..i + 1] == cmds[..i] + [cmds[i]];
      out := AppendCommand(out, cmds[i]);
    }
    assert cmds[..|cmds|] == cmds;
  }

  method ReadId(c: Cursor) returns (r: Option<CommandId>)
    requires c.Valid()
    modifies c
    ensures c.Valid()
    ensures var parsed := ParseId(old(c.Rest()));
      if parsed.None? then r == None else r == Some(parsed.value.0) && c.Rest() == parsed.value.1
  {
    var origin := c.Uint(8);
    if origin.None? { return None; }
    var boot := c.Uint(8);
    if boot.None? { return None; }
    var seqno := c.Uint(8);
    if seqno.None? { return None; }
    r := Some(CommandId(origin.value, boot.value, seqno.value));
  }

  method ReadCommand(c: Cursor) returns (r: Option<Command>)
    requires c.Valid()
    modifies c
    ensures c.Valid()
    ensures var parsed := ParseCommand(old(c.Rest()));
      if parsed.None? then r == None else r == Some(parsed.value.0) && c.Rest() == parsed.value.1
  {
    var id := ReadId(c);
    if id.None? { return None; }
    var data := c.LengthPrefixed();
    if data.None? { return None; }
    r := Some(Command(id.value, data.value));
  }

  /** What is read so far, continued by what the rest parses to. */
  ghost function Continued(done: seq<Command>, rest: Parse<seq<Command>>): Parse<seq<Command>> {
    if rest.None? then None else Some((done + rest.value.0, rest.value.1))
  }

  lemma OneMoreCommand(done: seq<Command>, cmd: Command, b: Bytes, after: Bytes, count: nat)
    requires ParseCommand(b) == Some((cmd, after)) && count > 0
    ensures Continued(done, ParseCommands(b, count)) == Continued(done + [cmd], ParseCommands(after, count - 1))
  {
    hide ParseCommand;
    var rest := ParseCommands(after, count - 1);
    if rest.Some? {
      assert done + ([cmd] + rest.value.0) == (done + [cmd]) + rest.value.0;
    }
  }

  lemma NoMoreCommands(b: Bytes, count: nat)
    requires ParseCommand(b).None? && count > 0
    ensures ParseCommands(b, count) == None
  {
    hide ParseCommand;
  }

  lemma CommandsRead(b: Bytes)
    ensures ParseCommands(b, 0) == Some(([], b))
  {
  }

  method ReadCommands(c: Cursor, count: nat) returns (r: Option<seq<Command>>)
    requires c.Valid()
    modifies c
    ensures c.Valid()
    ensures var parsed := ParseCommands(old(c.Rest()), count);
      if parsed.None? then r == None else r == Some(parsed.value.0) && c.Rest() == parsed.value.1
  {
    hide ParseCommand, ParseCommands;
    var cmds: seq<Command> := [];
    ghost var whole := ParseCommands(c.Rest(), count);
    assert whole.Some? ==> [] + whole.value.0 == whole.value.0;
    for i := 0 to count
      invariant c.Valid()
      invariant whole == Continued(cmds, ParseCommands(c.Rest(), count - i))
    {
      ghost var before := c.Rest();
      var cmd := ReadCommand(c);
      if cmd.None? {
        NoMoreCommands(before, count - i);
        return None;
      }
      OneMoreCommand(cmds, cmd.value, before, c.Rest(), count - i);
      cmds := cmds + [cmd.value];
    }
    CommandsRead(c.Rest());
    assert cmds + [] == cmds;
    r := Some(cmds);
  }

  method ReadBatch(c: Cursor) returns (r: Option<seq<Command>>)
    requires c.Valid()
    modifies c
    ensures r == ParseBatch(old(c.Rest()))
  {
    hide ParseUint, ParseCommands;
    var tag := c.U8();
    if tag != Some(VALUE_TAG_BATCH) { return None; }
    var count := c.Uint(4);
    if count.None? { return None; }
    var cmds := ReadCommands(c, count.value);
    if cmds.None? { return None; }
    var done := c.Finished();
    r := if done then cmds else None;
  }

  /** Decodes a consensus value, refusing unknown tags, truncation and trailing bytes. */
  method DecodeBatch(value: Bytes) returns (r: Option<seq<Command>>)
    ensures r == ParseBatch(value)
  {
    hide ParseBatch;
    var c := new Cursor(value);
    r := ReadBatch(c);
  }
}
