/** Integers, bytes and the reader. */
module Encoding {
  // Little-endian integers and length-prefixed bytes, and the bounds-checked reader.

  import opened Types

  /** What a parser makes of its input: a value and the bytes after it, or nothing. */
  type Parse<T> = Option<(T, Bytes)>

  function Pow256(n: nat): (p: nat)
    ensures p > 0
  {
    if n == 0 then 1 else 256 * Pow256(n - 1)
  }

  const U32_LIMIT: nat := 0x1_0000_0000
  const U64_LIMIT: nat := 0x1_0000_0000_0000_0000

  lemma Limits()
    ensures Pow256(4) == U32_LIMIT && Pow256(8) == U64_LIMIT
  {
    assert Pow256(2) == 0x1_0000;
    assert Pow256(4) == 256 * (256 * Pow256(2));
    assert Pow256(6) == 256 * (256 * Pow256(4));
    assert Pow256(8) == 256 * (256 * Pow256(6));
  }

  /** The low `n` bytes of `x`, least significant first; higher digits are cut off. */
  function LittleEndian(x: nat, n: nat): (b: Bytes)
    ensures |b| == n
  {
    if n == 0 then [] else [x % 256] + LittleEndian(x / 256, n - 1)
  }

  function FromLittleEndian(b: Bytes): nat {
    if b == [] then 0 else b[0] + 256 * FromLittleEndian(b[1..])
  }

  /** Byte `k` is the digit of weight 256^k: the least significant one comes first. */
  ghost predicate IsDigitsOf(b: Bytes, x: nat) {
    forall k: nat :: k < |b| ==> b[k] == (x / Pow256(k)) % 256
  }

  lemma {:induction false} Digits(x: nat, n: nat)
    ensures IsDigitsOf(LittleEndian(x, n), x)
  {
    if n > 0 {
      Digits(x / 256, n - 1);
      forall k: nat | k < n ensures LittleEndian(x, n)[k] == (x / Pow256(k)) % 256 {
        if k > 0 {
          assert LittleEndian(x, n)[k] == LittleEndian(x / 256, n - 1)[k - 1];
          DivTwice(x, Pow256(k - 1));
        }
      }
    }
  }

  lemma DivTwice(x: nat, m: nat)
    requires m > 0
    ensures (x / 256) / m == x / (256 * m)
  {
    var q, r := (x / 256) / m, (x / 256) % m;
    assert x == 256 * (m * q + r) + x % 256;
    assert 256 * (m * q) == (256 * m) * q;
    var low := 256 * r + x % 256;
    assert x == (256 * m) * q + low && 0 <= low < 256 * m;
    ModUnique(x, 256 * m, q, low);
    assert (256 * m) * (x / (256 * m)) == (256 * m) * q;
    SameFactor(256 * m, x / (256 * m), q);
  }

  lemma SameFactor(d: nat, a: nat, b: nat)
    requires d > 0 && d * a == d * b
    ensures a == b
  {
    assert d * (a - b) == d * a - d * b;
    MultipleBound(d, a - b);
  }

  lemma {:induction false} LittleEndianRoundTrip(x: nat, n: nat)
    ensures FromLittleEndian(LittleEndian(x, n)) == x % Pow256(n)
    ensures IsDigitsOf(LittleEndian(x, n), x)
  {
    hide IsDigitsOf;
    Digits(x, n);
    if n > 0 {
      LittleEndianRoundTrip(x / 256, n - 1);
      var m := Pow256(n - 1);
      assert LittleEndian(x, n)[1..] == LittleEndian(x / 256, n - 1);
      DivModTower(x, m);
    }
  }

  lemma DivModTower(x: nat, m: nat)
    requires m > 0
    ensures x % 256 + 256 * ((x / 256) % m) == x % (256 * m)
  {
    var q, r := (x / 256) / m, (x / 256) % m;
    assert x == 256 * (m * q + r) + x % 256;
    assert x == (256 * m) * q + (256 * r + x % 256) by {
      assert 256 * (m * q) == (256 * m) * q;
    }
    var low := 256 * r + x % 256;
    assert 0 <= low < 256 * m;
    ModUnique(x, 256 * m, q, low);
  }

  lemma ModUnique(x: nat, d: nat, q: nat, r: nat)
    requires d > 0 && x == d * q + r && r < d
    ensures x % d == r
  {
    var k := q - x / d;
    assert d * k == d * q - d * (x / d);
    MultipleBound(d, k);
  }

  /** Some `k < d` turns `x` to any given remainder. */
  lemma RotateTo(x: nat, d: nat, goal: nat) returns (k: nat)
    requires goal < d
    ensures k < d && (x + k) % d == goal
  {
    var q, at := x / d, x % d;
    assert x == d * q + at;
    if at <= goal {
      k := goal - at;
      ModUnique(x + k, d, q, goal);
    } else {
      k := goal + d - at;
      assert d * (q + 1) == d * q + d;
      ModUnique(x + k, d, q + 1, goal);
    }
  }

  /** Within `d` in a row, remainders differ. */
  lemma RotateOnce(x: nat, d: nat, i: nat, k: nat)
    requires i < d && k < d && (x + i) % d == (x + k) % d
    ensures i == k
  {
    var p, q := (x + i) / d, (x + k) / d;
    assert x + i == d * p + (x + i) % d && x + k == d * q + (x + k) % d;
    assert d * (p - q) == d * p - d * q;
    MultipleBound(d, p - q);
  }

  lemma MultipleBound(d: nat, k: int)
    ensures k >= 1 ==> d * k >= d
    ensures k <= -1 ==> d * k <= 0 - d
  {
    assert d * k == d * (k - 1) + d && d * k == d * (k + 1) - d;
  }

  lemma {:induction false} FromLittleEndianBound(b: Bytes)
    ensures FromLittleEndian(b) < Pow256(|b|)
  {
    if b != [] {
      FromLittleEndianBound(b[1..]);
    }
  }

  lemma {:induction false} LittleEndianOnto(b: Bytes)
    ensures LittleEndian(FromLittleEndian(b), |b|) == b
    ensures IsDigitsOf(b, FromLittleEndian(b))
  {
    hide IsDigitsOf;
    Digits(FromLittleEndian(b), |b|);
    if b != [] {
      LittleEndianOnto(b[1..]);
      var x := FromLittleEndian(b);
      assert x % 256 == b[0] && x / 256 == FromLittleEndian(b[1..]);
      assert b == [b[0]] + b[1..];
    }
  }

  // ---- fields ----

  function ParseTake(b: Bytes, len: nat): Parse<Bytes> {
    if len <= |b| then Some((b[..len], b[len..])) else None
  }

  function ParseUint(b: Bytes, width: nat): Parse<nat> {
    if width <= |b| then Some((FromLittleEndian(b[..width]), b[width..])) else None
  }

  lemma TakeRoundTrip(data: Bytes, rest: Bytes)
    ensures ParseTake(data + rest, |data|) == Some((data, rest))
  {
  }

  lemma UintRoundTrip(x: nat, width: nat, rest: Bytes)
    requires x < Pow256(width)
    ensures ParseUint(LittleEndian(x, width) + rest, width) == Some((x, rest))
  {
    hide IsDigitsOf, LittleEndian, FromLittleEndian, Pow256;
    LittleEndianRoundTrip(x, width);
    var b := LittleEndian(x, width) + rest;
    assert b[..width] == LittleEndian(x, width) && b[width..] == rest;
    ModUnique(x, Pow256(width), 0, x);
  }

  lemma UintCanonical(b: Bytes, width: nat)
    requires ParseUint(b, width).Some?
    ensures
      var (x, rest) := ParseUint(b, width).value;
      x < Pow256(width) && b == LittleEndian(x, width) + rest
  {
    hide IsDigitsOf, LittleEndian, FromLittleEndian, Pow256;
    var front := b[..width];
    assert |front| == width && b == front + b[width..];
    LittleEndianOnto(front);
    FromLittleEndianBound(front);
  }

  /** Bytes behind a 32-bit length; the length of longer ones would be cut off. */
  function EncodeBytes(data: Bytes): Bytes {
    LittleEndian(|data|, 4) + data
  }

  function ParseBytes(b: Bytes): Parse<Bytes> {
    match ParseUint(b, 4)
    case None => None
    case Some((len, rest)) => ParseTake(rest, len)
  }

  lemma BytesRoundTrip(data: Bytes, rest: Bytes)
    requires |data| < U32_LIMIT
    ensures ParseBytes(EncodeBytes(data) + rest) == Some((data, rest))
  {
    Limits();
    assert EncodeBytes(data) + rest == LittleEndian(|data|, 4) + (data + rest);
    UintRoundTrip(|data|, 4, data + rest);
    TakeRoundTrip(data, rest);
  }

  lemma BytesCanonical(b: Bytes)
    requires ParseBytes(b).Some?
    ensures
      var (data, rest) := ParseBytes(b).value;
      |data| < U32_LIMIT && b == EncodeBytes(data) + rest
  {
    Limits();
    UintCanonical(b, 4);
    var (len, after) := ParseUint(b, 4).value;
    assert after == after[..len] + after[len..];
  }

  // ---- the reader ----

  /** The bounds-checked reader all decoding goes through. */
  class Cursor {
    const buf: Bytes
    var pos: nat

    constructor (buf: Bytes)
      ensures this.buf == buf && pos == 0 && Valid() && Rest() == buf
    {
      this.buf := buf;
      pos := 0;
    }

    ghost predicate Valid()
      reads this
    {
      pos <= |buf|
    }

    /** What is still to be read. */
    ghost function Rest(): Bytes
      requires Valid()
      reads this
    {
      buf[pos..]
    }

    method U8() returns (r: Option<Byte>)
      requires Valid()
      modifies this
      ensures Valid()
      ensures old(Rest()) == [] ==> r == None && Rest() == old(Rest())
      ensures old(Rest()) != [] ==> r == Some(old(Rest())[0]) && Rest() == old(Rest())[1..]
    {
      if pos >= |buf| {
        return None;
      }
      r := Some(buf[pos]);
      pos := pos + 1;
    }

    method Take(len: nat) returns (r: Option<Bytes>)
      requires Valid()
      modifies this
      ensures Valid()
      ensures var parsed := ParseTake(old(Rest()), len);
        if parsed.None? then r == None && Rest() == old(Rest())
        else r == Some(parsed.value.0) && Rest() == parsed.value.1
    {
      var end := pos + len;
      if end > |buf| {
        return None;
      }
      assert buf[pos..][..len] == buf[pos..end] && buf[pos..][len..] == buf[end..];
      r := Some(buf[pos..end]);
      pos := end;
    }

    method Uint(width: nat) returns (r: Option<nat>)
      requires Valid()
      modifies this
      ensures Valid()
      ensures var parsed := ParseUint(old(Rest()), width);
        if parsed.None? then r == None && Rest() == old(Rest())
        else r == Some(parsed.value.0) && Rest() == parsed.value.1
      ensures r.Some? <==> width <= |old(Rest())|
      ensures r.Some? ==> r.value < Pow256(width) && IsDigitsOf(old(Rest())[..width], r.value)
    {
      hide IsDigitsOf;
      var bytes := Take(width);
      if bytes.None? {
        return None;
      }
      LittleEndianOnto(bytes.value);
      FromLittleEndianBound(bytes.value);
      r := Some(FromLittleEndian(bytes.value));
    }

    /** Length-prefixed bytes; a failed read leaves the reader wherever it stopped. */
    method LengthPrefixed() returns (r: Option<Bytes>)
      requires Valid()
      modifies this
      ensures Valid()
      ensures var parsed := ParseBytes(old(Rest()));
        if parsed.None? then r == None else r == Some(parsed.value.0) && Rest() == parsed.value.1
    {
      var len := Uint(4);
      if len.None? {
        return None;
      }
      r := Take(len.value);
    }

    method Finished() returns (done: bool)
      requires Valid()
      ensures done <==> Rest() == []
    {
      done := pos == |buf|;
    }
  }
}
