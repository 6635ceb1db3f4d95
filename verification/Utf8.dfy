/** UTF-8 as TextEncoder writes it and TextDecoder reads it (RFC 3629), between UTF-16 units and bytes. */
module Utf8 {
  import opened Wrappers
  import opened Json

  type Byte = b: int | 0 <= b < 256
  type Bytes = seq<Byte>

  const REPLACEMENT: Unit := 0xFFFD

  /** The scalar value of a surrogate pair. */
  function PairValue(high: Unit, low: Unit): int {
    0x10000 + (high - 0xD800) * 0x400 + (low - 0xDC00)
  }

  function EncodeUnit(u: Unit): Bytes {
    if u < 0x80 then [u]
    else if u < 0x800 then [0xC0 + u / 64, 0x80 + u % 64]
    else [0xE0 + u / 4096, 0x80 + u / 64 % 64, 0x80 + u % 64]
  }

  function EncodePair(high: Unit, low: Unit): Bytes
    requires High(high) && Low(low)
  {
    var c := PairValue(high, low);
    [0xF0 + c / 262144, 0x80 + c / 4096 % 64, 0x80 + c / 64 % 64, 0x80 + c % 64]
  }

  /** A surrogate outside a pair is replaced. */
  function Encode(s: Str): Bytes {
    if s == [] then []
    else if |s| >= 2 && High(s[0]) && Low(s[1]) then EncodePair(s[0], s[1]) + Encode(s[2..])
    else EncodeUnit(if High(s[0]) || Low(s[0]) then REPLACEMENT else s[0]) + Encode(s[1..])
  }

  /** How many bytes follow a lead byte, the range of the next one, and the bits of the lead. */
  datatype Lead = Lead(need: nat, lower: int, upper: int, bits: int)

  function LeadOf(b: Byte): Option<Lead> {
    if 0xC2 <= b <= 0xDF then Some(Lead(1, 0x80, 0xBF, b - 0xC0))
    else if 0xE0 <= b <= 0xEF then
      Some(Lead(2, if b == 0xE0 then 0xA0 else 0x80, if b == 0xED then 0x9F else 0xBF, b - 0xE0))
    else if 0xF0 <= b <= 0xF4 then
      Some(Lead(3, if b == 0xF0 then 0x90 else 0x80, if b == 0xF4 then 0x8F else 0xBF, b - 0xF0))
    else None
  }

  /** Reads the continuation bytes; a byte out of range ends the sequence and is read again. */
  function Follow(bytes: Bytes, need: nat, lower: int, upper: int, bits: int): (r: (Option<int>, Bytes))
    ensures |r.1| <= |bytes|
  {
    if need == 0 then (Some(bits), bytes)
    else if bytes == [] || bytes[0] < lower || bytes[0] > upper then (None, bytes)
    else Follow(bytes[1..], need - 1, 0x80, 0xBF, bits * 64 + bytes[0] - 0x80)
  }

  function Units(c: int): Str {
    if 0 <= c < 0x10000 then [c]
    else if 0x10000 <= c < 0x110000 then [0xD800 + (c - 0x10000) / 0x400, 0xDC00 + (c - 0x10000) % 0x400]
    else [REPLACEMENT]
  }

  function DecodeAll(bytes: Bytes): Str
    decreases |bytes|
  {
    if bytes == [] then []
    else if bytes[0] < 0x80 then [bytes[0]] + DecodeAll(bytes[1..])
    else if LeadOf(bytes[0]).None? then [REPLACEMENT] + DecodeAll(bytes[1..])
    else
      var lead := LeadOf(bytes[0]).value;
      var r := Follow(bytes[1..], lead.need, lead.lower, lead.upper, lead.bits);
      (if r.0.Some? then Units(r.0.value) else [REPLACEMENT]) + DecodeAll(r.1)
  }

  /** A leading byte order mark is dropped. */
  function Decode(bytes: Bytes): Str {
    if |bytes| >= 3 && bytes[..3] == [0xEF, 0xBB, 0xBF] then DecodeAll(bytes[3..])
    else DecodeAll(bytes)
  }

  /** Every surrogate is half of a pair. */
  predicate Paired(s: Str) {
    s == [] || if High(s[0]) then |s| >= 2 && Low(s[1]) && Paired(s[2..]) else !Low(s[0]) && Paired(s[1..])
  }

  lemma UnitRoundTrip(u: Unit, rest: Bytes)
    requires !High(u) && !Low(u)
    ensures DecodeAll(EncodeUnit(u) + rest) == [u] + DecodeAll(rest)
  {
    var b := EncodeUnit(u) + rest;
    if u < 0x80 {
      assert b[1..] == rest;
    } else if u < 0x800 {
      assert u == u / 64 * 64 + u % 64;
      assert b[1..] == [0x80 + u % 64] + rest;
      assert b[1..][1..] == rest;
      assert Follow(b[1..], 1, 0x80, 0xBF, u / 64) == (Some(u), rest);
      assert LeadOf(b[0]) == Some(Lead(1, 0x80, 0xBF, u / 64));
    } else {
      ThreeBytes(u, rest);
    }
  }

  lemma FollowStep(y: int, t: Bytes, need: nat, lower: int, upper: int, bits: int)
    requires 0 <= y < 64 && lower <= 0x80 + y <= upper
    ensures Follow([0x80 + y] + t, need + 1, lower, upper, bits) == Follow(t, need, 0x80, 0xBF, bits * 64 + y)
  {
    assert ([0x80 + y] + t)[1..] == t;
  }

  lemma Sextets(c: nat)
    ensures c / 4096 == c / 262144 * 64 + c / 4096 % 64
    ensures c / 64 == c / 4096 * 64 + c / 64 % 64
    ensures c == c / 64 * 64 + c % 64
  {
    assert c / 4096 / 64 == c / 262144 && c / 64 / 64 == c / 4096;
  }

  lemma ThreeBytes(u: Unit, rest: Bytes)
    requires !High(u) && !Low(u) && u >= 0x800
    ensures DecodeAll(EncodeUnit(u) + rest) == [u] + DecodeAll(rest)
  {
    var x, y, z := u / 4096, u / 64 % 64, u % 64;
    Sextets(u);
    var lead := LeadOf(0xE0 + x).value;
    FollowStep(y, [0x80 + z] + rest, 1, lead.lower, lead.upper, x);
    FollowStep(z, rest, 0, 0x80, 0xBF, x * 64 + y);
    var tail := [0x80 + y] + ([0x80 + z] + rest);
    assert EncodeUnit(u) + rest == [0xE0 + x] + tail;
    assert ([0xE0 + x] + tail)[1..] == tail;
  }

  /** A lead byte with its continuation bytes is read as one code point. */
  lemma LeadDecodes(b: Byte, tail: Bytes, c: int, rest: Bytes)
    requires b >= 0x80 && LeadOf(b).Some?
    requires var lead := LeadOf(b).value; Follow(tail, lead.need, lead.lower, lead.upper, lead.bits) == (Some(c), rest)
    ensures DecodeAll([b] + tail) == Units(c) + DecodeAll(rest)
  {
    assert ([b] + tail)[1..] == tail;
  }

  lemma PairSplits(high: Unit, low: Unit, rest: Bytes)
    requires High(high) && Low(low)
    ensures var c := PairValue(high, low);
      EncodePair(high, low) + rest
      == [0xF0 + c / 262144] + ([0x80 + c / 4096 % 64] + ([0x80 + c / 64 % 64] + ([0x80 + c % 64] + rest)))
  {
  }

  lemma PairBytes(high: Unit, low: Unit, rest: Bytes)
    requires High(high) && Low(low)
    ensures DecodeAll(EncodePair(high, low) + rest) == [high, low] + DecodeAll(rest)
  {
    var c := PairValue(high, low);
    var tail := [0x80 + c / 4096 % 64] + ([0x80 + c / 64 % 64] + ([0x80 + c % 64] + rest));
    PairFollows(c, rest);
    LeadDecodes(0xF0 + c / 262144, tail, c, rest);
    PairSplits(high, low, rest);
    PairUnits(high, low);
  }

  lemma PairFollows(c: nat, rest: Bytes)
    requires 0x10000 <= c < 0x110000
    ensures var w, x, y, z := c / 262144, c / 4096 % 64, c / 64 % 64, c % 64;
      && LeadOf(0xF0 + w).Some?
      && var lead := LeadOf(0xF0 + w).value;
         && lead.need == 3
         && Follow([0x80 + x] + ([0x80 + y] + ([0x80 + z] + rest)), 3, lead.lower, lead.upper, lead.bits)
            == (Some(c), rest)
  {
    var w, x, y, z := c / 262144, c / 4096 % 64, c / 64 % 64, c % 64;
    Sextets(c);
    var lead := LeadOf(0xF0 + w).value;
    FollowStep(x, [0x80 + y] + ([0x80 + z] + rest), 2, lead.lower, lead.upper, w);
    FollowStep(y, [0x80 + z] + rest, 1, 0x80, 0xBF, w * 64 + x);
    FollowStep(z, rest, 0, 0x80, 0xBF, (w * 64 + x) * 64 + y);
  }

  lemma PairUnits(high: Unit, low: Unit)
    requires High(high) && Low(low)
    ensures Units(PairValue(high, low)) == [high, low]
  {
    var d := PairValue(high, low) - 0x10000;
    assert d == (high - 0xD800) * 0x400 + (low - 0xDC00);
    assert d / 0x400 == high - 0xD800 && d % 0x400 == low - 0xDC00;
  }

  lemma {:induction false} DecodeAllInverts(s: Str)
    requires Paired(s)
    ensures DecodeAll(Encode(s)) == s
    decreases |s|
  {
    if s == [] {
    } else if High(s[0]) {
      DecodeAllInverts(s[2..]);
      PairBytes(s[0], s[1], Encode(s[2..]));
      assert s == [s[0], s[1]] + s[2..];
    } else {
      DecodeAllInverts(s[1..]);
      UnitRoundTrip(s[0], Encode(s[1..]));
      assert s == [s[0]] + s[1..];
    }
  }

  lemma MarkDecodes(rest: Bytes)
    ensures DecodeAll([0xEF, 0xBB, 0xBF] + rest) == [0xFEFF] + DecodeAll(rest)
  {
    ThreeBytes(0xFEFF, rest);
    assert EncodeUnit(0xFEFF) == [0xEF, 0xBB, 0xBF];
  }

  lemma MarkBegins(b: Bytes)
    requires |b| >= 3 && b[..3] == [0xEF, 0xBB, 0xBF]
    ensures DecodeAll(b) != [] && DecodeAll(b)[0] == 0xFEFF
  {
    assert b == b[..3] + b[3..];
    MarkDecodes(b[3..]);
  }

  /** Text without stray surrogates comes back, unless it begins with a byte order mark. */
  lemma DecodeInvertsEncode(s: Str)
    requires Paired(s) && (s != [] ==> s[0] != 0xFEFF)
    ensures Decode(Encode(s)) == s
  {
    DecodeAllInverts(s);
    var b := Encode(s);
    if |b| >= 3 && b[..3] == [0xEF, 0xBB, 0xBF] {
      MarkBegins(b);
      assert false;
    }
  }
}
