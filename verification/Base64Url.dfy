/** Unpadded base64url (section 5 of RFC 4648) by way of the padded standard alphabet, as btoa and atob offer it. */
module Base64Url {
  import opened Wrappers
  import opened Json
  import opened Utf8

  type Sextet = x: int | 0 <= x < 64

  const PLUS: Unit := 0x2B
  const SLASH: Unit := 0x2F
  const HYPHEN: Unit := 0x2D
  const UNDERSCORE: Unit := 0x5F
  const PAD: Unit := 0x3D

  function Letter(x: Sextet): (u: Unit)
    ensures u != PAD && u != HYPHEN && u != UNDERSCORE
  {
    if x < 26 then 0x41 + x
    else if x < 52 then 0x61 + x - 26
    else if x < 62 then 0x30 + x - 52
    else if x == 62 then PLUS
    else SLASH
  }

  function SextetOf(u: Unit): Option<Sextet> {
    if 0x41 <= u <= 0x5A then Some(u - 0x41)
    else if 0x61 <= u <= 0x7A then Some(u - 0x61 + 26)
    else if 0x30 <= u <= 0x39 then Some(u - 0x30 + 52)
    else if u == PLUS then Some(62)
    else if u == SLASH then Some(63)
    else None
  }

  function Letters(x: seq<Sextet>): Str {
    seq(|x|, i requires 0 <= i < |x| => Letter(x[i]))
  }

  function SextetsOf(s: Str): (r: Option<seq<Sextet>>)
    ensures r.Some? ==> |r.value| == |s|
  {
    if s == [] then Some([])
    else
      var rest := SextetsOf(s[1..]);
      if SextetOf(s[0]).Some? && rest.Some? then Some([SextetOf(s[0]).value] + rest.value) else None
  }

  /** Six bits at a time; a last group of one or two bytes is filled up with zero bits. */
  function ToSextets(b: Bytes): seq<Sextet> {
    if |b| == 0 then []
    else if |b| == 1 then [b[0] / 4, b[0] % 4 * 16]
    else if |b| == 2 then [b[0] / 4, b[0] % 4 * 16 + b[1] / 16, b[1] % 16 * 4]
    else [b[0] / 4, b[0] % 4 * 16 + b[1] / 16, b[1] % 16 * 4 + b[2] / 64, b[2] % 64] + ToSextets(b[3..])
  }

  function FirstByte(p: int, q: int): Byte
    requires 0 <= p < 64 && 0 <= q < 64
  {
    p * 4 + q / 16
  }

  function SecondByte(q: int, r: int): Byte
    requires 0 <= q < 64 && 0 <= r < 64
  {
    q % 16 * 16 + r / 4
  }

  function ThirdByte(r: int, t: int): Byte
    requires 0 <= r < 64 && 0 <= t < 64
  {
    r % 4 * 64 + t
  }

  /** The bits of a last incomplete byte are dropped; a single sextet holds no byte. */
  function FromSextets(x: seq<Sextet>): Option<Bytes> {
    if |x| == 0 then Some([])
    else if |x| == 1 then None
    else if |x| == 2 then Some([FirstByte(x[0], x[1])])
    else if |x| == 3 then Some([FirstByte(x[0], x[1]), SecondByte(x[1], x[2])])
    else
      var rest := FromSextets(x[4..]);
      if rest.None? then None
      else Some([FirstByte(x[0], x[1]), SecondByte(x[1], x[2]), ThirdByte(x[2], x[3])] + rest.value)
  }

  function Pads(n: nat): Str { seq(n, i => PAD) }

  /** One character for each sextet, and padding to a multiple of four. */
  function Btoa(b: Bytes): Str {
    var x := ToSextets(b);
    Letters(x) + Pads((4 - |x| % 4) % 4)
  }

  /** Up to two padding characters are taken off a text whose length is a multiple of four. */
  function Unpad(s: Str): Str {
    if |s| % 4 == 0 && |s| >= 2 && s[|s| - 1] == PAD then
      if s[|s| - 2] == PAD then s[..|s| - 2] else s[..|s| - 1]
    else s
  }

  /** The forgiving decoder, for text without white space. */
  function Atob(s: Str): Option<Bytes> {
    var t := Unpad(s);
    var x := SextetsOf(t);
    if |t| % 4 == 1 || x.None? then None else FromSextets(x.value)
  }

  function Replace(s: Str, from: Unit, to: Unit): Str {
    seq(|s|, i requires 0 <= i < |s| => if s[i] == from then to else s[i])
  }

  function StripPads(s: Str): (r: Str)
    ensures |r| <= |s|
  {
    if s != [] && s[|s| - 1] == PAD then StripPads(s[..|s| - 1]) else s
  }

  function Encode64(b: Bytes): Str {
    StripPads(Replace(Replace(Btoa(b), PLUS, HYPHEN), SLASH, UNDERSCORE))
  }

  function Decode64(s: Str): Option<Bytes> {
    Atob(Replace(Replace(s, HYPHEN, PLUS), UNDERSCORE, SLASH) + Pads((4 - |s| % 4) % 4))
  }

  /** The characters of the url alphabet. */
  predicate UrlUnit(u: Unit) {
    0x41 <= u <= 0x5A || 0x61 <= u <= 0x7A || 0x30 <= u <= 0x39 || u == HYPHEN || u == UNDERSCORE
  }

  // ---- round trip ----

  lemma {:induction false} SextetCount(b: Bytes)
    ensures |ToSextets(b)| == (4 * |b| + 2) / 3
    ensures |ToSextets(b)| % 4 != 1
    decreases |b|
  {
    if |b| >= 3 {
      SextetCount(b[3..]);
      assert 4 * |b| + 2 == 4 * |b[3..]| + 2 + 12;
    }
  }

  lemma TripleBits(a: Byte, b: Byte, c: Byte)
    ensures FirstByte(a / 4, a % 4 * 16 + b / 16) == a
    ensures SecondByte(a % 4 * 16 + b / 16, b % 16 * 4 + c / 64) == b
    ensures ThirdByte(b % 16 * 4 + c / 64, c % 64) == c
  {
  }

  lemma {:induction false} SextetsRoundTrip(b: Bytes)
    ensures FromSextets(ToSextets(b)) == Some(b)
    decreases |b|
  {
    if |b| == 1 {
      TripleBits(b[0], 0, 0);
      assert b == [b[0]];
    } else if |b| == 2 {
      TripleBits(b[0], b[1], 0);
      assert ToSextets(b) == [b[0] / 4, b[0] % 4 * 16 + b[1] / 16, b[1] % 16 * 4];
      assert b == [b[0], b[1]];
    } else if |b| >= 3 {
      TripleBits(b[0], b[1], b[2]);
      SextetsRoundTrip(b[3..]);
      var x := ToSextets(b);
      assert x[4..] == ToSextets(b[3..]);
      assert b == [b[0], b[1], b[2]] + b[3..];
    }
  }

  lemma {:induction false} LettersRead(x: seq<Sextet>)
    ensures SextetsOf(Letters(x)) == Some(x)
  {
    if x != [] {
      LettersRead(x[1..]);
      assert Letters(x)[1..] == Letters(x[1..]);
      assert x == [x[0]] + x[1..];
    }
  }

  /** The letters in the url alphabet. */
  function UrlLetters(x: seq<Sextet>): Str {
    Replace(Replace(Letters(x), PLUS, HYPHEN), SLASH, UNDERSCORE)
  }

  lemma {:induction false} PadsStrip(s: Str, n: nat)
    requires s != [] ==> s[|s| - 1] != PAD
    ensures StripPads(s + Pads(n)) == s
  {
    if n == 0 {
      assert s + Pads(0) == s;
    } else {
      assert (s + Pads(n))[..|s| + n - 1] == s + Pads(n - 1);
      PadsStrip(s, n - 1);
    }
  }

  lemma EncodedLetters(b: Bytes)
    ensures Encode64(b) == UrlLetters(ToSextets(b))
  {
    var x := ToSextets(b);
    var n := (4 - |x| % 4) % 4;
    assert Replace(Replace(Btoa(b), PLUS, HYPHEN), SLASH, UNDERSCORE) == UrlLetters(x) + Pads(n);
    PadsStrip(UrlLetters(x), n);
  }

  /** The decoder's arithmetic puts back exactly the padded standard text. */
  lemma PaddingRestored(b: Bytes)
    ensures var s := Encode64(b);
      Replace(Replace(s, HYPHEN, PLUS), UNDERSCORE, SLASH) + Pads((4 - |s| % 4) % 4) == Btoa(b)
  {
    EncodedLetters(b);
    var x := ToSextets(b);
    assert Replace(Replace(UrlLetters(x), HYPHEN, PLUS), UNDERSCORE, SLASH) == Letters(x);
  }

  lemma Unpads(s: Str, n: nat)
    requires n <= 2 && (|s| + n) % 4 == 0 && (s == [] ==> n == 0) && (s != [] ==> s[|s| - 1] != PAD)
    ensures Unpad(s + Pads(n)) == s
  {
    var t := s + Pads(n);
    if n == 0 {
      assert t == s;
    } else {
      assert t[..|s|] == s;
    }
  }

  lemma BtoaUnpads(b: Bytes)
    ensures Unpad(Btoa(b)) == Letters(ToSextets(b))
  {
    SextetCount(b);
    var x := ToSextets(b);
    Unpads(Letters(x), (4 - |x| % 4) % 4);
  }

  /** Every byte sequence comes back, and its text stays inside the url alphabet. */
  lemma Base64RoundTrip(b: Bytes)
    ensures Decode64(Encode64(b)) == Some(b)
    ensures |Encode64(b)| == (4 * |b| + 2) / 3
    ensures forall i :: 0 <= i < |Encode64(b)| ==> UrlUnit(Encode64(b)[i])
  {
    PaddingRestored(b);
    BtoaUnpads(b);
    SextetCount(b);
    LettersRead(ToSextets(b));
    SextetsRoundTrip(b);
    EncodedLetters(b);
  }
}
