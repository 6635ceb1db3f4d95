/**
  JSON text over UTF-16 code units: the compact printer that JSON.stringify is for wire values, and a
  parser of the whole grammar of RFC 8259, which inverts it.
 */
module Json {
  import opened Wrappers

  type Unit = u: int | 0 <= u < 0x10000
  type Str = seq<Unit>

  /** `Num` carries the text of a finite number; `Foreign` is anything JSON has no form for. */
  datatype Value =
    | Null
    | Bool(b: bool)
    | Num(token: Str)
    | Text(text: Str)
    | Arr(items: Items)
    | Obj(members: Members)
    | Foreign

  datatype Items = Empty | Item(head: Value, tail: Items)

  /** Members in the order they were added. */
  datatype Members = NoMembers | Member(key: Str, value: Value, rest: Members)

  const QUOTE: Unit := 0x22
  const BACKSLASH: Unit := 0x5C
  const COMMA: Unit := 0x2C
  const COLON: Unit := 0x3A
  const OPEN_ARRAY: Unit := 0x5B
  const CLOSE_ARRAY: Unit := 0x5D
  const OPEN_OBJECT: Unit := 0x7B
  const CLOSE_OBJECT: Unit := 0x7D
  const MINUS: Unit := 0x2D
  const LETTER_U: Unit := 0x75

  const NULL_TEXT: Str := [0x6E, 0x75, 0x6C, 0x6C]
  const TRUE_TEXT: Str := [0x74, 0x72, 0x75, 0x65]
  const FALSE_TEXT: Str := [0x66, 0x61, 0x6C, 0x73, 0x65]

  // ---- numbers ----

  predicate Digit(u: Unit) { 0x30 <= u <= 0x39 }

  /** The characters a number is made of. */
  predicate NumberUnit(u: Unit) { Digit(u) || u == MINUS || u == 0x2B || u == 0x2E || u == 0x65 || u == 0x45 }

  /** The longest prefix of number characters. */
  function NumberLength(s: Str): (n: nat)
    ensures n <= |s| && forall i :: 0 <= i < n ==> NumberUnit(s[i])
    ensures n < |s| ==> !NumberUnit(s[n])
  {
    if s == [] || !NumberUnit(s[0]) then 0 else 1 + NumberLength(s[1..])
  }

  function DigitsLength(s: Str): (n: nat)
    ensures n <= |s|
  {
    if s == [] || !Digit(s[0]) then 0 else 1 + DigitsLength(s[1..])
  }

  predicate IsExponent(s: Str) {
    s == [] || ((s[0] == 0x65 || s[0] == 0x45)
                && var d := if |s| > 1 && (s[1] == 0x2B || s[1] == MINUS) then s[2..] else s[1..];
                   d != [] && DigitsLength(d) == |d|)
  }

  predicate IsFraction(s: Str) {
    if s != [] && s[0] == 0x2E then
      var n := DigitsLength(s[1..]);
      n > 0 && IsExponent(s[1 + n..])
    else IsExponent(s)
  }

  predicate IsMagnitude(s: Str) {
    s != [] && Digit(s[0]) && if s[0] == 0x30 then IsFraction(s[1..]) else IsFraction(s[DigitsLength(s)..])
  }

  /** Section 6 of RFC 8259. */
  predicate IsNumber(t: Str) {
    && (forall i :: 0 <= i < |t| ==> NumberUnit(t[i]))
    && t != [] && if t[0] == MINUS then IsMagnitude(t[1..]) else IsMagnitude(t)
  }

  // ---- strings ----

  predicate High(u: Unit) { 0xD800 <= u <= 0xDBFF }
  predicate Low(u: Unit) { 0xDC00 <= u <= 0xDFFF }

  function HexUnit(d: int): Unit
    requires 0 <= d < 16
  {
    if d < 10 then 0x30 + d else 0x61 + d - 10
  }

  function HexValue(u: Unit): Option<int> {
    if 0x30 <= u <= 0x39 then Some(u - 0x30)
    else if 0x61 <= u <= 0x66 then Some(u - 0x61 + 10)
    else if 0x41 <= u <= 0x46 then Some(u - 0x41 + 10)
    else None
  }

  function Hex4(u: Unit): Str {
    [HexUnit(u / 4096), HexUnit(u / 256 % 16), HexUnit(u / 16 % 16), HexUnit(u % 16)]
  }

  function FromHex4(a: Unit, b: Unit, c: Unit, d: Unit): (r: Option<int>)
    ensures r.Some? ==> 0 <= r.value < 0x10000
  {
    if HexValue(a).None? || HexValue(b).None? || HexValue(c).None? || HexValue(d).None? then None
    else Some(HexValue(a).value * 4096 + HexValue(b).value * 256 + HexValue(c).value * 16 + HexValue(d).value)
  }

  lemma HexRoundTrip(u: Unit)
    ensures FromHex4(Hex4(u)[0], Hex4(u)[1], Hex4(u)[2], Hex4(u)[3]) == Some(u)
  {
    var a, b, c, d := u / 4096, u / 256 % 16, u / 16 % 16, u % 16;
    assert u / 16 == u / 256 * 16 + c;
    assert u / 256 == u / 4096 * 16 + b;
    assert u == (u / 16) * 16 + d;
  }

  /** The two-character escapes. */
  function ShortEscape(u: Unit): Option<Unit> {
    if u == QUOTE || u == BACKSLASH then Some(u)
    else if u == 0x08 then Some(0x62)
    else if u == 0x09 then Some(0x74)
    else if u == 0x0A then Some(0x6E)
    else if u == 0x0C then Some(0x66)
    else if u == 0x0D then Some(0x72)
    else None
  }

  /** Controls and surrogates that are not part of a pair are written as four hexadecimal digits. */
  function EscapeUnit(u: Unit): Str {
    if ShortEscape(u).Some? then [BACKSLASH, ShortEscape(u).value]
    else if u < 0x20 || High(u) || Low(u) then [BACKSLASH, LETTER_U] + Hex4(u)
    else [u]
  }

  function Escape(s: Str): Str {
    if s == [] then []
    else if |s| >= 2 && High(s[0]) && Low(s[1]) then [s[0], s[1]] + Escape(s[2..])
    else EscapeUnit(s[0]) + Escape(s[1..])
  }

  function Quote(s: Str): Str { [QUOTE] + Escape(s) + [QUOTE] }

  // ---- the printer ----

  function Stringify(v: Value): Str {
    match v
    case Null => NULL_TEXT
    case Bool(b) => if b then TRUE_TEXT else FALSE_TEXT
    case Num(token) => token
    case Text(text) => Quote(text)
    case Arr(items) => [OPEN_ARRAY] + StringifyItems(items) + [CLOSE_ARRAY]
    case Obj(members) => [OPEN_OBJECT] + StringifyMembers(members) + [CLOSE_OBJECT]
    case Foreign => []
  }

  function StringifyItems(items: Items): Str {
    match items
    case Empty => []
    case Item(head, tail) =>
      Stringify(head) + if tail == Empty then [] else [COMMA] + StringifyItems(tail)
  }

  function StringifyMembers(members: Members): Str {
    match members
    case NoMembers => []
    case Member(key, value, rest) =>
      Quote(key) + [COLON] + Stringify(value)
      + if rest == NoMembers then [] else [COMMA] + StringifyMembers(rest)
  }

  // ---- the parser ----

  predicate Blank(u: Unit) { u == 0x20 || u == 0x09 || u == 0x0A || u == 0x0D }

  function Skip(s: Str): (r: Str)
    ensures |r| <= |s|
    ensures r != [] ==> !Blank(r[0])
  {
    if s != [] && Blank(s[0]) then Skip(s[1..]) else s
  }

  function UnescapeShort(u: Unit): Option<Unit> {
    if u == QUOTE || u == BACKSLASH || u == 0x2F then Some(u)
    else if u == 0x62 then Some(0x08)
    else if u == 0x74 then Some(0x09)
    else if u == 0x6E then Some(0x0A)
    else if u == 0x66 then Some(0x0C)
    else if u == 0x72 then Some(0x0D)
    else None
  }

  /** The characters of a string up to its closing quote, and what follows it. */
  function ParseChars(s: Str): (r: Option<(Str, Str)>)
    ensures r.Some? ==> |r.value.1| < |s|
    decreases |s|
  {
    if s == [] || s[0] < 0x20 then None
    else if s[0] == QUOTE then Some(([], s[1..]))
    else if s[0] != BACKSLASH then Cons(s[0], ParseChars(s[1..]))
    else if |s| >= 2 && UnescapeShort(s[1]).Some? then Cons(UnescapeShort(s[1]).value, ParseChars(s[2..]))
    else if |s| >= 6 && s[1] == LETTER_U && FromHex4(s[2], s[3], s[4], s[5]).Some?
    then Cons(FromHex4(s[2], s[3], s[4], s[5]).value, ParseChars(s[6..]))
    else None
  }

  function Cons(u: Unit, r: Option<(Str, Str)>): Option<(Str, Str)> {
    if r.None? then None else Some(([u] + r.value.0, r.value.1))
  }

  function ParseValue(s: Str): (r: Option<(Value, Str)>)
    ensures r.Some? ==> |r.value.1| < |s|
    decreases |s|, 1
  {
    var t := Skip(s);
    if t == [] then None
    else if t[0] == QUOTE then
      var r := ParseChars(t[1..]);
      if r.None? then None else Some((Text(r.value.0), r.value.1))
    else if t[0] == OPEN_ARRAY then
      var u := Skip(t[1..]);
      if u != [] && u[0] == CLOSE_ARRAY then Some((Arr(Empty), u[1..]))
      else
        var r := ParseItems(t[1..]);
        if r.None? then None else Some((Arr(r.value.0), r.value.1))
    else if t[0] == OPEN_OBJECT then
      var u := Skip(t[1..]);
      if u != [] && u[0] == CLOSE_OBJECT then Some((Obj(NoMembers), u[1..]))
      else
        var r := ParseMembers(t[1..]);
        if r.None? then None else Some((Obj(r.value.0), r.value.1))
    else if NULL_TEXT <= t then Some((Null, t[4..]))
    else if TRUE_TEXT <= t then Some((Bool(true), t[4..]))
    else if FALSE_TEXT <= t then Some((Bool(false), t[5..]))
    else
      var n := NumberLength(t);
      if IsNumber(t[..n]) then Some((Num(t[..n]), t[n..])) else None
  }

  /** At least one item, up to the closing bracket. */
  function ParseItems(s: Str): (r: Option<(Items, Str)>)
    ensures r.Some? ==> |r.value.1| < |s|
    decreases |s|, 2
  {
    var first := ParseValue(s);
    if first.None? then None
    else
      var t := Skip(first.value.1);
      if t == [] then None
      else if t[0] == CLOSE_ARRAY then Some((Item(first.value.0, Empty), t[1..]))
      else if t[0] != COMMA then None
      else
        var more := ParseItems(t[1..]);
        if more.None? then None else Some((Item(first.value.0, more.value.0), more.value.1))
  }

  /** At least one member, up to the closing brace; members are kept in the order of the text. */
  function ParseMembers(s: Str): (r: Option<(Members, Str)>)
    ensures r.Some? ==> |r.value.1| < |s|
    decreases |s|, 2
  {
    var k := Skip(s);
    if k == [] || k[0] != QUOTE then None
    else
      var key := ParseChars(k[1..]);
      if key.None? then None
      else
        var c := Skip(key.value.1);
        if c == [] || c[0] != COLON then None
        else
          var v := ParseValue(c[1..]);
          if v.None? then None
          else
            var t := Skip(v.value.1);
            if t == [] then None
            else if t[0] == CLOSE_OBJECT then Some((Member(key.value.0, v.value.0, NoMembers), t[1..]))
            else if t[0] != COMMA then None
            else
              var more := ParseMembers(t[1..]);
              if more.None? then None
              else Some((Member(key.value.0, v.value.0, more.value.0), more.value.1))
  }

  function Parse(s: Str): Option<Value> {
    var r := ParseValue(s);
    if r.Some? && Skip(r.value.1) == [] then Some(r.value.0) else None
  }

  // ---- the parser inverts the printer ----

  /** Only wire values, and every number a number. */
  predicate IsJson(v: Value) {
    match v
    case Num(token) => IsNumber(token)
    case Arr(items) => AllJson(items)
    case Obj(members) => MembersJson(members)
    case Foreign => false
    case _ => true
  }

  predicate AllJson(items: Items) {
    match items
    case Empty => true
    case Item(head, tail) => IsJson(head) && AllJson(tail)
  }

  predicate MembersJson(members: Members) {
    match members
    case NoMembers => true
    case Member(_, value, rest) => IsJson(value) && MembersJson(rest)
  }

  lemma Regroup(a: Str, b: Str, c: Str, d: Str)
    ensures a + b + c + d == a + (b + c + d)
  {
  }

  lemma {:induction false} CharsRoundTrip(s: Str, rest: Str)
    ensures ParseChars(Escape(s) + [QUOTE] + rest) == Some((s, rest))
    decreases |s|
  {
    if s == [] {
      assert (Escape(s) + [QUOTE] + rest)[1..] == rest;
    } else if |s| >= 2 && High(s[0]) && Low(s[1]) {
      CharsRoundTrip(s[2..], rest);
      Regroup([s[0], s[1]], Escape(s[2..]), [QUOTE], rest);
      PairRoundTrip(s[0], s[1], Escape(s[2..]) + [QUOTE] + rest);
      assert s == [s[0]] + ([s[1]] + s[2..]);
    } else {
      CharsRoundTrip(s[1..], rest);
      Regroup(EscapeUnit(s[0]), Escape(s[1..]), [QUOTE], rest);
      UnitRoundTrip(s[0], Escape(s[1..]) + [QUOTE] + rest);
      assert s == [s[0]] + s[1..];
    }
  }

  lemma PairRoundTrip(a: Unit, b: Unit, tail: Str)
    requires High(a) && Low(b)
    ensures ParseChars([a, b] + tail) == Cons(a, Cons(b, ParseChars(tail)))
  {
    assert ([a, b] + tail)[1..] == [b] + tail;
    assert ([b] + tail)[1..] == tail;
  }

  lemma UnitRoundTrip(u: Unit, tail: Str)
    ensures ParseChars(EscapeUnit(u) + tail) == Cons(u, ParseChars(tail))
  {
    var t := EscapeUnit(u) + tail;
    if ShortEscape(u).Some? {
      assert t[2..] == tail;
    } else if u < 0x20 || High(u) || Low(u) {
      HexRoundTrip(u);
      assert t[2] == Hex4(u)[0] && t[3] == Hex4(u)[1] && t[4] == Hex4(u)[2] && t[5] == Hex4(u)[3];
      assert t[6..] == tail;
    } else {
      assert t[1..] == tail;
    }
  }

  /** What may follow a value: nothing, or a character that ends a number and is not blank. */
  predicate Ends(rest: Str) { rest != [] ==> !NumberUnit(rest[0]) && !Blank(rest[0]) }

  lemma {:induction false} NumberStops(t: Str, rest: Str)
    requires Ends(rest) && forall i :: 0 <= i < |t| ==> NumberUnit(t[i])
    ensures NumberLength(t + rest) == |t|
  {
    if t == [] {
      assert t + rest == rest;
    } else {
      assert (t + rest)[1..] == t[1..] + rest;
      NumberStops(t[1..], rest);
    }
  }

  /** How the text of a value begins: never blank, never a closing character. */
  lemma StringifyStarts(v: Value)
    requires IsJson(v)
    ensures Stringify(v) != [] && !Blank(Stringify(v)[0])
    ensures Stringify(v)[0] != CLOSE_ARRAY && Stringify(v)[0] != CLOSE_OBJECT
  {
    if v.Num? {
      assert NumberUnit(v.token[0]);
    }
  }

  lemma SkipNothing(s: Str)
    requires s != [] ==> !Blank(s[0])
    ensures Skip(s) == s
  {
  }

  lemma LiteralRoundTrip(v: Value, rest: Str)
    requires v.Null? || v.Bool?
    ensures ParseValue(Stringify(v) + rest) == Some((v, rest))
  {
    var t := Stringify(v) + rest;
    SkipNothing(t);
    assert t[..|Stringify(v)|] == Stringify(v) && t[|Stringify(v)|..] == rest;
    assert t[0] == Stringify(v)[0] && t[1] == Stringify(v)[1];
  }

  lemma NumberRoundTrip(token: Str, rest: Str)
    requires IsNumber(token) && Ends(rest)
    ensures ParseValue(token + rest) == Some((Num(token), rest))
  {
    var t := token + rest;
    assert NumberUnit(t[0]);
    SkipNothing(t);
    NumberStops(token, rest);
    assert t[..|token|] == token && t[|token|..] == rest;
    assert !(NULL_TEXT <= t) && !(TRUE_TEXT <= t) && !(FALSE_TEXT <= t);
  }

  lemma TextRoundTrip(s: Str, rest: Str)
    ensures ParseValue(Quote(s) + rest) == Some((Text(s), rest))
  {
    var t := Quote(s) + rest;
    SkipNothing(t);
    assert t[1..] == Escape(s) + [QUOTE] + rest;
    CharsRoundTrip(s, rest);
  }

  lemma {:induction false} ValueRoundTrip(v: Value, rest: Str)
    requires IsJson(v) && Ends(rest)
    ensures ParseValue(Stringify(v) + rest) == Some((v, rest))
    decreases v, 0
  {
    match v
    case Null => LiteralRoundTrip(v, rest);
    case Bool(_) => LiteralRoundTrip(v, rest);
    case Num(token) => NumberRoundTrip(token, rest);
    case Text(text) => TextRoundTrip(text, rest);
    case Arr(items) => ArrayRoundTrip(items, rest);
    case Obj(members) => ObjectRoundTrip(members, rest);
  }

  lemma EmptyRoundTrip(v: Value, rest: Str)
    requires v == Arr(Empty) || v == Obj(NoMembers)
    ensures ParseValue(Stringify(v) + rest) == Some((v, rest))
  {
    var t := Stringify(v) + rest;
    SkipNothing(t);
    assert t[1..] == (if v.Arr? then [CLOSE_ARRAY] else [CLOSE_OBJECT]) + rest;
    SkipNothing(t[1..]);
    assert t[1..][1..] == rest;
  }

  lemma OpensArray(u: Str)
    requires u != [] && !Blank(u[0]) && u[0] != CLOSE_ARRAY && ParseItems(u).Some?
    ensures ParseValue([OPEN_ARRAY] + u) == Some((Arr(ParseItems(u).value.0), ParseItems(u).value.1))
  {
    SkipNothing([OPEN_ARRAY] + u);
    SkipNothing(u);
    assert ([OPEN_ARRAY] + u)[1..] == u;
  }

  lemma OpensObject(u: Str)
    requires u != [] && !Blank(u[0]) && u[0] != CLOSE_OBJECT && ParseMembers(u).Some?
    ensures ParseValue([OPEN_OBJECT] + u) == Some((Obj(ParseMembers(u).value.0), ParseMembers(u).value.1))
  {
    SkipNothing([OPEN_OBJECT] + u);
    SkipNothing(u);
    assert ([OPEN_OBJECT] + u)[1..] == u;
  }

  lemma {:induction false} ArrayRoundTrip(items: Items, rest: Str)
    requires AllJson(items)
    ensures ParseValue(Stringify(Arr(items)) + rest) == Some((Arr(items), rest))
    decreases items, 1
  {
    if items == Empty {
      EmptyRoundTrip(Arr(items), rest);
    } else {
      var body := StringifyItems(items);
      StringifyStarts(items.head);
      assert body[0] == Stringify(items.head)[0];
      ItemsRoundTrip(items, rest);
      OpensArray(body + [CLOSE_ARRAY] + rest);
      Regroup([OPEN_ARRAY], body, [CLOSE_ARRAY], rest);
    }
  }

  lemma {:induction false} ObjectRoundTrip(members: Members, rest: Str)
    requires MembersJson(members)
    ensures ParseValue(Stringify(Obj(members)) + rest) == Some((Obj(members), rest))
    decreases members, 1
  {
    if members == NoMembers {
      EmptyRoundTrip(Obj(members), rest);
    } else {
      var body := StringifyMembers(members);
      assert body[0] == QUOTE;
      MembersRoundTrip(members, rest);
      OpensObject(body + [CLOSE_OBJECT] + rest);
      Regroup([OPEN_OBJECT], body, [CLOSE_OBJECT], rest);
    }
  }

  lemma {:induction false} ItemsRoundTrip(items: Items, rest: Str)
    requires AllJson(items) && items != Empty
    ensures ParseItems(StringifyItems(items) + [CLOSE_ARRAY] + rest) == Some((items, rest))
    decreases items, 0
  {
    var s := StringifyItems(items) + [CLOSE_ARRAY] + rest;
    var after := if items.tail == Empty then [CLOSE_ARRAY] + rest
                 else [COMMA] + (StringifyItems(items.tail) + [CLOSE_ARRAY] + rest);
    assert s == Stringify(items.head) + after;
    ValueRoundTrip(items.head, after);
    SkipNothing(after);
    if items.tail == Empty {
      assert after[1..] == rest;
    } else {
      assert after[1..] == StringifyItems(items.tail) + [CLOSE_ARRAY] + rest;
      ItemsRoundTrip(items.tail, rest);
    }
  }

  lemma KeyRoundTrip(key: Str, value: Str)
    ensures var s := Quote(key) + ([COLON] + value);
      && s[0] == QUOTE && Skip(s) == s && ParseChars(s[1..]) == Some((key, [COLON] + value))
      && Skip([COLON] + value) == [COLON] + value && ([COLON] + value)[1..] == value
  {
    var s := Quote(key) + ([COLON] + value);
    SkipNothing(s);
    assert s[1..] == Escape(key) + [QUOTE] + ([COLON] + value);
    CharsRoundTrip(key, [COLON] + value);
    SkipNothing([COLON] + value);
  }

  /** One member, and what is read after it. */
  lemma ReadsMember(key: Str, v: Value, after: Str)
    requires ParseValue(Stringify(v) + after) == Some((v, after)) && Skip(after) == after && after != []
    ensures var r := ParseMembers(Quote(key) + ([COLON] + (Stringify(v) + after)));
      && (after[0] == CLOSE_OBJECT ==> r == Some((Member(key, v, NoMembers), after[1..])))
      && (after[0] == COMMA && ParseMembers(after[1..]).Some? ==>
            var more := ParseMembers(after[1..]).value; r == Some((Member(key, v, more.0), more.1)))
  {
    KeyRoundTrip(key, Stringify(v) + after);
  }

  lemma {:induction false} MembersRoundTrip(members: Members, rest: Str)
    requires MembersJson(members) && members != NoMembers
    ensures ParseMembers(StringifyMembers(members) + [CLOSE_OBJECT] + rest) == Some((members, rest))
    decreases members, 0
  {
    var after := if members.rest == NoMembers then [CLOSE_OBJECT] + rest
                 else [COMMA] + (StringifyMembers(members.rest) + [CLOSE_OBJECT] + rest);
    assert StringifyMembers(members) + [CLOSE_OBJECT] + rest
           == Quote(members.key) + ([COLON] + (Stringify(members.value) + after));
    ValueRoundTrip(members.value, after);
    SkipNothing(after);
    if members.rest == NoMembers {
      assert after[1..] == rest;
    } else {
      assert after[1..] == StringifyMembers(members.rest) + [CLOSE_OBJECT] + rest;
      MembersRoundTrip(members.rest, rest);
    }
    ReadsMember(members.key, members.value, after);
  }

  /** Every wire value is read back from its own text, exactly, with nothing left over. */
  lemma ParseInvertsStringify(v: Value)
    requires IsJson(v)
    ensures Parse(Stringify(v)) == Some(v)
  {
    ValueRoundTrip(v, []);
    assert Stringify(v) + [] == Stringify(v);
  }

  // ---- what the printer may put into a string ----

  /** Section 7 of RFC 8259 between the quotes, with every surrogate either in a pair or escaped. */
  predicate LegalChars(s: Str) {
    s == []
    || (if s[0] == BACKSLASH then
          |s| >= 2 && ((UnescapeShort(s[1]).Some? && LegalChars(s[2..]))
                       || (s[1] == LETTER_U && |s| >= 6
                           && FromHex4(s[2], s[3], s[4], s[5]).Some? && LegalChars(s[6..])))
        else if High(s[0]) then |s| >= 2 && Low(s[1]) && LegalChars(s[2..])
        else s[0] >= 0x20 && s[0] != QUOTE && !Low(s[0]) && LegalChars(s[1..]))
  }

  lemma {:induction false} EscapeIsLegal(s: Str)
    ensures LegalChars(Escape(s))
    decreases |s|
  {
    if s == [] {
    } else if |s| >= 2 && High(s[0]) && Low(s[1]) {
      EscapeIsLegal(s[2..]);
      assert Escape(s)[2..] == Escape(s[2..]);
    } else {
      EscapeIsLegal(s[1..]);
      var u, e := s[0], Escape(s);
      if ShortEscape(u).Some? {
        assert e[2..] == Escape(s[1..]);
      } else if u < 0x20 || High(u) || Low(u) {
        HexRoundTrip(u);
        assert e[2] == Hex4(u)[0] && e[3] == Hex4(u)[1] && e[4] == Hex4(u)[2] && e[5] == Hex4(u)[3];
        assert e[6..] == Escape(s[1..]);
      } else {
        assert e[1..] == Escape(s[1..]);
      }
    }
  }
}
