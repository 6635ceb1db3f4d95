/**
  The cursor of the managed poll list: a checked payload as JSON, as UTF-8, as unpadded base64url, with a
  cap on its length. `datetime` stands for the schema library's date check, which is not part of this model.
 */
module PollCursor {
  import opened Wrappers
  import opened Json
  import opened Base64Url
  import Utf8

  const LONGEST_CURSOR := 1024
  const CHUNK: nat := 0x8000

  datatype Scope = Current | Archive | All

  datatype Payload = Payload(createdAt: Str, id: Str, chatId: Str, scope: Scope)

  datatype EncodeError = InvalidPayload

  const KEY_V: Str := [0x76]
  const KEY_CREATED_AT: Str := [0x63, 0x72, 0x65, 0x61, 0x74, 0x65, 0x64, 0x41, 0x74]
  const KEY_ID: Str := [0x69, 0x64]
  const KEY_CHAT_ID: Str := [0x63, 0x68, 0x61, 0x74, 0x49, 0x64]
  const KEY_SCOPE: Str := [0x73, 0x63, 0x6F, 0x70, 0x65]
  const CURRENT_TEXT: Str := [0x63, 0x75, 0x72, 0x72, 0x65, 0x6E, 0x74]
  const ARCHIVE_TEXT: Str := [0x61, 0x72, 0x63, 0x68, 0x69, 0x76, 0x65]
  const ALL_TEXT: Str := [0x61, 0x6C, 0x6C]
  const ONE: Str := [0x31]

  // ---- the schema ----

  /** White space and line ends, as String.prototype.trim takes them off. */
  predicate Trimmable(u: Unit) {
    0x09 <= u <= 0x0D || u == 0x20 || u == 0xA0 || u == 0x1680 || 0x2000 <= u <= 0x200A
    || u == 0x2028 || u == 0x2029 || u == 0x202F || u == 0x205F || u == 0x3000 || u == 0xFEFF
  }

  function TrimStart(s: Str): (r: Str)
    ensures |r| <= |s| && (r != [] ==> !Trimmable(r[0]))
  {
    if s != [] && Trimmable(s[0]) then TrimStart(s[1..]) else s
  }

  function TrimEnd(s: Str): (r: Str)
    ensures |r| <= |s| && r == s[..|r|]
  {
    if s != [] && Trimmable(s[|s| - 1]) then TrimEnd(s[..|s| - 1]) else s
  }

  function Trim(s: Str): Str { TrimEnd(TrimStart(s)) }

  predicate UrlText(s: Str) { s != [] && forall i :: 0 <= i < |s| ==> UrlUnit(s[i]) }

  predicate Identifier(s: Str, longest: nat) { |s| <= longest && UrlText(s) }

  function ScopeText(scope: Scope): Str {
    match scope
    case Current => CURRENT_TEXT
    case Archive => ARCHIVE_TEXT
    case All => ALL_TEXT
  }

  function ScopeOf(s: Str): Option<Scope> {
    if s == CURRENT_TEXT then Some(Current)
    else if s == ARCHIVE_TEXT then Some(Archive)
    else if s == ALL_TEXT then Some(All)
    else None
  }

  /** Parsing trims the two identifiers, and then checks. */
  function ParsePayload(p: Payload, datetime: Str -> bool): Option<Payload> {
    var q := Payload(p.createdAt, Trim(p.id), Trim(p.chatId), p.scope);
    if datetime(q.createdAt) && |q.createdAt| <= 32 && Identifier(q.id, 128) && Identifier(q.chatId, 256)
    then Some(q) else None
  }

  /** Parsing keeps the last of several members with one key. */
  function Last(members: Members, key: Str): Option<Value> {
    match members
    case NoMembers => None
    case Member(k, v, rest) =>
      var later := Last(rest, key);
      if later.Some? then later else if k == key then Some(v) else None
  }

  function TextAt(members: Members, key: Str): Option<Str> {
    var v := Last(members, key);
    if v.Some? && v.value.Text? then Some(v.value.text) else None
  }

  /** The schema against any parsed value; members it does not know are dropped. */
  function ParseValuePayload(v: Value, datetime: Str -> bool): Option<Payload> {
    if !v.Obj? || Last(v.members, KEY_V) != Some(Num(ONE)) then None
    else
      var createdAt, id, chatId, scope := TextAt(v.members, KEY_CREATED_AT), TextAt(v.members, KEY_ID),
                                          TextAt(v.members, KEY_CHAT_ID), TextAt(v.members, KEY_SCOPE);
      if createdAt.None? || id.None? || chatId.None? || scope.None? || ScopeOf(scope.value).None? then None
      else ParsePayload(Payload(createdAt.value, id.value, chatId.value, ScopeOf(scope.value).value), datetime)
  }

  // ---- the codec ----

  function FromScope(p: Payload): Members { Member(KEY_SCOPE, Text(ScopeText(p.scope)), NoMembers) }
  function FromChat(p: Payload): Members { Member(KEY_CHAT_ID, Text(p.chatId), FromScope(p)) }
  function FromId(p: Payload): Members { Member(KEY_ID, Text(p.id), FromChat(p)) }
  function FromDate(p: Payload): Members { Member(KEY_CREATED_AT, Text(p.createdAt), FromId(p)) }

  /** The members in the order of the schema. */
  function ToJson(p: Payload): Value { Obj(Member(KEY_V, Num(ONE), FromDate(p))) }

  function CursorText(p: Payload): Str { Encode64(Utf8.Encode(Stringify(ToJson(p)))) }

  /** The text handed to btoa: one character a byte, built a chunk at a time. */
  method BinaryString(bytes: Utf8.Bytes) returns (binary: Utf8.Bytes)
    ensures binary == bytes
  {
    binary := [];
    var index := 0;
    while index < |bytes|
      invariant 0 <= index && binary == bytes[..if index < |bytes| then index else |bytes|]
    {
      var end := if index + CHUNK < |bytes| then index + CHUNK else |bytes|;
      binary := binary + bytes[index..end];
      index := index + CHUNK;
    }
  }

  method EncodeManagedPollListCursor(payload: Payload, datetime: Str -> bool) returns (r: Result<Str, EncodeError>)
    ensures r.Failure? <==> ParsePayload(payload, datetime).None?
    ensures r.Success? ==> r.value == CursorText(ParsePayload(payload, datetime).value)
  {
    var parsed := ParsePayload(payload, datetime);
    if parsed.None? {
      return Failure(InvalidPayload);
    }
    var binary := BinaryString(Utf8.Encode(Stringify(ToJson(parsed.value))));
    return Success(StripPads(Replace(Replace(Btoa(binary), PLUS, HYPHEN), SLASH, UNDERSCORE)));
  }

  function DecodeManagedPollListCursor(value: Str, datetime: Str -> bool): Option<Payload> {
    var normalized := Trim(value);
    if normalized == [] || |normalized| > LONGEST_CURSOR || !UrlText(normalized) then None
    else
      var bytes := Decode64(normalized);
      if bytes.None? then None
      else
        var decoded := Parse(Utf8.Decode(bytes.value));
        if decoded.None? then None else ParseValuePayload(decoded.value, datetime)
  }

  // ---- round trip ----

  /** Characters JSON leaves alone and UTF-8 writes as one byte. */
  predicate PlainUnit(u: Unit) { 0x20 <= u < 0x7F && u != QUOTE && u != BACKSLASH }

  predicate Plain(s: Str) { forall i :: 0 <= i < |s| ==> PlainUnit(s[i]) }

  predicate AsciiText(s: Str) { forall i :: 0 <= i < |s| ==> 0x20 <= s[i] < 0x7F }

  lemma {:induction false} EscapePlain(s: Str)
    requires Plain(s)
    ensures Escape(s) == s
  {
    if s != [] {
      EscapePlain(s[1..]);
      assert PlainUnit(s[0]);
      assert s == [s[0]] + s[1..];
    }
  }

  lemma {:induction false} AsciiBytes(s: Str)
    requires AsciiText(s)
    ensures |Utf8.Encode(s)| == |s| && Utf8.Paired(s)
  {
    if s != [] {
      AsciiBytes(s[1..]);
    }
  }

  lemma QuotePlain(s: Str)
    requires Plain(s)
    ensures |Quote(s)| == |s| + 2 && AsciiText(Quote(s))
  {
    EscapePlain(s);
  }

  /** The text of one member, and of the rest of the object. */
  lemma MemberText(key: Str, value: Value, rest: Members)
    requires Plain(key) && AsciiText(Stringify(value)) && AsciiText(StringifyMembers(rest))
    ensures var s := StringifyMembers(Member(key, value, rest));
      AsciiText(s)
      && |s| == |key| + 3 + |Stringify(value)| + if rest == NoMembers then 0 else 1 + |StringifyMembers(rest)|
  {
    QuotePlain(key);
  }

  lemma TextMember(key: Str, s: Str, rest: Members)
    requires Plain(key) && Plain(s) && AsciiText(StringifyMembers(rest))
    ensures var t := StringifyMembers(Member(key, Text(s), rest));
      AsciiText(t) && |t| <= |key| + |s| + 6 + |StringifyMembers(rest)|
  {
    QuotePlain(s);
    MemberText(key, Text(s), rest);
  }

  lemma ScopePart(p: Payload)
    ensures AsciiText(StringifyMembers(FromScope(p))) && |StringifyMembers(FromScope(p))| <= 18
  {
    assert Plain(ScopeText(p.scope)) && |ScopeText(p.scope)| <= 7;
    assert Plain(KEY_SCOPE) && |KEY_SCOPE| == 5;
    TextMember(KEY_SCOPE, ScopeText(p.scope), NoMembers);
  }

  lemma ChatPart(p: Payload)
    requires Plain(p.chatId)
    ensures AsciiText(StringifyMembers(FromChat(p))) && |StringifyMembers(FromChat(p))| <= 30 + |p.chatId|
  {
    ScopePart(p);
    assert Plain(KEY_CHAT_ID) && |KEY_CHAT_ID| == 6;
    TextMember(KEY_CHAT_ID, p.chatId, FromScope(p));
  }

  lemma IdPart(p: Payload)
    requires Plain(p.id) && Plain(p.chatId)
    ensures AsciiText(StringifyMembers(FromId(p))) && |StringifyMembers(FromId(p))| <= 38 + |p.chatId| + |p.id|
  {
    ChatPart(p);
    assert Plain(KEY_ID) && |KEY_ID| == 2;
    TextMember(KEY_ID, p.id, FromChat(p));
  }

  lemma DatePart(p: Payload)
    requires Plain(p.createdAt) && Plain(p.id) && Plain(p.chatId)
    ensures AsciiText(StringifyMembers(FromDate(p)))
    ensures |StringifyMembers(FromDate(p))| <= 53 + |p.chatId| + |p.id| + |p.createdAt|
  {
    IdPart(p);
    assert Plain(KEY_CREATED_AT) && |KEY_CREATED_AT| == 9;
    TextMember(KEY_CREATED_AT, p.createdAt, FromId(p));
  }

  lemma VersionText()
    ensures Plain(KEY_V) && |KEY_V| == 1 && AsciiText(Stringify(Num(ONE))) && |Stringify(Num(ONE))| == 1
  {
  }

  lemma VersionPart(p: Payload)
    requires Plain(p.createdAt) && Plain(p.id) && Plain(p.chatId)
    ensures AsciiText(StringifyMembers(ToJson(p).members))
    ensures |StringifyMembers(ToJson(p).members)| <= 59 + |p.createdAt| + |p.id| + |p.chatId|
  {
    DatePart(p);
    VersionText();
    assert ToJson(p).members == Member(KEY_V, Num(ONE), FromDate(p));
    MemberText(KEY_V, Num(ONE), FromDate(p));
  }

  lemma ObjectText(members: Members)
    requires AsciiText(StringifyMembers(members))
    ensures var s := Stringify(Obj(members));
      AsciiText(s) && |s| == |StringifyMembers(members)| + 2 && s[0] == OPEN_OBJECT
  {
  }

  /** A checked payload's JSON is printable ASCII and short. */
  lemma PayloadText(p: Payload)
    requires Plain(p.createdAt) && Plain(p.id) && Plain(p.chatId)
    ensures AsciiText(Stringify(ToJson(p))) && Stringify(ToJson(p)) != []
    ensures |Stringify(ToJson(p))| <= 61 + |p.createdAt| + |p.id| + |p.chatId|
  {
    VersionPart(p);
    ObjectText(ToJson(p).members);
  }

  lemma {:induction false} TrimStays(s: Str)
    requires UrlText(s)
    ensures Trim(s) == s
  {
    assert UrlUnit(s[0]) && UrlUnit(s[|s| - 1]);
  }

  /** Identifiers that passed the schema pass it again unchanged. */
  lemma ParsedStays(p: Payload, datetime: Str -> bool)
    requires ParsePayload(p, datetime).Some?
    ensures ParsePayload(ParsePayload(p, datetime).value, datetime) == ParsePayload(p, datetime)
  {
    var q := ParsePayload(p, datetime).value;
    TrimStays(q.id);
    TrimStays(q.chatId);
  }

  lemma ReadsBack(q: Payload, datetime: Str -> bool)
    requires ParsePayload(q, datetime) == Some(q)
    ensures ParseValuePayload(ToJson(q), datetime) == Some(q)
  {
    Lookups(q, ToJson(q).members);
    assert ScopeOf(ScopeText(q.scope)) == Some(q.scope);
  }

  lemma Lookups(q: Payload, m: Members)
    requires m == ToJson(q).members
    ensures Last(m, KEY_V) == Some(Num(ONE)) && Last(m, KEY_CREATED_AT) == Some(Text(q.createdAt))
    ensures Last(m, KEY_ID) == Some(Text(q.id)) && Last(m, KEY_CHAT_ID) == Some(Text(q.chatId))
    ensures Last(m, KEY_SCOPE) == Some(Text(ScopeText(q.scope)))
  {
    KeyLengths();
    FindsMember(KEY_SCOPE, Text(ScopeText(q.scope)), NoMembers);
    FindsMember(KEY_CHAT_ID, Text(q.chatId), FromScope(q));
    FindsMember(KEY_ID, Text(q.id), FromChat(q));
    FindsMember(KEY_CREATED_AT, Text(q.createdAt), FromId(q));
    FindsMember(KEY_V, Num(ONE), FromDate(q));
  }

  lemma KeyLengths()
    ensures |KEY_V| == 1 && |KEY_ID| == 2 && |KEY_SCOPE| == 5 && |KEY_CHAT_ID| == 6 && |KEY_CREATED_AT| == 9
  {
  }

  /** The keys of the payload have five different lengths. */
  lemma FindsMember(key: Str, value: Value, rest: Members)
    ensures Last(rest, key).None? ==> Last(Member(key, value, rest), key) == Some(value)
    ensures forall k :: |k| != |key| ==> Last(Member(key, value, rest), k) == Last(rest, k)
  {
    forall k | |k| != |key|
      ensures Last(Member(key, value, rest), k) == Last(rest, k)
    {
      assert k != key;
    }
  }

  /** What is assumed of the date check: an accepted date is made of printable characters without quotes. */
  ghost predicate PlainDates(datetime: Str -> bool) {
    forall s :: datetime(s) ==> Plain(s)
  }

  /**
    Every payload the encoder accepts comes back as the parsed payload, never as null, and its cursor is
    within the cap.
   */
  lemma CursorRoundTrip(p: Payload, datetime: Str -> bool)
    requires PlainDates(datetime) && ParsePayload(p, datetime).Some?
    ensures var q := ParsePayload(p, datetime).value;
      DecodeManagedPollListCursor(CursorText(q), datetime) == Some(q) && |CursorText(q)| <= 636
  {
    var q := ParsePayload(p, datetime).value;
    CheckedIsPlain(q, datetime);
    ParsedStays(p, datetime);
    TextComesBack(q);
    ReadsBack(q, datetime);
    TrimStays(CursorText(q));
  }

  lemma CheckedIsPlain(q: Payload, datetime: Str -> bool)
    requires PlainDates(datetime)
    requires datetime(q.createdAt) && Identifier(q.id, 128) && Identifier(q.chatId, 256)
    ensures Plain(q.createdAt) && Plain(q.id) && Plain(q.chatId)
  {
    assert forall i :: 0 <= i < |q.id| ==> UrlUnit(q.id[i]);
    assert forall i :: 0 <= i < |q.chatId| ==> UrlUnit(q.chatId[i]);
  }

  /** Whatever the decoder accepts has passed the schema, and encoding it again gives an equivalent cursor. */
  lemma DecodedEncodesAgain(value: Str, datetime: Str -> bool)
    requires PlainDates(datetime) && DecodeManagedPollListCursor(value, datetime).Some?
    ensures var q := DecodeManagedPollListCursor(value, datetime).value;
      ParsePayload(q, datetime) == Some(q) && DecodeManagedPollListCursor(CursorText(q), datetime) == Some(q)
  {
    var v := Parse(Utf8.Decode(Decode64(Trim(value)).value)).value;
    var q := DecodeManagedPollListCursor(value, datetime).value;
    CheckedOnce(v, datetime);
    CursorRoundTrip(q, datetime);
  }

  lemma CheckedOnce(v: Value, datetime: Str -> bool)
    requires ParseValuePayload(v, datetime).Some?
    ensures ParsePayload(ParseValuePayload(v, datetime).value, datetime) == ParseValuePayload(v, datetime)
  {
    var q := ParseValuePayload(v, datetime).value;
    TrimStays(q.id);
    TrimStays(q.chatId);
  }

  /** The text of a plain payload through every layer and back. */
  lemma TextComesBack(q: Payload)
    requires Plain(q.createdAt) && Plain(q.id) && Plain(q.chatId)
    requires |q.createdAt| <= 32 && |q.id| <= 128 && |q.chatId| <= 256
    ensures UrlText(CursorText(q)) && |CursorText(q)| <= 636
    ensures Decode64(CursorText(q)).Some?
    ensures Parse(Utf8.Decode(Decode64(CursorText(q)).value)) == Some(ToJson(q))
  {
    PayloadText(q);
    BytesComeBack(Stringify(ToJson(q)));
    PayloadIsJson(q);
    ParseInvertsStringify(ToJson(q));
  }

  lemma BytesComeBack(text: Str)
    requires AsciiText(text) && text != []
    ensures var s := Encode64(Utf8.Encode(text));
      && UrlText(s) && |s| == (4 * |text| + 2) / 3
      && Decode64(s).Some? && Utf8.Decode(Decode64(s).value) == text
  {
    AsciiBytes(text);
    Utf8.DecodeInvertsEncode(text);
    Base64RoundTrip(Utf8.Encode(text));
  }

  lemma PayloadIsJson(q: Payload)
    ensures IsJson(ToJson(q))
  {
    assert IsNumber(ONE) by {
      assert NumberUnit(ONE[0]);
    }
    assert MembersJson(FromScope(q));
    assert MembersJson(FromChat(q));
    assert MembersJson(FromId(q));
    assert FromDate(q).value == Text(q.createdAt) && FromDate(q).rest == FromId(q);
    assert MembersJson(FromDate(q));
  }
}
