/**
  The preview scanner: any string in, and out comes text with entities and the bare tags of a fixed list.
  Strings are sequences of code points.
 */
module PreviewSanitizer {
  import opened Wrappers

  // ---- the two patterns ----

  const LONG_S := '\U{017F}'
  const KELVIN := '\U{212A}'

  /** White space, as patterns see it. */
  predicate Space(c: char) {
    '\U{0009}' <= c <= '\U{000D}' || c == ' ' || c == '\U{00A0}' || c == '\U{1680}' || '\U{2000}' <= c <= '\U{200A}'
    || c == '\U{2028}' || c == '\U{2029}' || c == '\U{202F}' || c == '\U{205F}' || c == '\U{3000}' || c == '\U{FEFF}'
  }

  function SkipSpaces(s: string): (r: string)
    ensures |r| <= |s|
    ensures r != "" ==> !Space(r[0])
  {
    if s != "" && Space(s[0]) then SkipSpaces(s[1..]) else s
  }

  predicate Digit(c: char) { '0' <= c <= '9' }

  /** Letters under Unicode case folding, which adds two characters to the Latin ones. */
  predicate TagLetter(c: char) { 'a' <= c <= 'z' || 'A' <= c <= 'Z' || c == LONG_S || c == KELVIN }

  function FoldChar(c: char): char {
    if 'A' <= c <= 'Z' then c + 32 as char
    else if c == LONG_S then 's'
    else if c == KELVIN then 'k'
    else c
  }

  function Fold(s: string): (r: string)
    ensures |r| == |s|
  {
    seq(|s|, i requires 0 <= i < |s| => FoldChar(s[i]))
  }

  /** Lower case leaves the long s alone. */
  function LowerChar(c: char): char {
    if c == LONG_S then c else FoldChar(c)
  }

  function Lower(s: string): (r: string)
    ensures |r| == |s|
  {
    seq(|s|, i requires 0 <= i < |s| => LowerChar(s[i]))
  }

  function NameRun(s: string): (n: nat)
    ensures n <= |s|
  {
    if s != "" && (TagLetter(s[0]) || Digit(s[0])) then 1 + NameRun(s[1..]) else 0
  }

  datatype Tag = Tag(closing: bool, name: string)

  /** A tag from its angle bracket to the next closing one. */
  function ParseTag(source: string): Option<Tag>
    requires |source| >= 2
  {
    var a := SkipSpaces(source[1..|source| - 1]);
    var closing := a != "" && a[0] == '/';
    var b := SkipSpaces(if closing then a[1..] else a);
    var n := NameRun(b);
    if n == 0 || !TagLetter(b[0]) then None
    else
      var rest := b[n..];
      if rest == "" || Space(rest[0]) || (rest[0] == '/' && SkipSpaces(rest[1..]) == "")
      then Some(Tag(closing, Lower(b[..n])))
      else None
  }

  function DigitRun(s: string): (n: nat)
    ensures n <= |s|
    ensures forall i :: 0 <= i < n ==> Digit(s[i])
  {
    if s != "" && Digit(s[0]) then 1 + DigitRun(s[1..]) else 0
  }

  predicate HexDigit(c: char) { Digit(c) || 'a' <= c <= 'f' || 'A' <= c <= 'F' }

  function HexRun(s: string): (n: nat)
    ensures n <= |s|
    ensures forall i :: 0 <= i < n ==> HexDigit(s[i])
  {
    if s != "" && HexDigit(s[0]) then 1 + HexRun(s[1..]) else 0
  }

  predicate Named(s: string, name: string) {
    |s| >= |name| + 2 && Fold(s[1..|name| + 1]) == name && s[|name| + 1] == ';'
  }

  predicate Numbered(s: string) {
    |s| >= 2 && s[1] == '#'
    && var n := DigitRun(s[2..]);
       1 <= n <= 7 && 2 + n < |s| && s[2 + n] == ';'
  }

  predicate HexNumbered(s: string) {
    |s| >= 3 && s[1] == '#' && (s[2] == 'x' || s[2] == 'X')
    && var n := HexRun(s[3..]);
       1 <= n <= 6 && 3 + n < |s| && s[3 + n] == ';'
  }

  /** An allowed character reference begins here. */
  predicate EntityAt(s: string) {
    s != "" && s[0] == '&'
    && (Named(s, "amp") || Named(s, "lt") || Named(s, "gt") || Named(s, "quot") || Named(s, "apos")
        || Numbered(s) || HexNumbered(s))
  }

  // ---- text ----

  function EscapeAmps(s: string): string {
    if s == "" then ""
    else if s[0] == '&' && !EntityAt(s) then "&amp;" + EscapeAmps(s[1..])
    else [s[0]] + EscapeAmps(s[1..])
  }

  function ReplaceAll(s: string, c: char, repl: string): string {
    if s == "" then "" else (if s[0] == c then repl else [s[0]]) + ReplaceAll(s[1..], c, repl)
  }

  function EscapeText(s: string): string {
    ReplaceAll(ReplaceAll(EscapeAmps(s), '<', "&lt;"), '>', "&gt;")
  }

  // ---- the scanner ----

  predicate Allowed(name: string) {
    name == "p" || name == "br" || name == "strong" || name == "em" || name == "u" || name == "s"
    || name == "code" || name == "pre"
  }

  predicate Blocked(name: string) {
    name == "script" || name == "style" || name == "iframe" || name == "object" || name == "embed"
    || name == "svg" || name == "math" || name == "template" || name == "form" || name == "textarea"
    || name == "title" || name == "noscript"
  }

  function IndexOf(s: string, c: char): (i: int)
    ensures -1 <= i < |s|
    ensures i >= 0 ==> s[i] == c
  {
    if s == "" then -1
    else if s[0] == c then 0
    else
      var i := IndexOf(s[1..], c);
      if i < 0 then -1 else i + 1
  }

  lemma {:induction false} IndexOfIsFirst(s: string, c: char)
    ensures var i := IndexOf(s, c); forall k :: 0 <= k < (if i < 0 then |s| else i) ==> s[k] != c
  {
    if s != "" && s[0] != c {
      IndexOfIsFirst(s[1..], c);
      forall k | 1 <= k < (if IndexOf(s, c) < 0 then |s| else IndexOf(s, c))
        ensures s[k] != c
      {
        assert s[k] == s[1..][k - 1];
      }
    }
  }

  function Find(s: string, text: string): (i: int)
    requires text != ""
    ensures i >= 0 ==> i + |text| <= |s|
  {
    if |s| < |text| then -1
    else if text <= s then 0
    else
      var i := Find(s[1..], text);
      if i < 0 then -1 else i + 1
  }

  /** The length of a closing tag of `name` that begins here, or nothing. */
  function CloseLength(s: string, name: string): (n: nat)
    ensures n <= |s|
  {
    if s == "" || s[0] != '<' then 0
    else
      var a := SkipSpaces(s[1..]);
      if a == "" || a[0] != '/' then 0
      else
        var b := SkipSpaces(a[1..]);
        if |b| < |name| || Fold(b[..|name|]) != name then 0
        else
          var c := SkipSpaces(b[|name|..]);
          if c != "" && c[0] == '>' then |s| - |c| + 1 else 0
  }

  /** What follows the first closing tag of a blocked element; without one, nothing is left. */
  function AfterBlocked(s: string, name: string): (r: string)
    ensures |r| <= |s| && r == s[|s| - |r|..]
  {
    if s == "" then ""
    else if CloseLength(s, name) > 0 then s[CloseLength(s, name)..]
    else AfterBlocked(s[1..], name)
  }

  function Emit(tag: Tag): string {
    if !Allowed(tag.name) then ""
    else if tag.name == "br" then "<br>"
    else if tag.closing then "</" + tag.name + ">"
    else "<" + tag.name + ">"
  }

  function Sanitize(s: string): string
    decreases |s|, 1
  {
    var i := IndexOf(s, '<');
    if i < 0 then EscapeText(s) else EscapeText(s[..i]) + SanitizeTag(s[i..])
  }

  function SanitizeTag(t: string): string
    requires t != "" && t[0] == '<'
    decreases |t|, 0
  {
    Consume(t).0 + Sanitize(Consume(t).1)
  }

  /** One comment, blocked element, tag or bracketed text: what it leaves, and what follows it. */
  function Consume(t: string): (r: (string, string))
    requires t != "" && t[0] == '<'
    ensures |r.1| < |t|
  {
    if "<!--" <= t then ("", AfterComment(t[4..])) else ConsumeBracket(t)
  }

  function ConsumeBracket(t: string): (r: (string, string))
    requires t != "" && t[0] == '<'
    ensures |r.1| < |t|
  {
    var j := IndexOf(t, '>');
    if j < 0 then (EscapeText(t), "") else ConsumeTag(t[..j + 1], t[j + 1..])
  }

  /** An unclosed comment takes everything with it. */
  function AfterComment(s: string): (r: string)
    ensures |r| <= |s|
  {
    var e := Find(s, "-->");
    if e < 0 then "" else s[e + 3..]
  }

  function ConsumeTag(source: string, rest: string): (r: (string, string))
    requires |source| >= 2
    ensures |r.1| <= |rest|
  {
    var tag := ParseTag(source);
    if tag.None? then (EscapeText(source), rest)
    else if !tag.value.closing && Blocked(tag.value.name) then ("", AfterBlocked(rest, tag.value.name))
    else (Emit(tag.value), rest)
  }

  function SkipBlockedElement(value: string, cursor: nat, name: string): (r: nat)
    requires cursor <= |value|
    ensures cursor <= r <= |value| && value[r..] == AfterBlocked(value[cursor..], name)
  {
    |value| - |AfterBlocked(value[cursor..], name)|
  }

  method ScanTag(value: string, tagStart: nat) returns (text: string, cursor: nat)
    requires tagStart < |value| && value[tagStart] == '<'
    ensures tagStart < cursor <= |value|
    ensures (text, value[cursor..]) == Consume(value[tagStart..])
  {
    var t := value[tagStart..];
    if "<!--" <= t {
      Suffix(value, tagStart, 4);
      cursor := SkipComment(value, tagStart);
      return "", cursor;
    }
    text, cursor := ScanBracket(t);
    Suffix(value, tagStart, cursor);
    cursor := tagStart + cursor;
  }

  /** On the text from the bracket on; `used` is how much of it is done. */
  method ScanBracket(t: string) returns (text: string, used: nat)
    requires t != "" && t[0] == '<'
    ensures 0 < used <= |t|
    ensures (text, t[used..]) == ConsumeBracket(t)
  {
    var j := IndexOf(t, '>');
    if j < 0 {
      assert t[|t|..] == "";
      return EscapeText(t), |t|;
    }
    text, used := ScanElement(t[..j + 1], t[j + 1..]);
    Suffix(t, j + 1, used);
    used := j + 1 + used;
  }

  lemma Suffix(value: string, i: nat, k: nat)
    requires i + k <= |value|
    ensures value[i..][k..] == value[i + k..]
  {
  }

  method SkipComment(value: string, tagStart: nat) returns (cursor: nat)
    requires tagStart + 4 <= |value|
    ensures tagStart < cursor <= |value|
    ensures value[cursor..] == AfterComment(value[tagStart + 4..])
  {
    var commentEnd := Find(value[tagStart + 4..], "-->");
    if commentEnd < 0 {
      assert value[|value|..] == "";
      return |value|;
    }
    Suffix(value, tagStart + 4, commentEnd + 3);
    return tagStart + 4 + commentEnd + 3;
  }

  method ScanElement(source: string, rest: string) returns (text: string, used: nat)
    requires |source| >= 2
    ensures used <= |rest|
    ensures (text, rest[used..]) == ConsumeTag(source, rest)
  {
    var tag := ParseTag(source);
    assert rest[0..] == rest;
    if tag.None? {
      return EscapeText(source), 0;
    }
    if !tag.value.closing && Blocked(tag.value.name) {
      used := SkipBlockedElement(rest, 0, tag.value.name);
      return "", used;
    }
    return Emit(tag.value), 0;
  }

  lemma Pieces(a: string, b: string, c: string, d: string)
    ensures a + (b + (c + d)) == a + b + c + d
  {
  }

  method SanitizeSafetyDeskPreviewHtml(value: string) returns (result: string)
    ensures result == Sanitize(value)
  {
    result := "";
    var cursor := 0;
    assert value[0..] == value;
    while cursor < |value|
      invariant 0 <= cursor <= |value|
      invariant result + Sanitize(value[cursor..]) == Sanitize(value)
      decreases |value| - cursor
    {
      var i := IndexOf(value[cursor..], '<');
      if i < 0 {
        return result + EscapeText(value[cursor..]);
      }
      var tagStart := cursor + i;
      assert value[cursor..][..i] == value[cursor..tagStart] && value[cursor..][i..] == value[tagStart..];
      ghost var was := result;
      var text;
      result := result + EscapeText(value[cursor..tagStart]);
      text, cursor := ScanTag(value, tagStart);
      Pieces(was, EscapeText(value[tagStart - i..tagStart]), text, Sanitize(value[cursor..]));
      result := result + text;
    }
    assert value[cursor..] == "";
  }

  // ---- the output grammar ----

  predicate IsBareTag(t: string) {
    |t| >= 3 && t[0] == '<' && t[|t| - 1] == '>'
    && if t[1] == '/' then Allowed(t[2..|t| - 1]) && t[2..|t| - 1] != "br" else Allowed(t[1..|t| - 1])
  }

  /** Brackets only in bare allowed tags, ampersands only in allowed references. */
  predicate InGrammar(s: string) {
    s == ""
    || (if s[0] == '<' then
          var j := IndexOf(s, '>');
          j >= 0 && IsBareTag(s[..j + 1]) && InGrammar(s[j + 1..])
        else s[0] != '>' && (s[0] == '&' ==> EntityAt(s)) && InGrammar(s[1..]))
  }

  // ---- escaped text is in the grammar ----

  function EscapedHead(s: string): string
    requires s != ""
  {
    if s[0] == '&' then if EntityAt(s) then "&" else "&amp;"
    else if s[0] == '<' then "&lt;"
    else if s[0] == '>' then "&gt;"
    else [s[0]]
  }

  /** The three replacements in one pass. */
  function Escaped(s: string): string {
    if s == "" then "" else EscapedHead(s) + Escaped(s[1..])
  }

  lemma {:induction false} ReplaceConcat(a: string, b: string, c: char, repl: string)
    ensures ReplaceAll(a + b, c, repl) == ReplaceAll(a, c, repl) + ReplaceAll(b, c, repl)
  {
    if a == "" {
      assert a + b == b;
    } else {
      assert (a + b)[1..] == a[1..] + b;
      ReplaceConcat(a[1..], b, c, repl);
    }
  }

  lemma {:induction false} ReplaceAbsent(a: string, c: char, repl: string)
    requires forall i :: 0 <= i < |a| ==> a[i] != c
    ensures ReplaceAll(a, c, repl) == a
  {
    if a != "" {
      ReplaceAbsent(a[1..], c, repl);
      assert a == [a[0]] + a[1..];
    }
  }

  lemma ReplaceOne(c: char, d: char, repl: string)
    ensures ReplaceAll([c], d, repl) == if c == d then repl else [c]
  {
    assert [c][1..] == "";
    assert repl + "" == repl && [c] + "" == [c];
  }

  lemma {:induction false} EscapeIsOnePass(s: string)
    ensures EscapeText(s) == Escaped(s)
  {
    if s != "" {
      EscapeIsOnePass(s[1..]);
      var head := if s[0] == '&' && !EntityAt(s) then "&amp;" else [s[0]];
      var tail := EscapeAmps(s[1..]);
      assert EscapeAmps(s) == head + tail;
      ReplaceConcat(head, tail, '<', "&lt;");
      var middle := ReplaceAll(head, '<', "&lt;");
      ReplaceConcat(middle, ReplaceAll(tail, '<', "&lt;"), '>', "&gt;");
      HeadEscaped(s, head);
    }
  }

  lemma HeadEscaped(s: string, head: string)
    requires s != "" && head == if s[0] == '&' && !EntityAt(s) then "&amp;" else [s[0]]
    ensures ReplaceAll(ReplaceAll(head, '<', "&lt;"), '>', "&gt;") == EscapedHead(s)
  {
    if s[0] == '&' && !EntityAt(s) {
      ReplaceAbsent("&amp;", '<', "&lt;");
      ReplaceAbsent("&amp;", '>', "&gt;");
    } else {
      ReplaceOne(s[0], '<', "&lt;");
      if s[0] == '<' {
        ReplaceAbsent("&lt;", '>', "&gt;");
      } else {
        ReplaceOne(s[0], '>', "&gt;");
      }
    }
  }

  /** Characters that are written as they are. */
  predicate Ordinary(c: char) { c != '&' && c != '<' && c != '>' }

  /** A reference ends within its first `n` characters, and none after the first needs escaping. */
  ghost predicate EntitySpan(s: string, n: nat) {
    && 2 <= n <= |s|
    && (forall i :: 1 <= i < n ==> Ordinary(s[i]))
    && (forall x: string :: EntityAt(s[..n] + x))
  }

  lemma {:induction false} DigitRunStops(s: string, n: nat)
    requires n < |s| && !Digit(s[n]) && forall i :: 0 <= i < n ==> Digit(s[i])
    ensures DigitRun(s) == n
  {
    if n > 0 {
      DigitRunStops(s[1..], n - 1);
    }
  }

  lemma {:induction false} HexRunStops(s: string, n: nat)
    requires n < |s| && !HexDigit(s[n]) && forall i :: 0 <= i < n ==> HexDigit(s[i])
    ensures HexRun(s) == n
  {
    if n > 0 {
      HexRunStops(s[1..], n - 1);
    }
  }

  predicate Letters(name: string) { forall i :: 0 <= i < |name| ==> 'a' <= name[i] <= 'z' }

  lemma NamedStays(s: string, name: string, x: string)
    requires Named(s, name)
    ensures Named(s[..|name| + 2] + x, name)
  {
    var t := s[..|name| + 2] + x;
    assert t[1..|name| + 1] == s[1..|name| + 1];
  }

  lemma NamedOrdinary(s: string, name: string)
    requires Named(s, name) && Letters(name)
    ensures forall i :: 1 <= i < |name| + 2 ==> Ordinary(s[i])
  {
    forall i | 1 <= i < |name| + 1
      ensures Ordinary(s[i])
    {
      assert Fold(s[1..|name| + 1])[i - 1] == FoldChar(s[i]) == name[i - 1];
    }
  }

  lemma NumberedStays(s: string, x: string)
    requires Numbered(s)
    ensures var n := DigitRun(s[2..]); Numbered(s[..3 + n] + x)
    ensures var n := DigitRun(s[2..]); forall i :: 1 <= i < 3 + n ==> Ordinary(s[i])
  {
    var n := DigitRun(s[2..]);
    var t := s[..3 + n] + x;
    assert forall i :: 0 <= i < n ==> t[2..][i] == s[2..][i];
    DigitRunStops(t[2..], n);
    forall i | 2 <= i < 2 + n
      ensures Ordinary(s[i])
    {
      assert Digit(s[2..][i - 2]);
    }
  }

  lemma HexNumberedStays(s: string, x: string)
    requires HexNumbered(s)
    ensures var n := HexRun(s[3..]); HexNumbered(s[..4 + n] + x)
    ensures var n := HexRun(s[3..]); forall i :: 1 <= i < 4 + n ==> Ordinary(s[i])
  {
    var n := HexRun(s[3..]);
    var t := s[..4 + n] + x;
    assert forall i :: 0 <= i < n ==> t[3..][i] == s[3..][i];
    HexRunStops(t[3..], n);
    forall i | 3 <= i < 3 + n
      ensures Ordinary(s[i])
    {
      assert HexDigit(s[3..][i - 3]);
    }
  }

  lemma NamedSpan(s: string, name: string)
    requires s != "" && s[0] == '&' && Named(s, name)
    requires name == "amp" || name == "lt" || name == "gt" || name == "quot" || name == "apos"
    ensures EntitySpan(s, |name| + 2)
  {
    NamedOrdinary(s, name);
    var n := |name| + 2;
    forall x: string
      ensures EntityAt(s[..n] + x)
    {
      NamedStays(s, name, x);
    }
  }

  lemma EntityHasSpan(s: string) returns (n: nat)
    requires EntityAt(s)
    ensures EntitySpan(s, n)
  {
    if Named(s, "amp") {
      NamedSpan(s, "amp");
      n := 5;
    } else if Named(s, "lt") {
      NamedSpan(s, "lt");
      n := 4;
    } else if Named(s, "gt") {
      NamedSpan(s, "gt");
      n := 4;
    } else if Named(s, "quot") {
      NamedSpan(s, "quot");
      n := 6;
    } else if Named(s, "apos") {
      NamedSpan(s, "apos");
      n := 6;
    } else if Numbered(s) {
      n := 3 + DigitRun(s[2..]);
      forall x: string
        ensures EntityAt(s[..n] + x)
      {
        NumberedStays(s, x);
      }
      NumberedStays(s, "");
    } else {
      n := 4 + HexRun(s[3..]);
      forall x: string
        ensures EntityAt(s[..n] + x)
      {
        HexNumberedStays(s, x);
      }
      HexNumberedStays(s, "");
    }
  }

  lemma {:induction false} CopiesOrdinary(s: string, n: nat)
    requires n <= |s| && forall i :: 0 <= i < n ==> Ordinary(s[i])
    ensures Escaped(s) == s[..n] + Escaped(s[n..])
  {
    if n == 0 {
      assert s[0..] == s && s[..0] == "";
    } else {
      CopiesOrdinary(s, n - 1);
      assert s[..n] == s[..n - 1] + [s[n - 1]];
      assert s[n - 1..][1..] == s[n..];
      Pieces([], s[..n - 1], [s[n - 1]], Escaped(s[n..]));
      assert Escaped(s[n - 1..]) == [s[n - 1]] + Escaped(s[n..]);
    }
  }

  lemma Prefixed(s: string, n: nat, whole: string, tail: string)
    requires 1 <= n <= |s| && s[0] == '&' && whole == s[1..][..n - 1] + tail
    ensures "&" + whole == s[..n] + tail
  {
    assert s[..n] == "&" + s[1..][..n - 1];
  }

  /** An allowed reference is still one after the text behind it has been escaped. */
  lemma EntitySurvives(s: string)
    requires EntityAt(s)
    ensures EntityAt("&" + Escaped(s[1..]))
  {
    var n := EntityHasSpan(s);
    assert forall i :: 0 <= i < n - 1 ==> Ordinary(s[1..][i]);
    CopiesOrdinary(s[1..], n - 1);
    var tail := Escaped(s[1..][n - 1..]);
    assert EntityAt(s[..n] + tail);
    Prefixed(s, n, Escaped(s[1..]), tail);
  }

  lemma {:induction false} OrdinaryThen(a: string, b: string)
    requires InGrammar(b) && forall i :: 0 <= i < |a| ==> Ordinary(a[i])
    ensures InGrammar(a + b)
  {
    if a == "" {
      assert a + b == b;
    } else {
      OrdinaryThen(a[1..], b);
      assert (a + b)[1..] == a[1..] + b;
    }
  }

  /** One of the three references the escape writes, in front of text in the grammar. */
  lemma WrittenThen(name: string, b: string)
    requires InGrammar(b) && (name == "amp" || name == "lt" || name == "gt")
    ensures InGrammar("&" + name + ";" + b)
  {
    var s := "&" + name + ";" + b;
    OrdinaryThen(name + ";", b);
    assert s[1..] == name + ";" + b;
    assert s[1..|name| + 1] == name;
    assert Fold(name) == name;
    assert Named(s, name);
  }

  lemma {:induction false} EscapedInGrammar(s: string)
    ensures InGrammar(Escaped(s))
  {
    if s != "" {
      EscapedInGrammar(s[1..]);
      var tail := Escaped(s[1..]);
      if s[0] == '&' {
        if EntityAt(s) {
          EntitySurvives(s);
          assert ("&" + tail)[1..] == tail;
        } else {
          WrittenThen("amp", tail);
          assert "&" + "amp" + ";" == "&amp;";
        }
      } else if s[0] == '<' {
        WrittenThen("lt", tail);
        assert "&" + "lt" + ";" == "&lt;";
      } else if s[0] == '>' {
        WrittenThen("gt", tail);
        assert "&" + "gt" + ";" == "&gt;";
      } else {
        OrdinaryThen([s[0]], tail);
      }
    }
  }

  // ---- the output is in the grammar ----

  lemma IndexIs(s: string, c: char, j: nat)
    requires j < |s| && s[j] == c && forall k :: 0 <= k < j ==> s[k] != c
    ensures IndexOf(s, c) == j
  {
    IndexOfIsFirst(s, c);
  }

  lemma EntityThen(a: string, b: string)
    requires EntityAt(a)
    ensures EntityAt(a + b)
  {
    var n := EntityHasSpan(a);
    assert a == a[..n] + a[n..];
    assert a + b == a[..n] + (a[n..] + b);
  }

  lemma BareThen(a: string, b: string, j: nat)
    requires a != "" && a[0] == '<' && IndexOf(a, '>') == j && IsBareTag(a[..j + 1]) && InGrammar(a[j + 1..] + b)
    ensures InGrammar(a + b)
  {
    var s := a + b;
    IndexOfIsFirst(a, '>');
    IndexIs(s, '>', j);
    assert s[..j + 1] == a[..j + 1];
    assert s[j + 1..] == a[j + 1..] + b;
  }

  lemma CharThen(a: string, b: string)
    requires a != "" && a[0] != '<' && InGrammar(a) && InGrammar(a[1..] + b)
    ensures InGrammar(a + b)
  {
    assert (a + b)[1..] == a[1..] + b;
    if a[0] == '&' {
      EntityThen(a, b);
    }
  }

  lemma {:induction false} GrammarConcat(a: string, b: string)
    requires InGrammar(a) && InGrammar(b)
    ensures InGrammar(a + b)
    decreases |a|
  {
    if a == "" {
      assert a + b == b;
    } else if a[0] == '<' {
      var j := IndexOf(a, '>');
      GrammarConcat(a[j + 1..], b);
      BareThen(a, b, j);
    } else {
      GrammarConcat(a[1..], b);
      CharThen(a, b);
    }
  }

  lemma AllowedIsLetters(name: string)
    requires Allowed(name)
    ensures Letters(name) && name != "" && !Blocked(name)
  {
  }

  lemma EmitInGrammar(tag: Tag)
    ensures InGrammar(Emit(tag))
  {
    if Allowed(tag.name) {
      AllowedIsLetters(tag.name);
      var t := Emit(tag);
      assert tag.name == "br" ==> t[1..|t| - 1] == "br";
      assert tag.name != "br" && tag.closing ==> t[2..|t| - 1] == tag.name;
      assert tag.name != "br" && !tag.closing ==> t[1..|t| - 1] == tag.name;
      assert IsBareTag(t);
      IndexIs(t, '>', |t| - 1);
      assert t[..|t|] == t && t[|t|..] == "";
    }
  }

  lemma TextInGrammar(s: string)
    ensures InGrammar(EscapeText(s))
  {
    EscapeIsOnePass(s);
    EscapedInGrammar(s);
  }

  lemma ConsumedInGrammar(t: string)
    requires t != "" && t[0] == '<'
    ensures InGrammar(Consume(t).0)
  {
    if !("<!--" <= t) {
      TextInGrammar(t);
      var j := IndexOf(t, '>');
      if j >= 0 {
        TextInGrammar(t[..j + 1]);
        var tag := ParseTag(t[..j + 1]);
        if tag.Some? {
          EmitInGrammar(tag.value);
        }
      }
    }
  }

  /** Whatever goes in, only grammar comes out. */
  lemma {:induction false} OutputInGrammar(s: string)
    ensures InGrammar(Sanitize(s))
    decreases |s|
  {
    var i := IndexOf(s, '<');
    if i < 0 {
      TextInGrammar(s);
    } else {
      var t := s[i..];
      TextInGrammar(s[..i]);
      ConsumedInGrammar(t);
      OutputInGrammar(Consume(t).1);
      GrammarConcat(Consume(t).0, Sanitize(Consume(t).1));
      GrammarConcat(EscapeText(s[..i]), SanitizeTag(t));
    }
  }

  // ---- text in the grammar is left alone ----

  lemma {:induction false} TextStays(s: string)
    requires InGrammar(s) && forall i :: 0 <= i < |s| ==> s[i] != '<'
    ensures Escaped(s) == s
  {
    if s != "" {
      TextStays(s[1..]);
      assert s == [s[0]] + s[1..];
    }
  }

  lemma EntityWithin(s: string, i: nat)
    requires EntityAt(s) && i <= |s| && i > 0 && (i < |s| ==> s[i] == '<')
    ensures EntityAt(s[..i])
  {
    var n := EntityHasSpan(s);
    assert n <= i;
    assert s[..i] == s[..n] + s[n..i];
  }

  /** Text in the grammar splits before a tag. */
  lemma {:induction false} SplitsAtTag(s: string, i: nat)
    requires InGrammar(s) && i <= |s| && (i < |s| ==> s[i] == '<') && forall k :: 0 <= k < i ==> s[k] != '<'
    ensures InGrammar(s[..i]) && InGrammar(s[i..])
  {
    if i == 0 {
      assert s[..0] == "" && s[0..] == s;
    } else {
      SplitsAtTag(s[1..], i - 1);
      assert s[..i][1..] == s[1..][..i - 1] && s[i..] == s[1..][i - 1..];
      if s[0] == '&' {
        EntityWithin(s, i);
      }
    }
  }

  lemma {:induction false} NameRunAll(name: string)
    requires Letters(name)
    ensures NameRun(name) == |name|
  {
    if name != "" {
      NameRunAll(name[1..]);
    }
  }

  lemma ReadsOpening(name: string)
    requires name != "" && Letters(name)
    ensures ParseTag("<" + name + ">") == Some(Tag(false, name))
  {
    var t := "<" + name + ">";
    assert t[1..|t| - 1] == name;
    assert SkipSpaces(name) == name;
    NameRunAll(name);
    assert name[..|name|] == name && name[|name|..] == "";
    assert Lower(name) == name;
  }

  lemma ReadsClosing(name: string)
    requires name != "" && Letters(name)
    ensures ParseTag("</" + name + ">") == Some(Tag(true, name))
  {
    var t := "</" + name + ">";
    var inner := t[1..|t| - 1];
    assert inner == "/" + name && inner[1..] == name;
    assert SkipSpaces(inner) == inner && SkipSpaces(name) == name;
    NameRunAll(name);
    assert name[..|name|] == name && name[|name|..] == "";
    assert Lower(name) == name;
  }

  predicate ReadAsItself(t: string)
    requires |t| >= 2
  {
    var tag := ParseTag(t);
    tag.Some? && Allowed(tag.value.name) && !Blocked(tag.value.name) && Emit(tag.value) == t
  }

  lemma OpeningReadAsItself(name: string)
    requires Allowed(name)
    ensures ReadAsItself("<" + name + ">")
  {
    AllowedIsLetters(name);
    ReadsOpening(name);
  }

  lemma ClosingReadAsItself(name: string)
    requires Allowed(name) && name != "br"
    ensures ReadAsItself("</" + name + ">")
  {
    AllowedIsLetters(name);
    ReadsClosing(name);
  }

  /** A bare tag is read as itself and written as itself. */
  lemma ParseBare(t: string)
    requires IsBareTag(t)
    ensures ReadAsItself(t)
  {
    if t[1] == '/' {
      assert t == "</" + t[2..|t| - 1] + ">";
      ClosingReadAsItself(t[2..|t| - 1]);
    } else {
      assert t == "<" + t[1..|t| - 1] + ">";
      OpeningReadAsItself(t[1..|t| - 1]);
    }
  }

  lemma BareIsNoComment(tag: string)
    requires IsBareTag(tag)
    ensures tag[1] != '!'
  {
    AllowedIsLetters(if tag[1] == '/' then tag[2..|tag| - 1] else tag[1..|tag| - 1]);
  }

  lemma TagStays(t: string)
    requires t != "" && t[0] == '<' && InGrammar(t)
    ensures var j := IndexOf(t, '>');
      j >= 0 && InGrammar(t[j + 1..]) && Consume(t) == (t[..j + 1], t[j + 1..])
  {
    var j := IndexOf(t, '>');
    ParseBare(t[..j + 1]);
    assert ConsumeTag(t[..j + 1], t[j + 1..]) == (t[..j + 1], t[j + 1..]);
    BareIsNoComment(t[..j + 1]);
    assert t[1] != '!';
    assert !("<!--" <= t);
  }

  lemma Rejoins(s: string, i: nat, j: nat)
    requires i + j < |s|
    ensures s == s[..i] + (s[i..][..j + 1] + s[i..][j + 1..])
  {
  }

  lemma SanitizeUnfolds(s: string, i: nat, text: string, rest: string)
    requires IndexOf(s, '<') == i && Consume(s[i..]) == (text, rest)
    ensures Sanitize(s) == EscapeText(s[..i]) + (text + Sanitize(rest))
  {
    assert SanitizeTag(s[i..]) == text + Sanitize(rest);
  }

  /** Text up to the first bracket, the tag there, and the rest, which is again in the grammar. */
  lemma GrammarParts(s: string, i: nat) returns (j: nat)
    requires InGrammar(s) && IndexOf(s, '<') == i
    ensures i + j < |s| && EscapeText(s[..i]) == s[..i] && InGrammar(s[i..][j + 1..])
    ensures Consume(s[i..]) == (s[i..][..j + 1], s[i..][j + 1..])
  {
    IndexOfIsFirst(s, '<');
    SplitsAtTag(s, i);
    EscapeIsOnePass(s[..i]);
    TextStays(s[..i]);
    TagStays(s[i..]);
    j := IndexOf(s[i..], '>');
  }

  lemma PartsStay(s: string, i: nat, tag: string, rest: string)
    requires IndexOf(s, '<') == i && Consume(s[i..]) == (tag, rest)
    requires EscapeText(s[..i]) == s[..i] && Sanitize(rest) == rest && s == s[..i] + (tag + rest)
    ensures Sanitize(s) == s
  {
    SanitizeUnfolds(s, i, tag, rest);
  }

  lemma {:induction false} GrammarStays(s: string)
    requires InGrammar(s)
    ensures Sanitize(s) == s
    decreases |s|
  {
    var i := IndexOf(s, '<');
    if i < 0 {
      IndexOfIsFirst(s, '<');
      EscapeIsOnePass(s);
      TextStays(s);
    } else {
      var j := GrammarParts(s, i);
      GrammarStays(s[i..][j + 1..]);
      Rejoins(s, i, j);
      PartsStay(s, i, s[i..][..j + 1], s[i..][j + 1..]);
    }
  }

  /** The scanner changes nothing exactly when its input is already in the output grammar. */
  lemma UnchangedIffInGrammar(s: string)
    ensures Sanitize(s) == s <==> InGrammar(s)
  {
    OutputInGrammar(s);
    if InGrammar(s) {
      GrammarStays(s);
    }
  }

  /** Sanitizing twice is sanitizing once. */
  lemma SanitizeIsIdempotent(s: string)
    ensures Sanitize(Sanitize(s)) == Sanitize(s)
  {
    OutputInGrammar(s);
    GrammarStays(Sanitize(s));
  }
}
