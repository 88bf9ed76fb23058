/**
 * The part of JSON that the session record needs: objects whose members all
 * hold strings. `Stringify` writes such an object the way `JSON.stringify`
 * does: no whitespace, the quote and the backslash escaped, the control
 * characters below U+0020 written as `\b`, `\t`, `\n`, `\f`, `\r` or
 * `\u00xx`. `Parse` reads the texts of such objects that `JSON.parse`
 * accepts: whitespace between tokens, every escape of the grammar, and no
 * raw control character inside a string.
 */
module Json {
  import opened Wrappers

  /** A JSON object whose members all hold strings, in the order written. */
  type Object = seq<(string, string)>

  const Backspace: char := 8 as char
  const FormFeed: char := 12 as char

  /** The whitespace JSON allows between tokens. */
  predicate IsWhitespace(c: char)
  {
    c == ' ' || c == '\t' || c == '\n' || c == '\r'
  }

  /** `t` without its leading whitespace. */
  function SkipWhitespace(t: string): (r: string)
    ensures |r| <= |t|
    ensures r == [] || !IsWhitespace(r[0])
  {
    if t != [] && IsWhitespace(t[0]) then SkipWhitespace(t[1..]) else t
  }

  /** What is left after the whitespace is a suffix of the text. */
  lemma {:induction false} SkipWhitespaceIsSuffix(t: string)
    ensures SkipWhitespace(t) == t[|t| - |SkipWhitespace(t)|..]
  {
    if t != [] && IsWhitespace(t[0]) {
      SkipWhitespaceIsSuffix(t[1..]);
      var r := SkipWhitespace(t[1..]);
      assert t[1..][|t[1..]| - |r|..] == t[|t| - |r|..];
    }
  }

  /** A text that does not start with whitespace is left as it is. */
  lemma SkipNoWhitespace(t: string)
    requires t == [] || !IsWhitespace(t[0])
    ensures SkipWhitespace(t) == t
  {
  }

  /** A control character: one that may not appear unescaped in a string literal. */
  predicate IsControl(c: char)
  {
    (c as int) < 0x20
  }

  /** The characters a string literal must escape. */
  predicate NeedsEscape(c: char)
  {
    c == '"' || c == '\\' || IsControl(c)
  }

  /** The lower-case hexadecimal digit for `n`. */
  function HexDigit(n: int): char
    requires 0 <= n < 16
  {
    if n < 10 then (48 + n) as char else (87 + n) as char
  }

  /** The value of a hexadecimal digit of either case. */
  function HexValue(c: char): (r: Option<int>)
    ensures r.Some? ==> 0 <= r.value < 16
  {
    if '0' <= c <= '9' then Some(c as int - 48)
    else if 'a' <= c <= 'f' then Some(c as int - 87)
    else if 'A' <= c <= 'F' then Some(c as int - 55)
    else None
  }

  lemma HexValueOfHexDigit(n: int)
    requires 0 <= n < 16
    ensures HexValue(HexDigit(n)) == Some(n)
  {
  }

  /** The value of four hexadecimal digits. */
  function Hex4(h: string): (r: Option<int>)
    requires |h| == 4
    ensures r.Some? ==> 0 <= r.value < 0x1_0000
  {
    match (HexValue(h[0]), HexValue(h[1]), HexValue(h[2]), HexValue(h[3]))
    case (Some(a), Some(b), Some(c), Some(d)) => Some(((a * 16 + b) * 16 + c) * 16 + d)
    case _ => None
  }

  /** How `JSON.stringify` writes one character inside a string literal. */
  function EscapeChar(c: char): string
  {
    if c == '"' then "\\\""
    else if c == '\\' then "\\\\"
    else if c == Backspace then "\\b"
    else if c == '\t' then "\\t"
    else if c == '\n' then "\\n"
    else if c == FormFeed then "\\f"
    else if c == '\r' then "\\r"
    else if IsControl(c) then "\\u00" + [HexDigit(c as int / 16), HexDigit(c as int % 16)]
    else [c]
  }

  /** The string literal for `s` without its opening quote: the escaped characters, then the closing quote. */
  function LiteralTail(s: string): string
  {
    if s == [] then "\"" else EscapeChar(s[0]) + LiteralTail(s[1..])
  }

  /** The string literal for `s`. */
  function Literal(s: string): string
  {
    "\"" + LiteralTail(s)
  }

  /**
   * Reads what follows a backslash in a string literal, and returns the
   * character it denotes with the text after the escape. A `\u` escape of a
   * surrogate code unit is refused: pairs of them are not read.
   */
  function ParseEscape(t: string): (r: Option<(char, string)>)
    ensures r.Some? ==> |r.value.1| < |t|
  {
    if t == [] then None
    else if t[0] == '"' || t[0] == '\\' || t[0] == '/' then Some((t[0], t[1..]))
    else if t[0] == 'b' then Some((Backspace, t[1..]))
    else if t[0] == 't' then Some(('\t', t[1..]))
    else if t[0] == 'n' then Some(('\n', t[1..]))
    else if t[0] == 'f' then Some((FormFeed, t[1..]))
    else if t[0] == 'r' then Some(('\r', t[1..]))
    else if t[0] == 'u' && |t| >= 5 then
      match Hex4(t[1..5])
      case None => None
      case Some(v) => if v < 0xD800 || 0xE000 <= v then Some((v as char, t[5..])) else None
    else None
  }

  /**
   * Reads the body of a string literal up to and including its closing
   * quote, and returns the string it denotes with the text that follows.
   */
  function ParseBody(t: string): (r: Option<(string, string)>)
    ensures r.Some? ==> |r.value.1| < |t|
    decreases |t|
  {
    if t == [] then None
    else if t[0] == '"' then Some(([], t[1..]))
    else if t[0] == '\\' then
      match ParseEscape(t[1..])
      case None => None
      case Some((c, t1)) =>
        match ParseBody(t1)
        case None => None
        case Some((v, rest)) => Some(([c] + v, rest))
    else if IsControl(t[0]) then None
    else
      match ParseBody(t[1..])
      case None => None
      case Some((v, rest)) => Some(([t[0]] + v, rest))
  }

  /** Reads one string literal, after any whitespace, at the start of `t`. */
  function ParseLiteral(t: string): (r: Option<(string, string)>)
    ensures r.Some? ==> |r.value.1| < |t|
  {
    var u := SkipWhitespace(t);
    if u != [] && u[0] == '"' then ParseBody(u[1..]) else None
  }

  /** The text of one member, `"key":"value"`. */
  function Member(m: (string, string)): string
  {
    Literal(m.0) + ":" + Literal(m.1)
  }

  /** The members of `o`, each preceded by a comma, then the closing brace. */
  function Closing(o: Object): string
  {
    if o == [] then "}" else "," + (Member(o[0]) + Closing(o[1..]))
  }

  /** The JSON text of `o`, as `JSON.stringify` writes it. */
  function Stringify(o: Object): string
  {
    "{" + (if o == [] then "}" else Member(o[0]) + Closing(o[1..]))
  }

  /**
   * Reads one member, `"key" : "value"` with whitespace around its tokens,
   * and returns it with the text after it, its leading whitespace skipped.
   */
  function ParseMember(t: string): (r: Option<((string, string), string)>)
    ensures r.Some? ==> |r.value.1| < |t|
  {
    match ParseLiteral(t)
    case None => None
    case Some((k, t1)) =>
      var colon := SkipWhitespace(t1);
      if colon == [] || colon[0] != ':' then None
      else
        match ParseLiteral(colon[1..])
        case None => None
        case Some((v, t2)) => Some(((k, v), SkipWhitespace(t2)))
  }

  /**
   * Reads a non-empty list of members and the closing brace, and returns
   * the members with the text that follows the brace.
   */
  function ParseMembers(t: string): (r: Option<(Object, string)>)
    ensures r.Some? ==> |r.value.0| > 0 && |r.value.1| < |t|
    decreases |t|
  {
    match ParseMember(t)
    case None => None
    case Some((m, next)) =>
      if next == [] then None
      else if next[0] == '}' then Some(([m], next[1..]))
      else if next[0] == ',' then
        match ParseMembers(next[1..])
        case None => None
        case Some((o, rest)) => Some(([m] + o, rest))
      else None
  }

  /**
   * `JSON.parse` on a text that must be one object of string members, with
   * whitespace around its tokens. `None` stands for the SyntaxError
   * `JSON.parse` throws, and also for the valid JSON texts outside this
   * subset.
   */
  function Parse(t: string): (r: Option<Object>)
    ensures r.Some? ==> '{' in t
  {
    var u := SkipWhitespace(t);
    if u == [] || u[0] != '{' then None
    else
      SkipWhitespaceIsSuffix(t);
      assert t[|t| - |u|] == '{';
      var w := SkipWhitespace(u[1..]);
      if w != [] && w[0] == '}' then
        if SkipWhitespace(w[1..]) == [] then Some([]) else None
      else
        match ParseMembers(u[1..])
        case None => None
        case Some((o, rest)) => if SkipWhitespace(rest) == [] then Some(o) else None
  }

  /**
   * The value the object gives `key`: the last member with that key wins,
   * as with `JSON.parse`; `None` when no member has it (`undefined`).
   */
  function Lookup(o: Object, key: string): (r: Option<string>)
    ensures r.Some? <==> exists i :: 0 <= i < |o| && o[i].0 == key
    ensures r.Some? ==> exists i :: 0 <= i < |o| && o[i] == (key, r.value) &&
                                    forall j :: i < j < |o| ==> o[j].0 != key
  {
    if o == [] then None
    else
      match Lookup(o[1..], key)
      case Some(v) =>
        ghost var i :| 0 <= i < |o[1..]| && o[1..][i] == (key, v) &&
                       forall j :: i < j < |o[1..]| ==> o[1..][j].0 != key;
        assert o[i + 1] == (key, v);
        assert forall j :: i + 1 < j < |o| ==> o[j] == o[1..][j - 1];
        Some(v)
      case None =>
        assert forall j :: 0 < j < |o| ==> o[j] == o[1..][j - 1];
        if o[0].0 == key then Some(o[0].1) else None
  }

  /** A key held by exactly one member is looked up to that member's value. */
  lemma LookupUnique(o: Object, i: nat)
    requires i < |o|
    requires forall j :: 0 <= j < |o| && j != i ==> o[j].0 != o[i].0
    ensures Lookup(o, o[i].0) == Some(o[i].1)
  {
  }

  // ----- round trip -----

  /** What `EscapeChar` writes after the backslash reads back as the character. */
  lemma ParseEscapeOfEscapeChar(c: char, tail: string)
    requires NeedsEscape(c)
    ensures |EscapeChar(c)| >= 2 && EscapeChar(c)[0] == '\\'
    ensures ParseEscape(EscapeChar(c)[1..] + tail) == Some((c, tail))
  {
    var t := EscapeChar(c)[1..] + tail;
    if c == '"' || c == '\\' || c == Backspace || c == '\t' || c == '\n' || c == FormFeed || c == '\r' {
      assert t[1..] == tail;
    } else {
      var hi, lo := c as int / 16, c as int % 16;
      assert t == ['u', '0', '0', HexDigit(hi), HexDigit(lo)] + tail;
      assert t[1..5] == ['0', '0', HexDigit(hi), HexDigit(lo)];
      assert t[5..] == tail;
      HexValueOfHexDigit(hi);
      HexValueOfHexDigit(lo);
      assert Hex4(t[1..5]) == Some(c as int);
    }
  }

  /** One written character reads back in front of whatever its tail reads as. */
  lemma ParseBodyOfEscapeChar(c: char, tail: string)
    requires ParseBody(tail).Some?
    ensures ParseBody(EscapeChar(c) + tail) == Some(([c] + ParseBody(tail).value.0, ParseBody(tail).value.1))
  {
    var t := EscapeChar(c) + tail;
    if NeedsEscape(c) {
      ParseEscapeOfEscapeChar(c, tail);
      assert t[1..] == EscapeChar(c)[1..] + tail;
    } else {
      assert t[1..] == tail;
    }
  }

  lemma Regroup<T>(a: seq<T>, b: seq<T>, c: seq<T>)
    ensures a + b + c == a + (b + c)
  {
  }

  lemma HeadAndTail<T>(s: seq<T>)
    requires s != []
    ensures [s[0]] + s[1..] == s
  {
  }

  /** The escaped characters and the closing quote read back as the string, leaving what follows. */
  lemma {:induction false} ParseBodyOfLiteralTail(s: string, rest: string)
    ensures ParseBody(LiteralTail(s) + rest) == Some((s, rest))
  {
    if s == [] {
      assert ("\"" + rest)[1..] == rest;
    } else {
      var tail := LiteralTail(s[1..]) + rest;
      ParseBodyOfLiteralTail(s[1..], rest);
      Regroup(EscapeChar(s[0]), LiteralTail(s[1..]), rest);
      ParseBodyOfEscapeChar(s[0], tail);
      HeadAndTail(s);
    }
  }

  lemma ParseLiteralOfLiteral(s: string, rest: string)
    ensures ParseLiteral(Literal(s) + rest) == Some((s, rest))
  {
    var t := Literal(s) + rest;
    SkipNoWhitespace(t);
    Regroup("\"", LiteralTail(s), rest);
    assert t[1..] == LiteralTail(s) + rest;
    ParseBodyOfLiteralTail(s, rest);
  }

  /** A member is read back, leaving what follows it. */
  lemma ParseMemberOfMember(m: (string, string), after: string)
    requires after == [] || !IsWhitespace(after[0])
    ensures ParseMember(Member(m) + after) == Some((m, after))
  {
    var t1 := ":" + Literal(m.1) + after;
    Regroup(Literal(m.0) + ":", Literal(m.1), after);
    Regroup(Literal(m.0), ":", Literal(m.1) + after);
    Regroup(":", Literal(m.1), after);
    ParseLiteralOfLiteral(m.0, t1);
    SkipNoWhitespace(t1);
    assert t1[1..] == Literal(m.1) + after;
    ParseLiteralOfLiteral(m.1, after);
    SkipNoWhitespace(after);
  }

  /** How a member list that ends at a brace is read. */
  lemma ParseMembersAtBrace(t: string, m: (string, string), next: string)
    requires ParseMember(t) == Some((m, next)) && next != [] && next[0] == '}'
    ensures ParseMembers(t) == Some(([m], next[1..]))
  {
  }

  /** How a member list that goes on after a comma is read. */
  lemma ParseMembersAfterComma(t: string, m: (string, string), next: string)
    requires ParseMember(t) == Some((m, next)) && next != [] && next[0] == ','
    requires ParseMembers(next[1..]).Some?
    ensures ParseMembers(t) == Some(([m] + ParseMembers(next[1..]).value.0, ParseMembers(next[1..]).value.1))
  {
  }

  /** A member followed by the rest of an object's text reads back as the members and the brace. */
  lemma {:induction false} ParseMembersOfClosing(m: (string, string), o: Object)
    ensures ParseMembers(Member(m) + Closing(o)) == Some(([m] + o, []))
    decreases |o|
  {
    var t, next := Member(m) + Closing(o), Closing(o);
    ParseMemberOfMember(m, next);
    if o == [] {
      assert next == "}";
      ParseMembersAtBrace(t, m, next);
      assert [m] + o == [m];
    } else {
      ParseMembersOfClosing(o[0], o[1..]);
      assert next[1..] == Member(o[0]) + Closing(o[1..]);
      ParseMembersAfterComma(t, m, next);
      HeadAndTail(o);
    }
  }

  /** An object text that opens with a member list reads as that list. */
  lemma ParseOfMembersText(t: string, body: string, o: Object)
    requires t == "{" + body && body != [] && body[0] == '"'
    requires ParseMembers(body) == Some((o, []))
    ensures Parse(t) == Some(o)
  {
    SkipNoWhitespace(t);
    assert t[1..] == body;
    SkipNoWhitespace(body);
    SkipNoWhitespace([]);
  }

  /** Round trip: parsing the text `Stringify` writes gives back the object. */
  lemma ParseOfStringify(o: Object)
    ensures Parse(Stringify(o)) == Some(o)
  {
    var t := Stringify(o);
    if o == [] {
      assert t == "{}";
    } else {
      var body := Member(o[0]) + Closing(o[1..]);
      ParseMembersOfClosing(o[0], o[1..]);
      HeadAndTail(o);
      assert body[0] == '"';
      ParseOfMembersText(t, body, o);
    }
  }

  /**
   * A raw line feed inside a string literal is refused, and the `\n` escape
   * is read; whitespace before a token is skipped; a text that is not an
   * object is refused.
   */
  lemma ParseExamples()
    ensures ParseBody("\n\"") == None
    ensures ParseBody("\\n\"") == Some(("\n", ""))
    ensures SkipWhitespace(" \r\n\t{") == "{"
    ensures Parse("null") == None
  {
    var t := "\\n\"";
    assert t[1..] == "n\"";
    assert ParseEscape(t[1..]) == Some(('\n', "\""));
    assert "\""[1..] == "";
    assert ParseBody("\"") == Some(("", ""));
    assert ['\n'] + "" == "\n";
  }
}
