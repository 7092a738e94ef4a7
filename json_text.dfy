/**
 * JSON text for string-to-string objects: the serialisation `JSON.stringify` produces
 * (ECMAScript's QuoteJSONString, section 25.5.2.2 of ECMA-262) and a parser for that
 * compact form (RFC 8259 string and object syntax without insignificant whitespace).
 */
module JsonText {
  import opened Wrappers

  /**
   * An object as a sequence of members, in insertion order. JavaScript lists
   * integer-like keys first, in ascending order; that order is not modelled.
   */
  type Pairs = seq<(string, string)>

  function HexDigit(n: int): (c: char)
    requires 0 <= n < 16
    ensures '0' <= c <= '9' || 'a' <= c <= 'f'
  {
    if n < 10 then ('0' as int + n) as char else ('a' as int + n - 10) as char
  }

  /** A hexadecimal digit in either case, as RFC 8259 allows in `\u` escapes. */
  function HexValue(c: char): (r: Option<int>)
    ensures r.Some? ==> 0 <= r.value < 16
    ensures r.Some? <==> ('0' <= c <= '9' || 'a' <= c <= 'f' || 'A' <= c <= 'F')
  {
    if '0' <= c <= '9' then Some(c as int - '0' as int)
    else if 'a' <= c <= 'f' then Some(c as int - 'a' as int + 10)
    else if 'A' <= c <= 'F' then Some(c as int - 'A' as int + 10)
    else None
  }

  lemma HexRoundTrip(n: int)
    requires 0 <= n < 16
    ensures HexValue(HexDigit(n)) == Some(n)
  {
  }

  const Backspace: char := 8 as char
  const FormFeed: char := 12 as char

  /**
   * One character of a quoted string: the seven two-character escapes, `\u00XX` with
   * lower-case hex for the other controls below U+0020, and the character itself otherwise.
   */
  function EscapeChar(c: char): (e: string)
    ensures (c as int) >= 0x20 && c != '"' && c != '\\' <==> e == [c]
    ensures e != [c] ==> |e| >= 2 && e[0] == '\\'
  {
    if c == '"' then "\\\""
    else if c == '\\' then "\\\\"
    else if c == Backspace then "\\b"
    else if c == '\t' then "\\t"
    else if c == '\n' then "\\n"
    else if c == FormFeed then "\\f"
    else if c == '\r' then "\\r"
    else if (c as int) < 0x20 then ['\\', 'u', '0', '0', HexDigit(c as int / 16), HexDigit(c as int % 16)]
    else [c]
  }

  function EscapeString(s: string): (e: string)
    ensures |e| >= |s|
  {
    if s == [] then [] else EscapeChar(s[0]) + EscapeString(s[1..])
  }

  function Quote(s: string): (q: string)
    ensures |q| >= 2 && q[0] == '"' && q[|q| - 1] == '"'
  {
    "\"" + EscapeString(s) + "\""
  }

  function Member(p: (string, string)): string {
    Quote(p.0) + ":" + Quote(p.1)
  }

  function JoinMembers(o: Pairs): string {
    if |o| == 0 then ""
    else if |o| == 1 then Member(o[0])
    else Member(o[0]) + "," + JoinMembers(o[1..])
  }

  /** `JSON.stringify` of an object whose values are all strings. */
  function StringifyObject(o: Pairs): (j: string)
    ensures |j| >= 2 && j[0] == '{' && j[|j| - 1] == '}'
    ensures j == "{}" <==> o == []
  {
    assert o != [] ==> |JoinMembers(o)| > 0;
    "{" + JoinMembers(o) + "}"
  }

  /** The four hex digits of a `\u` escape. */
  function HexQuad(s: string): (r: Option<int>)
    requires |s| >= 4
    ensures r.Some? ==> 0 <= r.value < 0x10000
  {
    match (HexValue(s[0]), HexValue(s[1]), HexValue(s[2]), HexValue(s[3]))
    case (Some(a), Some(b), Some(c), Some(d)) => Some(((a * 16 + b) * 16 + c) * 16 + d)
    case _ => None
  }

  /**
   * The character after a backslash and the text after the escape. A `\u` escape that
   * names a surrogate code unit is refused: this parser does not join surrogate pairs.
   */
  function ParseEscape(s: string): (r: Option<(char, string)>)
    ensures r.Some? ==> |r.value.1| < |s|
  {
    if |s| == 0 then None
    else if s[0] == '"' then Some(('"', s[1..]))
    else if s[0] == '\\' then Some(('\\', s[1..]))
    else if s[0] == '/' then Some(('/', s[1..]))
    else if s[0] == 'b' then Some((Backspace, s[1..]))
    else if s[0] == 'f' then Some((FormFeed, s[1..]))
    else if s[0] == 'n' then Some(('\n', s[1..]))
    else if s[0] == 'r' then Some(('\r', s[1..]))
    else if s[0] == 't' then Some(('\t', s[1..]))
    else if s[0] == 'u' && |s| >= 5 then
      match HexQuad(s[1..5])
      case None => None
      case Some(v) => if 0xD800 <= v < 0xE000 then None else Some((v as char, s[5..]))
    else None
  }

  /** The body of a string literal, after its opening quote: its value and the text after the closing quote. */
  function ParseStringBody(s: string): (r: Option<(string, string)>)
    ensures r.Some? ==> |r.value.1| < |s|
    decreases |s|
  {
    if |s| == 0 then None
    else if s[0] == '"' then Some(("", s[1..]))
    else if s[0] == '\\' then
      match ParseEscape(s[1..])
      case None => None
      case Some((c, rest)) =>
        match ParseStringBody(rest)
        case None => None
        case Some((t, after)) => Some(([c] + t, after))
    else if (s[0] as int) < 0x20 then None
    else
      match ParseStringBody(s[1..])
      case None => None
      case Some((t, after)) => Some(([s[0]] + t, after))
  }

  /** One `"key":"value"` member at the start of the text: its key, its value and the text after it. */
  function ParseMember(s: string): (r: Option<(string, string, string)>)
    ensures r.Some? ==> |r.value.2| < |s|
  {
    if |s| == 0 || s[0] != '"' then None
    else
      match ParseStringBody(s[1..])
      case None => None
      case Some((k, r1)) =>
        if |r1| < 2 || r1[0] != ':' || r1[1] != '"' then None
        else
          match ParseStringBody(r1[2..])
          case None => None
          case Some((v, r2)) => Some((k, v, r2))
  }

  /** The members of an object after its `{`, up to and including the closing `}`, which must end the text. */
  function ParseMembers(s: string): (r: Option<Pairs>)
    ensures r.Some? ==> |r.value| >= 1
    decreases |s|
  {
    match ParseMember(s)
    case None => None
    case Some((k, v, rest)) =>
      if rest == "}" then Some([(k, v)])
      else if |rest| > 0 && rest[0] == ',' then
        match ParseMembers(rest[1..])
        case None => None
        case Some(ps) => Some([(k, v)] + ps)
      else None
  }

  function ParseObject(s: string): (r: Option<Pairs>)
    ensures r == Some([]) <==> s == "{}"
  {
    if s == "{}" then Some([])
    else if |s| > 0 && s[0] == '{' then ParseMembers(s[1..])
    else None
  }

  /** Parsing one escaped character yields that character and continues right after it. */
  lemma EscapeCharParses(c: char, rest: string)
    ensures ParseStringBody(EscapeChar(c) + rest) ==
      match ParseStringBody(rest)
      case None => None
      case Some((t, after)) => Some(([c] + t, after))
  {
    var e := EscapeChar(c);
    if e == [c] {
      assert (e + rest)[1..] == rest;
    } else {
      assert (e + rest)[1..] == e[1..] + rest;
      if (c as int) < 0x20 && c != Backspace && c != '\t' && c != '\n' && c != FormFeed && c != '\r' {
        var tail := e[1..] + rest;
        assert tail[1..5] == ['0', '0', HexDigit(c as int / 16), HexDigit(c as int % 16)];
        HexRoundTrip(c as int / 16);
        HexRoundTrip(c as int % 16);
        assert HexQuad(tail[1..5]) == Some(c as int);
        assert tail[5..] == rest;
      } else {
        assert (e[1..] + rest)[1..] == rest;
      }
    }
  }

  /** A quoted string parses back to itself, leaving the text after its closing quote. */
  lemma {:induction false} StringRoundTrip(x: string, rest: string)
    ensures ParseStringBody(EscapeString(x) + "\"" + rest) == Some((x, rest))
  {
    if x == [] {
      assert EscapeString(x) + "\"" + rest == "\"" + rest;
      assert ("\"" + rest)[1..] == rest;
    } else {
      var tail := EscapeString(x[1..]) + "\"" + rest;
      assert EscapeString(x) + "\"" + rest == EscapeChar(x[0]) + tail;
      StringRoundTrip(x[1..], rest);
      EscapeCharParses(x[0], tail);
      assert [x[0]] + x[1..] == x;
    }
  }

  lemma QuoteRoundTrip(x: string, rest: string)
    ensures ParseStringBody(Quote(x)[1..] + rest) == Some((x, rest))
  {
    assert Quote(x)[1..] + rest == EscapeString(x) + "\"" + rest;
    StringRoundTrip(x, rest);
  }

  /** One member parses back, leaving the text after its value. */
  lemma MemberRoundTrip(p: (string, string), after: string)
    ensures ParseMember(Member(p) + after) == Some((p.0, p.1, after))
  {
    var q0, q1 := Quote(p.0), Quote(p.1);
    var r1 := ":" + (q1 + after);
    assert Member(p) + after == q0 + r1 by {
      Associative(q0, ":", q1, after);
    }
    DropConcat(q0, r1, 1);
    QuoteRoundTrip(p.0, r1);
    assert r1[1..] == q1 + after;
    DropConcat(q1, after, 1);
    QuoteRoundTrip(p.1, after);
  }

  /** A member, a comma and a parsable rest: the member's pair comes first, then the rest's. */
  lemma MembersCons(p: (string, string), t: string, ps: Pairs)
    requires ParseMembers(t) == Some(ps)
    ensures ParseMembers(Member(p) + ("," + t)) == Some([p] + ps)
  {
    MemberRoundTrip(p, "," + t);
    assert ("," + t)[1..] == t;
  }

  lemma JoinCons(o: Pairs)
    requires |o| >= 2
    ensures JoinMembers(o) + "}" == Member(o[0]) + ("," + (JoinMembers(o[1..]) + "}"))
  {
    var a, b := Member(o[0]), JoinMembers(o[1..]);
    assert JoinMembers(o) == a + "," + b;
    Associative(a, ",", b, "}");
  }

  lemma Associative(a: string, b: string, c: string, d: string)
    ensures a + b + c + d == a + (b + (c + d))
  {
  }

  lemma FirstAndRest(o: Pairs)
    requires o != []
    ensures [o[0]] + o[1..] == o
  {
  }

  lemma DropConcat(x: string, y: string, n: nat)
    requires n <= |x|
    ensures (x + y)[n..] == x[n..] + y
  {
  }

  lemma MembersStep(o: Pairs)
    requires |o| >= 2
    requires ParseMembers(JoinMembers(o[1..]) + "}") == Some(o[1..])
    ensures ParseMembers(JoinMembers(o) + "}") == Some(o)
  {
    JoinCons(o);
    MembersCons(o[0], JoinMembers(o[1..]) + "}", o[1..]);
    FirstAndRest(o);
  }

  lemma {:induction false} MembersRoundTrip(o: Pairs)
    requires |o| >= 1
    ensures ParseMembers(JoinMembers(o) + "}") == Some(o)
    decreases |o|
  {
    if |o| == 1 {
      assert JoinMembers(o) + "}" == Member(o[0]) + "}";
      MemberRoundTrip(o[0], "}");
      assert [(o[0].0, o[0].1)] == o;
    } else {
      MembersRoundTrip(o[1..]);
      MembersStep(o);
    }
  }

  /** What `JSON.stringify` writes, this parser reads back, member by member and in order. */
  lemma ObjectRoundTrip(o: Pairs)
    ensures ParseObject(StringifyObject(o)) == Some(o)
  {
    if o != [] {
      var j := StringifyObject(o);
      assert j[1..] == JoinMembers(o) + "}" by {
        DropConcat("{" + JoinMembers(o), "}", 1);
      }
      MembersRoundTrip(o);
    }
  }

  /** The map a parsed object denotes: a later duplicate key overrides an earlier one. */
  function ToMap(o: Pairs): (m: map<string, string>)
    ensures m.Keys == set i | 0 <= i < |o| :: o[i].0
  {
    if o == [] then map[]
    else
      var m := ToMap(o[..|o| - 1]);
      assert forall i | 0 <= i < |o| - 1 :: o[..|o| - 1][i] == o[i];
      m[o[|o| - 1].0 := o[|o| - 1].1]
  }
}
