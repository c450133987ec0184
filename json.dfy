/** `JSON.stringify(value, null, space)` (section 25.5.2 of ECMA-262) for the values
    `JSON.parse` produces. Parsing itself is not modelled: the dispatcher receives it as a
    function that yields a value or nothing. */
module JsonText {
  import opened Wrappers

  /** A parsed JSON value. A number carries the text `Number::toString` gives for it, which is
      `Infinity` or `-Infinity` for a literal too large for a double; an object's members are in
      the order the engine enumerates its own properties. */
  datatype JsonValue =
    | Null
    | Bool(b: bool)
    | Number(text: string)
    | Str(s: string)
    | Arr(items: seq<JsonValue>)
    | Obj(members: seq<(string, JsonValue)>)

  /** The gap: a string `space` is cut to its first ten characters. */
  function Gap(space: string): (g: string)
    ensures |g| == if |space| < 10 then |space| else 10
    ensures g == space[..|g|]
  {
    if |space| <= 10 then space else space[..10]
  }

  /** A lower-case hexadecimal digit. */
  function HexDigit(d: nat): char
    requires d < 16
  {
    if d < 10 then ('0' as int + d) as char else ('a' as int + d - 10) as char
  }

  /** The value of a hexadecimal digit of either case. */
  function HexValue(c: char): Option<nat>
  {
    if '0' <= c <= '9' then Some(c as int - '0' as int)
    else if 'a' <= c <= 'f' then Some(c as int - 'a' as int + 10)
    else if 'A' <= c <= 'F' then Some(c as int - 'A' as int + 10)
    else None
  }

  /** How QuoteJSONString writes one character: the short escapes, `\u00xx` for the other
      control characters, everything else as it is. */
  function EscapeChar(c: char): string
  {
    if c == '\U{8}' then "\\b"
    else if c == '\t' then "\\t"
    else if c == '\n' then "\\n"
    else if c == '\U{C}' then "\\f"
    else if c == '\r' then "\\r"
    else if c == '"' then "\\\""
    else if c == '\\' then "\\\\"
    else if c < ' ' then "\\u00" + [HexDigit(c as int / 16), HexDigit(c as int % 16)]
    else [c]
  }

  function Escape(s: string): string
  {
    if s == [] then "" else EscapeChar(s[0]) + Escape(s[1..])
  }

  /** QuoteJSONString. */
  function Quote(s: string): string
  {
    "\"" + Escape(s) + "\""
  }

  /** The characters a string body denotes, as a JSON reader decodes it (section 7 of RFC 8259);
      `None` for a raw quote or control character, an unknown escape, or a surrogate. */
  function Unescape(e: string): Option<string>
    decreases |e|
  {
    if e == [] then Some([])
    else if e[0] == '"' || e[0] < ' ' then None
    else if e[0] != '\\' then Prepend(e[0], Unescape(e[1..]))
    else if |e| < 2 then None
    else if e[1] == 'u' then
      if |e| < 6 then None
      else
        var h0, h1, h2, h3 := HexValue(e[2]), HexValue(e[3]), HexValue(e[4]), HexValue(e[5]);
        if h0.None? || h1.None? || h2.None? || h3.None? then None
        else
          var n := ((h0.value * 16 + h1.value) * 16 + h2.value) * 16 + h3.value;
          if 0xD800 <= n < 0xE000 then None else Prepend(n as char, Unescape(e[6..]))
    else
      var d := Short(e[1]);
      if d.None? then None else Prepend(d.value, Unescape(e[2..]))
  }

  /** The character a two-character escape `\x` stands for. */
  function Short(x: char): Option<char>
  {
    if x == 'b' then Some('\U{8}')
    else if x == 't' then Some('\t')
    else if x == 'n' then Some('\n')
    else if x == 'f' then Some('\U{C}')
    else if x == 'r' then Some('\r')
    else if x == '"' then Some('"')
    else if x == '\\' then Some('\\')
    else if x == '/' then Some('/')
    else None
  }

  function Prepend(c: char, r: Option<string>): Option<string>
  {
    if r.None? then None else Some([c] + r.value)
  }

  /** `parts.join(sep)`. */
  function JoinWith(parts: seq<string>, sep: string): string
  {
    if parts == [] then "" else if |parts| == 1 then parts[0] else parts[0] + sep + JoinWith(parts[1..], sep)
  }

  /** The bracketing of a non-empty array or object: on one line when the gap is empty,
      otherwise one element per line, each one level deeper than the brackets. */
  function Enclose(open: string, close: string, parts: seq<string>, gap: string, indent: string): string
  {
    if gap == "" then open + JoinWith(parts, ",") + close
    else
      var inner := indent + gap;
      open + "\n" + inner + JoinWith(parts, ",\n" + inner) + "\n" + indent + close
  }

  /** SerializeJSONProperty with the current indentation `indent`; a non-finite number is
      written as `null`. */
  function Serialize(v: JsonValue, gap: string, indent: string): string
    decreases v
  {
    match v
    case Null => "null"
    case Bool(b) => if b then "true" else "false"
    case Number(t) => if t == "Infinity" || t == "-Infinity" then "null" else t
    case Str(s) => Quote(s)
    case Arr(items) =>
      if items == [] then "[]"
      else
        var parts := seq(|items|, i requires 0 <= i < |items| => Serialize(items[i], gap, indent + gap));
        Enclose("[", "]", parts, gap, indent)
    case Obj(ms) =>
      if ms == [] then "{}"
      else
        var colon := if gap == "" then ":" else ": ";
        var parts := seq(|ms|, i requires 0 <= i < |ms| =>
          Quote(ms[i].0) + colon + Serialize(ms[i].1, gap, indent + gap));
        Enclose("{", "}", parts, gap, indent)
  }

  /** `JSON.stringify(v, null, space)` for a string `space`. */
  function Stringify(v: JsonValue, space: string): string
  {
    Serialize(v, Gap(space), "")
  }

  // ---------------------------------------------------------------------------------------
  // Properties

  /** Reading a hexadecimal digit back gives its value. */
  lemma HexRoundTrip(d: nat)
    requires d < 16
    ensures HexValue(HexDigit(d)) == Some(d)
  {
  }

  /** The `\u00xx` escape of a control character reads back as that character. */
  lemma UnescapeOfControl(c: char, rest: string)
    requires c < ' '
    ensures Unescape("\\u00" + [HexDigit(c as int / 16), HexDigit(c as int % 16)] + rest) == Prepend(c, Unescape(rest))
  {
    var n := c as int;
    var e := "\\u00" + [HexDigit(n / 16), HexDigit(n % 16)] + rest;
    HexRoundTrip(0);
    HexRoundTrip(n / 16);
    HexRoundTrip(n % 16);
    assert e[0] == '\\' && e[1] == 'u' && e[2] == '0' && e[3] == '0';
    assert e[4] == HexDigit(n / 16) && e[5] == HexDigit(n % 16);
    assert e[6..] == rest;
  }

  /** Every escape of one character reads back as that character. */
  lemma UnescapeOfEscapeChar(c: char, rest: string)
    ensures Unescape(EscapeChar(c) + rest) == Prepend(c, Unescape(rest))
  {
    if c < ' ' && c != '\U{8}' && c != '\t' && c != '\n' && c != '\U{C}' && c != '\r' {
      UnescapeOfControl(c, rest);
    } else if EscapeChar(c) == [c] {
      UnescapeOfPlain(c, rest);
    } else {
      UnescapeOfShort(c, rest);
    }
  }

  /** A character written as it is reads back as itself. */
  lemma UnescapeOfPlain(c: char, rest: string)
    requires EscapeChar(c) == [c]
    ensures Unescape([c] + rest) == Prepend(c, Unescape(rest))
  {
    assert ([c] + rest)[1..] == rest;
  }

  /** A two-character escape reads back as the character it stands for. */
  lemma UnescapeOfShort(c: char, rest: string)
    requires c in "\U{8}\t\n\U{C}\r\"\\"
    ensures Unescape(EscapeChar(c) + rest) == Prepend(c, Unescape(rest))
  {
    var e := EscapeChar(c) + rest;
    assert |EscapeChar(c)| == 2 && EscapeChar(c)[0] == '\\';
    assert Short(e[1]) == Some(c);
    assert e[2..] == rest;
  }

  /** Reading back a quoted string gives the original characters. */
  lemma {:induction false} UnescapeEscape(s: string)
    ensures Unescape(Escape(s)) == Some(s)
  {
    if s != [] {
      UnescapeEscape(s[1..]);
      UnescapeOfEscapeChar(s[0], Escape(s[1..]));
      assert [s[0]] + s[1..] == s;
    }
  }

  /** Every number's text is free of newlines (the engine prints none). */
  predicate PlainNumbers(v: JsonValue)
    decreases v
  {
    match v
    case Number(t) => '\n' !in t
    case Arr(items) => forall i :: 0 <= i < |items| ==> PlainNumbers(items[i])
    case Obj(ms) => forall i :: 0 <= i < |ms| ==> PlainNumbers(ms[i].1)
    case _ => true
  }

  lemma {:induction false} EscapeHasNoNewline(s: string)
    ensures '\n' !in Escape(s)
  {
    if s != [] {
      EscapeHasNoNewline(s[1..]);
    }
  }

  lemma {:induction false} JoinWithNoNewline(parts: seq<string>, sep: string)
    requires '\n' !in sep
    requires forall i :: 0 <= i < |parts| ==> '\n' !in parts[i]
    ensures '\n' !in JoinWith(parts, sep)
  {
    if |parts| > 1 {
      JoinWithNoNewline(parts[1..], sep);
    }
  }

  /** A number literal too large for a double parses to Infinity, which the serializer writes
      as `null`: `[1e400]` comes back as `[null]`. */
  lemma OverflowIsNull()
    ensures Stringify(Arr([Number("Infinity"), Number("-Infinity")]), "") == "[null,null]"
  {
    var items := [Number("Infinity"), Number("-Infinity")];
    assert Gap("") == "";
    var parts := seq(|items|, i requires 0 <= i < |items| => Serialize(items[i], "", "" + ""));
    assert parts[0] == "null" && parts[1] == "null";
    assert parts == ["null", "null"];
    assert JoinWith(parts, ",") == "null,null" by {
      assert parts[1..] == ["null"];
    }
    assert Serialize(Arr(items), "", "") == Enclose("[", "]", parts, "", "");
  }

  /** A one-letter key is quoted as it is. */
  lemma QuoteLetter(c: char)
    requires 'a' <= c <= 'z'
    ensures Quote([c]) == ['"', c, '"']
  {
    assert Escape([c]) == [c] by {
      assert [c][1..] == [];
    }
  }

  /** The members `"b": 1` and `"a": 2` one level deep under a two-space gap. */
  lemma KeyOrderMembers(ms: seq<(string, JsonValue)>)
    requires ms == [("b", Number("1")), ("a", Number("2"))]
    ensures JoinWith(seq(|ms|, i requires 0 <= i < |ms| =>
        Quote(ms[i].0) + ": " + Serialize(ms[i].1, "  ", "" + "  ")), ",\n" + ("" + "  "))
      == "\"b\": 1,\n  \"a\": 2"
  {
    var parts := seq(|ms|, i requires 0 <= i < |ms| =>
      Quote(ms[i].0) + ": " + Serialize(ms[i].1, "  ", "" + "  "));
    QuoteLetter('b');
    QuoteLetter('a');
    assert parts[0] == "\"b\": 1";
    assert parts[1] == "\"a\": 2";
    assert parts[1..] == ["\"a\": 2"];
  }

  /** Members are written in the order they come, not sorted: `{"b":1,"a":2}` with a two-space
      indent keeps `b` before `a`. */
  lemma KeyOrderKept()
    ensures Stringify(Obj([("b", Number("1")), ("a", Number("2"))]), "  ")
      == "{\n  \"b\": 1,\n  \"a\": 2\n}"
  {
    var ms := [("b", Number("1")), ("a", Number("2"))];
    assert Gap("  ") == "  ";
    KeyOrderMembers(ms);
  }

  /** With an empty gap (a tab width of 0 without tabs) the whole value is on one line. */
  lemma {:induction false} CompactIsOneLine(v: JsonValue, indent: string)
    requires PlainNumbers(v)
    ensures '\n' !in Serialize(v, "", indent)
    decreases v
  {
    match v
    case Str(s) =>
      EscapeHasNoNewline(s);
    case Arr(items) =>
      if items != [] {
        var parts := seq(|items|, i requires 0 <= i < |items| => Serialize(items[i], "", indent + ""));
        forall i | 0 <= i < |items| ensures '\n' !in parts[i] {
          CompactIsOneLine(items[i], indent + "");
        }
        JoinWithNoNewline(parts, ",");
      }
    case Obj(ms) =>
      if ms != [] {
        var parts := seq(|ms|, i requires 0 <= i < |ms| =>
          Quote(ms[i].0) + ":" + Serialize(ms[i].1, "", indent + ""));
        forall i | 0 <= i < |ms| ensures '\n' !in parts[i] {
          CompactIsOneLine(ms[i].1, indent + "");
          EscapeHasNoNewline(ms[i].0);
        }
        JoinWithNoNewline(parts, ",");
      }
    case _ =>
  }
}
