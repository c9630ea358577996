/**
 * The part of `JSON.stringify` / `JSON.parse` the application uses: booleans
 * (the theme preference) and arrays of strings (the serialized tag lists).
 * Encoding follows ECMAScript's JSON.stringify; decoding accepts the JSON
 * grammar for these values without insignificant whitespace.
 */
module Json {
  import opened Wrappers

  /** `JSON.stringify` of a boolean: one of the two literals, chosen by the value. */
  function EncodeBool(b: bool): (r: string)
    ensures r == "true" <==> b
    ensures r == "false" <==> !b
  {
    if b then "true" else "false"
  }

  /** `JSON.parse` of a boolean literal; None stands for a value that is not one. */
  function DecodeBool(s: string): (r: Option<bool>)
    ensures r.Some? <==> s == "true" || s == "false"
  {
    if s == "true" then Some(true) else if s == "false" then Some(false) else None
  }

  lemma BoolRoundTrip(b: bool)
    ensures DecodeBool(EncodeBool(b)) == Some(b)
  {
  }

  function HexDigit(n: int): (c: char)
    requires 0 <= n < 16
  {
    if n < 10 then ('0' as int + n) as char else ('a' as int + n - 10) as char
  }

  function HexValue(c: char): (r: Option<int>)
    ensures r.Some? ==> 0 <= r.value < 16
  {
    if '0' <= c <= '9' then Some(c as int - '0' as int)
    else if 'a' <= c <= 'f' then Some(c as int - 'a' as int + 10)
    else if 'A' <= c <= 'F' then Some(c as int - 'A' as int + 10)
    else None
  }

  lemma HexDigitValue(n: int)
    requires 0 <= n < 16
    ensures HexValue(HexDigit(n)) == Some(n)
  {
  }

  /** How JSON.stringify writes one character inside a string literal. */
  function EscapeChar(c: char): (r: string)
    ensures 1 <= |r|
  {
    if c == '"' then "\\\""
    else if c == '\\' then "\\\\"
    else if c == '\U{8}' then "\\b"
    else if c == '\t' then "\\t"
    else if c == '\n' then "\\n"
    else if c == '\U{C}' then "\\f"
    else if c == '\r' then "\\r"
    else if (c as int) < 0x20 then "\\u00" + [HexDigit(c as int / 16), HexDigit(c as int % 16)]
    else [c]
  }

  function EscapeString(s: string): string {
    if s == [] then [] else EscapeChar(s[0]) + EscapeString(s[1..])
  }

  function Quote(s: string): string {
    "\"" + EscapeString(s) + "\""
  }

  function Elements(tags: seq<string>): string
    requires tags != []
  {
    if |tags| == 1 then Quote(tags[0]) else Quote(tags[0]) + "," + Elements(tags[1..])
  }

  /** `JSON.stringify(tags)` for an array of strings. */
  function EncodeTags(tags: seq<string>): (r: string)
    ensures |r| >= 2 && r[0] == '['
  {
    if tags == [] then "[]" else "[" + Elements(tags) + "]"
  }

  /** Reads the escape sequence that follows a backslash. */
  function ReadEscape(s: string): (r: Option<(char, string)>)
    ensures r.Some? ==> |r.value.1| < |s|
  {
    if s == [] then None
    else if s[0] == '"' then Some(('"', s[1..]))
    else if s[0] == '\\' then Some(('\\', s[1..]))
    else if s[0] == '/' then Some(('/', s[1..]))
    else if s[0] == 'b' then Some(('\U{8}', s[1..]))
    else if s[0] == 'f' then Some(('\U{C}', s[1..]))
    else if s[0] == 'n' then Some(('\n', s[1..]))
    else if s[0] == 'r' then Some(('\r', s[1..]))
    else if s[0] == 't' then Some(('\t', s[1..]))
    else if s[0] == 'u' && |s| >= 5 then
      match (HexValue(s[1]), HexValue(s[2]), HexValue(s[3]), HexValue(s[4]))
      case (Some(a), Some(b), Some(c), Some(d)) =>
        var code := a * 4096 + b * 256 + c * 16 + d;
        if 0xD800 <= code < 0xE000 then None else Some((code as char, s[5..]))
      case _ => None
    else None
  }

  /** Reads a string literal's body up to its closing quote: the decoded text and what follows. */
  function ReadString(s: string): (r: Option<(string, string)>)
    ensures r.Some? ==> |r.value.1| < |s|
  {
    if s == [] then None
    else if s[0] == '"' then Some(([], s[1..]))
    else if s[0] == '\\' then
      match ReadEscape(s[1..])
      case None => None
      case Some((c, rest)) =>
        match ReadString(rest)
        case None => None
        case Some((t, after)) => Some(([c] + t, after))
    else if (s[0] as int) < 0x20 then None
    else
      match ReadString(s[1..])
      case None => None
      case Some((t, after)) => Some(([s[0]] + t, after))
  }

  /** Reads `"a","b",...]` up to the end of the text. */
  function ReadElements(s: string): (r: Option<seq<string>>)
    ensures r.Some? ==> r.value != []
    decreases |s|
  {
    if s == [] || s[0] != '"' then None
    else
      match ReadString(s[1..])
      case None => None
      case Some((t, rest)) =>
        if rest == "]" then Some([t])
        else if rest != [] && rest[0] == ',' then
          match ReadElements(rest[1..])
          case None => None
          case Some(ts) => Some([t] + ts)
        else None
  }

  /** `JSON.parse` of an array of strings; None stands for a parse failure. */
  function DecodeTags(s: string): (r: Option<seq<string>>)
    ensures r == Some([]) <==> s == "[]"
  {
    if s == "[]" then Some([])
    else if s != [] && s[0] == '[' then ReadElements(s[1..])
    else None
  }

  lemma EscapeCharRead(c: char, tail: string)
    ensures |EscapeChar(c)| > 1 ==>
              EscapeChar(c)[0] == '\\' && ReadEscape(EscapeChar(c)[1..] + tail) == Some((c, tail))
    ensures |EscapeChar(c)| == 1 ==> EscapeChar(c) == [c] && c != '"' && c != '\\' && (c as int) >= 0x20
  {
    if (c as int) < 0x20 && c != '\U{8}' && c != '\t' && c != '\n' && c != '\U{C}' && c != '\r' {
      var hi, lo := c as int / 16, c as int % 16;
      var e := EscapeChar(c)[1..] + tail;
      HexDigitValue(hi);
      HexDigitValue(lo);
      assert e[0] == 'u' && e[1] == '0' && e[2] == '0' && e[3] == HexDigit(hi) && e[4] == HexDigit(lo);
      assert e[5..] == tail;
      assert hi * 16 + lo == c as int;
    }
  }

  /** The string reader decodes one written character and goes on after it. */
  lemma ReadEscapedChar(c: char, rest: string)
    ensures ReadString(EscapeChar(c) + rest) ==
            match ReadString(rest)
            case None => None
            case Some((t, after)) => Some(([c] + t, after))
  {
    var s := EscapeChar(c) + rest;
    EscapeCharRead(c, rest);
    if |EscapeChar(c)| > 1 {
      assert s[1..] == EscapeChar(c)[1..] + rest;
    } else {
      assert s[1..] == rest;
    }
  }

  lemma {:induction false} EscapeStringRead(x: string, tail: string)
    ensures ReadString(EscapeString(x) + "\"" + tail) == Some((x, tail))
  {
    if x == [] {
      assert EscapeString(x) + "\"" + tail == "\"" + tail;
    } else {
      var rest := EscapeString(x[1..]) + "\"" + tail;
      assert EscapeString(x) + "\"" + tail == EscapeChar(x[0]) + rest;
      EscapeStringRead(x[1..], tail);
      ReadEscapedChar(x[0], rest);
      assert x == [x[0]] + x[1..];
    }
  }

  /** The array reader over the last element JSON.stringify wrote. */
  lemma ReadElementsLast(t: string)
    ensures ReadElements(Quote(t) + "]") == Some([t])
  {
    var s := Quote(t) + "]";
    assert s[0] == '"';
    assert s[1..] == EscapeString(t) + "\"" + "]";
    EscapeStringRead(t, "]");
  }

  /** One step of the array reader: an element, a comma, and the elements after it. */
  lemma ReadElementsComma(s: string, t: string, rest: string)
    requires s != [] && s[0] == '"' && ReadString(s[1..]) == Some((t, rest))
    requires rest != [] && rest[0] == ','
    ensures ReadElements(s) ==
            match ReadElements(rest[1..])
            case None => None
            case Some(ts) => Some([t] + ts)
  {
    assert rest != "]" by {
      assert rest[0] != "]"[0];
    }
  }

  /** The array reader over an element JSON.stringify wrote, followed by a comma. */
  lemma ReadElementsNext(t: string, tail: string)
    requires ReadElements(tail).Some?
    ensures ReadElements(Quote(t) + ([','] + tail)) == Some([t] + ReadElements(tail).value)
  {
    var after := [','] + tail;
    var body := EscapeString(t) + "\"" + after;
    SeqAssoc("\"", EscapeString(t), "\"", after);
    assert Quote(t) + after == "\"" + body;
    assert ("\"" + body)[1..] == body;
    EscapeStringRead(t, after);
    assert after[1..] == tail;
    ReadElementsComma("\"" + body, t, after);
  }

  lemma ElementsCons(tags: seq<string>)
    requires |tags| > 1
    ensures Elements(tags) + "]" == Quote(tags[0]) + ([','] + (Elements(tags[1..]) + "]"))
  {
    var q, e := Quote(tags[0]), Elements(tags[1..]);
    assert Elements(tags) == q + [','] + e;
    SeqAssoc(q, [','], e, "]");
  }

  lemma SeqAssoc(a: string, b: string, c: string, d: string)
    ensures a + b + c + d == a + (b + (c + d))
  {
  }

  lemma {:induction false} ElementsRead(tags: seq<string>)
    requires tags != []
    ensures ReadElements(Elements(tags) + "]") == Some(tags)
  {
    if |tags| == 1 {
      ReadElementsLast(tags[0]);
      assert tags == [tags[0]];
    } else {
      ElementsRead(tags[1..]);
      ElementsCons(tags);
      ReadElementsNext(tags[0], Elements(tags[1..]) + "]");
      assert tags == [tags[0]] + tags[1..];
    }
  }

  /** Parsing what JSON.stringify wrote gives back the same tags. */
  lemma TagsRoundTrip(tags: seq<string>)
    ensures DecodeTags(EncodeTags(tags)) == Some(tags)
  {
    if tags != [] {
      var s := EncodeTags(tags);
      ElementsRead(tags);
      assert s[1..] == Elements(tags) + "]";
    }
  }
}
