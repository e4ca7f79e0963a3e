/**
 * JSON texts as RFC 8259 defines them: a reader for any JSON text and a
 * writer for the one shape the descriptor codec emits, a flat object whose
 * member values are all strings.
 *
 * Parsing works on suffixes: every parse function takes the unread input and
 * returns what it recognised together with the input left after it.
 */
module Json {
  import opened Wrappers

  /** A JSON value (RFC 8259, section 3). Numbers keep their lexeme. */
  datatype Value =
    | JString(str: string)
    | JNumber(lexeme: string)
    | JBool(b: bool)
    | JNull
    | JArray(elements: seq<Value>)
    | JObject(members: seq<(string, Value)>)

  /** The input is not a JSON text. */
  datatype ParseError = InvalidJson

  type Parsed<T> = Result<(T, string), ParseError>

  const BACKSPACE: char := 8 as char
  const FORM_FEED: char := 12 as char

  // ---------------------------------------------------------------------------
  // Lexical pieces
  // ---------------------------------------------------------------------------

  /** Insignificant whitespace (RFC 8259, section 2). */
  predicate IsWs(c: char) {
    c == ' ' || c == '\t' || c == '\n' || c == '\r'
  }

  function SkipWs(s: string): (r: string)
    ensures |r| <= |s|
    ensures r == [] || !IsWs(r[0])
    ensures s == [] || !IsWs(s[0]) ==> r == s
  {
    if s != [] && IsWs(s[0]) then SkipWs(s[1..]) else s
  }

  predicate IsDigit(c: char) {
    '0' <= c <= '9'
  }

  predicate IsHexDigit(c: char) {
    '0' <= c <= '9' || 'a' <= c <= 'f' || 'A' <= c <= 'F'
  }

  function HexValue(c: char): (n: nat)
    requires IsHexDigit(c)
    ensures n < 16
  {
    if '0' <= c <= '9' then c as int - '0' as int
    else if 'a' <= c <= 'f' then c as int - 'a' as int + 10
    else c as int - 'A' as int + 10
  }

  /** The lower-case hexadecimal digit for `n`; reading it back gives `n`. */
  function HexDigit(n: nat): (c: char)
    requires n < 16
    ensures IsHexDigit(c) && HexValue(c) == n
  {
    if n < 10 then ('0' as int + n) as char else ('a' as int + n - 10) as char
  }

  /** The number of decimal digits at the start of `s`. */
  function DigitRun(s: string): (n: nat)
    ensures n <= |s|
    ensures forall i :: 0 <= i < n ==> IsDigit(s[i])
    ensures n < |s| ==> !IsDigit(s[n])
  {
    if s != [] && IsDigit(s[0]) then 1 + DigitRun(s[1..]) else 0
  }

  // ---------------------------------------------------------------------------
  // Strings (RFC 8259, section 7)
  // ---------------------------------------------------------------------------

  /** Four hexadecimal digits, read as one UTF-16 code unit. */
  function ParseHex4(s: string): (r: Parsed<nat>)
    ensures r.Ok? ==> r.value.0 < 0x10000 && |s| >= 4 && r.value.1 == s[4..]
  {
    if |s| >= 4 && IsHexDigit(s[0]) && IsHexDigit(s[1]) && IsHexDigit(s[2]) && IsHexDigit(s[3]) then
      Ok((HexValue(s[0]) * 0x1000 + HexValue(s[1]) * 0x100 + HexValue(s[2]) * 0x10 + HexValue(s[3]), s[4..]))
    else
      Err(InvalidJson)
  }

  /**
   * The escape sequence after a reverse solidus. A `\u` escape of a high
   * surrogate must be followed by one of a low surrogate; the pair stands for
   * one character outside the Basic Multilingual Plane.
   */
  function ParseEscape(s: string): (r: Parsed<char>)
    ensures r.Ok? ==> |r.value.1| < |s|
  {
    if s == [] then Err(InvalidJson)
    else if s[0] == '"' then Ok(('"', s[1..]))
    else if s[0] == '\\' then Ok(('\\', s[1..]))
    else if s[0] == '/' then Ok(('/', s[1..]))
    else if s[0] == 'b' then Ok((BACKSPACE, s[1..]))
    else if s[0] == 'f' then Ok((FORM_FEED, s[1..]))
    else if s[0] == 'n' then Ok(('\n', s[1..]))
    else if s[0] == 'r' then Ok(('\r', s[1..]))
    else if s[0] == 't' then Ok(('\t', s[1..]))
    else if s[0] == 'u' then
      match ParseHex4(s[1..])
      case Err(e) => Err(e)
      case Ok((hi, rest)) =>
        if hi < 0xD800 || 0xE000 <= hi then Ok((hi as char, rest))
        else if hi < 0xDC00 && |rest| >= 2 && rest[0] == '\\' && rest[1] == 'u' then
          match ParseHex4(rest[2..])
          case Err(e) => Err(e)
          case Ok((lo, rest')) =>
            if 0xDC00 <= lo < 0xE000 then
              Ok(((0x10000 + (hi - 0xD800) * 0x400 + (lo - 0xDC00)) as char, rest'))
            else Err(InvalidJson)
        else Err(InvalidJson)
    else Err(InvalidJson)
  }

  /** The characters of a string after its opening quotation mark, through the closing one. */
  function ParseStringBody(s: string): (r: Parsed<string>)
    ensures r.Ok? ==> |r.value.1| < |s|
    decreases |s|
  {
    if s == [] then Err(InvalidJson)
    else if s[0] == '"' then Ok(([], s[1..]))
    else if s[0] == '\\' then
      match ParseEscape(s[1..])
      case Err(e) => Err(e)
      case Ok((c, rest)) =>
        match ParseStringBody(rest)
        case Err(e) => Err(e)
        case Ok((t, rest')) => Ok(([c] + t, rest'))
    else if s[0] < ' ' then Err(InvalidJson)
    else
      match ParseStringBody(s[1..])
      case Err(e) => Err(e)
      case Ok((t, rest)) => Ok(([s[0]] + t, rest))
  }

  /**
   * How the generator writes one character inside a string: quotation mark,
   * reverse solidus and the five named control characters get their
   * two-character escapes, every other control character a `\u00XX` escape
   * in lower-case hexadecimal, everything else is written as it is.
   */
  function EscapeChar(c: char): string {
    if c == '"' then "\\\""
    else if c == '\\' then "\\\\"
    else if c == BACKSPACE then "\\b"
    else if c == FORM_FEED then "\\f"
    else if c == '\n' then "\\n"
    else if c == '\r' then "\\r"
    else if c == '\t' then "\\t"
    else if c < ' ' then "\\u00" + [HexDigit(c as int / 16), HexDigit(c as int % 16)]
    else [c]
  }

  function Escape(s: string): string
    decreases |s|
  {
    if s == [] then [] else EscapeChar(s[0]) + Escape(s[1..])
  }

  function Quote(s: string): string {
    "\"" + Escape(s) + "\""
  }

  // ---------------------------------------------------------------------------
  // Numbers (RFC 8259, section 6)
  // ---------------------------------------------------------------------------

  /** `[ minus ] int [ frac ] [ exp ]`, kept as its lexeme. */
  function ParseNumber(s: string): (r: Parsed<Value>)
    ensures r.Ok? ==> |r.value.1| < |s|
  {
    var i0 := if s != [] && s[0] == '-' then 1 else 0;
    if i0 >= |s| || !IsDigit(s[i0]) then Err(InvalidJson)
    else
      var i1 := if s[i0] == '0' then i0 + 1 else i0 + 1 + DigitRun(s[i0 + 1..]);
      var hasFrac := i1 < |s| && s[i1] == '.';
      var fracDigits := if hasFrac then DigitRun(s[i1 + 1..]) else 0;
      if hasFrac && fracDigits == 0 then Err(InvalidJson)
      else
        var i2 := if hasFrac then i1 + 1 + fracDigits else i1;
        var hasExp := i2 < |s| && (s[i2] == 'e' || s[i2] == 'E');
        var j := if hasExp && i2 + 1 < |s| && (s[i2 + 1] == '+' || s[i2 + 1] == '-') then i2 + 2 else i2 + 1;
        var expDigits := if hasExp then DigitRun(s[j..]) else 0;
        if hasExp && expDigits == 0 then Err(InvalidJson)
        else
          var i3 := if hasExp then j + expDigits else i2;
          Ok((JNumber(s[..i3]), s[i3..]))
  }

  // ---------------------------------------------------------------------------
  // Values, objects and arrays (RFC 8259, sections 3 to 5)
  // ---------------------------------------------------------------------------

  /** One value starting at the first character of `s`. */
  function ParseValue(s: string): (r: Parsed<Value>)
    ensures r.Ok? ==> |r.value.1| < |s|
    decreases |s|, 0
  {
    if s == [] then Err(InvalidJson)
    else if s[0] == '"' then
      match ParseStringBody(s[1..])
      case Err(e) => Err(e)
      case Ok((str, rest)) => Ok((JString(str), rest))
    else if s[0] == '{' then ParseObject(s[1..])
    else if s[0] == '[' then ParseArray(s[1..])
    else if |s| >= 4 && s[..4] == "true" then Ok((JBool(true), s[4..]))
    else if |s| >= 5 && s[..5] == "false" then Ok((JBool(false), s[5..]))
    else if |s| >= 4 && s[..4] == "null" then Ok((JNull, s[4..]))
    else if s[0] == '-' || IsDigit(s[0]) then ParseNumber(s)
    else Err(InvalidJson)
  }

  /** An object after its `{`. */
  function ParseObject(s: string): (r: Parsed<Value>)
    ensures r.Ok? ==> |r.value.1| < |s|
    decreases |s|, 2
  {
    var t := SkipWs(s);
    if t != [] && t[0] == '}' then Ok((JObject([]), t[1..]))
    else
      match ParseMembers(t)
      case Err(e) => Err(e)
      case Ok((ms, rest)) => Ok((JObject(ms), rest))
  }

  /** The members of an object from the quotation mark of the first name through the closing `}`. */
  function ParseMembers(s: string): (r: Parsed<seq<(string, Value)>>)
    ensures r.Ok? ==> |r.value.1| < |s|
    decreases |s|, 1
  {
    if s == [] || s[0] != '"' then Err(InvalidJson)
    else
      match ParseStringBody(s[1..])
      case Err(e) => Err(e)
      case Ok((name, afterName)) =>
        var t := SkipWs(afterName);
        if t == [] || t[0] != ':' then Err(InvalidJson)
        else
          match ParseValue(SkipWs(t[1..]))
          case Err(e) => Err(e)
          case Ok((v, afterValue)) =>
            var u := SkipWs(afterValue);
            if u != [] && u[0] == '}' then Ok(([(name, v)], u[1..]))
            else if u != [] && u[0] == ',' then
              match ParseMembers(SkipWs(u[1..]))
              case Err(e) => Err(e)
              case Ok((ms, rest)) => Ok(([(name, v)] + ms, rest))
            else Err(InvalidJson)
  }

  /** An array after its `[`. */
  function ParseArray(s: string): (r: Parsed<Value>)
    ensures r.Ok? ==> |r.value.1| < |s|
    decreases |s|, 2
  {
    var t := SkipWs(s);
    if t != [] && t[0] == ']' then Ok((JArray([]), t[1..]))
    else
      match ParseElements(t)
      case Err(e) => Err(e)
      case Ok((vs, rest)) => Ok((JArray(vs), rest))
  }

  /** The elements of an array from the first one through the closing `]`. */
  function ParseElements(s: string): (r: Parsed<seq<Value>>)
    ensures r.Ok? ==> |r.value.1| < |s|
    decreases |s|, 1
  {
    match ParseValue(s)
    case Err(e) => Err(e)
    case Ok((v, afterValue)) =>
      var u := SkipWs(afterValue);
      if u != [] && u[0] == ']' then Ok(([v], u[1..]))
      else if u != [] && u[0] == ',' then
        match ParseElements(SkipWs(u[1..]))
        case Err(e) => Err(e)
        case Ok((vs, rest)) => Ok(([v] + vs, rest))
      else Err(InvalidJson)
  }

  /** A whole JSON text: one value with optional whitespace around it (RFC 8259, section 2). */
  function ParseText(s: string): Result<Value, ParseError> {
    match ParseValue(SkipWs(s))
    case Err(e) => Err(e)
    case Ok((v, rest)) => if SkipWs(rest) == [] then Ok(v) else Err(InvalidJson)
  }

  /** Text that starts with a character no value can start with, and that is not blank space, is rejected. */
  lemma BadStartRejected(s: string)
    requires s != [] && !IsWs(s[0]) && !IsDigit(s[0])
    requires s[0] != '"' && s[0] != '{' && s[0] != '[' && s[0] != 't' && s[0] != 'f' && s[0] != 'n' && s[0] != '-'
    ensures ParseText(s) == Err(InvalidJson)
  {
    assert SkipWs(s) == s;
    assert |s| >= 4 ==> s[..4][0] == s[0];
    assert |s| >= 5 ==> s[..5][0] == s[0];
  }

  /**
   * The value of member `key`. When a name occurs more than once the last
   * occurrence wins, as when an object is built by putting members into a map
   * one after the other.
   */
  function Get(members: seq<(string, Value)>, key: string): (r: Option<Value>)
    ensures r.None? <==> forall i :: 0 <= i < |members| ==> members[i].0 != key
    ensures r.Some? ==> exists i :: 0 <= i < |members| && members[i] == (key, r.value) &&
                                    forall j :: i < j < |members| ==> members[j].0 != key
    decreases |members|
  {
    if members == [] then None
    else if members[|members| - 1].0 == key then Some(members[|members| - 1].1)
    else Get(members[..|members| - 1], key)
  }

  /** A member appended last is the one `Get` finds for its key. */
  lemma GetAppendHit(members: seq<(string, Value)>, key: string, v: Value)
    ensures Get(members + [(key, v)], key) == Some(v)
  {
    var r := members + [(key, v)];
    assert r[|r| - 1] == (key, v);
  }

  /** A member appended last does not affect lookups of other keys. */
  lemma GetAppendMiss(members: seq<(string, Value)>, k: string, v: Value, key: string)
    requires k != key
    ensures Get(members + [(k, v)], key) == Get(members, key)
  {
    var r := members + [(k, v)];
    assert r[|r| - 1] == (k, v);
    assert r[..|r| - 1] == members;
  }

  // ---------------------------------------------------------------------------
  // Writing a flat object of string members
  // ---------------------------------------------------------------------------

  function WriteMembers(ms: seq<(string, string)>): string
    decreases |ms|
  {
    if ms == [] then []
    else if |ms| == 1 then Quote(ms[0].0) + ":" + Quote(ms[0].1)
    else Quote(ms[0].0) + ":" + Quote(ms[0].1) + "," + WriteMembers(ms[1..])
  }

  /** `{"k1":"v1","k2":"v2",...}` with no insignificant whitespace. */
  function WriteObject(ms: seq<(string, string)>): string {
    "{" + (WriteMembers(ms) + "}")
  }

  /** The members the reader produces for a flat object of strings. */
  function StringMembers(ms: seq<(string, string)>): (r: seq<(string, Value)>)
    ensures |r| == |ms|
    decreases |ms|
  {
    if ms == [] then [] else [(ms[0].0, JString(ms[0].1))] + StringMembers(ms[1..])
  }

  // ---------------------------------------------------------------------------
  // Round trip: the reader gives back what the writer wrote
  // ---------------------------------------------------------------------------

  lemma Assoc(a: string, b: string, c: string)
    ensures (a + b) + c == a + (b + c)
  {
  }

  /** Reading one escaped character back gives the character itself. */
  lemma EscapeCharRoundTrip(c: char, tail: string)
    ensures ParseStringBody(EscapeChar(c) + tail) ==
            match ParseStringBody(tail)
            case Err(e) => Err(e)
            case Ok((t, rest)) => Ok(([c] + t, rest))
  {
    var s := EscapeChar(c) + tail;
    if c == '"' || c == '\\' || c == BACKSPACE || c == FORM_FEED || c == '\n' || c == '\r' || c == '\t' {
      assert s[1..] == EscapeChar(c)[1..] + tail;
      assert ParseEscape(s[1..]) == Ok((c, tail));
    } else if c < ' ' {
      var h1, h2 := HexDigit(c as int / 16), HexDigit(c as int % 16);
      assert s == ['\\', 'u', '0', '0', h1, h2] + tail;
      assert s[1..] == ['u', '0', '0', h1, h2] + tail;
      assert s[2..] == ['0', '0', h1, h2] + tail;
      assert ParseHex4(s[2..]) == Ok((c as int, tail));
      assert ParseEscape(s[1..]) == Ok((c, tail));
    } else {
      assert s == [c] + tail;
      assert s[1..] == tail;
    }
  }

  /** An escaped string followed by its closing quotation mark reads back as the string. */
  lemma {:induction false} StringRoundTrip(s: string, rest: string)
    ensures ParseStringBody(Escape(s) + ("\"" + rest)) == Ok((s, rest))
    decreases |s|
  {
    if s == [] {
      assert Escape(s) + ("\"" + rest) == "\"" + rest;
      assert ("\"" + rest)[1..] == rest;
    } else {
      var tail := Escape(s[1..]) + ("\"" + rest);
      StringRoundTrip(s[1..], rest);
      Assoc(EscapeChar(s[0]), Escape(s[1..]), "\"" + rest);
      EscapeCharRoundTrip(s[0], tail);
      assert [s[0]] + s[1..] == s;
    }
  }

  /** A quoted string reads back as a string value and stops right after the closing quotation mark. */
  lemma QuotedValueRoundTrip(s: string, rest: string)
    ensures ParseValue(Quote(s) + rest) == Ok((JString(s), rest))
  {
    var e := Escape(s);
    Assoc("\"" + e, "\"", rest);
    Assoc("\"", e, "\"" + rest);
    var input := Quote(s) + rest;
    assert input == "\"" + (e + ("\"" + rest));
    assert input[1..] == e + ("\"" + rest);
    StringRoundTrip(s, rest);
  }

  /** One step of `ParseMembers`: a member followed by the closing `}`. */
  lemma ParseLastMember(s: string, name: string, afterName: string, v: Value, afterValue: string)
    requires s != [] && s[0] == '"' && ParseStringBody(s[1..]) == Ok((name, afterName))
    requires afterName != [] && afterName[0] == ':'
    requires SkipWs(afterName[1..]) == afterName[1..] && ParseValue(afterName[1..]) == Ok((v, afterValue))
    requires afterValue != [] && afterValue[0] == '}'
    ensures ParseMembers(s) == Ok(([(name, v)], afterValue[1..]))
  {
  }

  /** One step of `ParseMembers`: a member followed by `,` and further members. */
  lemma ParseNextMember(s: string, name: string, afterName: string, v: Value, afterValue: string,
                        ms: seq<(string, Value)>, rest: string)
    requires s != [] && s[0] == '"' && ParseStringBody(s[1..]) == Ok((name, afterName))
    requires afterName != [] && afterName[0] == ':'
    requires SkipWs(afterName[1..]) == afterName[1..] && ParseValue(afterName[1..]) == Ok((v, afterValue))
    requires afterValue != [] && afterValue[0] == ','
    requires SkipWs(afterValue[1..]) == afterValue[1..] && ParseMembers(afterValue[1..]) == Ok((ms, rest))
    ensures ParseMembers(s) == Ok(([(name, v)] + ms, rest))
  {
  }

  /** What follows the first member's value in `WriteMembers(ms) + tail`. */
  function AfterFirstMember(ms: seq<(string, string)>, tail: string): string
    requires ms != []
  {
    if |ms| == 1 then tail else "," + (WriteMembers(ms[1..]) + tail)
  }

  lemma WriteMembersSplit(ms: seq<(string, string)>, tail: string)
    requires ms != []
    ensures WriteMembers(ms) + tail
         == "\"" + (Escape(ms[0].0) + ("\"" + (":" + (Quote(ms[0].1) + AfterFirstMember(ms, tail)))))
  {
    var e, qv := Escape(ms[0].0), Quote(ms[0].1);
    var qk := Quote(ms[0].0);
    var more := if |ms| == 1 then [] else "," + WriteMembers(ms[1..]);
    assert WriteMembers(ms) == ((qk + ":") + qv) + more;
    assert more + tail == AfterFirstMember(ms, tail) by {
      if |ms| > 1 {
        Assoc(",", WriteMembers(ms[1..]), tail);
      }
    }
    Assoc((qk + ":") + qv, more, tail);
    Assoc(qk + ":", qv, more + tail);
    Assoc(qk, ":", qv + (more + tail));
    var z := ":" + (qv + AfterFirstMember(ms, tail));
    assert WriteMembers(ms) + tail == qk + z;
    Assoc("\"" + e, "\"", z);
    Assoc("\"", e, "\"" + z);
  }

  /** The members the writer emits read back, in order, as string members. */
  lemma {:induction false} MembersRoundTrip(ms: seq<(string, string)>, rest: string)
    requires ms != []
    ensures ParseMembers(WriteMembers(ms) + ("}" + rest)) == Ok((StringMembers(ms), rest))
    decreases |ms|
  {
    var k, v := ms[0].0, ms[0].1;
    var more := AfterFirstMember(ms, "}" + rest);
    var afterName := ":" + (Quote(v) + more);
    var input := WriteMembers(ms) + ("}" + rest);
    WriteMembersSplit(ms, "}" + rest);
    assert input[1..] == Escape(k) + ("\"" + afterName);
    StringRoundTrip(k, afterName);
    assert afterName[1..] == Quote(v) + more;
    QuotedValueRoundTrip(v, more);
    if |ms| == 1 {
      assert more[1..] == rest;
      ParseLastMember(input, k, afterName, JString(v), more);
      assert ms[1..] == [];
      assert StringMembers(ms) == [(k, JString(v))] + StringMembers(ms[1..]);
      assert StringMembers(ms) == [(k, JString(v))];
      assert ParseMembers(input) == Ok(([(k, JString(v))], rest));
    } else {
      var next := WriteMembers(ms[1..]) + ("}" + rest);
      assert more[1..] == next;
      WriteMembersSplit(ms[1..], "}" + rest);
      MembersRoundTrip(ms[1..], rest);
      ParseNextMember(input, k, afterName, JString(v), more, StringMembers(ms[1..]), rest);
    }
  }

  /** Reading an object text whose body parses as members. */
  lemma ParseObjectText(text: string, body: string, ms: seq<(string, Value)>)
    requires text == "{" + body && body != [] && !IsWs(body[0])
    requires if body[0] == '}' then ms == [] && body == "}" else ParseMembers(body) == Ok((ms, []))
    ensures ParseText(text) == Ok(JObject(ms))
  {
    assert SkipWs(text) == text;
    assert text[1..] == body;
    assert ParseValue(text) == ParseObject(body);
  }

  /** Reading what `WriteObject` wrote gives an object holding the same names and strings, in the same order. */
  lemma ObjectRoundTrip(ms: seq<(string, string)>)
    ensures ParseText(WriteObject(ms)) == Ok(JObject(StringMembers(ms)))
  {
    var body := WriteMembers(ms) + "}";
    Assoc("{", WriteMembers(ms), "}");
    if ms != [] {
      assert WriteMembers(ms) + ("}" + []) == body;
      WriteMembersSplit(ms, "}");
      MembersRoundTrip(ms, []);
    }
    ParseObjectText(WriteObject(ms), body, StringMembers(ms));
  }
}
