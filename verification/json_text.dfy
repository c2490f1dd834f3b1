/**
  The JSON text format as `JSON.stringify` writes it (no indentation) and
  `JSON.parse` reads it, restricted to the values of module Json. The store's
  deep clone is `JSON.parse(JSON.stringify(x))`; its correctness rests on the
  round trip proved here.
 */
module JsonText {
  import opened Wrappers
  import opened Props
  import opened Decimal
  import opened Hex
  import opened Json

  // ----- JSON.stringify -----

  const Backspace: char := 8 as char
  const FormFeed: char := 12 as char

  /** One character of a quoted string, escaped as ECMAScript's QuoteJSONString does. */
  function EscapeChar(c: char): string {
    if c == '"' then ['\\', '"']
    else if c == '\\' then ['\\', '\\']
    else if c == Backspace then ['\\', 'b']
    else if c == '\t' then ['\\', 't']
    else if c == '\n' then ['\\', 'n']
    else if c == FormFeed then ['\\', 'f']
    else if c == '\r' then ['\\', 'r']
    else if (c as int) < 0x20 then ['\\', 'u', '0', '0', HexDigit(c as int / 16), HexDigit(c as int % 16)]
    else [c]
  }

  function Escape(s: string): string {
    if |s| == 0 then "" else EscapeChar(s[0]) + Escape(s[1..])
  }

  function Quote(s: string): string {
    "\"" + Escape(s) + "\""
  }

  /** `JSON.stringify(j)` with no indentation. */
  function Stringify(j: Json): string {
    match j
    case JNull => "null"
    case JBool(b) => if b then "true" else "false"
    case JNumber(n) => IntToDecimal(n)
    case JString(s) => Quote(s)
    case JArray(xs) => "[" + StringifyElements(xs) + "]"
    case JObject(ms) => "{" + StringifyMembers(ms) + "}"
  }

  function StringifyElements(xs: seq<Json>): string {
    if |xs| == 0 then ""
    else if |xs| == 1 then Stringify(xs[0])
    else Stringify(xs[0]) + "," + StringifyElements(xs[1..])
  }

  function StringifyMember(m: Prop<Json>): string {
    Quote(m.key) + ":" + Stringify(m.value)
  }

  function StringifyMembers(ms: seq<Prop<Json>>): string {
    if |ms| == 0 then ""
    else if |ms| == 1 then StringifyMember(ms[0])
    else StringifyMember(ms[0]) + "," + StringifyMembers(ms[1..])
  }

  // ----- JSON.parse -----

  predicate IsWhitespace(c: char) {
    c == ' ' || c == '\t' || c == '\n' || c == '\r'
  }

  function SkipWhitespace(s: string): (r: string)
    ensures |r| <= |s|
    ensures |r| == 0 || !IsWhitespace(r[0])
  {
    if |s| > 0 && IsWhitespace(s[0]) then SkipWhitespace(s[1..]) else s
  }

  /** A parse of a prefix: the value read and the text after it. */
  type Parsed<T> = Result<(T, string), JsError>

  /** The character a one-letter escape `\x` stands for. */
  function Unescape(e: char): Option<char> {
    if e == '"' then Some('"')
    else if e == '\\' then Some('\\')
    else if e == '/' then Some('/')
    else if e == 'b' then Some(Backspace)
    else if e == 'f' then Some(FormFeed)
    else if e == 'n' then Some('\n')
    else if e == 'r' then Some('\r')
    else if e == 't' then Some('\t')
    else None
  }

  /** The body of a string literal, after its opening quote, up to and past its closing quote. */
  function ParseString(s: string): (r: Parsed<string>)
    ensures r.Success? ==> |r.value.1| < |s|
    decreases |s|
  {
    if |s| == 0 then Failure(SyntaxError)
    else if s[0] == '"' then Success(("", s[1..]))
    else if s[0] == '\\' then
      if |s| < 2 then Failure(SyntaxError)
      else if s[1] == 'u' then
        if |s| < 6 || !IsHexDigit(s[2]) || !IsHexDigit(s[3]) || !IsHexDigit(s[4]) || !IsHexDigit(s[5]) then
          Failure(SyntaxError)
        else
          var code := ((HexValue(s[2]) * 16 + HexValue(s[3])) * 16 + HexValue(s[4])) * 16 + HexValue(s[5]);
          if 0xD800 <= code < 0xE000 then Failure(Unmodelled)
          else
            var p :- ParseString(s[6..]);
            Success(([code as char] + p.0, p.1))
      else
        match Unescape(s[1])
        case None => Failure(SyntaxError)
        case Some(c) =>
          var p :- ParseString(s[2..]);
          Success(([c] + p.0, p.1))
    else if (s[0] as int) < 0x20 then Failure(SyntaxError)
    else
      var p :- ParseString(s[1..]);
      Success(([s[0]] + p.0, p.1))
  }

  /** The longest prefix of decimal digits. */
  function DigitPrefix(s: string): (d: string)
    ensures AllDigits(d) && |d| <= |s| && d == s[..|d|]
  {
    if |s| > 0 && IsDigit(s[0]) then [s[0]] + DigitPrefix(s[1..]) else ""
  }

  /**
    Whether `s`, the text after a numeral's exponent marker `e` or `E`, holds
    an optional sign and at least one digit.
   */
  predicate ExponentDigits(s: string) {
    var u := if |s| > 0 && (s[0] == '+' || s[0] == '-') then s[1..] else s;
    |u| > 0 && IsDigit(u[0])
  }

  /**
    Whether `rest`, the text after a numeral's integer part, begins the rest
    of a well-formed JSON number: a fraction `.` with at least one digit,
    then optionally an exponent, or an exponent alone.
   */
  predicate FractionOrExponent(rest: string) {
    if |rest| == 0 then false
    else if rest[0] == 'e' || rest[0] == 'E' then ExponentDigits(rest[1..])
    else if rest[0] == '.' then
      var f := DigitPrefix(rest[1..]);
      var after := rest[1 + |f|..];
      |f| > 0 && (|after| == 0 || (after[0] != 'e' && after[0] != 'E') || ExponentDigits(after[1..]))
    else false
  }

  /**
    A JSON number. Its integer part is an optional minus, then `0` or a digit
    string without leading zero. A well-formed fraction or exponent after it
    is a number outside this model; a malformed one is a syntax error.
   */
  function ParseNumber(s: string): (r: Parsed<Json>)
    ensures r.Success? ==> |r.value.1| < |s|
  {
    var neg := |s| > 0 && s[0] == '-';
    var t := if neg then s[1..] else s;
    var ds := DigitPrefix(t);
    if |ds| == 0 || (ds[0] == '0' && |ds| > 1) then Failure(SyntaxError)
    else NumberEnd(neg, ds, t[|ds|..])
  }

  /** The end of a number whose sign and integer digits `ds` have been read. */
  function NumberEnd(neg: bool, ds: string, rest: string): (r: Parsed<Json>)
    requires AllDigits(ds)
    ensures r.Success? ==> r.value.1 == rest
  {
    if |rest| > 0 && (rest[0] == '.' || rest[0] == 'e' || rest[0] == 'E') then
      if FractionOrExponent(rest) then Failure(Unmodelled) else Failure(SyntaxError)
    else
      var v: int := DigitsValue(ds);
      Success((JNumber(if neg then -v else v), rest))
  }

  function ParseLiteral(s: string, word: string, v: Json): (r: Parsed<Json>)
    requires |word| > 0
    ensures r.Success? ==> |r.value.1| < |s|
  {
    if |s| >= |word| && s[..|word|] == word then Success((v, s[|word|..])) else Failure(SyntaxError)
  }

  /** One JSON value, after optional whitespace. */
  function ParseValue(s: string): (r: Parsed<Json>)
    ensures r.Success? ==> |r.value.1| < |s| && WellFormed(r.value.0)
    decreases |s|, 0
  {
    var t := SkipWhitespace(s);
    if |t| == 0 then Failure(SyntaxError)
    else if t[0] == 'n' then ParseLiteral(t, "null", JNull)
    else if t[0] == 't' then ParseLiteral(t, "true", JBool(true))
    else if t[0] == 'f' then ParseLiteral(t, "false", JBool(false))
    else if t[0] == '"' then
      var p :- ParseString(t[1..]);
      Success((JString(p.0), p.1))
    else if t[0] == '[' then ParseArray(t[1..])
    else if t[0] == '{' then ParseObject(t[1..])
    else if t[0] == '-' || IsDigit(t[0]) then ParseNumber(t)
    else Failure(SyntaxError)
  }

  /** An array, after its `[`. */
  function ParseArray(s: string): (r: Parsed<Json>)
    ensures r.Success? ==> |r.value.1| < |s| && WellFormed(r.value.0)
    decreases |s|, 2
  {
    var u := SkipWhitespace(s);
    if |u| > 0 && u[0] == ']' then Success((JArray([]), u[1..])) else ParseElements(u, [])
  }

  /** An object, after its `{`. */
  function ParseObject(s: string): (r: Parsed<Json>)
    ensures r.Success? ==> |r.value.1| < |s| && WellFormed(r.value.0)
    decreases |s|, 2
  {
    var u := SkipWhitespace(s);
    if |u| > 0 && u[0] == '}' then Success((EmptyObject, u[1..])) else ParseMembers(u, [])
  }

  predicate AllWellFormed(xs: seq<Json>) {
    forall i | 0 <= i < |xs| :: WellFormed(xs[i])
  }

  /** The elements of a non-empty array, after `[`, with `acc` already read. */
  function ParseElements(s: string, acc: seq<Json>): (r: Parsed<Json>)
    ensures r.Success? ==> |r.value.1| < |s|
    ensures r.Success? && AllWellFormed(acc) ==> WellFormed(r.value.0)
    decreases |s|, 1
  {
    var p :- ParseValue(s);
    var u := SkipWhitespace(p.1);
    if |u| > 0 && u[0] == ',' then ParseElements(u[1..], acc + [p.0])
    else if |u| > 0 && u[0] == ']' then Success((JArray(acc + [p.0]), u[1..]))
    else Failure(SyntaxError)
  }

  predicate MembersWellFormed(ms: seq<Prop<Json>>) {
    DistinctKeys(ms) && forall i | 0 <= i < |ms| :: WellFormed(ms[i].value)
  }

  /**
    The members of a non-empty object, after `{`, with `acc` already read. A
    repeated key keeps its first position and takes the later value, as
    JSON.parse's CreateDataProperty does.
   */
  function ParseMembers(s: string, acc: seq<Prop<Json>>): (r: Parsed<Json>)
    ensures r.Success? ==> |r.value.1| < |s|
    ensures r.Success? && MembersWellFormed(acc) ==> WellFormed(r.value.0)
    decreases |s|, 1
  {
    var t := SkipWhitespace(s);
    if |t| == 0 || t[0] != '"' then Failure(SyntaxError)
    else
      var k :- ParseString(t[1..]);
      var u := SkipWhitespace(k.1);
      if |u| == 0 || u[0] != ':' then Failure(SyntaxError)
      else
        var v :- ParseValue(u[1..]);
        var members := Put(acc, k.0, v.0);
        var w := SkipWhitespace(v.1);
        PutWellFormed(acc, k.0, v.0);
        if |w| > 0 && w[0] == ',' then ParseMembers(w[1..], members)
        else if |w| > 0 && w[0] == '}' then Success((JObject(members), w[1..]))
        else Failure(SyntaxError)
  }

  /** Putting a well-formed value into well-formed members keeps them well formed. */
  lemma PutWellFormed(ms: seq<Prop<Json>>, k: string, v: Json)
    ensures MembersWellFormed(ms) && WellFormed(v) ==> MembersWellFormed(Put(ms, k, v))
  {
    if MembersWellFormed(ms) && WellFormed(v) {
      PutDistinct(ms, k, v);
      var r := Put(ms, k, v);
      if HasKey(ms, k) {
        var i := IndexOf(ms, k).value;
        assert r == ms[i := Prop(k, v)];
      }
    }
  }

  /** `JSON.parse(text)`: one value, surrounded by optional whitespace. */
  function Parse(text: string): (r: Result<Json, JsError>)
    ensures r.Success? ==> WellFormed(r.value)
  {
    var p :- ParseValue(text);
    if |SkipWhitespace(p.1)| == 0 then Success(p.0) else Failure(SyntaxError)
  }

  /** A well-formed number with a fraction or an exponent is outside the model. */
  lemma NumberOutsideModel()
    ensures Parse("1.5") == Failure(Unmodelled)
    ensures Parse("-2e+7") == Failure(Unmodelled)
  {
    assert DigitPrefix("5") == "5";
    assert DigitPrefix("2e+7") == "2";
  }

  /** A numeral whose fraction or exponent has no digits is a syntax error, as `JSON.parse` reports it. */
  lemma MalformedNumberIsSyntaxError()
    ensures Parse("1.") == Failure(SyntaxError)
    ensures Parse("1e") == Failure(SyntaxError)
    ensures Parse("[1.]") == Failure(SyntaxError)
  {
    assert DigitPrefix("1.") == "1";
    assert DigitPrefix("1e") == "1";
    assert DigitPrefix("1.]") == "1";
  }

  // ----- Round trip -----

  /** What may follow a value inside a JSON text: nothing, or a separator or closer. */
  predicate Delimited(rest: string) {
    |rest| == 0 || rest[0] == ',' || rest[0] == ']' || rest[0] == '}'
  }

  /** A parse result with `c` put in front of the string read. */
  function Prepend(c: char, r: Parsed<string>): Parsed<string> {
    match r
    case Success(p) => Success(([c] + p.0, p.1))
    case Failure(e) => Failure(e)
  }

  /** Parsing the escape of one character yields that character. */
  lemma ParseEscapedChar(c: char, t: string)
    ensures ParseString(EscapeChar(c) + t) == Prepend(c, ParseString(t))
  {
    if c == '"' || c == '\\' || c == Backspace || c == '\t' || c == '\n' || c == FormFeed || c == '\r' {
      ParseShortEscape(c, t);
    } else if (c as int) < 0x20 {
      ParseUnicodeEscape(c, t);
    } else {
      var s := EscapeChar(c) + t;
      assert s[1..] == t;
    }
  }

  lemma ParseShortEscape(c: char, t: string)
    requires c == '"' || c == '\\' || c == Backspace || c == '\t' || c == '\n' || c == FormFeed || c == '\r'
    ensures ParseString(EscapeChar(c) + t) == Prepend(c, ParseString(t))
  {
    var s := EscapeChar(c) + t;
    assert s[0] == '\\' && s[1] != 'u' && Unescape(s[1]) == Some(c);
    assert s[2..] == t;
  }

  lemma ParseUnicodeEscape(c: char, t: string)
    requires (c as int) < 0x20
    requires c != Backspace && c != '\t' && c != '\n' && c != FormFeed && c != '\r'
    ensures ParseString(EscapeChar(c) + t) == Prepend(c, ParseString(t))
  {
    var s := EscapeChar(c) + t;
    assert s[0] == '\\' && s[1] == 'u';
    assert s[6..] == t;
    var code := ((HexValue(s[2]) * 16 + HexValue(s[3])) * 16 + HexValue(s[4])) * 16 + HexValue(s[5]);
    assert code == c as int;
  }

  lemma {:induction false} StringRoundTrip(str: string, rest: string)
    ensures ParseString(Escape(str) + "\"" + rest) == Success((str, rest))
  {
    if |str| == 0 {
      assert Escape(str) + "\"" + rest == "\"" + rest;
    } else {
      var t := Escape(str[1..]) + "\"" + rest;
      assert Escape(str) + "\"" + rest == EscapeChar(str[0]) + t;
      StringRoundTrip(str[1..], rest);
      ParseEscapedChar(str[0], t);
      assert [str[0]] + str[1..] == str;
      assert Prepend(str[0], Success((str[1..], rest))) == Success((str, rest));
    }
  }

  lemma {:induction false} DigitPrefixOf(ds: string, rest: string)
    requires AllDigits(ds)
    requires |rest| == 0 || !IsDigit(rest[0])
    ensures DigitPrefix(ds + rest) == ds
  {
    if |ds| > 0 {
      assert (ds + rest)[1..] == ds[1..] + rest;
      DigitPrefixOf(ds[1..], rest);
      assert [ds[0]] + ds[1..] == ds;
    } else {
      assert ds + rest == rest;
    }
  }

  /** `ParseNumber` on text that starts with the digit string `ds`, followed by `rest`. */
  lemma ParseUnsigned(t: string, ds: string, rest: string)
    requires |t| > 0 && IsDigit(t[0])
    requires DigitPrefix(t) == ds && t[|ds|..] == rest
    requires |ds| > 0 && !(ds[0] == '0' && |ds| > 1)
    requires Delimited(rest)
    ensures ParseNumber(t) == Success((JNumber(DigitsValue(ds)), rest))
  {
    assert ParseNumber(t) == NumberEnd(false, ds, rest);
  }

  /** `ParseNumber` on a minus, then the digit string `ds`, then `rest`. */
  lemma ParseNegative(t: string, ds: string, rest: string)
    requires DigitPrefix(t) == ds && t[|ds|..] == rest
    requires |ds| > 0 && !(ds[0] == '0' && |ds| > 1)
    requires Delimited(rest)
    ensures var v: int := DigitsValue(ds); ParseNumber("-" + t) == Success((JNumber(-v), rest))
  {
    assert ("-" + t)[1..] == t;
    assert ParseNumber("-" + t) == NumberEnd(true, ds, rest);
  }

  lemma NumberRoundTrip(n: int, rest: string)
    requires Delimited(rest)
    ensures ParseNumber(IntToDecimal(n) + rest) == Success((JNumber(n), rest))
  {
    if n < 0 {
      NegativeRoundTrip(-n, rest);
      assert IntToDecimal(n) == "-" + NatToDecimal(-n);
    } else {
      UnsignedRoundTrip(n, rest);
    }
  }

  lemma UnsignedRoundTrip(m: nat, rest: string)
    requires Delimited(rest)
    ensures ParseNumber(NatToDecimal(m) + rest) == Success((JNumber(m), rest))
  {
    var ds := NatToDecimal(m);
    var t := ds + rest;
    DigitPrefixOf(ds, rest);
    DecimalRoundTrip(m);
    assert t[|ds|..] == rest;
    assert t[0] == ds[0];
    ParseUnsigned(t, ds, rest);
  }

  lemma NegativeRoundTrip(m: nat, rest: string)
    requires m > 0 && Delimited(rest)
    ensures ParseNumber("-" + NatToDecimal(m) + rest) == Success((JNumber(-(m as int)), rest))
  {
    var ds := NatToDecimal(m);
    var t := ds + rest;
    DigitPrefixOf(ds, rest);
    DecimalRoundTrip(m);
    assert t[|ds|..] == rest;
    ParseNegative(t, ds, rest);
    assert "-" + NatToDecimal(m) + rest == "-" + t;
  }

  /** The first character of a value's text: never whitespace, a separator or a closer. */
  predicate StartsValue(c: char) {
    c == 'n' || c == 't' || c == 'f' || c == '"' || c == '[' || c == '{' || c == '-' || IsDigit(c)
  }

  lemma StringifyStart(j: Json)
    ensures |Stringify(j)| > 0 && StartsValue(Stringify(j)[0])
  {
    match j
    case JNumber(n) =>
      if n >= 0 {
        assert IsDigit(NatToDecimal(n)[0]);
      }
    case _ =>
  }

  lemma StringifyElementsStart(xs: seq<Json>)
    requires |xs| > 0
    ensures |StringifyElements(xs)| > 0 && StartsValue(StringifyElements(xs)[0])
  {
    StringifyStart(xs[0]);
  }

  /** How `ParseValue` proceeds on text that starts with a value. */
  lemma ParseValueDispatch(s: string)
    requires |s| > 0 && StartsValue(s[0])
    ensures s[0] == 'n' ==> ParseValue(s) == ParseLiteral(s, "null", JNull)
    ensures s[0] == 't' ==> ParseValue(s) == ParseLiteral(s, "true", JBool(true))
    ensures s[0] == 'f' ==> ParseValue(s) == ParseLiteral(s, "false", JBool(false))
    ensures s[0] == '"' ==>
      ParseValue(s) == (match ParseString(s[1..])
                        case Success(p) => Success((JString(p.0), p.1))
                        case Failure(e) => Failure(e))
    ensures s[0] == '[' ==> ParseValue(s) == ParseArray(s[1..])
    ensures s[0] == '{' ==> ParseValue(s) == ParseObject(s[1..])
    ensures s[0] == '-' || IsDigit(s[0]) ==> ParseValue(s) == ParseNumber(s)
  {
    assert SkipWhitespace(s) == s;
  }

  /** The round trip of a value that is neither an array nor an object. */
  lemma ScalarRoundTrip(j: Json, rest: string)
    requires !j.JArray? && !j.JObject?
    requires Delimited(rest)
    ensures ParseValue(Stringify(j) + rest) == Success((j, rest))
  {
    var s := Stringify(j) + rest;
    StringifyStart(j);
    ParseValueDispatch(s);
    match j
    case JNull =>
      assert s[..4] == "null" && s[4..] == rest;
    case JBool(b) =>
      if b {
        assert s[..4] == "true" && s[4..] == rest;
      } else {
        assert s[..5] == "false" && s[5..] == rest;
      }
    case JNumber(n) =>
      NumberRoundTrip(n, rest);
    case JString(str) =>
      assert s[1..] == Escape(str) + "\"" + rest;
      StringRoundTrip(str, rest);
  }

  /** `JSON.parse` reads back what `JSON.stringify` wrote, up to whatever follows. */
  lemma {:induction false} ValueRoundTrip(j: Json, rest: string)
    requires WellFormed(j)
    requires Delimited(rest)
    ensures ParseValue(Stringify(j) + rest) == Success((j, rest))
    decreases j, 0
  {
    var s := Stringify(j) + rest;
    match j
    case JArray(xs) =>
      assert s[0] == '[' && s[1..] == StringifyElements(xs) + "]" + rest;
      ParseValueDispatch(s);
      ArrayRoundTrip(xs, rest);
      assert ParseValue(s) == ParseArray(StringifyElements(xs) + "]" + rest);
    case JObject(ms) =>
      assert s[0] == '{' && s[1..] == StringifyMembers(ms) + "}" + rest;
      ParseValueDispatch(s);
      ObjectRoundTrip(ms, rest);
      assert ParseValue(s) == ParseObject(StringifyMembers(ms) + "}" + rest);
    case _ =>
      ScalarRoundTrip(j, rest);
  }

  lemma {:induction false} ArrayRoundTrip(xs: seq<Json>, rest: string)
    requires AllWellFormed(xs)
    ensures ParseArray(StringifyElements(xs) + "]" + rest) == Success((JArray(xs), rest))
    decreases xs, 2
  {
    var u := StringifyElements(xs) + "]" + rest;
    if |xs| == 0 {
      assert u == "]" + rest;
      assert u[1..] == rest;
    } else {
      StringifyElementsStart(xs);
      assert SkipWhitespace(u) == u;
      ElementsRoundTrip(xs, [], rest);
      assert [] + xs == xs;
    }
  }

  lemma {:induction false} ObjectRoundTrip(ms: seq<Prop<Json>>, rest: string)
    requires MembersWellFormed(ms)
    ensures ParseObject(StringifyMembers(ms) + "}" + rest) == Success((JObject(ms), rest))
    decreases ms, 2
  {
    var u := StringifyMembers(ms) + "}" + rest;
    if |ms| == 0 {
      assert u == "}" + rest;
      assert u[1..] == rest;
    } else {
      MembersRoundTrip(ms, [], rest);
      assert [] + ms == ms;
    }
  }

  lemma {:induction false} ElementsRoundTrip(xs: seq<Json>, acc: seq<Json>, rest: string)
    requires |xs| > 0 && AllWellFormed(xs)
    ensures ParseElements(StringifyElements(xs) + "]" + rest, acc) == Success((JArray(acc + xs), rest))
    decreases xs, 1
  {
    var after := ElementsShape(xs, rest);
    var s := Stringify(xs[0]) + after;
    ValueRoundTrip(xs[0], after);
    ParseElementsStep(s, acc, xs[0], after);
    if |xs| > 1 {
      ElementsRoundTrip(xs[1..], acc + [xs[0]], rest);
      assert ParseElements(s, acc) == Success((JArray(acc + [xs[0]] + xs[1..]), rest));
      assert acc + [xs[0]] + xs[1..] == acc + xs;
    } else {
      assert ParseElements(s, acc) == Success((JArray(acc + [xs[0]]), rest));
      assert acc + [xs[0]] == acc + xs;
    }
  }

  /** The text of an element list: the first element, then `]` or `,` and the rest. */
  lemma ElementsShape(xs: seq<Json>, rest: string) returns (after: string)
    requires |xs| > 0 && AllWellFormed(xs)
    ensures StringifyElements(xs) + "]" + rest == Stringify(xs[0]) + after
    ensures |after| > 0 && SkipWhitespace(after) == after && Delimited(after) && WellFormed(xs[0])
    ensures |xs| == 1 ==> after[0] == ']' && after[1..] == rest
    ensures |xs| > 1 ==> after[0] == ',' && after[1..] == StringifyElements(xs[1..]) + "]" + rest
    ensures |xs| > 1 ==> AllWellFormed(xs[1..])
  {
    if |xs| == 1 {
      after := "]" + rest;
    } else {
      after := "," + (StringifyElements(xs[1..]) + "]" + rest);
      assert forall i | 0 <= i < |xs| - 1 :: xs[1..][i] == xs[i + 1];
    }
  }

  /** How `ParseElements` proceeds once an element has been read. */
  lemma ParseElementsStep(s: string, acc: seq<Json>, v: Json, after: string)
    requires ParseValue(s) == Success((v, after))
    requires |after| > 0 && SkipWhitespace(after) == after
    ensures after[0] == ',' ==> ParseElements(s, acc) == ParseElements(after[1..], acc + [v])
    ensures after[0] == ']' ==> ParseElements(s, acc) == Success((JArray(acc + [v]), after[1..]))
  {
  }

  lemma {:induction false} MembersRoundTrip(ms: seq<Prop<Json>>, acc: seq<Prop<Json>>, rest: string)
    requires |ms| > 0
    requires DistinctKeys(acc + ms)
    requires forall i | 0 <= i < |ms| :: WellFormed(ms[i].value)
    ensures ParseMembers(StringifyMembers(ms) + "}" + rest, acc) == Success((JObject(acc + ms), rest))
    decreases ms, 1
  {
    var m := ms[0];
    MembersSplit(acc, ms);
    var after := MembersShape(ms, rest);
    MemberStep(m, after, acc);
    if |ms| > 1 {
      MembersRoundTrip(ms[1..], acc + [m], rest);
    }
  }

  /** The text of a member list: the first member, then `}` or `,` and the rest. */
  lemma MembersShape(ms: seq<Prop<Json>>, rest: string) returns (after: string)
    requires |ms| > 0
    ensures StringifyMembers(ms) + "}" + rest == StringifyMember(ms[0]) + after
    ensures |ms| == 1 ==> |after| > 0 && after[0] == '}' && after[1..] == rest
    ensures |ms| > 1 ==> |after| > 0 && after[0] == ',' && after[1..] == StringifyMembers(ms[1..]) + "}" + rest
  {
    if |ms| == 1 {
      after := "}" + rest;
    } else {
      after := "," + (StringifyMembers(ms[1..]) + "}" + rest);
    }
  }

  /** Splitting off the first member keeps the keys distinct and the values well formed. */
  lemma MembersSplit(acc: seq<Prop<Json>>, ms: seq<Prop<Json>>)
    requires |ms| > 0 && DistinctKeys(acc + ms)
    requires forall i | 0 <= i < |ms| :: WellFormed(ms[i].value)
    ensures !HasKey(acc, ms[0].key) && WellFormed(ms[0].value)
    ensures acc + [ms[0]] + ms[1..] == acc + ms
    ensures |ms| == 1 ==> acc + [ms[0]] == acc + ms
    ensures forall i | 0 <= i < |ms[1..]| :: WellFormed(ms[1..][i].value)
  {
    assert (acc + ms)[|acc|] == ms[0];
    assert forall i | 0 <= i < |acc| :: (acc + ms)[i] == acc[i];
    assert forall i | 0 <= i < |ms| - 1 :: ms[1..][i] == ms[i + 1];
  }

  /** One member, `"key":value`, followed by `,` or `}`. */
  lemma MemberStep(m: Prop<Json>, after: string, acc: seq<Prop<Json>>)
    requires |after| > 0 && (after[0] == ',' || after[0] == '}')
    requires !HasKey(acc, m.key) && WellFormed(m.value)
    ensures after[0] == ',' ==> ParseMembers(StringifyMember(m) + after, acc) == ParseMembers(after[1..], acc + [m])
    ensures after[0] == '}' ==> ParseMembers(StringifyMember(m) + after, acc) == Success((JObject(acc + [m]), after[1..]))
    decreases m, 1
  {
    var afterKey := MemberText(m, after);
    ParseMembersStep(StringifyMember(m) + after, acc, m.key, afterKey, m.value, after);
    assert Put(acc, m.key, m.value) == acc + [m];
  }

  /** The text of a member followed by `,` or `}` meets the hypotheses of `ParseMembersStep`. */
  lemma MemberText(m: Prop<Json>, after: string) returns (afterKey: string)
    requires |after| > 0 && (after[0] == ',' || after[0] == '}')
    requires WellFormed(m.value)
    ensures var s := StringifyMember(m) + after;
      && |s| > 0 && s[0] == '"' && SkipWhitespace(s) == s
      && ParseString(s[1..]) == Success((m.key, afterKey))
      && |afterKey| > 0 && afterKey[0] == ':' && SkipWhitespace(afterKey) == afterKey
      && ParseValue(afterKey[1..]) == Success((m.value, after))
      && SkipWhitespace(after) == after
    decreases m, 0
  {
    var value := Stringify(m.value);
    afterKey := ":" + (value + after);
    MemberShape(m.key, value, after);
    StringRoundTrip(m.key, afterKey);
    assert afterKey[1..] == value + after;
    ValueRoundTrip(m.value, after);
  }

  /** Where the key, the colon and the value sit in a member's text. */
  lemma MemberShape(key: string, value: string, after: string)
    ensures var s := Quote(key) + ":" + value + after;
      |s| > 0 && s[0] == '"' && s[1..] == Escape(key) + "\"" + (":" + (value + after))
  {
    var s := Quote(key) + ":" + value + after;
    assert s == "\"" + (Escape(key) + "\"" + (":" + (value + after)));
  }

  /** How `ParseMembers` proceeds once the key, the colon and the value have been read. */
  lemma ParseMembersStep(s: string, acc: seq<Prop<Json>>, key: string, afterKey: string, v: Json, after: string)
    requires |s| > 0 && s[0] == '"' && SkipWhitespace(s) == s
    requires ParseString(s[1..]) == Success((key, afterKey))
    requires |afterKey| > 0 && afterKey[0] == ':' && SkipWhitespace(afterKey) == afterKey
    requires ParseValue(afterKey[1..]) == Success((v, after))
    requires |after| > 0 && SkipWhitespace(after) == after
    ensures after[0] == ',' ==> ParseMembers(s, acc) == ParseMembers(after[1..], Put(acc, key, v))
    ensures after[0] == '}' ==> ParseMembers(s, acc) == Success((JObject(Put(acc, key, v)), after[1..]))
  {
  }

  /** `JSON.parse(JSON.stringify(j))` is `j` for every JavaScript JSON value. */
  lemma RoundTrip(j: Json)
    ensures WellFormed(j) ==> Parse(Stringify(j)) == Success(j)
  {
    if WellFormed(j) {
      ValueRoundTrip(j, "");
      assert Stringify(j) + "" == Stringify(j);
    }
  }
}
