/** The part of JSON the token store relies on: tokens are written with
    JSON.stringify of a string and read back with JSON.parse (RFC 8259 text,
    as ECMAScript's JSON object reads and writes it). Scalar values are
    modelled; objects and arrays are not. */
module Json {
  import opened Common

  /** A value as JSON.parse returns it. A number keeps its literal text. */
  datatype JsonValue = JNull | JBool(b: bool) | JNum(literal: string) | JStr(s: string)

  /** JavaScript truthiness of a parsed value (what `!!value` yields). */
  function Truthy(v: JsonValue): (b: bool)
    ensures v.JNull? ==> !b
    ensures v.JBool? ==> b == v.b
    ensures v.JStr? ==> (b <==> v.s != "")
    ensures v == JNum("0") || v == JNum("-0") ==> !b
  {
    match v
    case JNull => false
    case JBool(b) => b
    case JNum(t) => HasNonZeroMantissaDigit(t)
    case JStr(s) => s != ""
  }

  // ---------------------------------------------------------------------------
  // Characters

  predicate IsDigit(c: char) {
    '0' <= c <= '9'
  }

  predicate IsHexDigit(c: char) {
    IsDigit(c) || 'a' <= c <= 'f' || 'A' <= c <= 'F'
  }

  function HexValue(c: char): (n: nat)
    requires IsHexDigit(c)
    ensures n < 16
  {
    if IsDigit(c) then c as int - '0' as int
    else if 'a' <= c <= 'f' then c as int - 'a' as int + 10
    else c as int - 'A' as int + 10
  }

  /** The lower-case hexadecimal digit JSON.stringify writes for `n`. */
  function HexDigit(n: nat): (c: char)
    requires n < 16
    ensures IsHexDigit(c) && HexValue(c) == n
  {
    if n < 10 then ('0' as int + n) as char else ('a' as int + n - 10) as char
  }

  /** The insignificant whitespace JSON.parse skips around a value. */
  predicate IsJsonSpace(c: char) {
    c == ' ' || c == '\t' || c == '\n' || c == '\r'
  }

  function StripStart(t: string): (r: string)
    ensures |r| <= |t| && r == t[|t| - |r|..]
    ensures t != [] && !IsJsonSpace(t[0]) ==> r == t
  {
    if t != [] && IsJsonSpace(t[0]) then StripStart(t[1..]) else t
  }

  function StripEnd(t: string): (r: string)
    ensures |r| <= |t| && r == t[..|r|]
    ensures t != [] && !IsJsonSpace(t[|t| - 1]) ==> r == t
  {
    if t != [] && IsJsonSpace(t[|t| - 1]) then StripEnd(t[..|t| - 1]) else t
  }

  // ---------------------------------------------------------------------------
  // Numbers: -? (0 | [1-9][0-9]*) (. [0-9]+)? ([eE] [+-]? [0-9]+)?

  /** The length of the run of digits `s` starts with. */
  function DigitRun(s: string): (n: nat)
    ensures n <= |s|
  {
    if s != [] && IsDigit(s[0]) then 1 + DigitRun(s[1..]) else 0
  }

  /** [0-9]+ and nothing after it. */
  predicate IsDigits(s: string) {
    s != "" && DigitRun(s) == |s|
  }

  /** ([eE] [+-]? [0-9]+)? up to the end. */
  predicate IsExponent(s: string) {
    s == "" ||
    (|s| > 1 && (s[0] == 'e' || s[0] == 'E') && IsDigits(if s[1] == '+' || s[1] == '-' then s[2..] else s[1..]))
  }

  /** (. [0-9]+)? and then the exponent, up to the end. */
  predicate IsFractionAndExponent(s: string) {
    if s != "" && s[0] == '.' then
      var n := DigitRun(s[1..]);
      n > 0 && IsExponent(s[1 + n..])
    else IsExponent(s)
  }

  /** The whole number grammar, read left to right: the digits of the
      integer part are the longest run, and a leading 0 stands alone. */
  predicate IsNumberLiteral(t: string) {
    var u := if t != "" && t[0] == '-' then t[1..] else t;
    var n := DigitRun(u);
    n > 0 && (u[0] != '0' || n == 1) && IsFractionAndExponent(u[n..])
  }

  /** A number literal denotes a non-zero value when a digit before its
      exponent is non-zero. */
  predicate HasNonZeroMantissaDigit(t: string) {
    exists k :: 0 <= k < |t| && '1' <= t[k] <= '9' && 'e' !in t[..k] && 'E' !in t[..k]
  }

  // ---------------------------------------------------------------------------
  // Strings

  /** The character an escape sequence stands for and how many characters
      after the backslash it spans; `t` starts right after the backslash. */
  function ParseEscape(t: string): (r: Option<(char, nat)>)
    ensures r.Some? ==> 1 <= r.value.1 <= |t|
  {
    if t == [] then None
    else if t[0] == '"' || t[0] == '\\' || t[0] == '/' then Some((t[0], 1))
    else if t[0] == 'b' then Some(('\U{0008}', 1))
    else if t[0] == 'f' then Some(('\U{000C}', 1))
    else if t[0] == 'n' then Some(('\n', 1))
    else if t[0] == 'r' then Some(('\r', 1))
    else if t[0] == 't' then Some(('\t', 1))
    else if t[0] == 'u' && |t| >= 5 && IsHexDigit(t[1]) && IsHexDigit(t[2]) && IsHexDigit(t[3]) && IsHexDigit(t[4]) then
      var code := 4096 * HexValue(t[1]) + 256 * HexValue(t[2]) + 16 * HexValue(t[3]) + HexValue(t[4]);
      if 0xD800 <= code < 0xE000 then None else Some((code as char, 5))
    else None
  }

  /** Reads the inside of a string literal up to its closing quote: the decoded
      text and what follows the quote, or None when the literal is malformed. */
  function ParseStringBody(t: string): (r: Option<(string, string)>)
    ensures r.Some? ==> |r.value.1| < |t|
    decreases |t|
  {
    if t == [] then None
    else if t[0] == '"' then Some(([], t[1..]))
    else if t[0] == '\\' then
      match ParseEscape(t[1..])
      case None => None
      case Some((c, n)) => Prepend(c, ParseStringBody(t[1 + n..]))
    else if t[0] < ' ' then None
    else Prepend(t[0], ParseStringBody(t[1..]))
  }

  function Prepend(c: char, r: Option<(string, string)>): Option<(string, string)> {
    match r
    case None => None
    case Some((s, rest)) => Some(([c] + s, rest))
  }

  /** How JSON.stringify writes one character inside a string literal. */
  function EscapeChar(c: char): string {
    if c == '"' then "\\\""
    else if c == '\\' then "\\\\"
    else if c == '\U{0008}' then "\\b"
    else if c == '\U{000C}' then "\\f"
    else if c == '\n' then "\\n"
    else if c == '\r' then "\\r"
    else if c == '\t' then "\\t"
    else if c < ' ' then "\\u00" + [HexDigit(c as int / 16), HexDigit(c as int % 16)]
    else [c]
  }

  function Escape(s: string): string {
    if s == [] then [] else EscapeChar(s[0]) + Escape(s[1..])
  }

  /** JSON.stringify of a string. */
  function Stringify(s: string): (r: string)
    ensures |r| >= 2 && r[0] == '"' && r[|r| - 1] == '"'
  {
    "\"" + Escape(s) + "\""
  }

  /** JSON.parse: the value, or None where JSON.parse throws. */
  function Parse(text: string): (r: Option<JsonValue>)
    ensures text == "" ==> r.None?
  {
    var core := StripEnd(StripStart(text));
    if core == "null" then Some(JNull)
    else if core == "true" then Some(JBool(true))
    else if core == "false" then Some(JBool(false))
    else if core != "" && core[0] == '"' then
      match ParseStringBody(core[1..])
      case Some((s, rest)) => if rest == "" then Some(JStr(s)) else None
      case None => None
    else if IsNumberLiteral(core) then Some(JNum(core))
    else None
  }

  // ---------------------------------------------------------------------------
  // Round trip

  /** The characters JSON.stringify writes as a backslash and one letter. */
  predicate HasShortEscape(c: char) {
    c == '"' || c == '\\' || c == '\U{0008}' || c == '\U{000C}' || c == '\n' || c == '\r' || c == '\t'
  }

  /** One escaped character is read back as that character. */
  lemma EscapeCharRoundTrip(c: char, rest: string)
    ensures ParseStringBody(EscapeChar(c) + rest) == Prepend(c, ParseStringBody(rest))
  {
    if HasShortEscape(c) {
      ShortEscapeRoundTrip(c, rest);
    } else if c < ' ' {
      UnicodeEscapeRoundTrip(c, rest);
    } else {
      var t := EscapeChar(c) + rest;
      assert t[0] == c && t[1..] == rest;
    }
  }

  lemma ShortEscapeRoundTrip(c: char, rest: string)
    requires HasShortEscape(c)
    ensures ParseStringBody(EscapeChar(c) + rest) == Prepend(c, ParseStringBody(rest))
  {
    var t := EscapeChar(c) + rest;
    assert t[0] == '\\' && t[2..] == rest;
    assert ParseEscape(t[1..]) == Some((c, 1));
  }

  lemma UnicodeEscapeRoundTrip(c: char, rest: string)
    requires c < ' ' && !HasShortEscape(c)
    ensures ParseStringBody(EscapeChar(c) + rest) == Prepend(c, ParseStringBody(rest))
  {
    var t := EscapeChar(c) + rest;
    var h1, h2 := HexDigit(c as int / 16), HexDigit(c as int % 16);
    assert t == "\\u00" + [h1, h2] + rest;
    var u := t[1..];
    assert u[0] == 'u' && u[1] == '0' && u[2] == '0' && u[3] == h1 && u[4] == h2;
    assert ParseEscape(u) == Some((c, 5));
    assert t[6..] == rest;
  }

  /** An escaped string followed by a closing quote is read back whole. */
  lemma {:induction false} StringBodyRoundTrip(s: string, rest: string)
    ensures ParseStringBody(Escape(s) + "\"" + rest) == Some((s, rest))
  {
    if s == [] {
      assert Escape(s) + "\"" + rest == "\"" + rest;
      assert ("\"" + rest)[1..] == rest;
    } else {
      var tail := Escape(s[1..]) + "\"" + rest;
      assert Escape(s) == EscapeChar(s[0]) + Escape(s[1..]);
      assert Escape(s) + "\"" + rest == EscapeChar(s[0]) + tail;
      EscapeCharRoundTrip(s[0], tail);
      StringBodyRoundTrip(s[1..], rest);
      assert [s[0]] + s[1..] == s;
    }
  }

  /** A text starting with a quote is none of the keywords. */
  lemma QuotedIsNoKeyword(text: string)
    requires text != "" && text[0] == '"'
    ensures text != "null" && text != "true" && text != "false"
  {
    assert "null"[0] == 'n' && "true"[0] == 't' && "false"[0] == 'f';
  }

  /** A text between quotes whose inside reads as `s` up to its closing
      quote is parsed as the string `s`. */
  lemma ParseQuoted(text: string, s: string)
    requires |text| >= 2 && text[0] == '"' && text[|text| - 1] == '"'
    requires ParseStringBody(text[1..]) == Some((s, ""))
    ensures Parse(text) == Some(JStr(s))
  {
    assert StripEnd(StripStart(text)) == text;
    QuotedIsNoKeyword(text);
  }

  /** JSON.parse(JSON.stringify(s)) is the string `s`. */
  lemma ParseStringify(s: string)
    ensures Parse(Stringify(s)) == Some(JStr(s))
  {
    var text := Stringify(s);
    assert text[1..] == Escape(s) + "\"" + "";
    StringBodyRoundTrip(s, "");
    ParseQuoted(text, s);
  }
}
