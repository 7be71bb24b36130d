/** Go's `%q` verb applied to a string, which formats it as strconv.Quote
    does: a double-quoted literal in which the quote character, the backslash
    and the ASCII control characters are written as escape sequences. Beside
    it, the reading direction: a decoder for such a literal, and the proof
    that the decoder gives back exactly the quoted string together with
    whatever text followed the closing quote. */
module GoQuote {
  import opened Wrappers

  /** The digits of a `\xNN` escape, in the lower case Go writes them. */
  const LowerHex: string := "0123456789abcdef"

  /** How one character is written inside the quotes. */
  function EscapeChar(c: char): (r: string)
    ensures 1 <= |r| <= 4
    ensures r[0] != '"'
    ensures |r| == 1 <==> r == [c]
  {
    var n := c as int;
    if c == '"' || c == '\\' then ['\\', c]
    else if 0x20 <= n < 0x7F || 0x7F < n then [c]
    else if n == 0x07 then "\\a"
    else if n == 0x08 then "\\b"
    else if n == 0x0C then "\\f"
    else if n == 0x0A then "\\n"
    else if n == 0x0D then "\\r"
    else if n == 0x09 then "\\t"
    else if n == 0x0B then "\\v"
    else ['\\', 'x', LowerHex[n / 16], LowerHex[n % 16]]
  }

  /** The body of the quoted form: every character escaped, in order. */
  function Escaped(s: string): (r: string)
    ensures |r| >= |s|
  {
    if s == [] then [] else EscapeChar(s[0]) + Escaped(s[1..])
  }

  /** `fmt.Sprintf("%q", s)` for a string `s`. */
  function Quote(s: string): (r: string)
    ensures |r| >= |s| + 2
    ensures r[0] == '"' && r[|r| - 1] == '"'
  {
    "\"" + Escaped(s) + "\""
  }

  /** The value of a hexadecimal digit of either case. */
  function HexValue(c: char): (r: Option<nat>)
    ensures r.Some? ==> r.value < 16
  {
    if '0' <= c <= '9' then Some(c as int - '0' as int)
    else if 'a' <= c <= 'f' then Some(c as int - 'a' as int + 10)
    else if 'A' <= c <= 'F' then Some(c as int - 'A' as int + 10)
    else None
  }

  /** Reads one (possibly escaped) character from the front of the body of a
      quoted literal; gives the character and the text after it. */
  function DecodeChar(t: string): (r: Option<(char, string)>)
    ensures r.Some? ==> |r.value.1| < |t| && r.value.1 == t[|t| - |r.value.1|..]
  {
    if |t| == 0 then None
    else if t[0] != '\\' then Some((t[0], t[1..]))
    else if |t| < 2 then None
    else
      var e := t[1];
      if e == 'a' then Some((0x07 as char, t[2..]))
      else if e == 'b' then Some((0x08 as char, t[2..]))
      else if e == 'f' then Some((0x0C as char, t[2..]))
      else if e == 'n' then Some((0x0A as char, t[2..]))
      else if e == 'r' then Some((0x0D as char, t[2..]))
      else if e == 't' then Some((0x09 as char, t[2..]))
      else if e == 'v' then Some((0x0B as char, t[2..]))
      else if e == '\\' || e == '"' then Some((e, t[2..]))
      else if e == 'x' && |t| >= 4 && HexValue(t[2]).Some? && HexValue(t[3]).Some? then
        Some(((16 * HexValue(t[2]).value + HexValue(t[3]).value) as char, t[4..]))
      else None
  }

  /** Reads the body of a quoted literal up to and including its closing
      quote; gives the decoded string and the text after the closing quote. */
  function ReadBody(t: string): (r: Option<(string, string)>)
    ensures r.Some? ==> |r.value.1| < |t| && r.value.1 == t[|t| - |r.value.1|..]
    decreases |t|
  {
    if |t| == 0 then None
    else if t[0] == '"' then Some(("", t[1..]))
    else
      match DecodeChar(t)
      case None => None
      case Some((c, u)) =>
        match ReadBody(u)
        case None => None
        case Some((s, rest)) => Some(([c] + s, rest))
  }

  /** Reads a quoted literal from the front of `t`; gives the string it
      denotes and the text after it. */
  function Unquote(t: string): (r: Option<(string, string)>)
    ensures r.Some? ==> |r.value.1| < |t| && r.value.1 == t[|t| - |r.value.1|..]
  {
    if |t| == 0 || t[0] != '"' then None else ReadBody(t[1..])
  }

  lemma HexDigitRoundTrip(k: nat)
    requires k < 16
    ensures HexValue(LowerHex[k]) == Some(k)
  {
  }

  /** Every character's escape sequence decodes to that character, whatever
      text follows it. */
  lemma EscapeCharDecodes(c: char, u: string)
    ensures DecodeChar(EscapeChar(c) + u) == Some((c, u))
  {
    var n := c as int;
    var t := EscapeChar(c) + u;
    if c == '"' || c == '\\' || 0x20 <= n < 0x7F || 0x7F < n {
    } else if n in {0x07, 0x08, 0x09, 0x0A, 0x0B, 0x0C, 0x0D} {
    } else {
      HexDigitRoundTrip(n / 16);
      HexDigitRoundTrip(n % 16);
      assert t[1] == 'x' && t[4..] == u;
    }
  }

  /** The escaped body followed by the closing quote reads back as the
      original string, and the text after the quote is left untouched. */
  lemma {:induction false} ReadBodyOfEscaped(s: string, rest: string)
    ensures ReadBody(Escaped(s) + "\"" + rest) == Some((s, rest))
  {
    if s == [] {
      assert Escaped(s) + "\"" + rest == "\"" + rest;
    } else {
      var head := EscapeChar(s[0]);
      var tail := Escaped(s[1..]) + "\"" + rest;
      var t := head + tail;
      assert Escaped(s) + "\"" + rest == t;
      assert t[0] == head[0] != '"';
      EscapeCharDecodes(s[0], tail);
      ReadBodyOfEscaped(s[1..], rest);
      assert ReadBody(t) == Some(([s[0]] + s[1..], rest));
      assert [s[0]] + s[1..] == s;
    }
  }

  /** Quoting is injective and self-delimiting: the quoted form of `s`,
      followed by any text, reads back as `s` and that text. */
  lemma UnquoteQuote(s: string, rest: string)
    ensures Unquote(Quote(s) + rest) == Some((s, rest))
  {
    var t := Quote(s) + rest;
    assert t[1..] == Escaped(s) + "\"" + rest;
    ReadBodyOfEscaped(s, rest);
  }
}
