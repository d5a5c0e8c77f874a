/** JSON string literals as JSON.stringify prints them and JSON.parse reads them (section 7 of RFC 8259). */
module JsonText {
  import opened Text

  const HEX_DIGITS := "0123456789abcdef"

  function HexDigit(n: nat): char
    requires n < 16
  {
    HEX_DIGITS[n]
  }

  function HexValue(c: char): (r: Option<nat>)
    ensures r.Some? ==> r.value < 16
  {
    if '0' <= c <= '9' then Some(c as int - '0' as int)
    else if 'a' <= c <= 'f' then Some(c as int - 'a' as int + 10)
    else if 'A' <= c <= 'F' then Some(c as int - 'A' as int + 10)
    else None
  }

  /** One character inside a printed literal. */
  function EscapeChar(c: char): (r: string)
    ensures r != ""
  {
    if c == '"' then "\\\""
    else if c == '\\' then "\\\\"
    else if c == '\U{0008}' then "\\b"
    else if c == '\t' then "\\t"
    else if c == '\n' then "\\n"
    else if c == '\U{000C}' then "\\f"
    else if c == '\r' then "\\r"
    else if c < ' ' then "\\u00" + [HexDigit(c as int / 16), HexDigit(c as int % 16)]
    else [c]
  }

  function EscapeBody(s: string): string {
    if s == "" then "" else EscapeChar(s[0]) + EscapeBody(s[1..])
  }

  function Quote(s: string): string {
    "\"" + EscapeBody(s) + "\""
  }

  /**
   * Reads the rest of a literal after its opening quote: the closing quote must end the text.
   * A \u escape of a surrogate code unit is not read.
   */
  function ReadBody(t: string): (r: Option<string>)
  {
    if t == "" then None
    else if t[0] == '"' then (if |t| == 1 then Some("") else None)
    else if t[0] == '\\' then
      if |t| < 2 then None
      else if t[1] == 'u' then
        (if |t| < 6 then None
         else match CodeUnit(t[2..6])
           case None => None
           case Some(n) =>
             if 0xD800 <= n < 0xE000 then None else Prepend(n as char, ReadBody(t[6..])))
      else match SimpleEscape(t[1])
        case None => None
        case Some(c) => Prepend(c, ReadBody(t[2..]))
    else if t[0] < ' ' then None
    else Prepend(t[0], ReadBody(t[1..]))
  }

  function Prepend(c: char, rest: Option<string>): Option<string> {
    match rest
    case None => None
    case Some(s) => Some([c] + s)
  }

  function SimpleEscape(c: char): Option<char> {
    if c == '"' || c == '\\' || c == '/' then Some(c)
    else if c == 'b' then Some('\U{0008}')
    else if c == 't' then Some('\t')
    else if c == 'n' then Some('\n')
    else if c == 'f' then Some('\U{000C}')
    else if c == 'r' then Some('\r')
    else None
  }

  function CodeUnit(h: string): (r: Option<nat>)
    requires |h| == 4
    ensures r.Some? ==> r.value < 0x10000
  {
    match (HexValue(h[0]), HexValue(h[1]), HexValue(h[2]), HexValue(h[3]))
    case (Some(a), Some(b), Some(c), Some(d)) => Some(((a * 16 + b) * 16 + c) * 16 + d)
    case _ => None
  }

  function Unquote(t: string): Option<string> {
    if t != "" && t[0] == '"' then ReadBody(t[1..]) else None
  }

  lemma HexRoundTrip(n: nat)
    requires n < 16
    ensures HexValue(HexDigit(n)) == Some(n)
  {
    assert HEX_DIGITS[n] == if n < 10 then ('0' as int + n) as char else ('a' as int + n - 10) as char;
  }

  lemma ReadEscapedChar(c: char, rest: string)
    ensures ReadBody(EscapeChar(c) + rest) == Prepend(c, ReadBody(rest))
  {
    if |EscapeChar(c)| == 6 {
      ReadControl(c, rest);
    } else if |EscapeChar(c)| == 2 {
      ReadPair(EscapeChar(c)[1], c, rest);
      assert EscapeChar(c) == ['\\', EscapeChar(c)[1]];
    } else {
      assert ([c] + rest)[1..] == rest;
    }
  }

  lemma ReadPair(e: char, c: char, rest: string)
    requires SimpleEscape(e) == Some(c)
    ensures ReadBody(['\\', e] + rest) == Prepend(c, ReadBody(rest))
  {
    var t := ['\\', e] + rest;
    assert t[0] == '\\' && t[1] == e && t[2..] == rest;
  }

  lemma ReadControl(c: char, rest: string)
    requires c < ' '
    ensures ReadBody("\\u00" + [HexDigit(c as int / 16), HexDigit(c as int % 16)] + rest) == Prepend(c, ReadBody(rest))
  {
    var n := c as int;
    var h := "00" + [HexDigit(n / 16), HexDigit(n % 16)];
    var t := "\\u00" + [HexDigit(n / 16), HexDigit(n % 16)] + rest;
    HexRoundTrip(n / 16);
    HexRoundTrip(n % 16);
    assert t[0] == '\\' && t[1] == 'u';
    assert t[2..6] == h && t[6..] == rest;
    assert CodeUnit(h) == Some(n);
  }

  lemma {:induction false} ReadEscapedBody(s: string)
    ensures ReadBody(EscapeBody(s) + "\"") == Some(s)
    decreases |s|
  {
    if s != "" {
      var rest := EscapeBody(s[1..]) + "\"";
      assert EscapeBody(s) + "\"" == EscapeChar(s[0]) + rest;
      ReadEscapedChar(s[0], rest);
      ReadEscapedBody(s[1..]);
      assert [s[0]] + s[1..] == s;
    }
  }

  /** Reading back a printed literal gives the original text, whatever characters it holds. */
  lemma {:induction false} UnquoteOfQuote(s: string)
    ensures Unquote(Quote(s)) == Some(s)
  {
    ReadEscapedBody(s);
    assert Quote(s)[1..] == EscapeBody(s) + "\"";
  }

  /** A printed literal stays on one line. */
  lemma {:induction false} EscapeBodyIsOneLine(s: string)
    ensures forall i :: 0 <= i < |EscapeBody(s)| ==> EscapeBody(s)[i] >= ' '
    decreases |s|
  {
    if s != "" {
      EscapeBodyIsOneLine(s[1..]);
      EscapeCharIsPrintable(s[0]);
    }
  }

  lemma EscapeCharIsPrintable(c: char)
    ensures forall i :: 0 <= i < |EscapeChar(c)| ==> EscapeChar(c)[i] >= ' '
  {
    if c < ' ' {
      HexDigitIsPrintable(c as int / 16);
      HexDigitIsPrintable(c as int % 16);
    }
  }

  lemma HexDigitIsPrintable(n: nat)
    requires n < 16
    ensures '0' <= HexDigit(n) <= '9' || 'a' <= HexDigit(n) <= 'f'
  {
    assert HEX_DIGITS[n] == if n < 10 then ('0' as int + n) as char else ('a' as int + n - 10) as char;
  }
}
