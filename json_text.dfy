/**
 * JSON string literals as `JSON.stringify` writes them (the QuoteJSONString
 * operation of the ECMAScript specification): `"` and `\` are escaped, the
 * control characters below U+0020 become `\b \t \n \f \r` or `\u00xx` with
 * lower-case hex digits, and every other character is written as it is.
 * The reader beside it follows the string grammar of section 7 of RFC 8259.
 */
module JsonText {
  import opened Wrappers
  import opened Text
  import ApiKey

  /** No carriage return and no line feed: the text fits on one line of an event stream. */
  predicate OneLine(s: string) {
    forall k :: 0 <= k < |s| ==> s[k] != '\n' && s[k] != '\r'
  }

  /** The escape `JSON.stringify` writes for one character. */
  function EscapeChar(c: char): (r: string)
    ensures |r| > 0 && OneLine(r)
  {
    if c == '"' then "\\\""
    else if c == '\\' then "\\\\"
    else if c == '\n' then "\\n"
    else if c == '\r' then "\\r"
    else if c == '\t' then "\\t"
    else if c as int == 8 then "\\b"
    else if c as int == 12 then "\\f"
    else if (c as int) < 32 then "\\u00" + [ApiKey.HexDigit(c as int / 16), ApiKey.HexDigit(c as int % 16)]
    else [c]
  }

  /** The body of the literal: every character escaped in turn. */
  function Escape(s: string): string {
    if s == "" then "" else EscapeChar(s[0]) + Escape(s[1..])
  }

  /** The whole string literal, quotes included. */
  function Quote(s: string): string {
    "\"" + Escape(s) + "\""
  }

  /** A quoted string never spans lines, whatever it holds. */
  lemma {:induction false} EscapeOneLine(s: string)
    ensures OneLine(Escape(s))
  {
    if s != "" {
      EscapeOneLine(s[1..]);
      OneLineAppend(EscapeChar(s[0]), Escape(s[1..]));
    }
  }

  lemma QuoteOneLine(s: string)
    ensures OneLine(Quote(s))
  {
    EscapeOneLine(s);
    OneLineAppend("\"", Escape(s));
    OneLineAppend("\"" + Escape(s), "\"");
  }

  lemma OneLineAppend(a: string, b: string)
    requires OneLine(a) && OneLine(b)
    ensures OneLine(a + b)
  {
    forall k | 0 <= k < |a + b|
      ensures (a + b)[k] != '\n' && (a + b)[k] != '\r'
    {
      if k < |a| { assert (a + b)[k] == a[k]; } else { assert (a + b)[k] == b[k - |a|]; }
    }
  }

  // ---------------------------------------------------------------------------
  // Reading a string body back

  predicate IsHexDigit(c: char) {
    ('0' <= c <= '9') || ('a' <= c <= 'f') || ('A' <= c <= 'F')
  }

  function HexValue(c: char): (v: nat)
    requires IsHexDigit(c)
    ensures v < 16
  {
    if c <= '9' then c as int - '0' as int
    else if c <= 'F' then c as int - 'A' as int + 10
    else c as int - 'a' as int + 10
  }

  /** The character a two-character escape `\e` stands for. */
  function SimpleEscape(e: char): Option<char> {
    if e == '"' then Some('"')
    else if e == '\\' then Some('\\')
    else if e == '/' then Some('/')
    else if e == 'b' then Some(8 as char)
    else if e == 'f' then Some(12 as char)
    else if e == 'n' then Some('\n')
    else if e == 'r' then Some('\r')
    else if e == 't' then Some('\t')
    else None
  }

  function Prepend(c: char, rest: Option<string>): Option<string> {
    if rest.None? then None else Some([c] + rest.value)
  }

  /**
   * The characters a string body denotes, or `None` when it is not a valid
   * body: an unescaped `"` or control character, an unknown escape, or a
   * `\u` escape naming half of a surrogate pair.
   */
  function Unescape(t: string): Option<string>
    decreases |t|
  {
    if t == "" then Some("")
    else if t[0] == '\\' then
      if |t| < 2 then None
      else if t[1] == 'u' then
        if |t| < 6 || !IsHexDigit(t[2]) || !IsHexDigit(t[3]) || !IsHexDigit(t[4]) || !IsHexDigit(t[5]) then None
        else
          var v := 4096 * HexValue(t[2]) + 256 * HexValue(t[3]) + 16 * HexValue(t[4]) + HexValue(t[5]);
          if 0xD800 <= v < 0xE000 then None else Prepend(v as char, Unescape(t[6..]))
      else if SimpleEscape(t[1]).None? then None
      else Prepend(SimpleEscape(t[1]).value, Unescape(t[2..]))
    else if t[0] == '"' || (t[0] as int) < 32 then None
    else Prepend(t[0], Unescape(t[1..]))
  }

  lemma HexDigitValue(v: nat)
    requires v < 16
    ensures IsHexDigit(ApiKey.HexDigit(v)) && HexValue(ApiKey.HexDigit(v)) == v
  {
  }

  /** Reading one escaped character back gives the character, and reading goes on after it. */
  lemma UnescapeStep(c: char, rest: string)
    ensures Unescape(EscapeChar(c) + rest) == Prepend(c, Unescape(rest))
  {
    var t := EscapeChar(c) + rest;
    if (c as int) < 32 && c != '\n' && c != '\r' && c != '\t' && c as int != 8 && c as int != 12 {
      UnicodeEscapeStep(c, rest);
    } else if |EscapeChar(c)| == 2 {
      assert t[2..] == rest;
    } else {
      assert t[1..] == rest;
    }
  }

  /** A control character written as `\u00xx` reads back as itself. */
  lemma UnicodeEscapeStep(c: char, rest: string)
    requires (c as int) < 32
    ensures Unescape("\\u00" + [ApiKey.HexDigit(c as int / 16), ApiKey.HexDigit(c as int % 16)] + rest) == Prepend(c, Unescape(rest))
  {
    var hi, lo := c as int / 16, c as int % 16;
    var t := "\\u00" + [ApiKey.HexDigit(hi), ApiKey.HexDigit(lo)] + rest;
    HexDigitValue(hi);
    HexDigitValue(lo);
    assert t[0] == '\\' && t[1] == 'u' && t[2] == '0' && t[3] == '0' && t[4] == ApiKey.HexDigit(hi) && t[5] == ApiKey.HexDigit(lo);
    assert t[6..] == rest;
    assert (4096 * 0 + 256 * 0 + 16 * hi + lo) as char == c;
  }

  /** `JSON.stringify` loses nothing: reading the quoted body back gives the original string. */
  lemma {:induction false} UnescapeEscape(s: string)
    ensures Unescape(Escape(s)) == Some(s)
  {
    if s != "" {
      UnescapeEscape(s[1..]);
      UnescapeStep(s[0], Escape(s[1..]));
      assert [s[0]] + s[1..] == s;
    }
  }
}
