/** JSON string literals as `JSON.stringify` writes them (the QuoteJSONString
    operation of ECMA-262), and a reader for them following RFC 8259, section 7.
    The reader is the partner that shows nothing is lost in the quoting. */
module JsonText {
  import opened Wrappers

  const HexDigits: string := "0123456789abcdef"

  /** The two-character escapes QuoteJSONString uses, as the escaped letter. */
  function ShortEscape(c: char): Option<char> {
    if c == '\U{0008}' then Some('b')
    else if c == '\t' then Some('t')
    else if c == '\n' then Some('n')
    else if c == '\U{000C}' then Some('f')
    else if c == '\r' then Some('r')
    else if c == '"' then Some('"')
    else if c == '\\' then Some('\\')
    else None
  }

  /** How QuoteJSONString writes one code point. */
  function EscapeChar(c: char): (r: string)
    ensures |r| > 0
  {
    match ShortEscape(c)
    case Some(e) => ['\\', e]
    case None =>
      if c as int < 0x20 then
        ['\\', 'u', '0', '0', HexDigits[c as int / 16], HexDigits[c as int % 16]]
      else [c]
  }

  function Escape(s: string): string {
    if s == [] then [] else EscapeChar(s[0]) + Escape(s[1..])
  }

  /** The JSON text of a string value. */
  function Quote(s: string): string {
    "\"" + Escape(s) + "\""
  }

  // ---------------------------------------------------------------------------
  // Reading a JSON string body back

  /** The code point a two-character escape `\x` stands for (RFC 8259, section 7). */
  function ShortUnescape(e: char): Option<char> {
    if e == 'b' then Some('\U{0008}')
    else if e == 't' then Some('\t')
    else if e == 'n' then Some('\n')
    else if e == 'f' then Some('\U{000C}')
    else if e == 'r' then Some('\r')
    else if e == '"' then Some('"')
    else if e == '\\' then Some('\\')
    else if e == '/' then Some('/')
    else None
  }

  function HexValue(c: char): Option<nat> {
    if '0' <= c <= '9' then Some(c as int - '0' as int)
    else if 'a' <= c <= 'f' then Some(c as int - 'a' as int + 10)
    else if 'A' <= c <= 'F' then Some(c as int - 'A' as int + 10)
    else None
  }

  /** The value of the four hexadecimal digits of a `\uXXXX` escape. */
  function QuadValue(s: string): (v: Option<nat>)
    requires |s| == 4
    ensures v.Some? ==> v.value < 0x1_0000
  {
    match (HexValue(s[0]), HexValue(s[1]), HexValue(s[2]), HexValue(s[3]))
    case (Some(a), Some(b), Some(c), Some(d)) =>
      if a < 16 && b < 16 && c < 16 && d < 16 then Some(((a * 16 + b) * 16 + c) * 16 + d) else None
    case _ => None
  }

  function Prepend(c: char, rest: Option<string>): Option<string> {
    match rest
    case Some(s) => Some([c] + s)
    case None => None
  }

  /** The string a JSON string body (the text between the quotes) denotes;
      `None` when it is not well formed. Escaped surrogate halves are not read. */
  function Unescape(t: string): Option<string>
    decreases |t|
  {
    if t == [] then Some([])
    else if t[0] == '\\' then
      if |t| >= 2 && ShortUnescape(t[1]).Some? then
        Prepend(ShortUnescape(t[1]).value, Unescape(t[2..]))
      else if |t| >= 6 && t[1] == 'u' && QuadValue(t[2..6]).Some? then
        var v := QuadValue(t[2..6]).value;
        if 0xD800 <= v < 0xE000 then None else Prepend(v as char, Unescape(t[6..]))
      else None
    else if t[0] == '"' || t[0] as int < 0x20 then None
    else Prepend(t[0], Unescape(t[1..]))
  }

  lemma HexDigitsRead(k: nat)
    requires k < 16
    ensures HexValue(HexDigits[k]) == Some(k)
  {
  }

  lemma ShortEscapeRead(c: char)
    requires ShortEscape(c).Some?
    ensures ShortUnescape(ShortEscape(c).value) == Some(c)
  {
  }

  /** Reading back one escaped code point, whatever follows it. */
  lemma UnescapeEscapeChar(c: char, rest: string)
    ensures Unescape(EscapeChar(c) + rest) == Prepend(c, Unescape(rest))
  {
    if ShortEscape(c).Some? {
      UnescapeShortEscape(c, rest);
    } else if c as int < 0x20 {
      UnescapeControl(c, rest);
    } else {
      var t := EscapeChar(c) + rest;
      assert t[0] == c && t[1..] == rest;
    }
  }

  lemma UnescapeShortEscape(c: char, rest: string)
    requires ShortEscape(c).Some?
    ensures Unescape(EscapeChar(c) + rest) == Prepend(c, Unescape(rest))
  {
    var t := EscapeChar(c) + rest;
    ShortEscapeRead(c);
    assert t[0] == '\\' && t[1] == ShortEscape(c).value;
    assert t[2..] == rest;
  }

  lemma UnescapeControl(c: char, rest: string)
    requires ShortEscape(c).None? && c as int < 0x20
    ensures Unescape(EscapeChar(c) + rest) == Prepend(c, Unescape(rest))
  {
    var n := c as int;
    var hi, lo := HexDigits[n / 16], HexDigits[n % 16];
    var t := EscapeChar(c) + rest;
    assert t == ['\\', 'u', '0', '0', hi, lo] + rest;
    HexDigitsRead(n / 16);
    HexDigitsRead(n % 16);
    assert t[2..6] == ['0', '0', hi, lo];
    assert (n / 16) * 16 + n % 16 == n;
    assert QuadValue(t[2..6]) == Some(n);
    assert t[6..] == rest;
  }

  /** Round trip: the reader recovers exactly the string that was quoted. */
  lemma {:induction false} UnescapeEscape(s: string)
    ensures Unescape(Escape(s)) == Some(s)
  {
    if s != [] {
      UnescapeEscapeChar(s[0], Escape(s[1..]));
      UnescapeEscape(s[1..]);
      assert [s[0]] + s[1..] == s;
    }
  }

  /** Reads a whole JSON string literal. */
  function Unquote(t: string): (r: Option<string>)
  {
    if |t| >= 2 && t[0] == '"' && t[|t| - 1] == '"' then Unescape(t[1..|t| - 1]) else None
  }

  lemma UnquoteQuote(s: string)
    ensures Unquote(Quote(s)) == Some(s)
  {
    var t := Quote(s);
    assert t[1..|t| - 1] == Escape(s);
    UnescapeEscape(s);
  }
}
