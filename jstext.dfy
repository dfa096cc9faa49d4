/** The few pieces of JavaScript string semantics the request handlers depend on:
    truthiness of an optional string, `parseInt(s, 10)` (ECMA-262, section 19.2.5),
    `String(n)` for an integer, ASCII case mapping and the UTF-8 byte length
    that Node's `Buffer.byteLength` reports. */
module JsText {
  import opened Wrappers

  /** A string-valued request field is truthy when it is present and non-empty. */
  predicate Truthy(v: Option<string>) {
    v.Some? && v.value != ""
  }

  /** A template literal `${x}` renders an absent value as "undefined". */
  function Render(v: Option<string>): (r: string)
    ensures v.Some? ==> r == v.value
  {
    match v
    case Some(s) => s
    case None => "undefined"
  }

  function StartsWith(s: string, prefix: string): (b: bool)
    ensures b <==> |prefix| <= |s| && s[..|prefix|] == prefix
  {
    |prefix| <= |s| && s[..|prefix|] == prefix
  }

  // ---------------------------------------------------------------------------
  // Decimal digits

  predicate IsDigit(c: char) {
    '0' <= c <= '9'
  }

  predicate AllDigits(s: string) {
    forall i :: 0 <= i < |s| ==> IsDigit(s[i])
  }

  function DigitChar(d: nat): (c: char)
    requires d < 10
    ensures IsDigit(c) && c as int - '0' as int == d
  {
    (d + '0' as int) as char
  }

  /** The value of a run of decimal digits, most significant first. */
  function DigitsValue(s: string): nat
    requires AllDigits(s)
  {
    if s == [] then 0
    else DigitsValue(s[..|s| - 1]) * 10 + (s[|s| - 1] as int - '0' as int)
  }

  /** The shortest decimal rendering of a natural number (no leading zeros). */
  function NatToDigits(n: nat): (s: string)
    ensures |s| > 0 && AllDigits(s)
    ensures s[0] == '0' ==> n == 0
  {
    if n < 10 then [DigitChar(n)] else NatToDigits(n / 10) + [DigitChar(n % 10)]
  }

  /** `String(n)` for an integer-valued Number. */
  function IntToString(n: int): string {
    if n < 0 then "-" + NatToDigits(-n) else NatToDigits(n)
  }

  lemma {:induction false} DigitsValueOfNatToDigits(n: nat)
    ensures DigitsValue(NatToDigits(n)) == n
  {
    if n >= 10 {
      var d := NatToDigits(n / 10);
      var s := d + [DigitChar(n % 10)];
      assert s[..|s| - 1] == d;
      DigitsValueOfNatToDigits(n / 10);
    }
  }

  /** Number of leading decimal digits of `s`. */
  function LeadingDigits(s: string): (k: nat)
    ensures k <= |s| && AllDigits(s[..k])
    ensures k < |s| ==> !IsDigit(s[k])
  {
    if s == [] || !IsDigit(s[0]) then 0
    else
      var k := 1 + LeadingDigits(s[1..]);
      assert s[..k] == [s[0]] + s[1..][..k - 1];
      k
  }

  lemma {:induction false} LeadingDigitsOfDigitRun(d: string, rest: string)
    requires AllDigits(d)
    requires rest == [] || !IsDigit(rest[0])
    ensures LeadingDigits(d + rest) == |d|
  {
    if d != [] {
      assert (d + rest)[1..] == d[1..] + rest;
      LeadingDigitsOfDigitRun(d[1..], rest);
    }
  }

  // ---------------------------------------------------------------------------
  // parseInt(string, 10)

  /** WhiteSpace and LineTerminator code points that StringToCodePoints-based
      trimming removes (ECMA-262, sections 12.2 and 12.3). */
  predicate IsJsSpace(c: char) {
    c == '\t' || c == '\U{000B}' || c == '\U{000C}' || c == ' ' || c == '\U{00A0}'
    || c == '\U{FEFF}' || c == '\U{1680}' || ('\U{2000}' <= c <= '\U{200A}')
    || c == '\U{202F}' || c == '\U{205F}' || c == '\U{3000}'
    || c == '\n' || c == '\r' || c == '\U{2028}' || c == '\U{2029}'
  }

  function TrimStart(s: string): (t: string)
    ensures |t| <= |s| && t == s[|s| - |t|..]
    ensures t == [] || !IsJsSpace(t[0])
  {
    if s != [] && IsJsSpace(s[0]) then TrimStart(s[1..]) else s
  }

  /** The input after its optional sign. */
  function Unsigned(t: string): (u: string)
    ensures |u| <= |t|
  {
    if t != [] && (t[0] == '-' || t[0] == '+') then t[1..] else t
  }

  /** The longest run of decimal digits at the start of `u`. */
  function DigitPrefix(u: string): (z: string)
    ensures AllDigits(z) && z <= u
    ensures |z| < |u| ==> !IsDigit(u[|z|])
  {
    u[..LeadingDigits(u)]
  }

  /** The integer a run of leading digits denotes; `None` (NaN) when there is none. */
  function ParseDigits(u: string): (r: Option<nat>)
    ensures r.None? <==> (u == [] || !IsDigit(u[0]))
  {
    var z := DigitPrefix(u);
    if z == [] then None else Some(DigitsValue(z))
  }

  function Negate(r: Option<nat>): Option<int> {
    match r
    case Some(v) => Some(-(v as int))
    case None => None
  }

  /** Steps 3 to 16 of parseInt for radix 10, after the whitespace is trimmed:
      an optional sign, then the digits. */
  function ParseSigned(t: string): Option<int> {
    if t != [] && t[0] == '-' then Negate(ParseDigits(t[1..]))
    else if t != [] && t[0] == '+' then ParseDigits(t[1..])
    else ParseDigits(t)
  }

  /** `parseInt(s, 10)`; `None` is NaN. Negative zero is not distinguished
      from zero. */
  function ParseInt(s: string): Option<int> {
    ParseSigned(TrimStart(s))
  }

  /** NaN exactly when no decimal digit follows the optional whitespace and sign. */
  lemma ParseIntIsNaN(s: string)
    ensures var u := Unsigned(TrimStart(s));
            ParseInt(s).None? <==> (u == [] || !IsDigit(u[0]))
  {
  }

  lemma DigitPrefixOfRun(d: string, rest: string)
    requires AllDigits(d)
    requires rest == [] || !IsDigit(rest[0])
    ensures DigitPrefix(d + rest) == d
  {
    LeadingDigitsOfDigitRun(d, rest);
    assert (d + rest)[..|d|] == d;
  }

  lemma TrimStartOfNonSpace(s: string)
    requires s != [] && !IsJsSpace(s[0])
    ensures TrimStart(s) == s
  {
  }

  lemma ParseIntOfNonNegative(n: nat, rest: string)
    requires rest == [] || !IsDigit(rest[0])
    ensures ParseInt(IntToString(n) + rest) == Some(n)
  {
    var d := NatToDigits(n);
    var s := d + rest;
    assert IntToString(n) + rest == s;
    assert s[0] == d[0] && IsDigit(d[0]);
    TrimStartOfNonSpace(s);
    assert ParseSigned(s) == ParseDigits(s);
    DigitPrefixOfRun(d, rest);
    DigitsValueOfNatToDigits(n);
  }

  lemma ParseIntOfNegative(n: int, rest: string)
    requires n < 0
    requires rest == [] || !IsDigit(rest[0])
    ensures ParseInt(IntToString(n) + rest) == Some(n)
  {
    var d := NatToDigits(-n);
    var s := "-" + (d + rest);
    assert IntToString(n) + rest == s;
    assert s[0] == '-';
    TrimStartOfNonSpace(s);
    assert s[1..] == d + rest;
    assert ParseSigned(s) == Negate(ParseDigits(d + rest));
    DigitPrefixOfRun(d, rest);
    DigitsValueOfNatToDigits(-n);
  }

  /** parseInt reads only the digit prefix: whatever follows it is ignored. */
  lemma ParseIntIgnoresSuffix(n: int, rest: string)
    requires rest == [] || !IsDigit(rest[0])
    ensures ParseInt(IntToString(n) + rest) == Some(n)
  {
    if n < 0 {
      ParseIntOfNegative(n, rest);
    } else {
      ParseIntOfNonNegative(n, rest);
    }
  }

  /** Round trip: parseInt reads back what String(n) writes. */
  lemma ParseIntRoundTrip(n: int)
    ensures ParseInt(IntToString(n)) == Some(n)
  {
    ParseIntIgnoresSuffix(n, "");
    assert IntToString(n) + "" == IntToString(n);
  }

  /** Text that starts with anything but whitespace, a sign or a digit is NaN. */
  lemma ParseIntOfNonNumeric(s: string)
    requires s != [] && !IsDigit(s[0]) && !IsJsSpace(s[0]) && s[0] != '-' && s[0] != '+'
    ensures ParseInt(s) == None
  {
    TrimStartOfNonSpace(s);
    assert Unsigned(s) == s;
    assert LeadingDigits(s) == 0;
  }

  lemma {:induction false} TrimStartSkipsSpace(ws: string, s: string)
    requires forall i :: 0 <= i < |ws| ==> IsJsSpace(ws[i])
    ensures TrimStart(ws + s) == TrimStart(s)
  {
    if ws == [] {
      assert ws + s == s;
    } else {
      assert IsJsSpace(ws[0]) && (ws + s)[0] == ws[0];
      assert (ws + s)[1..] == ws[1..] + s;
      assert TrimStart(ws + s) == TrimStart(ws[1..] + s);
      TrimStartSkipsSpace(ws[1..], s);
    }
  }

  /** Leading whitespace does not change the result. */
  lemma ParseIntSkipsSpace(ws: string, s: string)
    requires forall i :: 0 <= i < |ws| ==> IsJsSpace(ws[i])
    ensures ParseInt(ws + s) == ParseInt(s)
  {
    TrimStartSkipsSpace(ws, s);
  }

  // ---------------------------------------------------------------------------
  // Case mapping (ASCII letters only)

  function LowerChar(c: char): (d: char)
    ensures 'A' <= c <= 'Z' ==> d as int == c as int + 32
    ensures !('A' <= c <= 'Z') ==> d == c
  {
    if 'A' <= c <= 'Z' then (c as int + 32) as char else c
  }

  function UpperChar(c: char): (d: char)
    ensures 'a' <= c <= 'z' ==> d as int == c as int - 32
    ensures !('a' <= c <= 'z') ==> d == c
  {
    if 'a' <= c <= 'z' then (c as int - 32) as char else c
  }

  /** `s.toLowerCase()`, for the ASCII letters. */
  function ToLower(s: string): (r: string)
    ensures |r| == |s| && forall i :: 0 <= i < |s| ==> r[i] == LowerChar(s[i])
  {
    if s == [] then [] else [LowerChar(s[0])] + ToLower(s[1..])
  }

  /** `s.toUpperCase()`, for the ASCII letters. */
  function ToUpper(s: string): (r: string)
    ensures |r| == |s| && forall i :: 0 <= i < |s| ==> r[i] == UpperChar(s[i])
  {
    if s == [] then [] else [UpperChar(s[0])] + ToUpper(s[1..])
  }

  // ---------------------------------------------------------------------------
  // UTF-8 byte length

  function Utf8Width(c: char): (w: nat)
    ensures 1 <= w <= 4
  {
    if c as int < 0x80 then 1
    else if c as int < 0x800 then 2
    else if c as int < 0x1_0000 then 3
    else 4
  }

  /** `Buffer.byteLength(s)`: the number of bytes of the UTF-8 encoding of `s`. */
  function Utf8Length(s: string): nat {
    if s == [] then 0 else Utf8Width(s[0]) + Utf8Length(s[1..])
  }

  lemma {:induction false} Utf8LengthBounds(s: string)
    ensures |s| <= Utf8Length(s) <= 4 * |s|
    ensures (forall i :: 0 <= i < |s| ==> s[i] as int < 0x80) ==> Utf8Length(s) == |s|
  {
    if s != [] {
      Utf8LengthBounds(s[1..]);
    }
  }
}
