/** The JavaScript string and number primitives the modelled code relies on:
    `String(n)` for integers, `parseInt`, `toLowerCase`, `slice`,
    `padStart(2, "0")`, the truncating `%` operator, and the UTF-16 code
    units a JavaScript string is made of. */
module Text {
  import opened Wrappers

  // ---------------------------------------------------------------------------
  // Decimal digits
  // ---------------------------------------------------------------------------

  predicate IsDigit(c: char) {
    '0' <= c <= '9'
  }

  predicate AllDigits(s: string) {
    forall i :: 0 <= i < |s| ==> IsDigit(s[i])
  }

  function DigitChar(d: nat): (c: char)
    requires d < 10
    ensures IsDigit(c)
  {
    ('0' as int + d) as char
  }

  function DigitValue(c: char): (d: nat)
    requires IsDigit(c)
    ensures d < 10
  {
    c as int - '0' as int
  }

  /** `String(n)` for a non-negative integer: its decimal digits, no leading zero. */
  function NatToString(n: nat): (s: string)
    ensures |s| >= 1
    ensures AllDigits(s)
    ensures n < 10 <==> |s| == 1
    decreases n
  {
    if n < 10 then [DigitChar(n)] else NatToString(n / 10) + [DigitChar(n % 10)]
  }

  /** `String(n)` for any integer. */
  function IntToString(n: int): string {
    if n < 0 then "-" + NatToString(-n) else NatToString(n)
  }

  /** The number a string of decimal digits denotes. */
  function DigitsValue(s: string): nat
    requires AllDigits(s)
  {
    if |s| == 0 then 0 else 10 * DigitsValue(s[..|s| - 1]) + DigitValue(s[|s| - 1])
  }

  /** Reading back the digits `NatToString` writes gives the number again. */
  lemma {:induction false} DigitsRoundTrip(n: nat)
    ensures DigitsValue(NatToString(n)) == n
  {
    if n >= 10 {
      var s := NatToString(n);
      assert s[..|s| - 1] == NatToString(n / 10);
      DigitsRoundTrip(n / 10);
    }
  }

  // ---------------------------------------------------------------------------
  // parseInt
  // ---------------------------------------------------------------------------

  /** The white-space characters `parseInt` skips before the number: tab, line
      feed, vertical tab, form feed, carriage return, the space separators of
      Unicode category Zs, line and paragraph separators and the byte-order
      mark. */
  predicate IsJsSpace(c: char) {
    c as int in {9, 10, 11, 12, 13, 32, 0xA0, 0x1680, 0x202F, 0x205F, 0x3000, 0x2028, 0x2029, 0xFEFF}
    || 0x2000 <= c as int <= 0x200A
  }

  function TrimStart(s: string): (r: string)
    ensures |r| <= |s| && r == s[|s| - |r|..]
    ensures |r| > 0 ==> !IsJsSpace(r[0])
  {
    if |s| > 0 && IsJsSpace(s[0]) then TrimStart(s[1..]) else s
  }

  /** Length of the longest prefix of decimal digits. */
  function DigitPrefixLen(s: string): (k: nat)
    ensures k <= |s| && AllDigits(s[..k])
    ensures k < |s| ==> !IsDigit(s[k])
  {
    if |s| > 0 && IsDigit(s[0]) then
      var k := 1 + DigitPrefixLen(s[1..]);
      assert s[..k] == [s[0]] + s[1..][..k - 1];
      k
    else 0
  }

  predicate IsHexDigit(c: char) {
    IsDigit(c) || 'a' <= c <= 'f' || 'A' <= c <= 'F'
  }

  function HexDigitValue(c: char): (d: nat)
    requires IsHexDigit(c)
    ensures d < 16
  {
    if IsDigit(c) then DigitValue(c)
    else if 'a' <= c <= 'f' then c as int - 'a' as int + 10
    else c as int - 'A' as int + 10
  }

  function HexPrefixLen(s: string): (k: nat)
    ensures k <= |s|
    ensures forall i :: 0 <= i < k ==> IsHexDigit(s[i])
  {
    if |s| > 0 && IsHexDigit(s[0]) then 1 + HexPrefixLen(s[1..]) else 0
  }

  function HexValue(s: string): nat
    requires forall i :: 0 <= i < |s| ==> IsHexDigit(s[i])
  {
    if |s| == 0 then 0 else 16 * HexValue(s[..|s| - 1]) + HexDigitValue(s[|s| - 1])
  }

  /** `parseInt(s)` without a radix: skip leading white space, read an optional
      sign, then either a `0x`/`0X` prefix and hexadecimal digits or decimal
      digits, stopping at the first other character. `None` is `NaN` (no digit
      was read). A negative zero reads as 0, which is what the callers see. */
  function ParseInt(s: string): Option<int> {
    var t := TrimStart(s);
    var negative := |t| > 0 && t[0] == '-';
    var u := if |t| > 0 && (t[0] == '-' || t[0] == '+') then t[1..] else t;
    var sign := if negative then -1 else 1;
    if |u| >= 2 && u[0] == '0' && (u[1] == 'x' || u[1] == 'X') then
      var k := HexPrefixLen(u[2..]);
      if k == 0 then None else Some(sign * HexValue(u[2..][..k]))
    else
      var k := DigitPrefixLen(u);
      if k == 0 then None else Some(sign * DigitsValue(u[..k]))
  }

  /** `parseInt(String(n)) === n` for every integer. */
  lemma ParseIntRoundTrip(n: int)
    ensures ParseInt(IntToString(n)) == Some(n)
  {
    var m := if n < 0 then -n else n;
    var d := NatToString(m);
    assert !IsJsSpace(IntToString(n)[0]);
    assert TrimStart(IntToString(n)) == IntToString(n);
    var u := if n < 0 then IntToString(n)[1..] else IntToString(n);
    assert u == d;
    assert |u| >= 2 ==> IsDigit(u[1]);
    AllDigitsPrefixLen(d);
    assert d[..|d|] == d;
    DigitsRoundTrip(m);
  }

  lemma AllDigitsPrefixLen(s: string)
    requires AllDigits(s)
    ensures DigitPrefixLen(s) == |s|
  {
    if |s| > 0 {
      AllDigitsPrefixLen(s[1..]);
    }
  }

  // ---------------------------------------------------------------------------
  // toLowerCase
  // ---------------------------------------------------------------------------

  function LowerChar(c: char): char {
    if 'A' <= c <= 'Z' then (c as int + 32) as char else c
  }

  /** `s.toLowerCase()`, for the letters A to Z (see README, Left out). */
  function ToLower(s: string): (r: string)
    ensures |r| == |s|
    ensures forall i :: 0 <= i < |s| ==> r[i] == LowerChar(s[i])
  {
    if |s| == 0 then "" else [LowerChar(s[0])] + ToLower(s[1..])
  }

  /** Lower-casing is idempotent and leaves digits and signs alone. */
  lemma ToLowerIdempotent(s: string)
    ensures ToLower(ToLower(s)) == ToLower(s)
  {
  }

  lemma ToLowerOfNumber(n: int)
    ensures ToLower(IntToString(n)) == IntToString(n)
  {
    var s := IntToString(n);
    assert forall i :: 0 <= i < |s| ==> !('A' <= s[i] <= 'Z');
  }

  // ---------------------------------------------------------------------------
  // slice, padStart, %
  // ---------------------------------------------------------------------------

  // ---------------------------------------------------------------------------
  // Template literals
  // ---------------------------------------------------------------------------

  /** A piece of a template literal: literal text, or a number interpolated
      with JavaScript's number formatting. */
  datatype Piece = Lit(text: string) | Num(value: real)

  /** The text of one piece, when it has one in this model. */
  function PieceText(p: Piece): (r: Option<string>)
    ensures r.Some? <==> (p.Num? ==> p.value == p.value.Floor as real)
  {
    match p
    case Lit(s) => Some(s)
    case Num(x) => if x == x.Floor as real then Some(IntToString(x.Floor)) else None
  }

  /** The text of a template whose numbers are all integral; the formatting
      of fractional numbers is not modelled. */
  function Render(pieces: seq<Piece>): (r: Option<string>)
    ensures r.Some? <==> forall i :: 0 <= i < |pieces| ==> PieceText(pieces[i]).Some?
  {
    if pieces == [] then Some("")
    else
      var head := PieceText(pieces[0]);
      var rest := Render(pieces[1..]);
      if head.None? || rest.None? then None else Some(head.value + rest.value)
  }

  // ---------------------------------------------------------------------------

  /** How `String.prototype.slice` resolves one index: a negative index counts
      from the end, and the result is clamped into [0, len]. */
  function ClampIndex(i: int, len: nat): (r: nat)
    ensures r <= len
    ensures 0 <= i <= len ==> r == i
    ensures i < 0 ==> r == if len + i < 0 then 0 else len + i
  {
    if i < 0 then (if len + i < 0 then 0 else len + i) else if i > len then len else i
  }

  /** `s.slice(start, end)`, on the code units of a JavaScript string. */
  function JsSlice<T>(s: seq<T>, start: int, end: int): (r: seq<T>)
    ensures 0 <= start <= end <= |s| ==> r == s[start..end]
  {
    var a := ClampIndex(start, |s|);
    var b := ClampIndex(end, |s|);
    if a < b then s[a..b] else []
  }

  // ---------------------------------------------------------------------------
  // UTF-16
  // ---------------------------------------------------------------------------

  /** A UTF-16 code unit. A JavaScript string is a sequence of these, and its
      `length`, its indices and `slice` all count them, whereas a Dafny
      `string` is a sequence of Unicode scalar values. */
  type CodeUnit = u: int | 0 <= u < 0x1_0000

  type JsString = seq<CodeUnit>

  /** A character in the Basic Multilingual Plane takes one code unit. */
  predicate InBmp(c: char) {
    (c as int) < 0x1_0000
  }

  /** The code units of one character: itself when it is in the Basic
      Multilingual Plane, otherwise a high and a low surrogate. */
  function Utf16Char(c: char): (r: JsString)
    ensures InBmp(c) ==> r == [c as int]
    ensures !InBmp(c) ==> |r| == 2 && 0xD800 <= r[0] < 0xDC00 <= r[1] < 0xE000
  {
    var v := c as int;
    if v < 0x1_0000 then [v]
    else [0xD800 + (v - 0x1_0000) / 0x400, 0xDC00 + (v - 0x1_0000) % 0x400]
  }

  /** The JavaScript string holding the text `s`. */
  function Utf16(s: string): (r: JsString)
    decreases |s|
  {
    if s == [] then [] else Utf16Char(s[0]) + Utf16(s[1..])
  }

  lemma {:induction false} Utf16Append(a: string, b: string)
    ensures Utf16(a + b) == Utf16(a) + Utf16(b)
    decreases |a|
  {
    if a == [] {
      assert a + b == b;
    } else {
      assert (a + b)[0] == a[0] && (a + b)[1..] == a[1..] + b;
      Utf16Append(a[1..], b);
      var x := Utf16Char(a[0]);
      assert x + (Utf16(a[1..]) + Utf16(b)) == (x + Utf16(a[1..])) + Utf16(b);
    }
  }

  /** Text wholly in the Basic Multilingual Plane keeps its positions: the
      JavaScript string has one code unit per character, equal to it. */
  lemma {:induction false} Utf16Bmp(s: string)
    requires forall i :: 0 <= i < |s| ==> InBmp(s[i])
    ensures |Utf16(s)| == |s|
    ensures forall i :: 0 <= i < |s| ==> Utf16(s)[i] == s[i] as int
    decreases |s|
  {
    if s != [] {
      Utf16Bmp(s[1..]);
      assert Utf16(s) == [s[0] as int] + Utf16(s[1..]);
    }
  }

  /** Every character outside the Basic Multilingual Plane (an emoji, say)
      adds one position to the JavaScript string. */
  lemma {:induction false} Utf16Length(s: string)
    ensures |Utf16(s)| == |s| + |Astral(s)|
    decreases |s|
  {
    if s != [] {
      Utf16Length(s[1..]);
    }
  }

  /** The characters of `s` outside the Basic Multilingual Plane. */
  function Astral(s: string): seq<char>
    decreases |s|
  {
    if s == [] then [] else (if InBmp(s[0]) then [] else [s[0]]) + Astral(s[1..])
  }

  /** `s.padStart(2, "0")`. */
  function PadStart2(s: string): (r: string)
    ensures |s| >= 2 ==> r == s
    ensures |s| < 2 ==> |r| == 2 && r[2 - |s|..] == s
    ensures forall i :: 0 <= i < 2 - |s| ==> r[i] == '0'
    decreases 2 - |s|
  {
    if |s| >= 2 then s else PadStart2("0" + s)
  }

  /** JavaScript's `a % b` for b > 0: the remainder takes the sign of `a`
      (Dafny's `%` is Euclidean and never negative). */
  function TruncRem(a: int, b: int): (r: int)
    requires b > 0
    ensures a >= 0 ==> r == a % b
    ensures a < 0 ==> -b < r <= 0
  {
    if a >= 0 then a % b else -((-a) % b)
  }
}
