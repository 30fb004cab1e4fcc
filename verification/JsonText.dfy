/** How long a text is once written as JSON. A text is its code points, lone surrogates
    included; `JSON.stringify` escapes quotes, backslashes, control characters and lone
    surrogates. */
module JsonText {

  type Point = p: int | 0 <= p <= 0x10FFFF

  type Text = seq<Point>

  const NEWLINE: Point := 10

  predicate ShortEscape(p: Point) { p == 8 || p == 9 || p == 10 || p == 12 || p == 13 || p == 34 || p == 92 }

  predicate LongEscape(p: Point) { (p < 32 && !ShortEscape(p)) || 0xD800 <= p <= 0xDFFF }

  /** UTF-16 code units. */
  function Units(p: Point): (n: nat)
    ensures 1 <= n <= 6
  {
    if ShortEscape(p) then 2 else if LongEscape(p) then 6 else if p >= 0x10000 then 2 else 1
  }

  /** Code points. */
  function Points(p: Point): (n: nat)
    ensures 1 <= n <= 6
  {
    if ShortEscape(p) then 2 else if LongEscape(p) then 6 else 1
  }

  function TextUnits(t: Text): nat { if t == [] then 0 else TextUnits(t[..|t| - 1]) + Units(t[|t| - 1]) }

  function TextPoints(t: Text): nat { if t == [] then 0 else TextPoints(t[..|t| - 1]) + Points(t[|t| - 1]) }

  // ------------------------------------------------------------------ the text itself

  /** A UTF-16 code unit. */
  type Unit = u: int | 0 <= u < 0x10000

  /** Text of the program itself, which is all ASCII. */
  function Ascii(s: string): (u: seq<Unit>)
    ensures |u| == |s|
  {
    seq(|s|, i requires 0 <= i < |s| => if s[i] as int < 128 then s[i] as int else 63)
  }

  function HexDigit(d: int): Unit
    requires 0 <= d < 16
  {
    if d < 10 then 48 + d else 87 + d
  }

  function HexValue(u: Unit): int { if u < 58 then u - 48 else u - 87 }

  function ShortName(p: Point): Unit
    requires ShortEscape(p)
  {
    if p == 8 then 98 else if p == 9 then 116 else if p == 10 then 110 else if p == 12 then 102
    else if p == 13 then 114 else p
  }

  function ShortValue(u: Unit): Point {
    if u == 98 then 8 else if u == 116 then 9 else if u == 110 then 10 else if u == 102 then 12
    else if u == 114 then 13 else u
  }

  /** One code point as it stands in a JSON string. */
  function Escape(p: Point): seq<Unit> {
    if ShortEscape(p) then [92, ShortName(p)]
    else if LongEscape(p) then
      [92, 117, HexDigit(p / 4096), HexDigit(p / 256 % 16), HexDigit(p / 16 % 16), HexDigit(p % 16)]
    else if p >= 0x10000 then [0xD800 + (p - 0x10000) / 0x400, 0xDC00 + (p - 0x10000) % 0x400]
    else [p]
  }

  /** What a reader of JSON takes it for. */
  function Unescape(u: seq<Unit>): int
    requires u != []
  {
    if u[0] == 92 && |u| == 6 then
      4096 * HexValue(u[2]) + 256 * HexValue(u[3]) + 16 * HexValue(u[4]) + HexValue(u[5])
    else if u[0] == 92 && |u| == 2 then ShortValue(u[1])
    else if |u| == 2 then 0x10000 + 0x400 * (u[0] as int - 0xD800) + (u[1] as int - 0xDC00)
    else u[0]
  }

  /** Every code point is read back, and none but an escape leaves a quotation mark, a
      backslash or a control character in the text. */
  lemma EscapeIsReadBack(p: Point)
    ensures Unescape(Escape(p)) == p && |Escape(p)| == Units(p)
    ensures forall i | 0 <= i < |Escape(p)| ::
              Escape(p)[i] >= 32 && (Escape(p)[i] == 34 ==> i == 1 && Escape(p)[0] == 92)
    ensures forall i | 0 <= i < |Escape(p)| && Escape(p)[i] == 92 :: Escape(p)[0] == 92
  {
    if ShortEscape(p) {
      assert Escape(p) == [92, ShortName(p)];
    } else if LongEscape(p) {
      HexIsReadBack(p / 4096, p / 256 % 16, p / 16 % 16, p % 16);
      assert Escape(p) ==
             [92, 117, HexDigit(p / 4096), HexDigit(p / 256 % 16), HexDigit(p / 16 % 16), HexDigit(p % 16)];
      FourHexDigits(p);
    } else if p >= 0x10000 {
      assert Escape(p) == [0xD800 + (p - 0x10000) / 0x400, 0xDC00 + (p - 0x10000) % 0x400];
    }
  }

  lemma HexIsReadBack(a: int, b: int, c: int, d: int)
    requires 0 <= a < 16 && 0 <= b < 16 && 0 <= c < 16 && 0 <= d < 16
    ensures HexValue(HexDigit(a)) == a && HexValue(HexDigit(b)) == b && HexValue(HexDigit(c)) == c
            && HexValue(HexDigit(d)) == d
  {
  }

  lemma FourHexDigits(p: int)
    requires 0 <= p < 0x10000
    ensures p == 4096 * (p / 4096) + 256 * (p / 256 % 16) + 16 * (p / 16 % 16) + p % 16
  {
    assert p == 16 * (p / 16) + p % 16;
    assert p / 16 == 16 * (p / 256) + p / 16 % 16;
    assert p / 256 == 16 * (p / 4096) + p / 256 % 16;
  }

  function Written(t: Text): seq<Unit> { if t == [] then [] else Written(t[..|t| - 1]) + Escape(t[|t| - 1]) }

  lemma {:induction false} WrittenLength(t: Text)
    ensures |Written(t)| == TextUnits(t)
  {
    if t != [] {
      WrittenLength(t[..|t| - 1]);
      EscapeIsReadBack(t[|t| - 1]);
    }
  }

  function Decimal(n: nat): seq<Unit> { if n < 10 then [48 + n] else Decimal(n / 10) + [48 + n % 10] }

  lemma {:induction false} DecimalLength(n: nat)
    ensures |Decimal(n)| == Digits(n)
  {
    if n >= 10 { DecimalLength(n / 10); }
  }

  function Quoted(t: Text): seq<Unit> { [34] + Written(t) + [34] }

  function Digits(n: nat): nat { if n < 10 then 1 else 1 + Digits(n / 10) }

  lemma {:induction false} DigitsGrow(m: nat, n: nat)
    requires m <= n
    ensures 1 <= Digits(m) <= Digits(n)
    decreases n
  {
    if n >= 10 {
      if m >= 10 { DigitsGrow(m / 10, n / 10); } else { DigitsGrow(0, n / 10); }
    }
  }

  /** A longer prefix is written strictly longer. */
  lemma {:induction false} LongerTextCostsMore(t: Text, m: nat, n: nat)
    requires m <= n <= |t|
    ensures TextUnits(t[..m]) + (n - m) <= TextUnits(t[..n]) <= TextUnits(t[..m]) + 6 * (n - m)
    ensures TextPoints(t[..m]) + (n - m) <= TextPoints(t[..n]) <= TextPoints(t[..m]) + 6 * (n - m)
    decreases n - m
  {
    if m < n {
      assert t[..n][..n - 1] == t[..n - 1];
      LongerTextCostsMore(t, m, n - 1);
    }
  }
}
