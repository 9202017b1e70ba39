/**
 * The parts of the C library that the HTTP handlers of src/http_server.c
 * rely on, over 8-bit `char`: NUL-terminated strings, the `%d` conversion of
 * the scanf family (section 7.21.6.2 of ISO/IEC 9899:2011, with the subject
 * sequence of strtol in base 10, section 7.22.1.4), the `%d` conversion of
 * the printf family (section 7.21.6.1) and the truncation that snprintf
 * performs (section 7.21.6.5). Only the "C" locale is modelled.
 */
module CLib {

  /** A C `char`: one byte. */
  type CChar = c: char | c as int < 256

  const Nul: CChar := '\0'

  /** INT_MIN and INT_MAX of a 32-bit `int`. */
  const IntMin: int := -0x8000_0000
  const IntMax: int := 0x7FFF_FFFF

  predicate FitsInt(v: int) {
    IntMin <= v <= IntMax
  }

  /** isspace in the "C" locale: space, and \t \n \v \f \r. */
  predicate IsSpace(c: CChar) {
    c == ' ' || 9 <= c as int <= 13
  }

  predicate IsDigit(c: CChar) {
    '0' <= c <= '9'
  }

  predicate AllDigits(s: seq<CChar>) {
    forall i :: 0 <= i < |s| ==> IsDigit(s[i])
  }

  predicate AllSpaces(s: seq<CChar>) {
    forall i :: 0 <= i < |s| ==> IsSpace(s[i])
  }

  function DigitValue(c: CChar): nat
    requires IsDigit(c)
  {
    c as int - '0' as int
  }

  function DigitChar(k: int): (c: CChar)
    requires 0 <= k < 10
    ensures IsDigit(c) && DigitValue(c) == k
  {
    (('0' as int) + k) as char
  }

  // ---------------------------------------------------------------------
  // NUL-terminated strings

  /** The string a `char` buffer holds: its bytes up to, not including, the first NUL. */
  function CString(s: seq<CChar>): (r: seq<CChar>)
    ensures |r| <= |s| && r == s[..|r|]
    ensures Nul !in r
    ensures |r| < |s| ==> s[|r|] == Nul
  {
    if s == [] || s[0] == Nul then [] else [s[0]] + CString(s[1..])
  }

  /** A NUL at index k ends the string: whatever follows it is never read. */
  lemma {:induction false} CStringStopsAt(s: seq<CChar>, k: int)
    requires 0 <= k < |s| && s[k] == Nul
    ensures CString(s) == CString(s[..k])
  {
    if s[0] != Nul {
      assert s[..k][1..] == s[1..][..k - 1];
      CStringStopsAt(s[1..], k - 1);
    }
  }

  /** A sequence without NUL is its own string. */
  lemma CStringOfNoNul(s: seq<CChar>)
    requires Nul !in s
    ensures CString(s) == s
  {
  }

  // ---------------------------------------------------------------------
  // The %d conversion of sscanf

  /** The input left after the white space that a `%d` directive skips. */
  function SkipSpaces(s: seq<CChar>): (r: seq<CChar>)
    ensures |r| <= |s| && r == s[|s| - |r|..]
    ensures AllSpaces(s[..|s| - |r|])
    ensures r == [] || !IsSpace(r[0])
  {
    if s != [] && IsSpace(s[0]) then SkipSpaces(s[1..]) else s
  }

  /** The longest prefix of decimal digits. */
  function LeadingDigits(s: seq<CChar>): (ds: seq<CChar>)
    ensures |ds| <= |s| && ds == s[..|ds|]
    ensures AllDigits(ds)
    ensures |ds| == |s| || !IsDigit(s[|ds|])
  {
    if s != [] && IsDigit(s[0]) then [s[0]] + LeadingDigits(s[1..]) else []
  }

  /** The value of a digit string read from left to right, as strtol accumulates it. */
  function DigitsValue(ds: seq<CChar>): nat
    requires AllDigits(ds)
  {
    if ds == [] then 0 else 10 * DigitsValue(ds[..|ds| - 1]) + DigitValue(ds[|ds| - 1])
  }

  /**
   * The outcome of one `%d` conversion: a matching failure, or the converted
   * value as a mathematical integer. The standard leaves the behaviour
   * undefined when that value does not fit in an `int`.
   */
  datatype ScanResult = NoMatch | Converted(value: int)

  /** A `%d` conversion whose result is defined by the standard. */
  predicate ScanDefined(r: ScanResult) {
    r.NoMatch? || FitsInt(r.value)
  }

  /** The digits at the start of u, converted; no digit is a matching failure. */
  function ScanDigits(u: seq<CChar>): ScanResult {
    var ds := LeadingDigits(u);
    if ds == [] then NoMatch else Converted(DigitsValue(ds))
  }

  /** An optional sign, then digits. */
  function ScanSigned(t: seq<CChar>): ScanResult {
    if t != [] && t[0] == '-' then
      match ScanDigits(t[1..])
      case NoMatch => NoMatch
      case Converted(v) => Converted(-v)
    else if t != [] && t[0] == '+' then ScanDigits(t[1..])
    else ScanDigits(t)
  }

  /**
   * `%d` on the input s: skip white space, take an optional sign, then one or
   * more decimal digits; the input after the digits is left unread.
   */
  function ScanInt(s: seq<CChar>): (r: ScanResult)
    ensures (forall i :: 0 <= i < |s| ==> !IsDigit(s[i])) ==> r == NoMatch
  {
    ScanSigned(SkipSpaces(s))
  }

  lemma {:induction false} SkipSpacesOf(ws: seq<CChar>, rest: seq<CChar>)
    requires AllSpaces(ws)
    requires rest == [] || !IsSpace(rest[0])
    ensures SkipSpaces(ws + rest) == rest
  {
    if ws == [] {
      assert ws + rest == rest;
    } else {
      assert (ws + rest)[1..] == ws[1..] + rest;
      SkipSpacesOf(ws[1..], rest);
    }
  }

  lemma {:induction false} LeadingDigitsOf(ds: seq<CChar>, tail: seq<CChar>)
    requires AllDigits(ds)
    requires tail == [] || !IsDigit(tail[0])
    ensures LeadingDigits(ds + tail) == ds
  {
    if ds == [] {
      assert ds + tail == tail;
    } else {
      assert (ds + tail)[1..] == ds[1..] + tail;
      LeadingDigitsOf(ds[1..], tail);
      assert ds == [ds[0]] + ds[1..];
    }
  }

  /**
   * `%d` accepts white space, an optional sign and a non-empty digit string,
   * and stops at the first byte after the digits.
   */
  lemma ScanIntAccepts(ws: seq<CChar>, sign: seq<CChar>, ds: seq<CChar>, tail: seq<CChar>)
    requires AllSpaces(ws)
    requires sign == [] || sign == ['-'] || sign == ['+']
    requires ds != [] && AllDigits(ds)
    requires tail == [] || !IsDigit(tail[0])
    ensures var v: int := DigitsValue(ds);
      ScanInt(ws + sign + ds + tail) == Converted(if sign == ['-'] then -v else v)
  {
    var rest := sign + (ds + tail);
    assert ws + sign + ds + tail == ws + rest;
    SkipSpacesOf(ws, rest);
    assert SkipSpaces(ws + sign + ds + tail) == rest;
    ScanSignedOf(sign, ds, tail);
  }

  lemma ScanSignedOf(sign: seq<CChar>, ds: seq<CChar>, tail: seq<CChar>)
    requires sign == [] || sign == ['-'] || sign == ['+']
    requires ds != [] && AllDigits(ds)
    requires tail == [] || !IsDigit(tail[0])
    ensures var v: int := DigitsValue(ds);
      ScanSigned(sign + (ds + tail)) == Converted(if sign == ['-'] then -v else v)
  {
    var digits := ds + tail;
    LeadingDigitsOf(ds, tail);
    assert ScanDigits(digits) == Converted(DigitsValue(ds));
    var t := sign + digits;
    if sign == [] {
      assert t == digits;
      assert IsDigit(t[0]);
    } else {
      assert t[1..] == digits;
    }
  }

  /** Without a digit after the white space and the optional sign, `%d` fails to match. */
  lemma ScanIntRejects(ws: seq<CChar>, sign: seq<CChar>, tail: seq<CChar>)
    requires AllSpaces(ws)
    requires sign == [] || sign == ['-'] || sign == ['+']
    requires tail == [] || (!IsDigit(tail[0]) && (sign == [] ==> !IsSpace(tail[0]) && tail[0] != '-' && tail[0] != '+'))
    ensures ScanInt(ws + sign + tail) == NoMatch
  {
    var rest := sign + tail;
    assert ws + sign + tail == ws + rest;
    SkipSpacesOf(ws, rest);
    assert SkipSpaces(ws + sign + tail) == rest;
    ScanSignedRejects(sign, tail);
  }

  lemma ScanSignedRejects(sign: seq<CChar>, tail: seq<CChar>)
    requires sign == [] || sign == ['-'] || sign == ['+']
    requires tail == [] || (!IsDigit(tail[0]) && (sign == [] ==> tail[0] != '-' && tail[0] != '+'))
    ensures ScanSigned(sign + tail) == NoMatch
  {
    assert LeadingDigits(tail) == [];
    if sign != [] {
      assert (sign + tail)[1..] == tail;
    } else {
      assert sign + tail == tail;
    }
  }

  // ---------------------------------------------------------------------
  // The %d conversion of printf, and snprintf

  /** The decimal digits of n, most significant first, without leading zeros. */
  function NatDigits(n: nat): (r: seq<CChar>)
    ensures r != [] && AllDigits(r)
    ensures r[0] == '0' ==> n == 0
  {
    if n < 10 then [DigitChar(n)] else NatDigits(n / 10) + [DigitChar(n % 10)]
  }

  /** What `%d` prints for n: a minus sign for a negative value, then the digits of its magnitude. */
  function Decimal(n: int): (r: seq<CChar>)
    ensures r != []
    ensures n >= 0 ==> AllDigits(r)
    ensures n < 0 ==> r[0] == '-' && AllDigits(r[1..])
  {
    if n < 0 then ['-'] + NatDigits(-n) else NatDigits(n)
  }

  /** Printed numbers contain no NUL, so they never end a string early. */
  lemma DecimalHasNoNul(n: int)
    ensures Nul !in Decimal(n)
  {
  }

  function Pow10(k: nat): nat {
    if k == 0 then 1 else 10 * Pow10(k - 1)
  }

  /** Reading back the digits that were printed gives the number. */
  lemma {:induction false} NatDigitsValue(n: nat)
    ensures DigitsValue(NatDigits(n)) == n
  {
    if n >= 10 {
      NatDigitsValue(n / 10);
      var ds := NatDigits(n);
      assert ds[..|ds| - 1] == NatDigits(n / 10);
    }
  }

  /** A number below 10^k has at most k digits. */
  lemma {:induction false} NatDigitsLength(n: nat, k: nat)
    requires 1 <= k && n < Pow10(k)
    ensures |NatDigits(n)| <= k
  {
    if n >= 10 {
      NatDigitsLength(n / 10, k - 1);
    }
  }

  /** `%d` scanning inverts `%d` printing, whatever non-digit bytes follow. */
  lemma ScanIntDecimal(n: int, tail: seq<CChar>)
    requires tail == [] || !IsDigit(tail[0])
    ensures ScanInt(Decimal(n) + tail) == Converted(n)
  {
    var m: nat := if n < 0 then -n else n;
    NatDigitsValue(m);
    var sign: seq<CChar> := if n < 0 then ['-'] else [];
    assert Decimal(n) + tail == [] + sign + NatDigits(m) + tail;
    ScanIntAccepts([], sign, NatDigits(m), tail);
  }

  /** Any `int` prints in at most 11 characters; an angle of [0, 180] in at most 3. */
  lemma DecimalLength(n: int)
    requires FitsInt(n)
    ensures |Decimal(n)| <= 11
    ensures 0 <= n <= 180 ==> |Decimal(n)| <= 3
  {
    assert Pow10(10) == 10000000000;
    assert Pow10(3) == 1000;
    NatDigitsLength(if n < 0 then -n else n, 10);
    if 0 <= n <= 180 {
      NatDigitsLength(n, 3);
    }
  }

  /**
   * snprintf into a buffer of `size` bytes: at most size - 1 characters of
   * the full output are stored, followed by a NUL.
   */
  function Snprintf(size: nat, full: seq<CChar>): (r: seq<CChar>)
    requires size >= 1
    ensures |r| < size && |r| <= |full| && r == full[..|r|]
    ensures |full| < size ==> r == full
    ensures |full| >= size ==> |r| == size - 1
  {
    if |full| < size then full else full[..size - 1]
  }
}
