/** Decimal text as QString reads and writes it: plain digit strings, and the
  * signed conversions behind toInt, toUInt and toLongLong in the C locale.
  */
module Decimal {
  import opened Common

  const UINT_MAX := 0xFFFF_FFFF
  const INT_MIN := -0x8000_0000
  const INT_MAX := 0x7FFF_FFFF
  const LONGLONG_MIN := -0x8000_0000_0000_0000
  const LONGLONG_MAX := 0x7FFF_FFFF_FFFF_FFFF

  predicate IsDigit(c: char) {
    '0' <= c <= '9'
  }

  predicate AllDigits(s: string) {
    forall i :: 0 <= i < |s| ==> IsDigit(s[i])
  }

  function DigitValue(c: char): (d: nat)
    requires IsDigit(c)
    ensures d < 10
  {
    c as int - '0' as int
  }

  function Digit(d: nat): (c: char)
    requires d < 10
    ensures IsDigit(c) && DigitValue(c) == d
  {
    (d + '0' as int) as char
  }

  /** The number a digit string denotes; leading zeros are allowed. */
  function Number(s: string): nat
    requires AllDigits(s)
  {
    if s == "" then 0 else Number(s[..|s| - 1]) * 10 + DigitValue(s[|s| - 1])
  }

  /** QString::number. */
  function Render(n: nat): string {
    if n < 10 then [Digit(n)] else Render(n / 10) + [Digit(n % 10)]
  }

  lemma {:induction false} RenderReadsBack(n: nat)
    ensures Render(n) != "" && AllDigits(Render(n)) && Number(Render(n)) == n
  {
    if n >= 10 {
      RenderReadsBack(n / 10);
      var s := Render(n);
      assert s[..|s| - 1] == Render(n / 10) && s[|s| - 1] == Digit(n % 10);
    } else {
      assert Number("") == 0 && Render(n)[..0] == "";
    }
  }

  predicate NoLeadingZero(digits: string) {
    digits != "" && AllDigits(digits) && (|digits| == 1 || digits[0] != '0')
  }

  lemma {:induction false} RenderHasNoLeadingZero(n: nat)
    ensures NoLeadingZero(Render(n)) && (Render(n)[0] == '0' <==> n == 0)
  {
    RenderReadsBack(n);
    if n >= 10 {
      RenderHasNoLeadingZero(n / 10);
    }
  }

  lemma {:induction false} NumberRenders(digits: string)
    requires NoLeadingZero(digits)
    ensures Render(Number(digits)) == digits && (Number(digits) == 0 <==> digits == "0")
  {
    var init, d := digits[..|digits| - 1], DigitValue(digits[|digits| - 1]);
    if init == "" {
      assert Number(init) == 0 && Digit(d) == digits[0];
    } else {
      assert init[0] == digits[0];
      NumberRenders(init);
      assert Number(digits) / 10 == Number(init) && Number(digits) % 10 == d;
      assert Number(init) > 0;
    }
  }

  /** The one way a number is printed. */
  predicate Prints(s: string, n: nat) {
    NoLeadingZero(s) && Number(s) == n
  }

  lemma PrintsOneWay(s: string, n: nat)
    ensures Prints(s, n) <==> s == Render(n)
  {
    RenderReadsBack(n);
    RenderHasNoLeadingZero(n);
    if Prints(s, n) {
      NumberRenders(s);
    }
  }

  predicate IsSpace(c: char) {
    c in "\t\n\r " || c as int == 11 || c as int == 12
  }

  function TrimLeft(s: string): string {
    if s != "" && IsSpace(s[0]) then TrimLeft(s[1..]) else s
  }

  function TrimRight(s: string): string {
    if s != "" && IsSpace(s[|s| - 1]) then TrimRight(s[..|s| - 1]) else s
  }

  /** The value of `s` when it is an optionally signed decimal between `lo` and
    * `hi`, with surrounding white space ignored.
    */
  function Signed(s: string, lo: int, hi: int): (r: Option<int>)
    ensures r.Some? ==> lo <= r.value <= hi
  {
    var t := TrimRight(TrimLeft(s));
    var signed := t != "" && t[0] in "+-";
    var digits := if signed then t[1..] else t;
    if digits == "" || !AllDigits(digits) then None
    else
      var n: int := Number(digits);
      var v := if signed && t[0] == '-' then -n else n;
      if lo <= v <= hi then Some(v) else None
  }

  /** toUInt of a string already known to be digits: 0 when out of range. */
  function ToUInt(digits: string): (n: nat)
    requires AllDigits(digits)
    ensures n <= UINT_MAX
  {
    if Number(digits) <= UINT_MAX then Number(digits) else 0
  }

  function ToInt(s: string): Option<int> {
    Signed(s, INT_MIN, INT_MAX)
  }

  function ToLongLong(s: string): Option<int> {
    Signed(s, LONGLONG_MIN, LONGLONG_MAX)
  }

  /** Plain digits are read as the number they denote, or rejected as too big. */
  lemma SignedOfDigits(s: string, lo: int, hi: int)
    requires s != "" && AllDigits(s) && lo <= 0
    ensures Signed(s, lo, hi) == if Number(s) <= hi then Some(Number(s)) else None
  {
  }

  // ---------------------------------------------------- what the readers accept

  predicate AllSpaces(s: string) {
    forall i :: 0 <= i < |s| ==> IsSpace(s[i])
  }

  /** `s` is `t` amid white space, and `t` neither begins nor ends with any. */
  predicate Amid(s: string, left: string, t: string, right: string) {
    && s == left + t + right && AllSpaces(left) && AllSpaces(right)
    && (t == "" || (!IsSpace(t[0]) && !IsSpace(t[|t| - 1])))
  }

  lemma {:induction false} TrimLeftDrops(left: string, t: string)
    requires AllSpaces(left) && (t == "" || !IsSpace(t[0]))
    ensures TrimLeft(left + t) == t
  {
    if left == "" {
      assert left + t == t;
    } else {
      assert (left + t)[1..] == left[1..] + t;
      TrimLeftDrops(left[1..], t);
    }
  }

  lemma {:induction false} TrimRightDrops(t: string, right: string)
    requires AllSpaces(right) && (t == "" || !IsSpace(t[|t| - 1]))
    ensures TrimRight(t + right) == t
  {
    if right == "" {
      assert t + right == t;
    } else {
      var k := |right| - 1;
      assert (t + right)[..|t + right| - 1] == t + right[..k];
      TrimRightDrops(t, right[..k]);
    }
  }

  lemma {:induction false} TrimLeftSplits(s: string) returns (left: string)
    ensures s == left + TrimLeft(s) && AllSpaces(left)
    ensures TrimLeft(s) == "" || !IsSpace(TrimLeft(s)[0])
  {
    if s != "" && IsSpace(s[0]) {
      left := TrimLeftSplits(s[1..]);
      left := [s[0]] + left;
    } else {
      left := "";
    }
  }

  lemma {:induction false} TrimRightSplits(s: string) returns (right: string)
    ensures s == TrimRight(s) + right && AllSpaces(right)
    ensures TrimRight(s) == "" || !IsSpace(TrimRight(s)[|TrimRight(s)| - 1])
    ensures TrimRight(s) != "" ==> TrimRight(s)[0] == s[0]
  {
    if s != "" && IsSpace(s[|s| - 1]) {
      right := TrimRightSplits(s[..|s| - 1]);
      right := right + [s[|s| - 1]];
    } else {
      right := "";
    }
  }

  lemma TrimsTo(s: string, left: string, t: string, right: string)
    requires Amid(s, left, t, right) && t != ""
    ensures TrimRight(TrimLeft(s)) == t
  {
    assert s == left + (t + right);
    TrimLeftDrops(left, t + right);
    TrimRightDrops(t, right);
  }

  lemma TrimSplits(s: string) returns (left: string, right: string)
    ensures Amid(s, left, TrimRight(TrimLeft(s)), right)
  {
    left := TrimLeftSplits(s);
    right := TrimRightSplits(TrimLeft(s));
  }

  /** A number amid white space, perhaps with a sign. */
  predicate IsSpelling(s: string, left: string, sign: string, digits: string, right: string) {
    && s == left + (sign + digits) + right && AllSpaces(left) && AllSpaces(right)
    && sign in {"", "+", "-"} && digits != "" && AllDigits(digits)
  }

  function SignedNumber(sign: string, digits: string): int
    requires AllDigits(digits)
  {
    var n: int := Number(digits);
    if sign == "-" then -n else n
  }

  /** toInt and toLongLong read every spelling of a number in range, */
  lemma SignedReadsSpellings(s: string, left: string, sign: string, digits: string, right: string, lo: int, hi: int)
    requires IsSpelling(s, left, sign, digits, right)
    ensures var v := SignedNumber(sign, digits);
      Signed(s, lo, hi) == if lo <= v <= hi then Some(v) else None
  {
    var t := sign + digits;
    BareNumber(sign, digits);
    TrimsTo(s, left, t, right);
  }

  lemma BareNumber(sign: string, digits: string)
    requires sign in {"", "+", "-"} && digits != "" && AllDigits(digits)
    ensures var t := sign + digits;
      && t != "" && !IsSpace(t[0]) && !IsSpace(t[|t| - 1])
      && (if t[0] in "+-" then t[..1] == sign && t[1..] == digits else sign == "" && t == digits)
  {
    var t := sign + digits;
    assert t[|t| - 1] == digits[|digits| - 1];
    if sign == "" {
      assert t == digits;
    } else {
      assert t[..1] == sign && t[1..] == digits;
    }
  }

  /** and nothing else. */
  lemma SignedReadsOnlySpellings(s: string, lo: int, hi: int)
    requires Signed(s, lo, hi).Some?
    ensures exists left, sign, digits, right ::
      IsSpelling(s, left, sign, digits, right) && Signed(s, lo, hi) == Some(SignedNumber(sign, digits))
  {
    var left, right := TrimSplits(s);
    var t := TrimRight(TrimLeft(s));
    var sign, digits := if t[0] in "+-" then t[..1] else "", if t[0] in "+-" then t[1..] else t;
    assert t == sign + digits;
    assert sign in {"", "+", "-"} by {
      assert t[0] == '+' ==> t[..1] == "+";
      assert t[0] == '-' ==> t[..1] == "-";
    }
    assert IsSpelling(s, left, sign, digits, right);
    SignedReadsSpellings(s, left, sign, digits, right, lo, hi);
  }

  lemma NegativeReads(digits: string, lo: int, hi: int)
    requires digits != "" && AllDigits(digits) && hi >= 0
    ensures var v: int := Number(digits);
      Signed("-" + digits, lo, hi) == if -v >= lo then Some(-v) else None
  {
    assert "-" + digits == "" + ("-" + digits) + "";
    SignedReadsSpellings("-" + digits, "", "-", digits, "", lo, hi);
  }

  /** The ranges of the readers, in figures. */
  lemma RangesOfTheReaders(s: string, left: string, sign: string, digits: string, right: string)
    requires IsSpelling(s, left, sign, digits, right)
    ensures var v := SignedNumber(sign, digits);
      && ToInt(s) == (if -0x8000_0000 <= v <= 0x7FFF_FFFF then Some(v) else None)
      && ToLongLong(s) == if -0x8000_0000_0000_0000 <= v <= 0x7FFF_FFFF_FFFF_FFFF then Some(v) else None
    ensures ToUInt(digits) == if Number(digits) <= 0xFFFF_FFFF then Number(digits) else 0
  {
    SignedReadsSpellings(s, left, sign, digits, right, INT_MIN, INT_MAX);
    SignedReadsSpellings(s, left, sign, digits, right, LONGLONG_MIN, LONGLONG_MAX);
  }
}
