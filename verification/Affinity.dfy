/** The columns `key` and `value` are declared `string`, which gives them NUMERIC
  * affinity (section 3.1 of "Datatypes In SQLite"): text that looks like a number is
  * stored as one, and reads back as that number is printed.
  */
module Affinity {
  import opened Common
  import opened Decimal
  import opened Configuration
  import opened Persistence

  function RenderInt(v: int): string {
    if v < 0 then "-" + Render(-v) else Render(v)
  }

  /** The longest run of digits at the front. */
  function DigitsIn(s: string): (n: nat)
    ensures n <= |s|
  {
    if s != "" && IsDigit(s[0]) then 1 + DigitsIn(s[1..]) else 0
  }

  predicate IsExponent(s: string) {
    && s != "" && s[0] in "eE"
    && var digits := if |s| > 1 && s[1] in "+-" then s[2..] else s[1..];
       digits != "" && AllDigits(digits)
  }

  /** An integer or real literal, optionally signed and amid white space. */
  predicate IsNumeral(s: string) {
    var t := TrimRight(TrimLeft(s));
    Unsigned(if t != "" && t[0] in "+-" then t[1..] else t)
  }

  /** An exponent: its mark, perhaps a sign, and digits. */
  predicate IsExponentOf(s: string, mark: string, sign: string, digits: string) {
    && s == mark + (sign + digits) && mark in {"e", "E"} && sign in {"", "+", "-"}
    && digits != "" && AllDigits(digits)
  }

  /** The pieces of a numeral without sign: digits, perhaps a point and more digits, and
    * perhaps an exponent.
    */
  predicate IsUnsigned(u: string, whole: string, point: string, fraction: string, exponent: string) {
    && u == whole + (point + fraction + exponent) && AllDigits(whole) && AllDigits(fraction)
    && |whole| + |fraction| > 0
    && (point == "." || (point == "" && fraction == "")) && (exponent == "" || IsExponent(exponent))
  }

  ghost predicate HasPieces(u: string) {
    exists whole, point, fraction, exponent :: IsUnsigned(u, whole, point, fraction, exponent)
  }

  /** A numeral amid white space, perhaps with a sign. */
  ghost predicate IsNumeralOf(s: string, left: string, sign: string, u: string, right: string) {
    && s == left + (sign + u) + right && AllSpaces(left) && AllSpaces(right) && sign in {"", "+", "-"} && HasPieces(u)
  }

  lemma ExponentIsThePattern(s: string)
    ensures IsExponent(s) <==> exists mark, sign, digits :: IsExponentOf(s, mark, sign, digits)
  {
    if IsExponent(s) {
      ExponentIsSpelled(s);
    }
    if mark, sign, digits :| IsExponentOf(s, mark, sign, digits) {
      SpelledIsExponent(s, mark, sign, digits);
    }
  }

  lemma ExponentIsSpelled(s: string)
    requires IsExponent(s)
    ensures exists mark, sign, digits :: IsExponentOf(s, mark, sign, digits)
  {
    var signed := |s| > 1 && s[1] in "+-";
    var mark, sign, digits := s[..1], if signed then s[1..2] else "", if signed then s[2..] else s[1..];
    assert s == mark + (sign + digits);
    assert mark == "e" || mark == "E";
    assert signed ==> sign == "+" || sign == "-";
    assert IsExponentOf(s, mark, sign, digits);
  }

  lemma SpelledIsExponent(s: string, mark: string, sign: string, digits: string)
    requires IsExponentOf(s, mark, sign, digits)
    ensures IsExponent(s) && s[|s| - 1] == digits[|digits| - 1]
  {
    assert s[0] == mark[0] && s[1..] == sign + digits;
    if sign == "" {
      assert s[1..] == digits;
    } else {
      assert s[1] == sign[0] && s[2..] == digits;
    }
  }

  lemma {:induction false} DigitsInRun(digits: string, rest: string)
    requires AllDigits(digits) && (rest == "" || !IsDigit(rest[0]))
    ensures DigitsIn(digits + rest) == |digits|
  {
    if digits == "" {
      assert digits + rest == rest;
    } else {
      assert (digits + rest)[1..] == digits[1..] + rest;
      DigitsInRun(digits[1..], rest);
    }
  }

  lemma {:induction false} DigitsInAre(s: string)
    ensures AllDigits(s[..DigitsIn(s)])
  {
    if s != "" && IsDigit(s[0]) {
      DigitsInAre(s[1..]);
      var n := DigitsIn(s[1..]);
      assert s[..1 + n] == [s[0]] + s[1..][..n];
    } else {
      assert s[..0] == "";
    }
  }

  predicate Unsigned(u: string) {
    var whole := DigitsIn(u);
    var v := u[whole..];
    var fraction := if v != "" && v[0] == '.' then DigitsIn(v[1..]) else 0;
    var rest := if v != "" && v[0] == '.' then v[1 + fraction..] else v;
    whole + fraction > 0 && (rest == "" || IsExponent(rest))
  }

  lemma UnsignedReadsPieces(u: string, whole: string, point: string, fraction: string, exponent: string)
    requires IsUnsigned(u, whole, point, fraction, exponent)
    ensures Unsigned(u)
  {
    var v := point + fraction + exponent;
    DigitsInRun(whole, v);
    assert u[|whole|..] == v;
    if point == "." {
      assert v[1..] == fraction + exponent;
      DigitsInRun(fraction, exponent);
      assert v[1 + |fraction|..] == exponent;
    } else {
      assert v == exponent;
    }
  }

  lemma UnsignedHasPieces(u: string)
    requires Unsigned(u)
    ensures HasPieces(u)
  {
    var whole, v := u[..DigitsIn(u)], u[DigitsIn(u)..];
    DigitsInAre(u);
    var point, fraction, exponent := TailHasPieces(v);
    assert u == whole + v;
    assert exponent == "" || IsExponent(exponent);
    assert IsUnsigned(u, whole, point, fraction, exponent);
  }

  lemma TailHasPieces(v: string) returns (point: string, fraction: string, exponent: string)
    ensures v == point + fraction + exponent && AllDigits(fraction)
    ensures if v != "" && v[0] == '.'
            then point == "." && |fraction| == DigitsIn(v[1..]) && exponent == v[1 + |fraction|..]
            else point == fraction == "" && exponent == v
  {
    if v != "" && v[0] == '.' {
      DigitsInAre(v[1..]);
      point, fraction, exponent := v[..1], v[1..][..DigitsIn(v[1..])], v[1 + DigitsIn(v[1..])..];
      assert v[..1] == ".";
    } else {
      point, fraction, exponent := "", "", v;
    }
  }

  lemma ExponentEnds(s: string)
    requires IsExponent(s)
    ensures IsDigit(s[|s| - 1])
  {
    ExponentIsThePattern(s);
    var mark, sign, digits :| IsExponentOf(s, mark, sign, digits);
    SpelledIsExponent(s, mark, sign, digits);
  }

  /** The last character of what follows the whole digits, or of these. */
  lemma LastOf(whole: string, tail: string)
    requires whole + tail != ""
    ensures var u := whole + tail;
      u[|u| - 1] == if tail != "" then tail[|tail| - 1] else whole[|whole| - 1]
  {
  }

  lemma UnsignedEnds(u: string, whole: string, point: string, fraction: string, exponent: string)
    requires IsUnsigned(u, whole, point, fraction, exponent)
    ensures u != "" && !IsSpace(u[0]) && !IsSpace(u[|u| - 1]) && u[0] !in "+-"
  {
    LastOf(whole, point + fraction + exponent);
    if point + fraction + exponent != "" {
      LastOf(point + fraction, exponent);
    }
    if exponent != "" {
      ExponentEnds(exponent);
    } else if point != "" {
      LastOf(point, fraction);
    }
    if whole == "" {
      assert u[0] == '.';
    }
  }

  lemma PiecesAreUnsigned(u: string)
    requires HasPieces(u)
    ensures Unsigned(u) && u != "" && !IsSpace(u[0]) && !IsSpace(u[|u| - 1]) && u[0] !in "+-"
  {
    var whole, point, fraction, exponent :| IsUnsigned(u, whole, point, fraction, exponent);
    UnsignedReadsPieces(u, whole, point, fraction, exponent);
    UnsignedEnds(u, whole, point, fraction, exponent);
  }

  lemma NumeralIsSpelled(s: string)
    requires IsNumeral(s)
    ensures exists left, sign, u, right :: IsNumeralOf(s, left, sign, u, right)
  {
    var left, right := TrimSplits(s);
    var t := TrimRight(TrimLeft(s));
    var sign, u := SignSplits(t);
    UnsignedHasPieces(u);
    assert IsNumeralOf(s, left, sign, u, right);
  }

  lemma SignSplits(t: string) returns (sign: string, u: string)
    ensures t == sign + u && sign in {"", "+", "-"} && u == if t != "" && t[0] in "+-" then t[1..] else t
  {
    if t != "" && t[0] in "+-" {
      sign, u := t[..1], t[1..];
      assert t[0] == '+' ==> sign == "+";
      assert t[0] == '-' ==> sign == "-";
    } else {
      sign, u := "", t;
    }
  }

  lemma SpelledIsNumeral(s: string, left: string, sign: string, u: string, right: string)
    requires IsNumeralOf(s, left, sign, u, right)
    ensures IsNumeral(s)
  {
    PiecesAreUnsigned(u);
    SignStrips(sign, u);
    TrimsTo(s, left, sign + u, right);
  }

  /** A text is a numeral exactly when it is spelled like one. */
  lemma NumeralIsThePattern(s: string)
    ensures IsNumeral(s) <==> exists left, sign, u, right :: IsNumeralOf(s, left, sign, u, right)
  {
    if IsNumeral(s) {
      NumeralIsSpelled(s);
    }
    if left, sign, u, right :| IsNumeralOf(s, left, sign, u, right) {
      SpelledIsNumeral(s, left, sign, u, right);
    }
  }

  lemma SignStrips(sign: string, u: string)
    requires sign in {"", "+", "-"} && u != "" && !IsSpace(u[0]) && !IsSpace(u[|u| - 1]) && u[0] !in "+-"
    ensures var t := sign + u;
      t != "" && !IsSpace(t[0]) && !IsSpace(t[|t| - 1]) && (if t[0] in "+-" then t[1..] else t) == u
  {
    var t := sign + u;
    assert t[|t| - 1] == u[|u| - 1];
    if sign == "" {
      assert t == u;
    } else {
      assert t[0] == sign[0] && t[1..] == u;
    }
  }

  /** What a text reads as after it was stored. Numerals that are no 64-bit integer
    * become REAL; `printed` is what the driver prints for them.
    */
  function Column(s: string, printed: string -> string): string {
    if ToLongLong(s).Some? then RenderInt(ToLongLong(s).value)
    else if IsNumeral(s) then printed(s)
    else s
  }

  predicate Survives(s: string, printed: string -> string) {
    Column(s, printed) == s
  }

  // ------------------------------------------------------ which texts survive

  /** How an integer is printed: no plus sign, space, leading zero or negative zero. */
  predicate Plain(s: string) {
    NoLeadingZero(s) || (|s| > 1 && s[0] == '-' && s[1] != '0' && NoLeadingZero(s[1..]))
  }

  lemma PlainReads(s: string)
    requires Plain(s) && ToLongLong(s).Some?
    ensures RenderInt(ToLongLong(s).value) == s
  {
    if NoLeadingZero(s) {
      SignedOfDigits(s, LONGLONG_MIN, LONGLONG_MAX);
      NumberRenders(s);
    } else {
      assert s == "-" + s[1..];
      NegativeReads(s[1..], LONGLONG_MIN, LONGLONG_MAX);
      NumberRenders(s[1..]);
    }
  }

  lemma RenderedIsPlain(v: int)
    ensures Plain(RenderInt(v))
  {
    RenderHasNoLeadingZero(if v < 0 then -v else v);
    if v < 0 {
      assert RenderInt(v)[1..] == Render(-v);
    }
  }

  /** A text survives exactly when it is no numeral, or is an integer of 64 bits as
    * it is printed, or is another numeral that the driver prints as it stands.
    */
  lemma SurvivesIff(s: string, printed: string -> string)
    ensures Survives(s, printed) <==> if ToLongLong(s).Some? then Plain(s) else IsNumeral(s) ==> printed(s) == s
  {
    if ToLongLong(s).Some? {
      RenderedIsPlain(ToLongLong(s).value);
      if Plain(s) {
        PlainReads(s);
      }
    }
  }

  /** What was read back once survives from then on. */
  lemma StoringTwiceIsOnce(s: string, printed: string -> string)
    requires ToLongLong(s).Some?
    ensures Survives(Column(s, printed), printed)
  {
    RenderedReads(ToLongLong(s).value);
  }

  lemma RenderedReads(v: int)
    requires LONGLONG_MIN <= v <= LONGLONG_MAX
    ensures ToLongLong(RenderInt(v)) == Some(v)
  {
    var n := if v < 0 then -v else v;
    RenderReadsBack(n);
    if v < 0 {
      NegativeReads(Render(n), LONGLONG_MIN, LONGLONG_MAX);
    } else {
      SignedOfDigits(Render(n), LONGLONG_MIN, LONGLONG_MAX);
    }
  }

  // ----------------------------------------------------- what a restart restores

  /** A log as it reads after it was stored. */
  function Through(log: seq<Entry>, printed: string -> string): seq<Entry> {
    seq(|log|, i requires 0 <= i < |log| => Entry(Column(log[i].key, printed), Column(log[i].value, printed)))
  }

  predicate KeysSurvive(log: seq<Entry>, printed: string -> string) {
    forall i :: 0 <= i < |log| ==> Survives(log[i].key, printed)
  }

  /** After a restart a key reads as the last value written to it has come through
    * the column; so its value survives exactly when that text does.
    */
  lemma LoggedValueSurvivesIff(log: seq<Entry>, i: int, printed: string -> string)
    requires KeysSurvive(log, printed) && LastWrite(log, i)
    ensures Value(Replay(Defaults(), Through(log, printed)), log[i].key) == Column(log[i].value, printed)
    ensures Value(Replay(Defaults(), Through(log, printed)), log[i].key) == Value(Replay(Defaults(), log), log[i].key)
            <==> Survives(log[i].value, printed)
  {
    var stored := Through(log, printed);
    assert LastWrite(stored, i) && stored[i].key == log[i].key;
    ReplayIsLastWriterWins(Defaults(), stored, i);
    ReplayIsLastWriterWins(Defaults(), log, i);
  }

  /** A server just stored keeps all its values exactly when each of them survives. */
  lemma StoredValuesSurviveIff(values: Values, printed: string -> string)
    requires Defaults().Keys <= values.Keys && forall key :: key in values ==> Survives(key, printed)
    ensures Same(Replay(Defaults(), Through(Snapshot(Sorted(values.Keys), values), printed)), values)
            <==> forall key :: key in values ==> Survives(values[key], printed)
  {
    var keys, stored := Sorted(values.Keys), ThroughAll(values, printed);
    assert Through(Snapshot(keys, values), printed) == Snapshot(keys, stored);
    SnapshotRestores(Defaults(), keys, stored);
    SameThroughAllIff(values, printed);
    var back := Replay(Defaults(), Snapshot(keys, stored));
    assert forall key :: Value(back, key) == Value(stored, key);
  }

  function ThroughAll(values: Values, printed: string -> string): (stored: Values)
    ensures stored.Keys == values.Keys
  {
    map key | key in values :: Column(values[key], printed)
  }

  lemma SameThroughAllIff(values: Values, printed: string -> string)
    ensures Same(ThroughAll(values, printed), values)
            <==> forall key :: key in values ==> Survives(values[key], printed)
  {
    var stored := ThroughAll(values, printed);
    assert forall key :: key in values ==>
      (Value(stored, key) == Value(values, key) <==> Survives(values[key], printed));
  }

  // --------------------------------------------------------- repeated rows

  /** Change detection compares the texts before they are stored, so a logged change
    * repeats the last stored value of its key exactly when both read back alike.
    */
  lemma StoredLogStuttersIff(log: seq<Entry>, i: int, e: Entry, printed: string -> string)
    requires KeysSurvive(log + [e], printed) && StutterFree(Through(log, printed))
    requires LastWrite(log, i) && log[i].key == e.key
    ensures StutterFree(Through(log + [e], printed)) <==> Column(log[i].value, printed) != Column(e.value, printed)
  {
    var before, after := Through(log, printed), Through(log + [e], printed);
    assert Survives((log + [e])[|log|].key, printed);
    assert after == before + [Entry(e.key, Column(e.value, printed))];
    KeysSurviveBefore(log, e, printed);
    LoggedValueSurvivesIff(log, i, printed);
    if Column(log[i].value, printed) != Column(e.value, printed) {
      StutterFreeAppends(before, Entry(e.key, Column(e.value, printed)));
    } else {
      assert after[i] == after[|log|];
      assert forall k :: i < k < |log| ==> after[k].key == log[k].key;
    }
  }

  lemma KeysSurviveBefore(log: seq<Entry>, e: Entry, printed: string -> string)
    requires KeysSurvive(log + [e], printed)
    ensures KeysSurvive(log, printed)
  {
    assert forall i :: 0 <= i < |log| ==> (log + [e])[i] == log[i];
  }

  lemma {:induction false} LeadingZero(digits: string)
    requires AllDigits(digits)
    ensures Number("0" + digits) == Number(digits)
  {
    if digits == "" {
      assert Number("") == 0 && ("0" + digits)[..0] == "";
    } else {
      var k := |digits| - 1;
      LeadingZero(digits[..k]);
      assert ("0" + digits)[..k + 1] == "0" + digits[..k];
    }
  }

  /** Writing a number with a leading zero, as "07", and then without passes change
    * detection, and stores the same value twice.
    */
  lemma ALeadingZeroIsStoredTwice(key: string, n: nat, printed: string -> string)
    requires n <= LONGLONG_MAX
    ensures var log := [Entry(key, "0" + Render(n)), Entry(key, Render(n))];
      StutterFree(log) && !StutterFree(Through(log, printed))
    ensures !Survives("0" + Render(n), printed) && Survives(Render(n), printed)
  {
    RenderReadsBack(n);
    LeadingZero(Render(n));
    SignedOfDigits(Render(n), LONGLONG_MIN, LONGLONG_MAX);
    SignedOfDigits("0" + Render(n), LONGLONG_MIN, LONGLONG_MAX);
    var log := [Entry(key, "0" + Render(n)), Entry(key, Render(n))];
    var stored := Through(log, printed);
    assert stored[0] == stored[1];
    assert |log[0].value| != |log[1].value|;
  }
}
