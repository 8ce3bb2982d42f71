/** SteamID: a 64-bit word of five bit-fields, and its three textual forms. */
module SteamId {
  import opened Common
  import opened Decimal

  const WORD := 0x1_0000_0000_0000_0000

  // ------------------------------------------------------------------ packing

  /** The bit-fields from the lowest bit up: 1, 31, 20, 4 and 8 bits wide. */
  datatype Fields = Fields(y: nat, accountNumber: nat, instance: nat, accountType: nat, universe: nat)

  predicate InRange(f: Fields) {
    && f.y < 2
    && f.accountNumber < 0x8000_0000
    && f.instance < 0x10_0000
    && f.accountType < 0x10
    && f.universe < 0x100
  }

  /** What the bit-fields of the 64-bit word `id` read as. */
  function Unpack(id: nat): Fields {
    Fields(id % 2,
           id / 2 % 0x8000_0000,
           id / 0x1_0000_0000 % 0x10_0000,
           id / 0x10_0000_0000_0000 % 0x10,
           id / 0x100_0000_0000_0000 % 0x100)
  }

  /** Storing into a bit-field keeps the low bits of the value. */
  function Narrow(f: Fields): (g: Fields)
    ensures InRange(g)
    ensures InRange(f) ==> g == f
  {
    Fields(f.y % 2, f.accountNumber % 0x8000_0000, f.instance % 0x10_0000, f.accountType % 0x10, f.universe % 0x100)
  }

  function Pack(f: Fields): nat {
    var g := Narrow(f);
    g.y + 2 * (g.accountNumber + 0x8000_0000 * (g.instance + 0x10_0000 * (g.accountType + 0x10 * g.universe)))
  }

  function Combine(y: nat, accountNumber: nat, accountType: nat, universe: nat): nat {
    Pack(Fields(y, accountNumber, 1, accountType, universe))
  }

  lemma UnpackOfPack(f: Fields)
    ensures Pack(f) < WORD
    ensures Unpack(Pack(f)) == Narrow(f)
  {
    var g := Narrow(f);
    var d := g.accountType + 0x10 * g.universe;
    var c := g.instance + 0x10_0000 * d;
    var b := g.accountNumber + 0x8000_0000 * c;
    var id := Pack(f);
    assert id == g.y + 2 * b;
    assert id / 2 == b;
    assert id / 0x1_0000_0000 == b / 0x8000_0000 == c;
    assert id / 0x10_0000_0000_0000 == c / 0x10_0000 == d;
    assert id / 0x100_0000_0000_0000 == d / 0x10 == g.universe;
  }

  lemma PackOfUnpack(id: nat)
    requires id < WORD
    ensures InRange(Unpack(id))
    ensures Pack(Unpack(id)) == id
  {
    var f := Unpack(id);
    DivideInSteps(id);
    var b, c, d := id / 2, id / 0x1_0000_0000, id / 0x10_0000_0000_0000;
    Weigh(f, id, b, c, d);
  }

  lemma Weigh(f: Fields, id: nat, b: nat, c: nat, d: nat)
    requires InRange(f)
    requires id == f.y + 2 * b && b == f.accountNumber + 0x8000_0000 * c
    requires c == f.instance + 0x10_0000 * d && d == f.accountType + 0x10 * f.universe
    ensures Pack(f) == id
  {
  }

  lemma DivideInSteps(id: nat)
    requires id < WORD
    ensures id == id % 2 + 2 * (id / 2)
    ensures id / 2 == id / 2 % 0x8000_0000 + 0x8000_0000 * (id / 0x1_0000_0000)
    ensures id / 0x1_0000_0000 == id / 0x1_0000_0000 % 0x10_0000 + 0x10_0000 * (id / 0x10_0000_0000_0000)
    ensures id / 0x10_0000_0000_0000 == id / 0x10_0000_0000_0000 % 0x10 + 0x10 * (id / 0x100_0000_0000_0000)
    ensures id / 0x100_0000_0000_0000 < 0x100
  {
    var c := id / 0x1_0000_0000;
    assert id / 2 / 0x8000_0000 == c;
    var d := id / 0x10_0000_0000_0000;
    assert c / 0x10_0000 == d;
    assert d / 0x10 == id / 0x100_0000_0000_0000;
  }

  /** The fields and the word determine each other. */
  lemma PackingIsABijection(f: Fields, id: nat)
    requires InRange(f) && id < WORD
    ensures Pack(f) == id <==> Unpack(id) == f
  {
    UnpackOfPack(f);
    PackOfUnpack(id);
  }

  lemma CombineWeighsTheFields(y: nat, accountNumber: nat, accountType: nat, universe: nat)
    requires InRange(Fields(y, accountNumber, 1, accountType, universe))
    ensures Combine(y, accountNumber, accountType, universe)
            == y + 2 * accountNumber + 0x1_0000_0000
               + 0x10_0000_0000_0000 * accountType + 0x100_0000_0000_0000 * universe
  {
  }

  lemma CombineReadsBack(y: nat, accountNumber: nat, accountType: nat, universe: nat)
    ensures 0 < Combine(y, accountNumber, accountType, universe) < WORD
    ensures Unpack(Combine(y, accountNumber, accountType, universe))
            == Narrow(Fields(y, accountNumber, 1, accountType, universe))
  {
    UnpackOfPack(Fields(y, accountNumber, 1, accountType, universe));
  }

  // ----------------------------------------------------------------- patterns

  /** The `$` of a pattern also matches before one final line feed. */
  function Chomp(s: string): (t: string)
    ensures s == t || s == t + "\n"
  {
    if s != "" && s[|s| - 1] == '\n' then s[..|s| - 1] else s
  }

  /** The three captured groups of a match. */
  datatype Groups = Groups(first: char, second: char, digits: string)

  predicate IsWord(c: char) {
    IsDigit(c) || 'a' <= c <= 'z' || 'A' <= c <= 'Z' || c == '_'
  }

  /** `^STEAM_(\d):(\d):(\d+)$` */
  function MatchText(s: string): (m: Option<Groups>)
    ensures m.Some? ==>
      IsDigit(m.value.first) && IsDigit(m.value.second) && m.value.digits != "" && AllDigits(m.value.digits)
  {
    var t := Chomp(s);
    if |t| > 10 && t[..6] == "STEAM_" && IsDigit(t[6]) && t[7] == ':' && IsDigit(t[8]) && t[9] == ':'
       && AllDigits(t[10..])
    then Some(Groups(t[6], t[8], t[10..]))
    else None
  }

  /** `(\w):(\d):(\d+)` */
  function MatchId3Core(v: string): (m: Option<Groups>)
    ensures m.Some? ==> IsDigit(m.value.second) && m.value.digits != "" && AllDigits(m.value.digits)
  {
    if |v| > 4 && IsWord(v[0]) && v[1] == ':' && IsDigit(v[2]) && v[3] == ':' && AllDigits(v[4..])
    then Some(Groups(v[0], v[2], v[4..]))
    else None
  }

  function StripOpen(t: string): (u: string)
    ensures t == u || t == "[" + u
  {
    if t != "" && t[0] == '[' then t[1..] else t
  }

  function StripClose(t: string): (u: string)
    ensures t == u || t == u + "]"
  {
    if t != "" && t[|t| - 1] == ']' then t[..|t| - 1] else t
  }

  /** `^\[?(\w):(\d):(\d+)\]?$` */
  function MatchId3(s: string): (m: Option<Groups>)
    ensures m.Some? ==> IsDigit(m.value.second) && m.value.digits != "" && AllDigits(m.value.digits)
  {
    MatchId3Core(StripClose(StripOpen(Chomp(s))))
  }

  predicate SpellsText(s: string, g: Groups, tail: string) {
    && IsDigit(g.first) && IsDigit(g.second) && g.digits != "" && AllDigits(g.digits)
    && tail in {"", "\n"}
    && s == "STEAM_" + [g.first] + ":" + [g.second] + ":" + g.digits + tail
  }

  function Id3Spelling(g: Groups): string {
    [g.first] + ":" + [g.second] + ":" + g.digits
  }

  predicate SpellsId3(s: string, open: string, g: Groups, close: string, tail: string) {
    && open in {"", "["} && close in {"", "]"} && tail in {"", "\n"}
    && IsWord(g.first) && IsDigit(g.second) && g.digits != "" && AllDigits(g.digits)
    && s == open + (Id3Spelling(g) + close) + tail
  }

  /** The matcher finds exactly the spellings of the pattern. */
  lemma MatchTextIsThePattern(s: string, g: Groups)
    ensures MatchText(s) == Some(g) <==> exists tail :: SpellsText(s, g, tail)
  {
    if tail :| SpellsText(s, g, tail) {
      var t := "STEAM_" + [g.first] + ":" + [g.second] + ":" + g.digits;
      assert IsDigit(t[|t| - 1]);
      assert Chomp(s) == t;
      assert t[..6] == "STEAM_" && t[10..] == g.digits;
    }
    if MatchText(s) == Some(g) {
      var t := Chomp(s);
      assert t == t[..6] + [t[6]] + ":" + [t[8]] + ":" + t[10..];
      assert SpellsText(s, g, if s == t then "" else "\n");
    }
  }

  lemma MatchId3IsThePattern(s: string, g: Groups)
    ensures MatchId3(s) == Some(g) <==> exists open, close, tail :: SpellsId3(s, open, g, close, tail)
  {
    if open, close, tail :| SpellsId3(s, open, g, close, tail) {
      SpellingMatchesId3(s, open, g, close, tail);
    }
    if MatchId3(s) == Some(g) {
      MatchSpellsId3(s, g);
    }
  }

  lemma SpellingMatchesId3(s: string, open: string, g: Groups, close: string, tail: string)
    requires SpellsId3(s, open, g, close, tail)
    ensures MatchId3(s) == Some(g)
  {
    var v := Id3Spelling(g);
    assert v[0] == g.first && v[|v| - 1] == g.digits[|g.digits| - 1];
    Id3CoreSpelling(v, g);
    StripBrackets(open, v, close, tail);
  }

  lemma MatchSpellsId3(s: string, g: Groups)
    requires MatchId3(s) == Some(g)
    ensures exists open, close, tail :: SpellsId3(s, open, g, close, tail)
  {
    var t := Chomp(s);
    var u := StripOpen(t);
    var v := StripClose(u);
    Id3CoreSpelling(v, g);
    var open := if t == u then "" else "[";
    var close := if u == v then "" else "]";
    var tail := if s == t then "" else "\n";
    assert t == open + u && u == v + close && s == t + tail;
    assert SpellsId3(s, open, g, close, tail);
  }

  lemma Id3CoreSpelling(v: string, g: Groups)
    ensures MatchId3Core(v) == Some(g)
       <==> v == Id3Spelling(g) && IsWord(g.first) && IsDigit(g.second) && g.digits != "" && AllDigits(g.digits)
  {
  }

  lemma StripBrackets(open: string, v: string, close: string, tail: string)
    requires open in {"", "["} && close in {"", "]"} && tail in {"", "\n"}
    requires v != "" && v[0] != '[' && v[|v| - 1] != ']' && v[|v| - 1] != '\n'
    ensures StripClose(StripOpen(Chomp(open + (v + close) + tail))) == v
  {
    ChompTail(open + (v + close), tail);
    StripOpenBracket(open, v + close);
    StripCloseBracket(v, close);
  }

  lemma ChompTail(t: string, tail: string)
    requires t != "" && t[|t| - 1] != '\n' && tail in {"", "\n"}
    ensures Chomp(t + tail) == t
  {
  }

  lemma StripOpenBracket(open: string, u: string)
    requires u != "" && u[0] != '[' && open in {"", "["}
    ensures StripOpen(open + u) == u
  {
  }

  lemma StripCloseBracket(v: string, close: string)
    requires v != "" && v[|v| - 1] != ']' && close in {"", "]"}
    ensures StripClose(v + close) == v
  {
  }

  // -------------------------------------------------------------------- codec

  predicate Captured(g: Groups) {
    IsDigit(g.second) && g.digits != "" && AllDigits(g.digits)
  }

  function TextId(g: Groups): nat
    requires Captured(g) && IsDigit(g.first)
  {
    var universe := DigitValue(g.first);
    Combine(DigitValue(g.second), ToUInt(g.digits), 1, if universe == 0 then 1 else universe)
  }

  function Id3Id(g: Groups): nat
    requires Captured(g)
  {
    var w := ToUInt(g.digits);
    var y := w % 2;
    Combine(y, (w - y) / 2, 1, DigitValue(g.second))
  }

  function FromText(s: string): nat {
    match MatchText(s)
    case None => 0
    case Some(g) => TextId(g)
  }

  function FromId3(s: string): nat {
    match MatchId3(s)
    case None => 0
    case Some(g) => Id3Id(g)
  }

  /** A negative number wraps to the unsigned word; no number reads as 0. */
  function FromId64(s: string): nat {
    match ToLongLong(s)
    case None => 0
    case Some(v) => v % WORD
  }

  function TextOf(f: Fields): string {
    "STEAM_" + Render(if f.universe == 1 then 0 else f.universe) + ":" + Render(f.y) + ":" + Render(f.accountNumber)
  }

  /** The doubling is done in `int`, so account numbers from 2^30 have no Id3 form. */
  function Id3Of(f: Fields): Option<string> {
    var w := f.accountNumber * 2 + f.y;
    if w <= INT_MAX then Some("[U:" + Render(f.universe) + ":" + Render(w) + "]") else None
  }

  function ToText(id: nat): string {
    TextOf(Unpack(id))
  }

  function ToId3(id: nat): Option<string> {
    Id3Of(Unpack(id))
  }

  function ToId64(id: nat): string {
    Render(id)
  }

  predicate Ordinary(f: Fields) {
    f.instance == 1 && f.accountType == 1
  }

  // -------------------------------------------------- parsing, for all strings

  /** An id is 0 exactly when the text is rejected; otherwise its fields are the
    * captured numbers cut to the field widths, with universe 0 read as 1.
    */
  lemma TextParsing(s: string)
    ensures FromText(s) < WORD
    ensures FromText(s) == 0 <==> MatchText(s).None?
    ensures MatchText(s).Some? ==>
      var g := MatchText(s).value;
      var n := if Number(g.digits) <= UINT_MAX then Number(g.digits) else 0;
      var universe := if g.first == '0' then 1 else DigitValue(g.first);
      Unpack(FromText(s)) == Narrow(Fields(DigitValue(g.second), n, 1, 1, universe))
  {
    if MatchText(s).Some? {
      TextIdReadsBack(MatchText(s).value);
    }
  }

  lemma TextIdReadsBack(g: Groups)
    requires Captured(g) && IsDigit(g.first)
    ensures 0 < TextId(g) < WORD
    ensures var universe := if g.first == '0' then 1 else DigitValue(g.first);
      Unpack(TextId(g)) == Narrow(Fields(DigitValue(g.second), ToUInt(g.digits), 1, 1, universe))
    ensures Ordinary(Unpack(TextId(g))) && 1 <= Unpack(TextId(g)).universe <= 9
  {
    var universe := if g.first == '0' then 1 else DigitValue(g.first);
    CombineReadsBack(DigitValue(g.second), ToUInt(g.digits), 1, universe);
    OrdinaryWhenNarrowed(DigitValue(g.second), ToUInt(g.digits), universe);
  }

  lemma OrdinaryWhenNarrowed(y: nat, accountNumber: nat, universe: nat)
    requires universe < 10
    ensures var f := Narrow(Fields(y, accountNumber, 1, 1, universe)); Ordinary(f) && f.universe == universe
  {
  }

  lemma Id3Parsing(s: string)
    ensures FromId3(s) < WORD
    ensures FromId3(s) == 0 <==> MatchId3(s).None?
    ensures MatchId3(s).Some? ==>
      var g := MatchId3(s).value;
      var w := if Number(g.digits) <= UINT_MAX then Number(g.digits) else 0;
      Unpack(FromId3(s)) == Fields(w % 2, w / 2, 1, 1, DigitValue(g.second))
  {
    if MatchId3(s).Some? {
      Id3IdReadsBack(MatchId3(s).value);
    }
  }

  lemma Id3IdReadsBack(g: Groups)
    requires Captured(g)
    ensures 0 < Id3Id(g) < WORD
    ensures var w := ToUInt(g.digits);
      Unpack(Id3Id(g)) == Fields(w % 2, w / 2, 1, 1, DigitValue(g.second))
  {
    var w := ToUInt(g.digits);
    Id3IdOfHalves(g, w / 2, w % 2);
  }

  lemma Id3IdOfHalves(g: Groups, z: nat, y: nat)
    requires Captured(g) && y < 2 && z < 0x8000_0000 && ToUInt(g.digits) == z * 2 + y
    ensures 0 < Id3Id(g) < WORD && Unpack(Id3Id(g)) == Fields(y, z, 1, 1, DigitValue(g.second))
  {
    Id3IdCombines(g, z, y);
    CombinedInRange(y, z, DigitValue(g.second));
  }

  lemma Id3IdCombines(g: Groups, z: nat, y: nat)
    requires Captured(g) && y < 2 && ToUInt(g.digits) == z * 2 + y
    ensures Id3Id(g) == Combine(y, z, 1, DigitValue(g.second))
  {
    HalveAndParity(z, y);
  }

  lemma CombinedInRange(y: nat, z: nat, universe: nat)
    requires y < 2 && z < 0x8000_0000 && universe < 0x100
    ensures 0 < Combine(y, z, 1, universe) < WORD && Unpack(Combine(y, z, 1, universe)) == Fields(y, z, 1, 1, universe)
  {
    CombineReadsBack(y, z, 1, universe);
    assert InRange(Fields(y, z, 1, 1, universe));
  }

  /** `w = 2z + y` splits back into its parity `y` and its half `z`. */
  lemma HalveAndParity(z: nat, y: nat)
    requires y < 2
    ensures (z * 2 + y) % 2 == y && (z * 2 + y) / 2 == z && (z * 2 + y - y) / 2 == z
  {
  }

  // -------------------------------------------------------------- round trips

  lemma RenderOneDigit(n: nat)
    ensures |Render(n)| == 1 <==> n < 10
    ensures n < 10 ==> Render(n) == [Digit(n)]
  {
  }

  /** A printed Text form matches exactly when its universe is one digit. */
  lemma PrintedTextMatches(f: Fields)
    requires InRange(f)
    ensures MatchText(TextOf(f)) == if f.universe < 10
                               then Some(Groups(Digit(if f.universe == 1 then 0 else f.universe), Digit(f.y),
                                                Render(f.accountNumber)))
                               else None
  {
    var u := if f.universe == 1 then 0 else f.universe;
    RenderOneDigit(u);
    RenderOneDigit(f.y);
    RenderReadsBack(f.accountNumber);
    RenderReadsBack(u);
    var s := TextOf(f);
    assert s[|s| - 1] == Render(f.accountNumber)[|Render(f.accountNumber)| - 1];
    assert Chomp(s) == s;
    if u < 10 {
      assert s[..6] == "STEAM_" && s[10..] == Render(f.accountNumber);
    } else {
      assert s[7] == Render(u)[1];
    }
  }

  /** The Text form identifies an id exactly when the id is an ordinary account
    * of a universe between 1 and 9.
    */
  lemma TextRoundTrip(id: nat)
    requires id < WORD
    ensures FromText(ToText(id)) == id <==> Ordinary(Unpack(id)) && 1 <= Unpack(id).universe <= 9
  {
    var f := Unpack(id);
    PackOfUnpack(id);
    PrintedTextReadsBack(f);
    WordsAreTheirFields(FromText(ToText(id)), id);
  }

  /** A printed Text form reads back as an ordinary account with the same numbers, or not at all. */
  lemma PrintedTextReadsBack(f: Fields)
    requires InRange(f)
    ensures FromText(TextOf(f)) < WORD
    ensures Unpack(FromText(TextOf(f)))
            == if f.universe < 10 then Fields(f.y, f.accountNumber, 1, 1, if f.universe == 0 then 1 else f.universe)
               else Fields(0, 0, 0, 0, 0)
  {
    PrintedTextMatches(f);
    TextParsing(TextOf(f));
    RenderReadsBack(f.accountNumber);
  }

  lemma PrintedId3Matches(f: Fields)
    requires InRange(f) && Id3Of(f).Some?
    ensures MatchId3(Id3Of(f).value) == if f.universe < 10
                                        then Some(Groups('U', Digit(f.universe), Render(f.accountNumber * 2 + f.y)))
                                        else None
  {
    var digits := Render(f.accountNumber * 2 + f.y);
    RenderReadsBack(f.accountNumber * 2 + f.y);
    var v := "U:" + Render(f.universe) + ":" + digits;
    assert v[0] == 'U' && v[|v| - 1] == digits[|digits| - 1];
    assert Id3Of(f).value == "[" + (v + "]") + "";
    StripBrackets("[", v, "]", "");
    Id3CoreOfNumbers(f.universe, digits);
  }

  lemma Id3CoreOfNumbers(universe: nat, digits: string)
    requires digits != "" && AllDigits(digits)
    ensures MatchId3Core("U:" + Render(universe) + ":" + digits)
            == if universe < 10 then Some(Groups('U', Digit(universe), digits)) else None
  {
    var v := "U:" + Render(universe) + ":" + digits;
    RenderOneDigit(universe);
    if universe < 10 {
      var g := Groups('U', Digit(universe), digits);
      assert v == Id3Spelling(g);
      Id3CoreSpelling(v, g);
    } else {
      RenderReadsBack(universe);
      assert v[3] == Render(universe)[1];
    }
  }

  /** Where the Id3 form exists, it identifies an id exactly when the id is an
    * ordinary account of a universe up to 9.
    */
  lemma Id3RoundTrip(id: nat)
    requires id < WORD
    ensures ToId3(id).Some? <==> Unpack(id).accountNumber < 0x4000_0000
    ensures ToId3(id).Some? ==>
      (FromId3(ToId3(id).value) == id <==> Ordinary(Unpack(id)) && Unpack(id).universe <= 9)
  {
    var f := Unpack(id);
    PackOfUnpack(id);
    Id3Exists(f);
    if ToId3(id).Some? {
      PrintedId3ReadsBack(f);
      WordsAreTheirFields(FromId3(ToId3(id).value), id);
    }
  }

  lemma Id3Exists(f: Fields)
    requires InRange(f)
    ensures Id3Of(f).Some? <==> f.accountNumber < 0x4000_0000
  {
  }

  lemma WordsAreTheirFields(a: nat, b: nat)
    requires a < WORD && b < WORD
    ensures a == b <==> Unpack(a) == Unpack(b)
  {
    PackOfUnpack(a);
    PackOfUnpack(b);
  }

  /** A printed Id3 form reads back as an ordinary account with the same numbers, or not at all. */
  lemma PrintedId3ReadsBack(f: Fields)
    requires InRange(f) && Id3Of(f).Some?
    ensures FromId3(Id3Of(f).value) < WORD
    ensures Unpack(FromId3(Id3Of(f).value))
            == if f.universe < 10 then Fields(f.y, f.accountNumber, 1, 1, f.universe) else Fields(0, 0, 0, 0, 0)
  {
    PrintedId3Matches(f);
    if f.universe < 10 {
      RenderReadsBack(f.accountNumber * 2 + f.y);
      Id3Reads(Id3Of(f).value, f.accountNumber, f.y, f.universe);
    } else {
      NothingReadsAsZero();
    }
  }

  lemma Id3Reads(s: string, z: nat, y: nat, universe: nat)
    requires MatchId3(s).Some? && y < 2 && z < 0x8000_0000
    requires ToUInt(MatchId3(s).value.digits) == z * 2 + y && DigitValue(MatchId3(s).value.second) == universe
    ensures FromId3(s) < WORD && Unpack(FromId3(s)) == Fields(y, z, 1, 1, universe)
  {
    Id3IdOfHalves(MatchId3(s).value, z, y);
    assert FromId3(s) == Id3Id(MatchId3(s).value);
  }

  lemma NothingReadsAsZero()
    ensures Unpack(0) == Fields(0, 0, 0, 0, 0)
  {
  }

  /** The decimal form identifies exactly the ids below 2^63. */
  lemma Id64RoundTrip(id: nat)
    requires id < WORD
    ensures FromId64(ToId64(id)) == id <==> id <= LONGLONG_MAX
  {
    RenderReadsBack(id);
    SignedOfDigits(Render(id), LONGLONG_MIN, LONGLONG_MAX);
    WordStays(id);
  }

  lemma WordStays(id: nat)
    requires id < WORD
    ensures id % WORD == id
  {
  }

  lemma AcceptedTextIsOrdinary(s: string)
    requires MatchText(s).Some?
    ensures FromText(s) < WORD
    ensures Ordinary(Unpack(FromText(s))) && 1 <= Unpack(FromText(s)).universe <= 9
  {
    TextIdReadsBack(MatchText(s).value);
  }

  /** Printing after parsing is a normal form: doing both again changes nothing. */
  lemma PrintAfterParseText(s: string)
    requires MatchText(s).Some?
    ensures ToText(FromText(ToText(FromText(s)))) == ToText(FromText(s))
  {
    AcceptedTextIsOrdinary(s);
    TextRoundTrip(FromText(s));
  }

  lemma PrintAfterParseId3(s: string)
    requires MatchId3(s).Some? && ToId3(FromId3(s)).Some?
    ensures ToId3(FromId3(ToId3(FromId3(s)).value)) == ToId3(FromId3(s))
  {
    Id3Parsing(s);
    Id3RoundTrip(FromId3(s));
  }

  /** Text to Id3 and back gives the canonical Text form of the same id. */
  lemma TextToId3AndBack(s: string)
    requires MatchText(s).Some? && ToId3(FromText(s)).Some?
    ensures var id3 := ToId3(FromText(s)).value;
      && FromId3(id3) == FromText(s)
      && ToText(FromId3(id3)) == ToText(FromText(s))
      && FromText(ToText(FromId3(id3))) == FromText(s)
  {
    AcceptedTextIsOrdinary(s);
    Id3RoundTrip(FromText(s));
    TextRoundTrip(FromText(s));
  }

  // --------------------------------------------------------- how ids are written

  /** The three printed forms, letter by letter. */
  lemma IdsPrintAs(id: nat)
    requires id < WORD
    ensures var f := Unpack(id);
      exists u, y, a ::
        && Prints(u, if f.universe == 1 then 0 else f.universe) && Prints(y, f.y) && Prints(a, f.accountNumber)
        && ToText(id) == "STEAM_" + u + ":" + y + ":" + a
    ensures var f := Unpack(id);
      ToId3(id).Some? ==>
        exists u, w ::
          && Prints(u, f.universe) && Prints(w, 2 * f.accountNumber + f.y)
          && ToId3(id).value == "[U:" + u + ":" + w + "]"
    ensures Prints(ToId64(id), id)
  {
    var f := Unpack(id);
    var u := if f.universe == 1 then 0 else f.universe;
    PrintsOneWay(Render(u), u);
    PrintsOneWay(Render(f.universe), f.universe);
    PrintsOneWay(Render(f.y), f.y);
    PrintsOneWay(Render(f.accountNumber), f.accountNumber);
    PrintsOneWay(Render(2 * f.accountNumber + f.y), 2 * f.accountNumber + f.y);
    PrintsOneWay(Render(id), id);
    assert ToText(id) == "STEAM_" + Render(u) + ":" + Render(f.y) + ":" + Render(f.accountNumber);
    if ToId3(id).Some? {
      assert ToId3(id).value == "[U:" + Render(f.universe) + ":" + Render(2 * f.accountNumber + f.y) + "]";
    }
  }

  /** The id that the repository's own tests print. */
  lemma MalyPrintsAs()
    ensures ToText(76561198074409147) == "STEAM_0:1:57071709"
    ensures ToId3(76561198074409147) == Some("[U:1:114143419]")
    ensures ToId64(76561198074409147) == "76561198074409147"
  {
    var f := MalysFields();
    MalysAccount();
    MalysDouble();
    MalysNumber();
    SmallText(f);
    assert "STEAM_0:1:" + "57071709" == "STEAM_0:1:57071709";
    assert "[U:1:" + "114143419" + "]" == "[U:1:114143419]";
  }

  lemma MalysFields() returns (f: Fields)
    ensures f == Unpack(76561198074409147) == Fields(1, 57071709, 1, 1, 1)
  {
    f := Unpack(76561198074409147);
  }

  lemma SmallText(f: Fields)
    requires f.universe == f.y == 1
    ensures TextOf(f) == "STEAM_0:1:" + Render(f.accountNumber)
    ensures f.accountNumber * 2 + 1 <= INT_MAX ==>
      Id3Of(f) == Some("[U:1:" + Render(f.accountNumber * 2 + 1) + "]")
  {
    assert Render(0) == "0" && Render(1) == "1";
    assert "STEAM_" + "0" + ":" + "1" + ":" == "STEAM_0:1:" && "[U:" + "1" + ":" == "[U:1:";
  }

  lemma OneMoreDigit(n: nat, s: string, d: nat) returns (t: string)
    requires n > 0 && d < 10 && Render(n) == s
    ensures t == s + [Digit(d)] && Render(10 * n + d) == t
  {
    t := s + [Digit(d)];
  }

  lemma MalysAccount()
    ensures Render(57071709) == "57071709"
  {
    var s := OneMoreDigit(5, "5", 7);
    s := OneMoreDigit(57, s, 0);
    s := OneMoreDigit(570, s, 7);
    s := OneMoreDigit(5707, s, 1);
    s := OneMoreDigit(57071, s, 7);
    s := OneMoreDigit(570717, s, 0);
    s := OneMoreDigit(5707170, s, 9);
    assert s == "57071709";
  }

  lemma MalysDouble()
    ensures Render(114143419) == "114143419"
  {
    var s := OneMoreDigit(1, "1", 1);
    s := OneMoreDigit(11, s, 4);
    s := OneMoreDigit(114, s, 1);
    s := OneMoreDigit(1141, s, 4);
    s := OneMoreDigit(11414, s, 3);
    s := OneMoreDigit(114143, s, 4);
    s := OneMoreDigit(1141434, s, 1);
    s := OneMoreDigit(11414341, s, 9);
    assert s == "114143419";
  }

  lemma MalysNumber()
    ensures Render(76561198074409147) == "76561198074409147"
  {
    var s := OneMoreDigit(7, "7", 6);
    s := OneMoreDigit(76, s, 5);
    s := OneMoreDigit(765, s, 6);
    s := OneMoreDigit(7656, s, 1);
    s := OneMoreDigit(76561, s, 1);
    s := OneMoreDigit(765611, s, 9);
    s := OneMoreDigit(7656119, s, 8);
    s := OneMoreDigit(76561198, s, 0);
    s := OneMoreDigit(765611980, s, 7);
    s := OneMoreDigit(7656119807, s, 4);
    s := OneMoreDigit(76561198074, s, 4);
    s := OneMoreDigit(765611980744, s, 0);
    s := OneMoreDigit(7656119807440, s, 9);
    s := OneMoreDigit(76561198074409, s, 1);
    s := OneMoreDigit(765611980744091, s, 4);
    s := OneMoreDigit(7656119807440914, s, 7);
    assert s == "76561198074409147";
  }

  /** Id64: a number below zero wraps around, and what is no number in range is 0. */
  lemma Id64Parsing(s: string, left: string, sign: string, digits: string, right: string)
    ensures IsSpelling(s, left, sign, digits, right) ==>
      var n := Number(digits);
      FromId64(s) == if sign != "-" && n < 0x8000_0000_0000_0000 then n
                     else if sign == "-" && 0 < n <= 0x8000_0000_0000_0000 then 0x1_0000_0000_0000_0000 - n
                     else 0
    ensures (forall l, g, d, r :: !IsSpelling(s, l, g, d, r)) ==> FromId64(s) == 0
  {
    if IsSpelling(s, left, sign, digits, right) {
      SignedReadsSpellings(s, left, sign, digits, right, LONGLONG_MIN, LONGLONG_MAX);
      if LONGLONG_MIN <= SignedNumber(sign, digits) <= LONGLONG_MAX {
        Wraps(SignedNumber(sign, digits));
      }
    }
    if ToLongLong(s).Some? {
      SignedReadsOnlySpellings(s, LONGLONG_MIN, LONGLONG_MAX);
    }
  }

  lemma Wraps(v: int)
    requires LONGLONG_MIN <= v <= LONGLONG_MAX
    ensures v % WORD == if v < 0 then WORD + v else v
  {
  }
}
