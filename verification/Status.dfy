/** The local copy of a remote game server's public state. */
module Status {
  import opened Common
  import opened Decimal

  datatype Player = Player(id: int, name: string, steamId: nat)

  datatype Address = NoAddress | Steam(host: string, port: int)

  /** The last three fields are history: how often the status was reset, and who
    * came and went since.
    */
  datatype Status = Status(hostname: string, playerCount: int, maxPlayers: int, map_: string, address: Address,
                           password: string, stvPort: int, stvPassword: string, players: seq<Player>,
                           resets: nat, arrived: seq<Player>, gone: multiset<int>)

  function Blank(resets: nat): Status {
    Status("", 0, 0, "", NoAddress, "", 0, "", [], resets, [], multiset{})
  }

  function Reset(s: Status): Status {
    Blank(s.resets + 1)
  }

  function Split(s: string, sep: char): (parts: seq<string>)
    ensures |parts| > 0
  {
    if s == "" then [""]
    else
      var rest := Split(s[1..], sep);
      if s[0] == sep then [""] + rest else [[s[0]] + rest[0]] + rest[1..]
  }

  /** One colon splits a text into host and port. */
  predicate IsAddress(text: string) {
    |Split(text, ':')| == 2
  }

  function AddressFrom(text: string, otherwise: Address): Address {
    var parts := Split(text, ':');
    if !IsAddress(text) then otherwise
    else Steam(parts[0], match ToInt(parts[1]) case Some(port) => port case None => 0)
  }

  function PortFrom(text: string, otherwise: int): int {
    match ToInt(text)
    case Some(port) => port
    case None => otherwise
  }

  function AddPlayer(s: Status, p: Player): Status {
    s.(players := s.players + [p], playerCount := s.playerCount + 1, arrived := s.arrived + [p])
  }

  predicate IsListed(players: seq<Player>, id: int) {
    exists i :: 0 <= i < |players| && players[i].id == id
  }

  function RemoveFirst(players: seq<Player>, id: int): seq<Player> {
    if players == [] then []
    else if players[0].id == id then players[1..]
    else [players[0]] + RemoveFirst(players[1..], id)
  }

  function RemovePlayer(s: Status, id: int): Status {
    s.(players := RemoveFirst(s.players, id), playerCount := s.playerCount - 1, gone := s.gone + multiset{id})
  }

  // ------------------------------------------------------- players by history

  function Count(arrived: seq<Player>, id: int): nat {
    if arrived == [] then 0
    else Count(arrived[..|arrived| - 1], id) + if arrived[|arrived| - 1].id == id then 1 else 0
  }

  /** Who is left: everyone who arrived, in order, but for the first `gone[id]`
    * arrivals of each id.
    */
  function Remaining(arrived: seq<Player>, gone: multiset<int>): seq<Player> {
    if arrived == [] then []
    else
      var init, last := arrived[..|arrived| - 1], arrived[|arrived| - 1];
      Remaining(init, gone) + if Count(init, last.id) >= gone[last.id] then [last] else []
  }

  /** The list and the count are what the history since the last reset says. */
  ghost predicate Counted(s: Status) {
    && s.players == Remaining(s.arrived, s.gone)
    && s.playerCount == |s.players|
    && forall id :: s.gone[id] <= Count(s.arrived, id)
  }

  lemma AddPlayerKeepsCounted(s: Status, p: Player)
    requires Counted(s)
    ensures Counted(AddPlayer(s, p))
  {
  }

  lemma {:induction false} RemoveFirstOfLonger(players: seq<Player>, last: Player, id: int)
    ensures RemoveFirst(players + [last], id)
            == if IsListed(players, id) then RemoveFirst(players, id) + [last]
               else if last.id == id then players
               else players + [last]
    ensures |RemoveFirst(players, id)| == |players| - if IsListed(players, id) then 1 else 0
    ensures !IsListed(players, id) ==> RemoveFirst(players, id) == players
  {
    if players == [] {
      assert [last][1..] == [];
    } else {
      var rest := players[1..];
      RemoveFirstOfLonger(rest, last, id);
      assert (players + [last])[1..] == rest + [last];
      assert players == [players[0]] + rest;
      if players[0].id != id {
        assert IsListed(players, id) <==> IsListed(rest, id) by {
          assert forall i :: 0 <= i < |rest| ==> rest[i] == players[i + 1];
          if i :| 0 <= i < |players| && players[i].id == id {
            assert rest[i - 1].id == id;
          }
        }
      }
    }
  }

  lemma ListedInLonger(players: seq<Player>, last: Player, id: int)
    ensures IsListed(players + [last], id) <==> IsListed(players, id) || last.id == id
  {
    var longer := players + [last];
    assert longer[|players|] == last;
    assert forall i :: 0 <= i < |players| ==> longer[i] == players[i];
  }

  /** One more departure cancels the earliest arrival still counted. */
  lemma {:induction false} DepartureRemovesFirst(arrived: seq<Player>, gone: multiset<int>, id: int)
    ensures IsListed(Remaining(arrived, gone), id) <==> Count(arrived, id) > gone[id]
    ensures Remaining(arrived, gone + multiset{id}) == RemoveFirst(Remaining(arrived, gone), id)
  {
    if arrived == [] {
    } else {
      var init, last := arrived[..|arrived| - 1], arrived[|arrived| - 1];
      DepartureRemovesFirst(init, gone, id);
      var left := Remaining(init, gone);
      if Count(init, last.id) >= gone[last.id] {
        ListedInLonger(left, last, id);
        RemoveFirstOfLonger(left, last, id);
      } else {
        assert Remaining(arrived, gone) == left;
      }
    }
  }

  lemma RemovePlayerKeepsCounted(s: Status, id: int)
    requires Counted(s) && IsListed(s.players, id)
    ensures Counted(RemovePlayer(s, id))
  {
    DepartureRemovesFirst(s.arrived, s.gone, id);
    RemoveFirstOfLonger(s.players, s.players[0], id);
    var gone := s.gone + multiset{id};
    forall x ensures gone[x] <= Count(s.arrived, x) {
      assert s.gone[x] <= Count(s.arrived, x);
    }
  }

  // ------------------------------------------------------- splitting a text

  predicate Holds(s: string, sep: char) {
    exists i :: 0 <= i < |s| && s[i] == sep
  }

  function Join(parts: seq<string>, sep: char): string {
    if parts == [] then ""
    else if |parts| == 1 then parts[0]
    else parts[0] + [sep] + Join(parts[1..], sep)
  }

  lemma SplitOfLonger(c: char, s: string, sep: char)
    ensures var rest := Split(s, sep);
      Split([c] + s, sep) == if c == sep then [""] + rest else [[c] + rest[0]] + rest[1..]
  {
    assert ([c] + s)[1..] == s;
  }

  lemma JoinOfMore(part: string, rest: seq<string>, sep: char)
    requires rest != []
    ensures Join([part] + rest, sep) == part + [sep] + Join(rest, sep)
  {
    assert ([part] + rest)[1..] == rest;
  }

  lemma JoinOfLonger(c: char, parts: seq<string>, sep: char)
    requires parts != []
    ensures Join([[c] + parts[0]] + parts[1..], sep) == [c] + Join(parts, sep)
  {
    if |parts| > 1 {
      JoinOfMore([c] + parts[0], parts[1..], sep);
      assert [c] + parts[0] + [sep] + Join(parts[1..], sep) == [c] + (parts[0] + [sep] + Join(parts[1..], sep));
    }
  }

  lemma HoldsOfLonger(c: char, s: string, sep: char)
    ensures Holds([c] + s, sep) <==> c == sep || Holds(s, sep)
  {
    assert ([c] + s)[0] == c && forall i :: 0 <= i < |s| ==> ([c] + s)[i + 1] == s[i];
  }

  ghost predicate NoneHolds(parts: seq<string>, sep: char) {
    forall i :: 0 <= i < |parts| ==> !Holds(parts[i], sep)
  }

  /** Splitting gives the parts between the separators: joined they are the text. */
  lemma {:induction false} SplitJoins(s: string, sep: char)
    ensures Join(Split(s, sep), sep) == s && NoneHolds(Split(s, sep), sep)
  {
    if s == "" {
    } else {
      var c, rest := s[0], Split(s[1..], sep);
      SplitJoins(s[1..], sep);
      SplitOfLonger(c, s[1..], sep);
      assert s == [c] + s[1..];
      if c == sep {
        JoinOfMore("", rest, sep);
        assert "" + [sep] + s[1..] == s;
      } else {
        JoinOfLonger(c, rest, sep);
        HoldsOfLonger(c, rest[0], sep);
      }
    }
  }

  /** There is one part more than separators. */
  lemma {:induction false} SplitCounts(s: string, sep: char)
    ensures |Split(s, sep)| == multiset(s)[sep] + 1
  {
    if s == "" {
    } else {
      SplitCounts(s[1..], sep);
      assert s == [s[0]] + s[1..];
      assert multiset(s) == multiset{s[0]} + multiset(s[1..]);
    }
  }

  /** And no other parts are. */
  lemma {:induction false} JoinSplits(parts: seq<string>, sep: char)
    requires parts != [] && NoneHolds(parts, sep)
    ensures Split(Join(parts, sep), sep) == parts
    decreases |parts|, |parts[0]|
  {
    if parts[0] != "" {
      var c, tail := parts[0][0], parts[0][1..];
      var shorter := [tail] + parts[1..];
      assert parts[0] == [c] + tail && shorter[1..] == parts[1..] && !Holds(parts[0], sep);
      HoldsOfLonger(c, tail, sep);
      JoinSplits(shorter, sep);
      JoinOfLonger(c, shorter, sep);
      SplitOfLonger(c, Join(shorter, sep), sep);
      assert parts == [parts[0]] + parts[1..];
    } else if |parts| > 1 {
      JoinSplits(parts[1..], sep);
      SplitOfLonger(sep, Join(parts[1..], sep), sep);
      assert parts == [""] + parts[1..] && "" + [sep] + Join(parts[1..], sep) == [sep] + Join(parts[1..], sep);
    } else {
      assert parts == [""];
    }
  }

  // ------------------------------------------------------ addresses and ports

  /** A host, a colon and a port are read as that host and that port. */
  lemma AddressReads(host: string, port: string, otherwise: Address)
    requires !Holds(host, ':') && !Holds(port, ':')
    ensures AddressFrom(host + ":" + port, otherwise)
            == Steam(host, if ToInt(port).Some? then ToInt(port).value else 0)
  {
    var parts := [host, port];
    assert Join(parts[1..], ':') == port;
    assert Join(parts, ':') == host + ":" + port;
    JoinSplits(parts, ':');
  }

  lemma DigitsHoldNoColon(digits: string)
    requires AllDigits(digits)
    ensures !Holds(digits, ':')
  {
  }

  /** So a printed port is read back; one that is no number is 0; */
  lemma PrintedAddressReads(host: string, n: nat, otherwise: Address)
    requires !Holds(host, ':') && n <= INT_MAX
    ensures AddressFrom(host + ":" + Render(n), otherwise) == Steam(host, n)
  {
    RenderReadsBack(n);
    DigitsHoldNoColon(Render(n));
    SignedOfDigits(Render(n), INT_MIN, INT_MAX);
    AddressReads(host, Render(n), otherwise);
  }

  /** and a text without a colon, or with several, changes nothing. */
  lemma OtherTextsAreNoAddress(text: string, otherwise: Address)
    ensures IsAddress(text) <==> multiset(text)[':'] == 1
    ensures multiset(text)[':'] != 1 ==> AddressFrom(text, otherwise) == otherwise
  {
    SplitCounts(text, ':');
  }

  /** A port that is no number keeps the one before. */
  lemma PortReads(text: string, otherwise: int)
    ensures ToInt(text).None? ==> PortFrom(text, otherwise) == otherwise
    ensures forall n: nat :: n <= INT_MAX && text == Render(n) ==> PortFrom(text, otherwise) == n
  {
    forall n: nat | n <= INT_MAX && text == Render(n) ensures PortFrom(text, otherwise) == n {
      RenderReadsBack(n);
      SignedOfDigits(text, INT_MIN, INT_MAX);
    }
  }
}
