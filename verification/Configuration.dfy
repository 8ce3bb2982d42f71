/** The key/value configuration of one server, and the log that restores it. */
module Configuration {

  type Values = map<string, string>

  /** A write of one key, which is also one row of the log. */
  datatype Entry = Entry(key: string, value: string)

  const USER_KEY := "org.morgoth.Server.user"
  const ARGUMENTS_KEY := "org.morgoth.Server.launchArguments"
  const LOGS_KEY := "org.morgoth.Server.logDirectory"

  /** What every new server starts from. */
  function Defaults(): Values {
    map[ARGUMENTS_KEY := "-port 27015 -secured +map cp_badlands", LOGS_KEY := "logs"]
  }

  /** An absent key reads as the empty string. */
  function Value(m: Values, key: string): string {
    if key in m then m[key] else ""
  }

  /** What a new server's configuration reads as. */
  ghost predicate ReadsAsNew(m: Values) {
    && Value(m, "org.morgoth.Server.launchArguments") == "-port 27015 -secured +map cp_badlands"
    && Value(m, "org.morgoth.Server.logDirectory") == "logs"
    && forall key :: key !in {"org.morgoth.Server.launchArguments", "org.morgoth.Server.logDirectory"} ==>
         Value(m, key) == ""
  }

  lemma DefaultsRead()
    ensures ReadsAsNew(Defaults()) && Value(Defaults(), "org.morgoth.Server.user") == ""
    ensures USER_KEY == "org.morgoth.Server.user"
  {
    assert |"org.morgoth.Server.launchArguments"| != |"org.morgoth.Server.logDirectory"|;
    assert |"org.morgoth.Server.user"| != |"org.morgoth.Server.logDirectory"|;
    assert |"org.morgoth.Server.user"| != |"org.morgoth.Server.launchArguments"|;
  }

  /** Writing the value a key already reads as changes nothing. */
  function SetValue(m: Values, key: string, value: string): Values {
    if Value(m, key) == value then m else m[key := value]
  }

  function Replay(m: Values, log: seq<Entry>): Values {
    if log == [] then m
    else
      var last := log[|log| - 1];
      SetValue(Replay(m, log[..|log| - 1]), last.key, last.value)
  }

  /** Two configurations that no caller of `value` can tell apart. */
  ghost predicate Same(a: Values, b: Values) {
    forall key :: Value(a, key) == Value(b, key)
  }

  lemma SetValueKeepsSame(a: Values, b: Values, key: string, value: string)
    requires Same(a, b)
    ensures Same(SetValue(a, key, value), SetValue(b, key, value))
    ensures Value(SetValue(a, key, value), key) == value
  {
    forall k ensures Value(SetValue(a, key, value), k) == Value(SetValue(b, key, value), k) {
      assert Value(a, k) == Value(b, k) && Value(a, key) == Value(b, key);
    }
  }

  function LoggedKeys(log: seq<Entry>): set<string> {
    set e | e in log :: e.key
  }

  /** The keys with a row whose value is not empty. */
  function FilledKeys(log: seq<Entry>): set<string> {
    set e | e in log && e.value != "" :: e.key
  }

  /** A replay lists, besides the keys it starts from, just the keys some row fills:
    * an empty value alone never inserts its key.
    */
  lemma {:induction false} ReplayKeys(m: Values, log: seq<Entry>)
    ensures Replay(m, log).Keys == m.Keys + FilledKeys(log)
  {
    if log == [] {
      assert FilledKeys(log) == {};
    } else {
      var init, last := log[..|log| - 1], log[|log| - 1];
      ReplayKeys(m, init);
      assert log == init + [last];
      assert FilledKeys(log) == FilledKeys(init) + if last.value != "" then {last.key} else {};
    }
  }

  ghost predicate LastWrite(log: seq<Entry>, i: int) {
    0 <= i < |log| && forall j :: i < j < |log| ==> log[j].key != log[i].key
  }

  /** A replayed key reads as the value of its last row. */
  lemma {:induction false} ReplayIsLastWriterWins(m: Values, log: seq<Entry>, i: int)
    requires LastWrite(log, i)
    ensures Value(Replay(m, log), log[i].key) == log[i].value
  {
    var k := |log| - 1;
    if i < k {
      var init := log[..k];
      assert init[i] == log[i] && LastWrite(init, i);
      ReplayIsLastWriterWins(m, init, i);
      assert log[k].key != log[i].key;
    }
  }

  /** A key without a row reads as it did before the replay. */
  lemma {:induction false} ReplaySparesOtherKeys(m: Values, log: seq<Entry>, key: string)
    requires key !in LoggedKeys(log)
    ensures Value(Replay(m, log), key) == Value(m, key)
  {
    if log == [] {
    } else {
      var init, last := log[..|log| - 1], log[|log| - 1];
      assert last in log && forall e :: e in init ==> e in log;
      ReplaySparesOtherKeys(m, init, key);
    }
  }

  lemma {:induction false} LastWriteExists(log: seq<Entry>, n: nat) returns (i: nat)
    requires n < |log|
    ensures LastWrite(log, i) && log[i].key == log[n].key && n <= i
    decreases |log| - n
  {
    if m :| n < m < |log| && log[m].key == log[n].key {
      i := LastWriteExists(log, m);
    } else {
      i := n;
    }
  }

  // ------------------------------------------------------- snapshots of a map

  function Snapshot(keys: seq<string>, m: Values): (log: seq<Entry>)
    ensures |log| == |keys|
    ensures forall i :: 0 <= i < |keys| ==> log[i] == Entry(keys[i], Value(m, keys[i]))
  {
    seq(|keys|, i requires 0 <= i < |keys| => Entry(keys[i], Value(m, keys[i])))
  }

  ghost predicate Lists(keys: seq<string>, s: set<string>) {
    && (forall i, j :: 0 <= i < j < |keys| ==> keys[i] != keys[j])
    && (forall k :: k in keys <==> k in s)
  }

  lemma SnapshotKeys(keys: seq<string>, m: Values)
    requires Lists(keys, m.Keys)
    ensures LoggedKeys(Snapshot(keys, m)) == m.Keys
    ensures FilledKeys(Snapshot(keys, m)) == set key | key in m && m[key] != ""
  {
    var log := Snapshot(keys, m);
    forall key | key in m ensures Entry(key, m[key]) in log {
      var i :| 0 <= i < |keys| && keys[i] == key;
      assert log[i] == Entry(key, m[key]);
    }
  }

  /** One row per key restores every value, over any start whose keys are covered. */
  lemma SnapshotRestores(start: Values, keys: seq<string>, m: Values)
    requires Lists(keys, m.Keys) && start.Keys <= m.Keys
    ensures Same(Replay(start, Snapshot(keys, m)), m)
  {
    var log := Snapshot(keys, m);
    forall key ensures Value(Replay(start, log), key) == Value(m, key) {
      if key in m {
        var i :| 0 <= i < |keys| && keys[i] == key;
        assert LastWrite(log, i);
        ReplayIsLastWriterWins(start, log, i);
      } else {
        SnapshotKeys(keys, m);
        ReplaySparesOtherKeys(start, log, key);
      }
    }
  }

  // ----------------------------------------- appending against updating a row

  predicate HasKey(log: seq<Entry>, key: string) {
    exists i :: 0 <= i < |log| && log[i].key == key
  }

  function Overwrite(log: seq<Entry>, e: Entry): seq<Entry> {
    if log == [] then []
    else if log[|log| - 1].key == e.key then log[..|log| - 1] + [e]
    else Overwrite(log[..|log| - 1], e) + [log[|log| - 1]]
  }

  /** The other way to store a write: change the row of the key when there is one. */
  function Upsert(log: seq<Entry>, e: Entry): seq<Entry> {
    if HasKey(log, e.key) then Overwrite(log, e) else log + [e]
  }

  function UpsertAll(log: seq<Entry>, writes: seq<Entry>): seq<Entry> {
    if writes == [] then log else Upsert(UpsertAll(log, writes[..|writes| - 1]), writes[|writes| - 1])
  }

  predicate UniqueKeys(log: seq<Entry>) {
    forall i, j :: 0 <= i < j < |log| ==> log[i].key != log[j].key
  }

  lemma ReplayOneMore(m: Values, log: seq<Entry>, e: Entry)
    ensures Replay(m, log + [e]) == SetValue(Replay(m, log), e.key, e.value)
  {
  }

  lemma {:induction false} OverwriteKeepsKeys(log: seq<Entry>, e: Entry)
    ensures |Overwrite(log, e)| == |log|
    ensures forall i :: 0 <= i < |log| ==> Overwrite(log, e)[i].key == log[i].key
    ensures forall i :: 0 <= i < |log| ==> Overwrite(log, e)[i] == log[i] || Overwrite(log, e)[i] == e
  {
    if log == [] {
    } else {
      OverwriteKeepsKeys(log[..|log| - 1], e);
    }
  }

  lemma UpsertKeepsKeysUnique(log: seq<Entry>, e: Entry)
    requires UniqueKeys(log)
    ensures UniqueKeys(Upsert(log, e))
  {
    OverwriteKeepsKeys(log, e);
  }

  lemma {:induction false} OverwriteIsAWrite(m: Values, log: seq<Entry>, e: Entry)
    requires HasKey(log, e.key)
    ensures Same(Replay(m, Overwrite(log, e)), SetValue(Replay(m, log), e.key, e.value))
  {
    var init, last := log[..|log| - 1], log[|log| - 1];
    if last.key == e.key {
      ReplayOneMore(m, init, e);
      LastWriterDecides(Replay(m, init), last, e);
    } else {
      var i :| 0 <= i < |log| && log[i].key == e.key;
      assert init[i].key == e.key;
      OverwriteIsAWrite(m, init, e);
      ReplayOneMore(m, Overwrite(init, e), last);
      SetValueKeepsSame(Replay(m, Overwrite(init, e)), SetValue(Replay(m, init), e.key, e.value), last.key, last.value);
      WritesOfTwoKeysCommute(Replay(m, init), last, e);
    }
  }

  lemma UpsertOverwrites(m: Values, log: seq<Entry>, e: Entry)
    ensures Same(Replay(m, Upsert(log, e)), SetValue(Replay(m, log), e.key, e.value))
  {
    if HasKey(log, e.key) {
      OverwriteIsAWrite(m, log, e);
    } else {
      ReplayOneMore(m, log, e);
    }
  }

  lemma LastWriterDecides(m: Values, first: Entry, second: Entry)
    requires first.key == second.key
    ensures Same(SetValue(m, second.key, second.value),
                 SetValue(SetValue(m, first.key, first.value), second.key, second.value))
  {
  }

  lemma WritesOfTwoKeysCommute(m: Values, a: Entry, b: Entry)
    requires a.key != b.key
    ensures Same(SetValue(SetValue(m, a.key, a.value), b.key, b.value),
                 SetValue(SetValue(m, b.key, b.value), a.key, a.value))
  {
  }

  /** Whatever is written, appending rows and updating rows in place restore the
    * same configuration; updating keeps at most one row per key.
    */
  lemma {:induction false} AppendingRefinesUpdating(m: Values, log: seq<Entry>, writes: seq<Entry>)
    ensures UniqueKeys(log) ==> UniqueKeys(UpsertAll(log, writes))
    ensures Same(Replay(m, log + writes), Replay(m, UpsertAll(log, writes)))
  {
    if writes == [] {
      assert log + writes == log;
    } else {
      var k := |writes| - 1;
      var init, e := writes[..k], writes[k];
      AppendingRefinesUpdating(m, log, init);
      if UniqueKeys(log) {
        UpsertKeepsKeysUnique(UpsertAll(log, init), e);
      }
      UpsertOverwrites(m, UpsertAll(log, init), e);
      assert log + writes == log + init + [e];
      ReplayOneMore(m, log + init, e);
      SetValueKeepsSame(Replay(m, log + init), Replay(m, UpsertAll(log, init)), e.key, e.value);
    }
  }

  // -------------------------------------------------- keys in ascending order

  predicate AtMost(a: string, b: string) {
    a == "" || (b != "" && (a[0] < b[0] || (a[0] == b[0] && AtMost(a[1..], b[1..]))))
  }

  lemma {:induction false} AtMostIsTotal(a: string, b: string)
    ensures AtMost(a, b) || AtMost(b, a)
    ensures AtMost(a, b) && AtMost(b, a) ==> a == b
  {
    if a != "" && b != "" && a[0] == b[0] {
      AtMostIsTotal(a[1..], b[1..]);
      assert a == [a[0]] + a[1..] && b == [b[0]] + b[1..];
    }
  }

  lemma {:induction false} AtMostIsTransitive(a: string, b: string, c: string)
    requires AtMost(a, b) && AtMost(b, c)
    ensures AtMost(a, c)
  {
    if a != "" && a[0] == b[0] == c[0] {
      AtMostIsTransitive(a[1..], b[1..], c[1..]);
    }
  }

  predicate IsLeast(k: string, s: set<string>) {
    k in s && forall j :: j in s ==> AtMost(k, j)
  }

  lemma {:induction false} LeastExists(s: set<string>)
    requires s != {}
    ensures exists k :: IsLeast(k, s)
    decreases |s|
  {
    var x :| x in s;
    var rest := s - {x};
    AtMostIsTotal(x, x);
    if rest == {} {
      assert s == {x};
      assert IsLeast(x, s);
    } else {
      LeastExists(rest);
      var k :| IsLeast(k, rest);
      AtMostIsTotal(x, k);
      var least := if AtMost(x, k) then x else k;
      forall j | j in s ensures AtMost(least, j) {
        if j != x && least == x {
          AtMostIsTransitive(x, k, j);
        }
      }
      assert IsLeast(least, s);
    }
  }

  lemma LeastIsUnique(s: set<string>)
    ensures forall a, b :: IsLeast(a, s) && IsLeast(b, s) ==> a == b
  {
    forall a, b | IsLeast(a, s) && IsLeast(b, s) ensures a == b {
      AtMostIsTotal(a, b);
    }
  }

  /** The keys of a map, in the ascending order QMap keeps them in. */
  function Sorted(s: set<string>): (keys: seq<string>)
    ensures Lists(keys, s)
    decreases |s|
  {
    if s == {} then []
    else
      LeastExists(s);
      LeastIsUnique(s);
      var k :| k in s && IsLeast(k, s);
      [k] + Sorted(s - {k})
  }

  lemma {:induction false} SortedAscends(s: set<string>)
    ensures forall i, j :: 0 <= i < j < |Sorted(s)| ==> AtMost(Sorted(s)[i], Sorted(s)[j])
    decreases |s|
  {
    if s == {} {
    } else {
      LeastExists(s);
      LeastIsUnique(s);
      var k := Sorted(s)[0];
      assert IsLeast(k, s) && Sorted(s) == [k] + Sorted(s - {k});
      SortedAscends(s - {k});
      forall j | 1 <= j < |Sorted(s)| ensures AtMost(k, Sorted(s)[j]) {
        assert Sorted(s)[j] in s;
      }
    }
  }
}
