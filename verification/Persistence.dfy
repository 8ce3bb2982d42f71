/** The server list in memory together with its durable mirror, as one state
  * machine whose steps are add, remove, setValue and restart.
  */
module Persistence {
  import opened Common
  import opened Configuration
  import opened Tables

  /** A listed server. `stored` says that its configuration's changes are
    * connected to the log.
    */
  datatype Listed = Listed(path: string, name: string, values: Values, stored: bool)

  type Memory = seq<Listed>

  predicate Taken(mem: Memory, name: string) {
    exists i :: 0 <= i < |mem| && mem[i].name == name
  }

  predicate DistinctNames(mem: Memory) {
    forall i, j :: 0 <= i < j < |mem| ==> mem[i].name != mem[j].name
  }

  function Without(mem: Memory, name: string): Memory {
    Filter(mem, (s: Listed) => s.name != name)
  }

  function Write(s: Listed, name: string, key: string, value: string): Listed {
    if s.name == name then s.(values := SetValue(s.values, key, value)) else s
  }

  function Written(mem: Memory, name: string, key: string, value: string): (m: Memory)
    ensures |m| == |mem| && forall i :: 0 <= i < |mem| ==> m[i] == Write(mem[i], name, key, value)
  {
    seq(|mem|, i requires 0 <= i < |mem| => Write(mem[i], name, key, value))
  }

  /** The servers a restart can bring back. */
  function Stored(mem: Memory): Memory {
    Filter(mem, (s: Listed) => s.stored)
  }

  /** `restoreServers`: every row is added with defaults, then its entries are
    * replayed. A row whose name is taken makes `add` return null, which the
    * replay then dereferences: None.
    */
  function Restore(rows: seq<ServerRow>, entries: seq<EntryRow>): Option<Memory> {
    if rows == [] then Some([])
    else
      var row := rows[|rows| - 1];
      match Restore(rows[..|rows| - 1], entries)
      case None => None
      case Some(mem) =>
        if Taken(mem, row.name) then None
        else Some(mem + [Listed(row.path, row.name, Replay(Defaults(), EntriesOf(entries, row.id)), true)])
  }

  // -------------------------------------------------------------------- steps

  datatype Daemon = Daemon(mem: Memory, tables: Tables)

  /** `tweaks` are the writes made to a server before it is added. Each step says
    * which of its database statements fail.
    */
  datatype Step =
    | Add(path: string, name: string, tweaks: seq<Entry>, faults: Faults)
    | Remove(name: string, failing: DeleteFaults)
    | Set(name: string, key: string, value: string, fails: bool)
    | Restart

  function AddServer(d: Daemon, path: string, name: string, values: Values, faults: Faults): Daemon {
    if Taken(d.mem, name) then d
    else
      var (tables, stored) := StoreServer(d.tables, path, name, values, faults);
      Daemon(d.mem + [Listed(path, name, values, stored)], tables)
  }

  function RemoveServer(d: Daemon, name: string, failing: DeleteFaults): Daemon {
    if Taken(d.mem, name) then Daemon(Without(d.mem, name), TryDeleteServer(d.tables, name, failing)) else d
  }

  /** Only a connected configuration whose value really changes reaches the log. */
  predicate Logs(mem: Memory, name: string, key: string, value: string) {
    exists i :: 0 <= i < |mem| && mem[i].name == name && mem[i].stored && Value(mem[i].values, key) != value
  }

  function WriteValue(d: Daemon, name: string, key: string, value: string, fails: bool): Daemon {
    Daemon(Written(d.mem, name, key, value),
           if Logs(d.mem, name, key, value) && !fails then StoreConfigurationEntry(d.tables, name, key, value)
           else d.tables)
  }

  /** None when the daemon crashes. */
  function Next(d: Daemon, step: Step): Option<Daemon> {
    match step
    case Add(path, name, tweaks, faults) => Some(AddServer(d, path, name, Replay(Defaults(), tweaks), faults))
    case Remove(name, failing) => Some(RemoveServer(d, name, failing))
    case Set(name, key, value, fails) => Some(WriteValue(d, name, key, value, fails))
    case Restart =>
      match Restore(d.tables.servers, d.tables.entries)
      case None => None
      case Some(mem) => Some(Daemon(mem, d.tables))
  }

  function Run(steps: seq<Step>): Option<Daemon> {
    if steps == [] then Some(Daemon([], Empty()))
    else
      match Run(steps[..|steps| - 1])
      case None => None
      case Some(d) => Next(d, steps[|steps| - 1])
  }

  /** What the steps do to the servers in memory, whatever fails: an add appends one
    * server when its name is free, a remove takes away those of the name, and a
    * write changes one key of those of the name.
    */
  lemma StepsInMemory(d: Daemon, path: string, name: string, tweaks: seq<Entry>, faults: Faults,
                      failing: DeleteFaults, key: string, value: string, fails: bool)
    ensures var m := Next(d, Add(path, name, tweaks, faults)).value.mem;
      if exists s :: s in d.mem && s.name == name then m == d.mem
      else |m| == |d.mem| + 1 && m[..|d.mem|] == d.mem && m[|d.mem|].path == path && m[|d.mem|].name == name
           && m[|d.mem|].values == Replay(Defaults(), tweaks)
    ensures var m := Next(d, Remove(name, failing)).value.mem;
      && (forall s :: s in m <==> s in d.mem && s.name != name)
      && forall a, b, s :: d.mem == a + [s] + b ==>
           m == Without(a, name) + (if s.name != name then [s] else []) + Without(b, name)
    ensures var m := Next(d, Set(name, key, value, fails)).value.mem;
      |m| == |d.mem| && forall i :: 0 <= i < |m| ==>
        && m[i].path == d.mem[i].path && m[i].name == d.mem[i].name && m[i].stored == d.mem[i].stored
        && forall k :: Value(m[i].values, k)
                       == if m[i].name == name && k == key then value else Value(d.mem[i].values, k)
  {
    AddInMemory(d, path, name, tweaks, faults);
    RemoveInMemory(d, name, failing);
  }

  lemma AddInMemory(d: Daemon, path: string, name: string, tweaks: seq<Entry>, faults: Faults)
    ensures var m := Next(d, Add(path, name, tweaks, faults)).value.mem;
      if exists s :: s in d.mem && s.name == name then m == d.mem
      else |m| == |d.mem| + 1 && m[..|d.mem|] == d.mem && m[|d.mem|].path == path && m[|d.mem|].name == name
           && m[|d.mem|].values == Replay(Defaults(), tweaks)
  {
    if s :| s in d.mem && s.name == name {
      var i :| 0 <= i < |d.mem| && d.mem[i] == s;
    }
  }

  lemma RemoveInMemory(d: Daemon, name: string, failing: DeleteFaults)
    ensures var m := Next(d, Remove(name, failing)).value.mem;
      && (forall s :: s in m <==> s in d.mem && s.name != name)
      && forall a, b, s :: d.mem == a + [s] + b ==>
           m == Without(a, name) + (if s.name != name then [s] else []) + Without(b, name)
  {
    WithoutIsTheRest(d.mem, name);
    if !Taken(d.mem, name) {
      WithoutKeepsSame(d.mem, d.mem, name);
      forall s | s in d.mem ensures s.name != name {
        var i :| 0 <= i < |d.mem| && d.mem[i] == s;
      }
    }
    forall a, b, s | d.mem == a + [s] + b
      ensures Without(d.mem, name) == Without(a, name) + (if s.name != name then [s] else []) + Without(b, name)
    {
      FilterSplits(a + [s], b, (x: Listed) => x.name != name);
      FilterSplits(a, [s], (x: Listed) => x.name != name);
      FilterOfOne(s, (x: Listed) => x.name != name);
    }
  }

  // ---------------------------------------------------- the reference machine

  /** The same steps on memory alone: there are no tables, and a restart just
    * forgets the servers that could not be stored.
    */
  function Recall(mem: Memory, step: Step): Memory {
    match step
    case Add(path, name, tweaks, faults) =>
      var values := Replay(Defaults(), tweaks);
      if Taken(mem, name) then mem
      else mem + [Listed(path, name, values, Stores(|Sorted(values.Keys)|, faults))]
    case Remove(name, _) => Without(mem, name)
    case Set(name, key, value, _) => Written(mem, name, key, value)
    case Restart => Stored(mem)
  }

  /** The database carries out every delete and every write to the log. */
  predicate Obeyed(step: Step) {
    (step.Remove? ==> step.failing == NO_FAULTS) && (step.Set? ==> !step.fails)
  }

  predicate AllObeyed(steps: seq<Step>) {
    forall i :: 0 <= i < |steps| ==> Obeyed(steps[i])
  }

  function RecallAll(steps: seq<Step>): Memory {
    if steps == [] then [] else Recall(RecallAll(steps[..|steps| - 1]), steps[|steps| - 1])
  }

  ghost predicate Alike(a: Listed, b: Listed) {
    a.path == b.path && a.name == b.name && a.stored == b.stored && Same(a.values, b.values)
  }

  /** The same servers in the same order, with the same `value(key)` everywhere. */
  ghost predicate SameServers(a: Memory, b: Memory) {
    |a| == |b| && forall i :: 0 <= i < |a| ==> Alike(a[i], b[i])
  }

  // ---------------------------------------------------------------- invariant

  predicate StutterFree(log: seq<Entry>) {
    forall i, j :: 0 <= i < j < |log| && log[i].key == log[j].key && log[i].value == log[j].value ==>
      exists k :: i < k < j && log[k].key == log[i].key
  }

  ghost predicate Mirrored(s: Listed, row: ServerRow, entries: seq<EntryRow>) {
    && s.path == row.path && s.name == row.name
    && Same(s.values, Replay(Defaults(), EntriesOf(entries, row.id)))
    && StutterFree(EntriesOf(entries, row.id))
    && KeysWithin(s.values, EntriesOf(entries, row.id))
  }

  /** Every filled key is listed, and every listed key is a default or has a row. */
  predicate KeysWithin(m: Values, log: seq<Entry>) {
    Defaults().Keys + FilledKeys(log) <= m.Keys <= Defaults().Keys + LoggedKeys(log)
  }

  /** The stored servers and the rows correspond one to one, in order. */
  ghost predicate Matches(mem: Memory, rows: seq<ServerRow>, entries: seq<EntryRow>) {
    if mem == [] then rows == []
    else if !mem[|mem| - 1].stored then Matches(mem[..|mem| - 1], rows, entries)
    else
      && rows != []
      && Mirrored(mem[|mem| - 1], rows[|rows| - 1], entries)
      && Matches(mem[..|mem| - 1], rows[..|rows| - 1], entries)
  }

  ghost predicate Consistent(d: Daemon) {
    DistinctNames(d.mem) && Sound(d.tables) && Matches(d.mem, d.tables.servers, d.tables.entries)
  }

  // ----------------------------------------------------- lemmas about matching

  lemma {:induction false} MatchesReads(mem: Memory, rows: seq<ServerRow>, before: seq<EntryRow>, after: seq<EntryRow>)
    requires Matches(mem, rows, before)
    requires forall r :: r in rows ==> EntriesOf(before, r.id) == EntriesOf(after, r.id)
    ensures Matches(mem, rows, after)
  {
    if mem == [] {
    } else {
      var init := mem[..|mem| - 1];
      if mem[|mem| - 1].stored {
        assert rows[|rows| - 1] in rows;
        MatchesReads(init, rows[..|rows| - 1], before, after);
      } else {
        MatchesReads(init, rows, before, after);
      }
    }
  }

  /** The rows carry the names of the stored servers. */
  lemma {:induction false} RowNames(mem: Memory, rows: seq<ServerRow>, entries: seq<EntryRow>, name: string)
    requires Matches(mem, rows, entries)
    ensures (exists r :: r in rows && r.name == name) <==> exists s :: s in mem && s.stored && s.name == name
  {
    if mem == [] {
    } else {
      var init, last := mem[..|mem| - 1], mem[|mem| - 1];
      assert mem == init + [last];
      if last.stored {
        var k := |rows| - 1;
        assert rows == rows[..k] + [rows[k]];
        RowNames(init, rows[..k], entries, name);
      } else {
        RowNames(init, rows, entries, name);
      }
    }
  }

  lemma MatchesGrows(mem: Memory, rows: seq<ServerRow>, entries: seq<EntryRow>, s: Listed, row: ServerRow)
    requires Matches(mem, rows, entries)
    requires s.stored ==> Mirrored(s, row, entries)
    ensures Matches(mem + [s], if s.stored then rows + [row] else rows, entries)
  {
  }

  lemma {:induction false} MatchesWithout(mem: Memory, rows: seq<ServerRow>, entries: seq<EntryRow>, name: string)
    requires Matches(mem, rows, entries)
    ensures Matches(Without(mem, name), RowsExcept(rows, name), entries)
  {
    if mem == [] {
    } else {
      var init, last := mem[..|mem| - 1], mem[|mem| - 1];
      var older := if last.stored then rows[..|rows| - 1] else rows;
      MatchesWithout(init, older, entries, name);
      if last.name == name {
        assert Without(mem, name) == Without(init, name);
        assert RowsExcept(rows, name) == RowsExcept(older, name);
      } else {
        var row := if last.stored then rows[|rows| - 1] else ServerRow(0, "", "");
        MatchesGrows(Without(init, name), RowsExcept(older, name), entries, last, row);
      }
    }
  }

  lemma {:induction false} WithoutIsTheRest(mem: Memory, name: string)
    ensures forall s :: s in Without(mem, name) <==> s in mem && s.name != name
    ensures DistinctNames(mem) ==> DistinctNames(Without(mem, name))
  {
    if mem == [] {
    } else {
      var init, last := mem[..|mem| - 1], mem[|mem| - 1];
      assert mem == init + [last];
      WithoutIsTheRest(init, name);
      var left := Without(init, name);
      if DistinctNames(mem) && last.name != name {
        forall i | 0 <= i < |left| ensures left[i].name != last.name {
          assert left[i] in init;
        }
      }
    }
  }

  lemma StutterFreeAppends(log: seq<Entry>, e: Entry)
    requires StutterFree(log) && Value(Replay(Defaults(), log), e.key) != e.value
    ensures StutterFree(log + [e])
  {
    var longer := log + [e];
    forall i, j | 0 <= i < j < |longer| && longer[i].key == longer[j].key && longer[i].value == longer[j].value
      ensures exists k :: i < k < j && longer[k].key == longer[i].key
    {
      if j < |log| {
        var k :| i < k < j && log[k].key == log[i].key;
        assert longer[k].key == longer[i].key;
      } else {
        assert longer[i] == log[i];
        if LastWrite(log, i) {
          ReplayIsLastWriterWins(Defaults(), log, i);
        }
        var k :| i < k < |log| && log[k].key == log[i].key;
        assert longer[k].key == longer[i].key;
      }
    }
  }

  lemma SnapshotIsStutterFree(keys: seq<string>, m: Values)
    requires Lists(keys, m.Keys)
    ensures StutterFree(Snapshot(keys, m))
  {
  }

  /** What recording a write does to the log of its server. */
  ghost predicate Records(log: seq<Entry>, after: seq<Entry>, key: string, value: string) {
    && Same(Replay(Defaults(), after), SetValue(Replay(Defaults(), log), key, value))
    && StutterFree(after)
    && LoggedKeys(after) == LoggedKeys(log) + {key}
    && FilledKeys(after) <= FilledKeys(log) + if value != "" then {key} else {}
  }

  /** Only the log of the written server changes, and only when the write reaches it. */
  ghost predicate RowRecords(mem: Memory, r: ServerRow, before: seq<EntryRow>, after: seq<EntryRow>,
                             name: string, key: string, value: string)
  {
    if r.name == name && Logs(mem, name, key, value)
    then Records(EntriesOf(before, r.id), EntriesOf(after, r.id), key, value)
    else EntriesOf(after, r.id) == EntriesOf(before, r.id)
  }

  lemma AppendingRecords(log: seq<Entry>, key: string, value: string)
    requires StutterFree(log) && Value(Replay(Defaults(), log), key) != value
    ensures Records(log, log + [Entry(key, value)], key, value)
  {
    StutterFreeAppends(log, Entry(key, value));
    ReplayOneMore(Defaults(), log, Entry(key, value));
    KeysOfLonger(log, Entry(key, value));
  }

  lemma KeysOfLonger(log: seq<Entry>, e: Entry)
    ensures LoggedKeys(log + [e]) == LoggedKeys(log) + {e.key}
    ensures FilledKeys(log + [e]) == FilledKeys(log) + if e.value != "" then {e.key} else {}
  {
    assert forall x :: x in log + [e] <==> x in log || x == e;
  }

  lemma EarlierNamesDiffer(mem: Memory)
    requires DistinctNames(mem) && mem != []
    ensures DistinctNames(mem[..|mem| - 1])
    ensures forall s :: s in mem[..|mem| - 1] ==> s.name != mem[|mem| - 1].name
  {
  }

  lemma NoRowOf(mem: Memory, rows: seq<ServerRow>, entries: seq<EntryRow>, name: string)
    requires Matches(mem, rows, entries) && forall s :: s in mem ==> s.name != name
    ensures forall r :: r in rows ==> r.name != name
  {
    RowNames(mem, rows, entries, name);
  }

  lemma {:induction false} NamesakesAreMirrored(mem: Memory, rows: seq<ServerRow>, entries: seq<EntryRow>, s: Listed,
                                                r: ServerRow)
    requires DistinctNames(mem) && Matches(mem, rows, entries)
    requires s in mem && s.stored && r in rows && r.name == s.name
    ensures Mirrored(s, r, entries)
  {
    var init, last := mem[..|mem| - 1], mem[|mem| - 1];
    EarlierNamesDiffer(mem);
    if !last.stored {
      NamesakesAreMirrored(init, rows, entries, s, r);
    } else {
      var k := |rows| - 1;
      NoRowOf(init, rows[..k], entries, last.name);
      if s != last {
        NamesakesAreMirrored(init, rows[..k], entries, s, r);
      }
    }
  }

  /** Writing to one server and recording it in its rows keeps the match. */
  lemma {:induction false} MatchesWritten(mem: Memory, rows: seq<ServerRow>, before: seq<EntryRow>,
                                          after: seq<EntryRow>,
                                          name: string, key: string, value: string)
    requires DistinctNames(mem) && Matches(mem, rows, before)
    requires forall r :: r in rows ==> RowRecords(mem, r, before, after, name, key, value)
    ensures Matches(Written(mem, name, key, value), rows, after)
    decreases |mem|
  {
    if mem == [] {
    } else {
      var init, last := mem[..|mem| - 1], mem[|mem| - 1];
      var written := Written(mem, name, key, value);
      assert written[..|mem| - 1] == Written(init, name, key, value);
      if last.stored {
        var k := |rows| - 1;
        assert rows[k] in rows;
        WriteKeepsMirrored(last, rows[k], before, after, name, key, value, mem);
      }
      var older := if last.stored then rows[..|rows| - 1] else rows;
      if Logs(mem, name, key, value) && !Logs(init, name, key, value) {
        assert last.name == name;
        RowNames(init, older, before, name);
        assert forall s :: s in init ==> s.name != name;
      }
      assert Logs(init, name, key, value) ==> Logs(mem, name, key, value);
      forall r | r in older ensures RowRecords(init, r, before, after, name, key, value) {
        assert r in rows;
      }
      MatchesWritten(init, older, before, after, name, key, value);
    }
  }

  lemma WriteKeepsMirrored(s: Listed, row: ServerRow, before: seq<EntryRow>, after: seq<EntryRow>,
                           name: string, key: string, value: string, mem: Memory)
    requires DistinctNames(mem) && mem != [] && s == mem[|mem| - 1] && s.stored && Mirrored(s, row, before)
    requires RowRecords(mem, row, before, after, name, key, value)
    ensures Mirrored(Write(s, name, key, value), row, after)
  {
    if s.name == name {
      LogsIff(mem, s, key, value);
      if Value(s.values, key) != value {
        RecordedIsMirrored(s.values, EntriesOf(before, row.id), EntriesOf(after, row.id), key, value);
      }
    }
  }

  lemma RecordedIsMirrored(m: Values, log: seq<Entry>, after: seq<Entry>, key: string, value: string)
    requires Same(m, Replay(Defaults(), log)) && KeysWithin(m, log) && Value(m, key) != value
    requires Records(log, after, key, value)
    ensures Same(SetValue(m, key, value), Replay(Defaults(), after)) && KeysWithin(SetValue(m, key, value), after)
  {
    SetValueKeepsSame(m, Replay(Defaults(), log), key, value);
  }

  lemma LogsIff(mem: Memory, s: Listed, key: string, value: string)
    requires DistinctNames(mem) && s in mem && s.stored
    ensures Logs(mem, s.name, key, value) <==> Value(s.values, key) != value
  {
    var i :| 0 <= i < |mem| && mem[i] == s;
    forall j | 0 <= j < |mem| && mem[j].name == s.name ensures mem[j] == s {
      assert j == i;
    }
  }

  // ---------------------------------------------------------- every step keeps it

  lemma AddKeepsConsistent(d: Daemon, path: string, name: string, values: Values, faults: Faults)
    requires Consistent(d) && Defaults().Keys <= values.Keys
    ensures Consistent(AddServer(d, path, name, values, faults))
  {
    if !Taken(d.mem, name) {
      var t := d.tables;
      var (u, ok) := StoreServer(t, path, name, values, faults);
      StoreServerKeepsSound(t, path, name, values, faults);
      var s := Listed(path, name, values, ok);
      if ok {
        forall r | r in t.servers ensures EntriesOf(t.entries, r.id) == EntriesOf(u.entries, r.id) {
          EntriesAfterInserts(WithServer(t, path, name), t.nextServer, Snapshot(Sorted(values.Keys), values), r.id);
        }
        MatchesReads(d.mem, t.servers, t.entries, u.entries);
        NewServerIsMirrored(t, path, name, values, faults);
        assert u.servers == t.servers + [ServerRow(t.nextServer, path, name)] by {
          EntriesAfterInserts(WithServer(t, path, name), t.nextServer, Snapshot(Sorted(values.Keys), values), 0);
        }
      }
      MatchesGrows(d.mem, t.servers, u.entries, s, ServerRow(t.nextServer, path, name));
    }
  }

  lemma NewServerIsMirrored(t: Tables, path: string, name: string, values: Values, faults: Faults)
    requires Sound(t) && Defaults().Keys <= values.Keys && Stores(|Sorted(values.Keys)|, faults)
    ensures Mirrored(Listed(path, name, values, true), ServerRow(t.nextServer, path, name),
                     StoreServer(t, path, name, values, faults).0.entries)
  {
    NewEntries(t, path, name, Snapshot(Sorted(values.Keys), values));
    SnapshotMirrors(values);
  }

  lemma NewEntries(t: Tables, path: string, name: string, log: seq<Entry>)
    requires Sound(t)
    ensures EntriesOf(WithEntries(WithServer(t, path, name), t.nextServer, log).entries, t.nextServer) == log
  {
    EntriesAfterInserts(WithServer(t, path, name), t.nextServer, log, t.nextServer);
    NoEntriesOf(t.entries, t.nextServer);
    assert [] + log == log;
  }

  lemma SnapshotMirrors(values: Values)
    requires Defaults().Keys <= values.Keys
    ensures var log := Snapshot(Sorted(values.Keys), values);
      StutterFree(log) && Same(values, Replay(Defaults(), log)) && KeysWithin(values, log)
  {
    SnapshotRestores(Defaults(), Sorted(values.Keys), values);
    SnapshotIsStutterFree(Sorted(values.Keys), values);
    SnapshotKeys(Sorted(values.Keys), values);
  }

  lemma RemoveKeepsConsistent(d: Daemon, name: string)
    requires Consistent(d)
    ensures Consistent(RemoveServer(d, name, NO_FAULTS))
  {
    var t := d.tables;
    FaultlessDelete(t, name);
    var u := DeleteServer(t, name);
    DeleteServerKeepsSound(t, name);
    MatchesWithout(d.mem, t.servers, t.entries, name);
    WithoutIsTheRest(d.mem, name);
    RowsAfterDelete(t.servers, name);
    forall r | r in u.servers ensures EntriesOf(t.entries, r.id) == EntriesOf(u.entries, r.id) {
      OtherEntriesStay(t, name, NO_FAULTS, r);
    }
    MatchesReads(Without(d.mem, name), u.servers, t.entries, u.entries);
  }

  lemma OtherEntriesStay(t: Tables, name: string, failing: DeleteFaults, r: ServerRow)
    requires Sound(t) && r in t.servers && r.name != name
    ensures EntriesOf(TryDeleteServer(t, name, failing).entries, r.id) == EntriesOf(t.entries, r.id)
  {
    EntriesAfterDelete(t.entries, IdsNamed(t.servers, name) - failing.entries, r.id);
    if s :| s in t.servers && s.name == name && s.id == r.id {
      SoundIdsAreUnique(t, r, s);
    }
  }

  lemma WriteKeepsConsistent(d: Daemon, name: string, key: string, value: string)
    requires Consistent(d)
    ensures Consistent(WriteValue(d, name, key, value, false))
  {
    var t := d.tables;
    var u := WriteValue(d, name, key, value, false).tables;
    if Logs(d.mem, name, key, value) {
      LoggedServerHasARow(d, name, key, value);
      StoreEntryKeepsSound(t, name, key, value);
    }
    forall r | r in t.servers ensures RowRecords(d.mem, r, t.entries, u.entries, name, key, value) {
      if Logs(d.mem, name, key, value) {
        EntriesAfterInsert(t, IdOf(t.servers, name), key, value, r.id);
        NamesSingleOutRows(d, r, name);
        if r.name == name {
          LoggedRowIsMirrored(d, r, name, key, value);
          AppendingRecords(EntriesOf(t.entries, r.id), key, value);
        } else {
          assert EntriesOf(t.entries, r.id) + [] == EntriesOf(t.entries, r.id);
        }
      }
    }
    MatchesWritten(d.mem, t.servers, t.entries, u.entries, name, key, value);
  }

  lemma LoggedRowIsMirrored(d: Daemon, r: ServerRow, name: string, key: string, value: string)
    requires Consistent(d) && Logs(d.mem, name, key, value) && r in d.tables.servers && r.name == name
    ensures var log := EntriesOf(d.tables.entries, r.id);
      StutterFree(log) && Value(Replay(Defaults(), log), key) != value
  {
    var i :| 0 <= i < |d.mem| && d.mem[i].name == name && d.mem[i].stored && Value(d.mem[i].values, key) != value;
    NamesakesAreMirrored(d.mem, d.tables.servers, d.tables.entries, d.mem[i], r);
  }

  lemma LoggedServerHasARow(d: Daemon, name: string, key: string, value: string)
    requires Consistent(d) && Logs(d.mem, name, key, value)
    ensures IdOf(d.tables.servers, name).Some?
  {
    var i :| 0 <= i < |d.mem| && d.mem[i].name == name && d.mem[i].stored && Value(d.mem[i].values, key) != value;
    assert d.mem[i] in d.mem;
    RowNames(d.mem, d.tables.servers, d.tables.entries, name);
    IdOfFindsTheRow(d.tables.servers, name);
  }

  lemma NamesSingleOutRows(d: Daemon, r: ServerRow, name: string)
    requires Consistent(d) && r in d.tables.servers
    ensures r.name == name <==> IdOf(d.tables.servers, name) == Some(r.id)
  {
    IdOfFindsTheRow(d.tables.servers, name);
    MatchedRowsAreDistinct(d.mem, d.tables.servers, d.tables.entries);
    if IdOf(d.tables.servers, name).Some? {
      var s :| s in d.tables.servers && s.name == name && s.id == IdOf(d.tables.servers, name).value;
      if s.id == r.id {
        SoundIdsAreUnique(d.tables, r, s);
      }
    }
  }

  lemma {:induction false} MatchedRowsAreDistinct(mem: Memory, rows: seq<ServerRow>, entries: seq<EntryRow>)
    requires DistinctNames(mem) && Matches(mem, rows, entries)
    ensures DistinctRows(rows)
  {
    if mem == [] {
    } else {
      var init, last := mem[..|mem| - 1], mem[|mem| - 1];
      EarlierNamesDiffer(mem);
      if last.stored {
        var k := |rows| - 1;
        MatchedRowsAreDistinct(init, rows[..k], entries);
        NoRowOf(init, rows[..k], entries, last.name);
        DistinctWithOneMore(rows[..k], rows[k]);
        assert rows == rows[..k] + [rows[k]];
      } else {
        MatchedRowsAreDistinct(init, rows, entries);
      }
    }
  }

  lemma DistinctWithOneMore(rows: seq<ServerRow>, row: ServerRow)
    requires DistinctRows(rows)
    ensures DistinctRows(rows + [row]) <==> forall r :: r in rows ==> r.name != row.name
  {
    var longer := rows + [row];
    if r :| r in rows && r.name == row.name {
      var i :| 0 <= i < |rows| && rows[i] == r;
      assert longer[i].name == longer[|rows|].name;
    }
  }

  // ------------------------------------------------------------------ restoring

  /** Restoring succeeds exactly when no two rows share a name. */
  lemma {:induction false} RestoreSucceeds(rows: seq<ServerRow>, entries: seq<EntryRow>)
    ensures Restore(rows, entries).Some? <==> DistinctRows(rows)
    ensures Restore(rows, entries).Some? ==>
      var mem := Restore(rows, entries).value;
      |mem| == |rows| && DistinctNames(mem) && forall i :: 0 <= i < |mem| ==> mem[i].name == rows[i].name
  {
    if rows == [] {
    } else {
      var k := |rows| - 1;
      RestoreSucceeds(rows[..k], entries);
      if DistinctRows(rows) {
        assert DistinctRows(rows[..k]);
      } else if DistinctRows(rows[..k]) {
        var i :| 0 <= i < k && rows[i].name == rows[k].name;
        assert Restore(rows[..k], entries).value[i].name == rows[k].name;
      }
    }
  }

  lemma RestoredIsMirrored(s: Listed, r: ServerRow, entries: seq<EntryRow>)
    requires Mirrored(s, r, entries)
    ensures Mirrored(Listed(r.path, r.name, Replay(Defaults(), EntriesOf(entries, r.id)), true), r, entries)
  {
    ReplayKeys(Defaults(), EntriesOf(entries, r.id));
  }

  /** A restart brings back just the stored servers, and the result is again consistent. */
  lemma {:induction false} RestoreRecalls(mem: Memory, rows: seq<ServerRow>, entries: seq<EntryRow>)
    requires Matches(mem, rows, entries) && DistinctNames(mem)
    ensures Restore(rows, entries).Some?
    ensures SameServers(Restore(rows, entries).value, Stored(mem))
    ensures Matches(Restore(rows, entries).value, rows, entries)
  {
    if mem == [] {
    } else {
      var init, last := mem[..|mem| - 1], mem[|mem| - 1];
      MatchedRowsAreDistinct(mem, rows, entries);
      RestoreSucceeds(rows, entries);
      if last.stored {
        var k := |rows| - 1;
        RestoreRecalls(init, rows[..k], entries);
        RestoredIsMirrored(last, rows[k], entries);
        var back := Restore(rows[..k], entries).value;
        assert Restore(rows, entries).value[..|back|] == back;
      } else {
        RestoreRecalls(init, rows, entries);
        assert Stored(mem) == Stored(init);
      }
    }
  }

  lemma NextKeepsConsistent(d: Daemon, step: Step)
    requires Consistent(d) && Obeyed(step)
    ensures Next(d, step).Some? && Consistent(Next(d, step).value)
  {
    match step
    case Add(path, name, tweaks, faults) =>
      ReplayKeys(Defaults(), tweaks);
      AddKeepsConsistent(d, path, name, Replay(Defaults(), tweaks), faults);
    case Remove(name, _) =>
      RemoveKeepsConsistent(d, name);
    case Set(name, key, value, _) =>
      WriteKeepsConsistent(d, name, key, value);
    case Restart =>
      RestoreRecalls(d.mem, d.tables.servers, d.tables.entries);
      RestoreSucceeds(d.tables.servers, d.tables.entries);
  }

  // ----------------------------------------------------------------- simulation

  lemma AlikeIsTransitive(a: Memory, b: Memory, c: Memory)
    requires SameServers(a, b) && SameServers(b, c)
    ensures SameServers(a, c)
  {
  }

  lemma {:induction false} StoredKeepsSame(a: Memory, b: Memory)
    requires SameServers(a, b)
    ensures SameServers(Stored(a), Stored(b))
  {
    if a == [] {
    } else {
      var k := |a| - 1;
      assert Alike(a[k], b[k]);
      StoredKeepsSame(a[..k], b[..k]);
    }
  }

  lemma {:induction false} WithoutKeepsSame(a: Memory, b: Memory, name: string)
    requires SameServers(a, b)
    ensures SameServers(Without(a, name), Without(b, name))
    ensures !Taken(a, name) ==> Without(a, name) == a
  {
    if a == [] {
    } else {
      var k := |a| - 1;
      assert Alike(a[k], b[k]);
      WithoutKeepsSame(a[..k], b[..k], name);
      if !Taken(a, name) {
        assert a[k].name != name;
        assert forall i :: 0 <= i < k ==> a[..k][i] == a[i];
        assert !Taken(a[..k], name);
      }
    }
  }

  lemma NextFollowsRecall(d: Daemon, mem: Memory, step: Step)
    requires Consistent(d) && SameServers(d.mem, mem) && Obeyed(step)
    ensures Next(d, step).Some? && SameServers(Next(d, step).value.mem, Recall(mem, step))
  {
    assert forall i :: 0 <= i < |mem| ==> Alike(d.mem[i], mem[i]);
    match step
    case Add(path, name, tweaks, faults) =>
      assert Taken(d.mem, name) <==> Taken(mem, name);
    case Remove(name, _) =>
      WithoutKeepsSame(d.mem, mem, name);
    case Set(name, key, value, _) =>
      forall i | 0 <= i < |mem| ensures Alike(Write(d.mem[i], name, key, value), Write(mem[i], name, key, value)) {
        SetValueKeepsSame(d.mem[i].values, mem[i].values, key, value);
      }
    case Restart =>
      RestoreRecalls(d.mem, d.tables.servers, d.tables.entries);
      StoredKeepsSame(d.mem, mem);
      AlikeIsTransitive(Restore(d.tables.servers, d.tables.entries).value, Stored(d.mem), Stored(mem));
  }

  /** Main theorem. While the database carries out deletes and writes to the log, no
    * run crashes, and every run keeps the servers the reference machine keeps: a
    * restart forgets the servers that could not be stored, and nothing else.
    */
  lemma {:induction false} RestartsOnlyForgetTheUnstored(steps: seq<Step>)
    requires AllObeyed(steps)
    ensures Run(steps).Some? && Consistent(Run(steps).value)
    ensures SameServers(Run(steps).value.mem, RecallAll(steps))
  {
    if steps == [] {
    } else {
      var k := |steps| - 1;
      RestartsOnlyForgetTheUnstored(steps[..k]);
      NextKeepsConsistent(Run(steps[..k]).value, steps[k]);
      NextFollowsRecall(Run(steps[..k]).value, RecallAll(steps[..k]), steps[k]);
    }
  }

  // ------------------------------------------------------- restart transparency

  function WithoutRestarts(steps: seq<Step>): seq<Step> {
    if steps == [] then []
    else WithoutRestarts(steps[..|steps| - 1]) + if steps[|steps| - 1].Restart? then [] else [steps[|steps| - 1]]
  }

  predicate Unfailing(step: Step) {
    Obeyed(step) && (step.Add? ==> step.faults == {})
  }

  predicate NoFailure(steps: seq<Step>) {
    forall i :: 0 <= i < |steps| ==> Unfailing(steps[i])
  }

  predicate AllStored(mem: Memory) {
    forall i :: 0 <= i < |mem| ==> mem[i].stored
  }

  lemma {:induction false} StoredOfAllStored(mem: Memory, name: string)
    requires AllStored(mem)
    ensures Stored(mem) == mem && AllStored(Without(mem, name))
  {
    if mem == [] {
    } else {
      StoredOfAllStored(mem[..|mem| - 1], name);
    }
  }

  lemma {:induction false} RecallIgnoresRestarts(steps: seq<Step>)
    requires NoFailure(steps)
    ensures AllStored(RecallAll(steps))
    ensures RecallAll(steps) == RecallAll(WithoutRestarts(steps))
  {
    if steps == [] {
    } else {
      var k := |steps| - 1;
      RecallIgnoresRestarts(steps[..k]);
      var mem := RecallAll(steps[..k]);
      StoredOfAllStored(mem, if steps[k].Remove? then steps[k].name else "");
      var left := WithoutRestarts(steps[..k]);
      assert (left + [steps[k]])[..|left|] == left;
      assert left + [] == left;
    }
  }

  lemma {:induction false} WithoutRestartsIsObeyed(steps: seq<Step>)
    requires AllObeyed(steps)
    ensures AllObeyed(WithoutRestarts(steps))
  {
    if steps == [] {
    } else {
      WithoutRestartsIsObeyed(steps[..|steps| - 1]);
    }
  }

  /** When the database does not fail, restarts are invisible: the run has the same
    * servers, in the same order and with the same values, as without them.
    */
  lemma RestartsAreInvisible(steps: seq<Step>)
    requires NoFailure(steps)
    ensures Run(steps).Some? && Run(WithoutRestarts(steps)).Some?
    ensures SameServers(Run(steps).value.mem, Run(WithoutRestarts(steps)).value.mem)
  {
    WithoutRestartsIsObeyed(steps);
    RestartsOnlyForgetTheUnstored(steps);
    RestartsOnlyForgetTheUnstored(WithoutRestarts(steps));
    RecallIgnoresRestarts(steps);
    var a, b := Run(steps).value.mem, Run(WithoutRestarts(steps)).value.mem;
    assert forall i :: 0 <= i < |a| ==> Alike(a[i], RecallAll(steps)[i]) && Alike(b[i], RecallAll(steps)[i]);
  }

  // ------------------------------------------------------- the reachable tables

  /** Every database reached so has distinct names, no orphaned entry, and for each
    * server a log in which no value of a key is followed by the same value; so
    * restoring it never meets a taken name.
    */
  lemma ReachableTables(steps: seq<Step>)
    requires AllObeyed(steps)
    ensures Run(steps).Some?
    ensures var t := Run(steps).value.tables;
      && DistinctRows(t.servers)
      && (forall e :: e in t.entries ==> exists r :: r in t.servers && e.serverId == Some(r.id))
      && (forall r :: r in t.servers ==> StutterFree(EntriesOf(t.entries, r.id)))
      && Restore(t.servers, t.entries).Some?
  {
    RestartsOnlyForgetTheUnstored(steps);
    var d := Run(steps).value;
    MatchedRowsAreDistinct(d.mem, d.tables.servers, d.tables.entries);
    RestoreSucceeds(d.tables.servers, d.tables.entries);
    MatchedLogsAreStutterFree(d.mem, d.tables.servers, d.tables.entries);
  }

  lemma {:induction false} MatchedLogsAreStutterFree(mem: Memory, rows: seq<ServerRow>, entries: seq<EntryRow>)
    requires Matches(mem, rows, entries)
    ensures forall r :: r in rows ==> StutterFree(EntriesOf(entries, r.id))
  {
    if mem == [] {
    } else {
      var init := mem[..|mem| - 1];
      if mem[|mem| - 1].stored {
        var k := |rows| - 1;
        MatchedLogsAreStutterFree(init, rows[..k], entries);
        assert rows == rows[..k] + [rows[k]];
      } else {
        MatchedLogsAreStutterFree(init, rows, entries);
      }
    }
  }

  /** A step leaves the rows of every server it does not name as they were, whichever
    * of its statements fail.
    */
  lemma StepsTouchOneName(d: Daemon, step: Step, r: ServerRow)
    requires Consistent(d) && r in d.tables.servers && (step.Restart? || step.name != r.name)
    ensures Next(d, step).Some?
    ensures var t := Next(d, step).value.tables;
      r in t.servers && EntriesOf(t.entries, r.id) == EntriesOf(d.tables.entries, r.id)
  {
    var t := d.tables;
    match step
    case Add(path, name, tweaks, faults) =>
      var values := Replay(Defaults(), tweaks);
      EntriesAfterInserts(WithServer(t, path, name), t.nextServer, Snapshot(Sorted(values.Keys), values), r.id);
    case Remove(name, failing) =>
      OtherEntriesStay(t, name, failing, r);
      RowsAfterDelete(t.servers, name);
    case Set(name, key, value, fails) =>
      if Logs(d.mem, name, key, value) {
        EntriesAfterInsert(t, IdOf(t.servers, name), key, value, r.id);
        NamesSingleOutRows(d, r, name);
      }
    case Restart =>
      RestoreRecalls(d.mem, t.servers, t.entries);
  }
}
