/** The daemon with every fault of its database, as a machine without tables: the
  * servers in memory, and copies of them on disk that the same steps change.
  */
module Copies {
  import opened Common
  import opened Configuration
  import opened Tables
  import opened Persistence
  import opened Keys

  /** What a server's rows amount to. */
  datatype Copy = Copy(id: nat, path: string, name: string, values: Values)

  datatype Twin = Twin(mem: Memory, disk: seq<Copy>, nextId: nat)

  /** Storing a server keeps the defaults and the keys that are not empty. */
  function Kept(values: Values): Values {
    map key | key in values && (key in Defaults() || values[key] != "") :: values[key]
  }

  predicate HasCopy(disk: seq<Copy>, name: string) {
    exists c :: c in disk && c.name == name
  }

  /** A write reaches the first copy with the name. */
  function WriteFirst(disk: seq<Copy>, name: string, key: string, value: string): seq<Copy> {
    if disk == [] then []
    else
      var init, last := disk[..|disk| - 1], disk[|disk| - 1];
      if last.name == name && !HasCopy(init, name) then init + [last.(values := SetValue(last.values, key, value))]
      else WriteFirst(init, name, key, value) + [last]
  }

  /** A copy whose rows are left loses its entries, unless these stay as well. */
  function Left(c: Copy, name: string, failing: DeleteFaults): Copy {
    if c.name == name && !failing.select && c.id !in failing.entries then c.(values := Defaults()) else c
  }

  function LeftOver(disk: seq<Copy>, name: string, failing: DeleteFaults): seq<Copy> {
    if disk == [] then []
    else LeftOver(disk[..|disk| - 1], name, failing) + [Left(disk[|disk| - 1], name, failing)]
  }

  function Deleted(disk: seq<Copy>, name: string, failing: DeleteFaults): seq<Copy> {
    if failing.rows then LeftOver(disk, name, failing) else Filter(disk, (c: Copy) => c.name != name)
  }

  lemma DeletedOfLonger(disk: seq<Copy>, last: Copy, name: string, failing: DeleteFaults)
    ensures Deleted(disk + [last], name, failing)
            == if failing.rows then Deleted(disk, name, failing) + [Left(last, name, failing)]
               else if last.name != name then Deleted(disk, name, failing) + [last]
               else Deleted(disk, name, failing)
  {
    assert (disk + [last])[..|disk|] == disk;
    assert Deleted(disk, name, failing) + [] == Deleted(disk, name, failing);
  }

  lemma NumberOfLonger(disk: seq<Copy>, last: Copy, name: string)
    ensures Number(disk + [last], name) == Number(disk, name) + if last.name == name then 1 else 0
  {
    assert (disk + [last])[..|disk|] == disk;
  }

  /** What a restart makes of the copies. */
  function Recovered(disk: seq<Copy>): Memory {
    if disk == [] then []
    else
      var last := disk[|disk| - 1];
      Recovered(disk[..|disk| - 1]) + [Listed(last.path, last.name, last.values, true)]
  }

  function Number(disk: seq<Copy>, name: string): nat {
    if disk == [] then 0 else Number(disk[..|disk| - 1], name) + if disk[|disk| - 1].name == name then 1 else 0
  }

  ghost predicate Distinct(disk: seq<Copy>) {
    forall name :: Number(disk, name) <= 1
  }

  ghost function TwinNext(t: Twin, step: Step): Option<Twin> {
    match step
    case Add(path, name, tweaks, faults) =>
      var values := Replay(Defaults(), tweaks);
      var stored := Stores(|Sorted(values.Keys)|, faults);
      if Taken(t.mem, name) then Some(t)
      else
        var mem := t.mem + [Listed(path, name, values, stored)];
        Some(if stored then Twin(mem, t.disk + [Copy(t.nextId, path, name, Kept(values))], t.nextId + 1)
             else t.(mem := mem))
    case Remove(name, failing) =>
      Some(if Taken(t.mem, name) then t.(mem := Without(t.mem, name), disk := Deleted(t.disk, name, failing)) else t)
    case Set(name, key, value, fails) =>
      var disk := if Logs(t.mem, name, key, value) && !fails then WriteFirst(t.disk, name, key, value) else t.disk;
      Some(t.(mem := Written(t.mem, name, key, value), disk := disk))
    case Restart =>
      if Distinct(t.disk) then Some(t.(mem := Recovered(t.disk))) else None
  }

  ghost function TwinRun(steps: seq<Step>): Option<Twin> {
    if steps == [] then Some(Twin([], [], 1))
    else
      match TwinRun(steps[..|steps| - 1])
      case None => None
      case Some(t) => TwinNext(t, steps[|steps| - 1])
  }

  function CopyOf(r: ServerRow, entries: seq<EntryRow>): Copy {
    Copy(r.id, r.path, r.name, Replay(Defaults(), EntriesOf(entries, r.id)))
  }

  /** The copies the tables hold. */
  function CopiesOf(rows: seq<ServerRow>, entries: seq<EntryRow>): seq<Copy> {
    if rows == [] then []
    else CopiesOf(rows[..|rows| - 1], entries) + [CopyOf(rows[|rows| - 1], entries)]
  }

  /** Ids ascend, and no entry belongs to an id that is still to come. */
  ghost predicate Numbered(t: Tables) {
    && Ascending(t.servers)
    && (forall r :: r in t.servers ==> r.id < t.nextServer)
    && (forall e :: e in t.entries && e.serverId.Some? ==> e.serverId.value < t.nextServer)
  }

  ghost predicate Agree(d: Daemon, t: Twin) {
    && d.mem == t.mem && CopiesOf(d.tables.servers, d.tables.entries) == t.disk
    && d.tables.nextServer == t.nextId && Numbered(d.tables)
  }

  // ------------------------------------------------------------------- storing

  lemma StoringKeeps(values: Values)
    requires Defaults().Keys <= values.Keys
    ensures Replay(Defaults(), Snapshot(Sorted(values.Keys), values)) == Kept(values)
  {
    var keys := Sorted(values.Keys);
    var back := Replay(Defaults(), Snapshot(keys, values));
    ReplayKeys(Defaults(), Snapshot(keys, values));
    SnapshotKeys(keys, values);
    SnapshotRestores(Defaults(), keys, values);
    SameMaps(back, Kept(values));
  }

  lemma SameMaps(a: Values, b: Values)
    requires a.Keys == b.Keys && forall key :: key in a ==> a[key] == b[key]
    ensures a == b
  {
  }

  lemma CopiesOfLonger(rows: seq<ServerRow>, last: ServerRow, entries: seq<EntryRow>)
    ensures CopiesOf(rows + [last], entries) == CopiesOf(rows, entries) + [CopyOf(last, entries)]
  {
    assert (rows + [last])[..|rows|] == rows;
  }

  lemma {:induction false} CopiesRead(rows: seq<ServerRow>, before: seq<EntryRow>, after: seq<EntryRow>)
    requires forall r :: r in rows ==> EntriesOf(before, r.id) == EntriesOf(after, r.id)
    ensures CopiesOf(rows, before) == CopiesOf(rows, after)
  {
    if rows == [] {
    } else {
      assert rows[|rows| - 1] in rows;
      CopiesRead(rows[..|rows| - 1], before, after);
    }
  }

  lemma AddAgrees(d: Daemon, t: Twin, path: string, name: string, tweaks: seq<Entry>, faults: Faults)
    requires Agree(d, t)
    ensures Agree(AddServer(d, path, name, Replay(Defaults(), tweaks), faults),
                  TwinNext(t, Add(path, name, tweaks, faults)).value)
  {
    var values := Replay(Defaults(), tweaks);
    ReplayKeys(Defaults(), tweaks);
    if !Taken(d.mem, name) && Stores(|Sorted(values.Keys)|, faults) {
      StoringAgrees(d.tables, path, name, values);
    }
  }

  lemma StoringAgrees(t: Tables, path: string, name: string, values: Values)
    requires Numbered(t) && Defaults().Keys <= values.Keys
    ensures var u := WithEntries(WithServer(t, path, name), t.nextServer, Snapshot(Sorted(values.Keys), values));
      && Numbered(u) && u.nextServer == t.nextServer + 1
      && CopiesOf(u.servers, u.entries)
         == CopiesOf(t.servers, t.entries) + [Copy(t.nextServer, path, name, Kept(values))]
  {
    var log, v := Snapshot(Sorted(values.Keys), values), WithServer(t, path, name);
    var u := WithEntries(v, t.nextServer, log);
    forall r | r in t.servers ensures EntriesOf(t.entries, r.id) == EntriesOf(u.entries, r.id) {
      EntriesAfterInserts(v, t.nextServer, log, r.id);
      assert EntriesOf(t.entries, r.id) + [] == EntriesOf(t.entries, r.id);
    }
    CopiesRead(t.servers, t.entries, u.entries);
    EntriesAfterInserts(v, t.nextServer, log, t.nextServer);
    NoEntriesOf(t.entries, t.nextServer);
    assert [] + log == log;
    StoringKeeps(values);
    AscendingWithOneMore(t.servers, ServerRow(t.nextServer, path, name));
    assert u.servers[..|t.servers|] == t.servers;
  }

  // ------------------------------------------------------------------ deleting

  lemma IdsSingleOut(rows: seq<ServerRow>, a: ServerRow, b: ServerRow)
    requires Ascending(rows) && a in rows && b in rows && a.id == b.id
    ensures a == b
  {
  }

  lemma {:induction false} DeletedCopies(rows: seq<ServerRow>, before: seq<EntryRow>, after: seq<EntryRow>,
                                         name: string)
    requires forall r :: r in rows && r.name != name ==> EntriesOf(before, r.id) == EntriesOf(after, r.id)
    ensures CopiesOf(RowsExcept(rows, name), after) == Deleted(CopiesOf(rows, before), name, NO_FAULTS)
  {
    if rows == [] {
    } else {
      var k := |rows| - 1;
      assert rows[k] in rows && forall r :: r in rows[..k] ==> r in rows;
      DeletedCopies(rows[..k], before, after, name);
      assert rows == rows[..k] + [rows[k]];
      CopiesOfLonger(rows[..k], rows[k], before);
      DeletedOfLonger(CopiesOf(rows[..k], before), CopyOf(rows[k], before), name, NO_FAULTS);
      RowsExceptOfLonger(rows[..k], rows[k], name);
      CopiesOfLonger(RowsExcept(rows[..k], name), rows[k], after);
    }
  }

  lemma RowsExceptOfLonger(rows: seq<ServerRow>, last: ServerRow, name: string)
    ensures RowsExcept(rows + [last], name)
            == if last.name != name then RowsExcept(rows, name) + [last] else RowsExcept(rows, name)
  {
    assert (rows + [last])[..|rows|] == rows;
    assert RowsExcept(rows, name) + [] == RowsExcept(rows, name);
  }

  lemma {:induction false} LeftOverCopies(rows: seq<ServerRow>, before: seq<EntryRow>, after: seq<EntryRow>,
                                          name: string, failing: DeleteFaults)
    requires forall r :: r in rows ==>
      EntriesOf(after, r.id)
      == if r.name == name && !failing.select && r.id !in failing.entries then [] else EntriesOf(before, r.id)
    ensures CopiesOf(rows, after) == LeftOver(CopiesOf(rows, before), name, failing)
  {
    if rows == [] {
    } else {
      var k := |rows| - 1;
      assert rows[k] in rows;
      LeftOverCopies(rows[..k], before, after, name, failing);
      var copies := CopiesOf(rows[..k], before);
      assert CopiesOf(rows, before)[..|copies|] == copies;
    }
  }

  lemma EntriesLeft(t: Tables, name: string, failing: DeleteFaults, r: ServerRow)
    requires Numbered(t) && r in t.servers
    ensures EntriesOf(TryDeleteServer(t, name, failing).entries, r.id)
            == if r.name == name && !failing.select && r.id !in failing.entries then [] else EntriesOf(t.entries, r.id)
  {
    var ids := IdsNamed(t.servers, name);
    EntriesAfterDelete(t.entries, ids - failing.entries, r.id);
    if r.id in ids {
      var s :| s in t.servers && s.name == name && s.id == r.id;
      IdsSingleOut(t.servers, r, s);
    }
  }

  lemma DeletingAgrees(t: Tables, name: string, failing: DeleteFaults)
    requires Numbered(t)
    ensures var u := TryDeleteServer(t, name, failing);
      Numbered(u) && CopiesOf(u.servers, u.entries) == Deleted(CopiesOf(t.servers, t.entries), name, failing)
  {
    var u := TryDeleteServer(t, name, failing);
    forall r | r in t.servers
      ensures EntriesOf(u.entries, r.id)
              == if r.name == name && !failing.select && r.id !in failing.entries then []
                 else EntriesOf(t.entries, r.id)
    {
      EntriesLeft(t, name, failing, r);
    }
    DeletedEntriesAreGone(t.entries, IdsNamed(t.servers, name) - failing.entries);
    if failing.rows {
      LeftOverCopies(t.servers, t.entries, u.entries, name, failing);
    } else {
      DeletedCopies(t.servers, t.entries, u.entries, name);
      DeleteKeepsAscending(t.servers, name);
      RowsAfterDelete(t.servers, name);
    }
  }

  // ------------------------------------------------------------------- writing

  lemma {:induction false} CopyNames(rows: seq<ServerRow>, entries: seq<EntryRow>, name: string)
    ensures HasCopy(CopiesOf(rows, entries), name) <==> IdOf(rows, name).Some?
    ensures |CopiesOf(rows, entries)| == |rows|
  {
    if rows == [] {
    } else {
      var copies := CopiesOf(rows[..|rows| - 1], entries);
      CopyNames(rows[..|rows| - 1], entries, name);
      var last := CopiesOf(rows, entries)[|copies|];
      assert CopiesOf(rows, entries) == copies + [last];
      assert forall c :: c in copies + [last] <==> c in copies || c == last;
    }
  }

  lemma EarlierIds(rows: seq<ServerRow>, name: string, r: ServerRow)
    requires Ascending(rows) && rows != [] && r in rows[..|rows| - 1]
    ensures IdOf(rows, name) == Some(r.id) <==> IdOf(rows[..|rows| - 1], name) == Some(r.id)
  {
    var i :| 0 <= i < |rows| - 1 && rows[i] == r;
    assert r.id < rows[|rows| - 1].id;
  }

  /** The log of the first row with the name has grown by one entry, and no other. */
  ghost predicate OneWritten(rows: seq<ServerRow>, before: seq<EntryRow>, after: seq<EntryRow>,
                             name: string, e: Entry)
  {
    forall r :: r in rows ==>
      EntriesOf(after, r.id)
      == if IdOf(rows, name) == Some(r.id) then EntriesOf(before, r.id) + [e] else EntriesOf(before, r.id)
  }

  lemma OneWrittenBefore(rows: seq<ServerRow>, before: seq<EntryRow>, after: seq<EntryRow>, name: string, e: Entry)
    requires Ascending(rows) && rows != [] && OneWritten(rows, before, after, name, e)
    ensures OneWritten(rows[..|rows| - 1], before, after, name, e)
  {
    var init := rows[..|rows| - 1];
    forall r | r in init
      ensures EntriesOf(after, r.id)
              == if IdOf(init, name) == Some(r.id) then EntriesOf(before, r.id) + [e] else EntriesOf(before, r.id)
    {
      EarlierIds(rows, name, r);
      assert r in rows;
    }
  }

  lemma {:induction false} NothingWritten(disk: seq<Copy>, name: string, key: string, value: string)
    requires !HasCopy(disk, name)
    ensures WriteFirst(disk, name, key, value) == disk
  {
    if disk == [] {
    } else {
      var init := disk[..|disk| - 1];
      assert forall c :: c in init ==> c in disk;
      NothingWritten(init, name, key, value);
    }
  }

  lemma {:induction false} WrittenCopies(rows: seq<ServerRow>, before: seq<EntryRow>, after: seq<EntryRow>,
                                         name: string, key: string, value: string)
    requires Ascending(rows) && OneWritten(rows, before, after, name, Entry(key, value))
    ensures CopiesOf(rows, after) == WriteFirst(CopiesOf(rows, before), name, key, value)
  {
    if rows == [] {
    } else {
      var init, last := rows[..|rows| - 1], rows[|rows| - 1];
      OneWrittenBefore(rows, before, after, name, Entry(key, value));
      WrittenCopies(init, before, after, name, key, value);
      CopyNames(init, before, name);
      var copies := CopiesOf(init, before);
      assert CopiesOf(rows, before)[..|copies|] == copies;
      if last.name == name && IdOf(init, name).None? {
        NothingWritten(copies, name, key, value);
        ReplayOneMore(Defaults(), EntriesOf(before, last.id), Entry(key, value));
      } else {
        LastIsNotFirst(rows, name);
      }
    }
  }

  lemma LastIsNotFirst(rows: seq<ServerRow>, name: string)
    requires Ascending(rows) && rows != []
    requires rows[|rows| - 1].name != name || IdOf(rows[..|rows| - 1], name).Some?
    ensures IdOf(rows, name) != Some(rows[|rows| - 1].id)
  {
    var init := rows[..|rows| - 1];
    IdOfFindsTheRow(init, name);
    if IdOf(init, name).Some? {
      var r :| r in init && r.name == name && r.id == IdOf(init, name).value;
      EarlierIds(rows, name, r);
      var i :| 0 <= i < |init| && rows[i] == r;
    }
  }

  lemma OneEntryWritten(t: Tables, name: string, e: Entry)
    requires Numbered(t)
    ensures var u := StoreConfigurationEntry(t, name, e.key, e.value);
      Numbered(u) && OneWritten(t.servers, t.entries, u.entries, name, e)
  {
    var u := StoreConfigurationEntry(t, name, e.key, e.value);
    forall r | r in t.servers
      ensures EntriesOf(u.entries, r.id)
              == if IdOf(t.servers, name) == Some(r.id) then EntriesOf(t.entries, r.id) + [e]
                 else EntriesOf(t.entries, r.id)
    {
      EntriesAfterInsert(t, IdOf(t.servers, name), e.key, e.value, r.id);
      assert EntriesOf(t.entries, r.id) + [] == EntriesOf(t.entries, r.id);
    }
    IdOfFindsTheRow(t.servers, name);
  }

  // ---------------------------------------------------------------- restarting

  lemma {:induction false} RecoveredCopies(rows: seq<ServerRow>, entries: seq<EntryRow>)
    requires Restore(rows, entries).Some?
    ensures Restore(rows, entries).value == Recovered(CopiesOf(rows, entries))
  {
    if rows == [] {
    } else {
      var k := |rows| - 1;
      RecoveredCopies(rows[..k], entries);
      var copies := CopiesOf(rows[..k], entries);
      assert CopiesOf(rows, entries)[..|copies|] == copies;
    }
  }

  lemma {:induction false} DistinctIff(rows: seq<ServerRow>, entries: seq<EntryRow>)
    ensures Distinct(CopiesOf(rows, entries)) <==> DistinctRows(rows)
    ensures forall name :: Number(CopiesOf(rows, entries), name) > 0 <==> exists r :: r in rows && r.name == name
  {
    if rows == [] {
    } else {
      var k := |rows| - 1;
      DistinctIff(rows[..k], entries);
      var init, all := CopiesOf(rows[..k], entries), CopiesOf(rows, entries);
      assert all[..|init|] == init;
      assert rows == rows[..k] + [rows[k]];
      forall name ensures Number(all, name) == Number(init, name) + if rows[k].name == name then 1 else 0 {
      }
      if DistinctRows(rows[..k]) {
        DistinctWithOneMore(rows[..k], rows[k]);
        assert Number(all, rows[k].name) == Number(init, rows[k].name) + 1;
      } else {
        assert !DistinctRows(rows);
        var name :| Number(init, name) > 1;
        assert Number(all, name) > 1;
      }
    }
  }

  // ---------------------------------------------------------------- the machines

  lemma NextAgrees(d: Daemon, t: Twin, step: Step)
    requires Agree(d, t)
    ensures Next(d, step).Some? <==> TwinNext(t, step).Some?
    ensures Next(d, step).Some? ==> Agree(Next(d, step).value, TwinNext(t, step).value)
  {
    match step
    case Add(path, name, tweaks, faults) => AddAgrees(d, t, path, name, tweaks, faults);
    case Remove(name, failing) => DeletingAgrees(d.tables, name, failing);
    case Set(name, key, value, fails) =>
      var u := StoreConfigurationEntry(d.tables, name, key, value);
      OneEntryWritten(d.tables, name, Entry(key, value));
      WrittenCopies(d.tables.servers, d.tables.entries, u.entries, name, key, value);
    case Restart =>
      RestoreSucceeds(d.tables.servers, d.tables.entries);
      DistinctIff(d.tables.servers, d.tables.entries);
      if Next(d, step).Some? {
        RecoveredCopies(d.tables.servers, d.tables.entries);
      }
  }

  /** Main theorem on faults. Whatever statements fail, the daemon crashes just when
    * the machine of copies does, and else has its servers in memory and its copies
    * in the tables.
    */
  lemma RunsKeepCopies(steps: seq<Step>)
    ensures Run(steps).Some? <==> TwinRun(steps).Some?
    ensures Run(steps).Some? ==>
      var d, t := Run(steps).value, TwinRun(steps).value;
      d.mem == t.mem && CopiesOf(d.tables.servers, d.tables.entries) == t.disk && Numbered(d.tables)
  {
    AgreeingRuns(steps);
  }

  lemma {:induction false} AgreeingRuns(steps: seq<Step>)
    ensures Run(steps).Some? <==> TwinRun(steps).Some?
    ensures Run(steps).Some? ==> Agree(Run(steps).value, TwinRun(steps).value)
  {
    if steps == [] {
    } else {
      var k := |steps| - 1;
      AgreeingRuns(steps[..k]);
      if Run(steps[..k]).Some? {
        NextAgrees(Run(steps[..k]).value, TwinRun(steps[..k]).value, steps[k]);
      }
    }
  }
}
