/** The two database tables, scanned in rowid order. Ids are handed out by
  * `autoincrement` and never again.
  */
module Tables {
  import opened Common
  import opened Configuration

  datatype ServerRow = ServerRow(id: nat, path: string, name: string)

  /** `serverId` is NULL when the server's name was not found. */
  datatype EntryRow = EntryRow(id: nat, serverId: Option<nat>, key: string, value: string)

  datatype Tables = Tables(servers: seq<ServerRow>, entries: seq<EntryRow>, nextServer: nat, nextEntry: nat)

  function Empty(): Tables {
    Tables([], [], 1, 1)
  }

  // ------------------------------------------------------------------ queries

  /** The scalar subquery `SELECT id FROM servers WHERE name = ...`. */
  function IdOf(rows: seq<ServerRow>, name: string): Option<nat> {
    if rows == [] then None
    else
      var earlier := IdOf(rows[..|rows| - 1], name);
      if earlier.None? && rows[|rows| - 1].name == name then Some(rows[|rows| - 1].id) else earlier
  }

  function IdsNamed(rows: seq<ServerRow>, name: string): set<nat> {
    set r | r in rows && r.name == name :: r.id
  }

  function Ids(rows: seq<ServerRow>): set<nat> {
    set r | r in rows :: r.id
  }

  /** `SELECT key, value ... WHERE serverid = id`. */
  function EntriesOf(rows: seq<EntryRow>, id: nat): seq<Entry> {
    if rows == [] then []
    else
      var last := rows[|rows| - 1];
      EntriesOf(rows[..|rows| - 1], id) + if last.serverId == Some(id) then [Entry(last.key, last.value)] else []
  }

  // ------------------------------------------------------------------ updates

  function WithServer(t: Tables, path: string, name: string): Tables {
    t.(servers := t.servers + [ServerRow(t.nextServer, path, name)], nextServer := t.nextServer + 1)
  }

  function WithEntry(t: Tables, serverId: Option<nat>, key: string, value: string): Tables {
    t.(entries := t.entries + [EntryRow(t.nextEntry, serverId, key, value)], nextEntry := t.nextEntry + 1)
  }

  function WithEntries(t: Tables, id: nat, log: seq<Entry>): Tables {
    if log == [] then t
    else
      var last := log[|log| - 1];
      WithEntry(WithEntries(t, id, log[..|log| - 1]), Some(id), last.key, last.value)
  }

  function RowsExcept(rows: seq<ServerRow>, name: string): seq<ServerRow> {
    Filter(rows, (r: ServerRow) => r.name != name)
  }

  function EntriesExcept(rows: seq<EntryRow>, ids: set<nat>): seq<EntryRow> {
    Filter(rows, (e: EntryRow) => e.serverId.None? || e.serverId.value !in ids)
  }

  // ----------------------------------------------- what the persistor makes of them

  /** The statements of one `storeServer` that fail: 0 is the insert of the
    * server row, 1 its missing id, 2 + i the insert of the i-th key.
    */
  type Faults = set<nat>

  predicate Stores(keys: nat, faults: Faults) {
    forall f :: f in faults ==> f >= 2 + keys
  }

  /** One transaction: everything is inserted, or nothing is. */
  function StoreServer(t: Tables, path: string, name: string, values: Values, faults: Faults): (r: (Tables, bool)) {
    var keys := Sorted(values.Keys);
    if Stores(|keys|, faults)
    then (WithEntries(WithServer(t, path, name), t.nextServer, Snapshot(keys, values)), true)
    else (t, false)
  }

  function DeleteServer(t: Tables, name: string): Tables {
    t.(servers := RowsExcept(t.servers, name), entries := EntriesExcept(t.entries, IdsNamed(t.servers, name)))
  }

  /** Which statements of one `deleteServer` fail: the query for the ids, the delete
    * of the entries of some ids, the delete of the server's rows.
    */
  datatype DeleteFaults = DeleteFaults(select: bool, entries: set<nat>, rows: bool)

  const NO_FAULTS := DeleteFaults(false, {}, false)

  /** Failing statements are only logged; the others still run. */
  function TryDeleteServer(t: Tables, name: string, faults: DeleteFaults): Tables {
    t.(servers := if faults.rows then t.servers else RowsExcept(t.servers, name),
       entries := if faults.select then t.entries
                  else EntriesExcept(t.entries, IdsNamed(t.servers, name) - faults.entries))
  }

  lemma FaultlessDelete(t: Tables, name: string)
    ensures TryDeleteServer(t, name, NO_FAULTS) == DeleteServer(t, name)
  {
    assert IdsNamed(t.servers, name) - {} == IdsNamed(t.servers, name);
  }

  /** QSQLITE never reports how many rows a SELECT found, so a row is always added. */
  function StoreConfigurationEntry(t: Tables, name: string, key: string, value: string): Tables {
    WithEntry(t, IdOf(t.servers, name), key, value)
  }

  predicate HasRow(rows: seq<EntryRow>, id: Option<nat>, key: string) {
    exists i :: 0 <= i < |rows| && rows[i].serverId == id && rows[i].key == key
  }

  function OverwriteRow(rows: seq<EntryRow>, id: Option<nat>, key: string, value: string): seq<EntryRow> {
    if rows == [] then []
    else
      var init, last := rows[..|rows| - 1], rows[|rows| - 1];
      if last.serverId == id && last.key == key then init + [last.(value := value)]
      else OverwriteRow(init, id, key, value) + [last]
  }

  /** What the UPDATE branch would do if the driver did report sizes. */
  function UpsertConfigurationEntry(t: Tables, name: string, key: string, value: string): Tables {
    var id := IdOf(t.servers, name);
    if HasRow(t.entries, id, key) then t.(entries := OverwriteRow(t.entries, id, key, value))
    else WithEntry(t, id, key, value)
  }

  // ---------------------------------------------------------------- invariant

  /** Ids ascend and lie below the counter; every entry belongs to a server row. */
  ghost predicate Sound(t: Tables) {
    && Ascending(t.servers)
    && (forall r :: r in t.servers ==> r.id < t.nextServer)
    && (forall e :: e in t.entries ==> e.serverId.Some? && e.serverId.value in Ids(t.servers))
  }

  predicate DistinctRows(rows: seq<ServerRow>) {
    forall i, j :: 0 <= i < j < |rows| ==> rows[i].name != rows[j].name
  }

  // ------------------------------------------------------------------- lemmas

  lemma {:induction false} NoEntriesOf(rows: seq<EntryRow>, id: nat)
    requires forall e :: e in rows ==> e.serverId != Some(id)
    ensures EntriesOf(rows, id) == []
  {
    if rows == [] {
    } else {
      NoEntriesOf(rows[..|rows| - 1], id);
    }
  }

  lemma {:induction false} EntriesAfterInserts(t: Tables, id: nat, log: seq<Entry>, other: nat)
    ensures var u := WithEntries(t, id, log);
      && u.servers == t.servers && u.nextServer == t.nextServer && |u.entries| == |t.entries| + |log|
      && EntriesOf(u.entries, other) == EntriesOf(t.entries, other) + (if other == id then log else [])
      && (forall e :: e in u.entries ==> e in t.entries || e.serverId == Some(id))
  {
    if log == [] {
    } else {
      var k := |log| - 1;
      EntriesAfterInserts(t, id, log[..k], other);
      var v := WithEntries(t, id, log[..k]);
      var u := WithEntries(t, id, log);
      assert u.entries[..|u.entries| - 1] == v.entries;
      assert log == log[..k] + [Entry(log[k].key, log[k].value)];
    }
  }

  lemma EntriesAfterInsert(t: Tables, serverId: Option<nat>, key: string, value: string, id: nat)
    ensures EntriesOf(WithEntry(t, serverId, key, value).entries, id)
            == EntriesOf(t.entries, id) + if serverId == Some(id) then [Entry(key, value)] else []
  {
  }

  lemma {:induction false} EntriesAfterOverwrite(rows: seq<EntryRow>, id: nat, key: string, value: string, other: nat)
    ensures EntriesOf(OverwriteRow(rows, Some(id), key, value), other)
            == if other == id then Overwrite(EntriesOf(rows, id), Entry(key, value)) else EntriesOf(rows, other)
  {
    if rows == [] {
    } else {
      var init, last := rows[..|rows| - 1], rows[|rows| - 1];
      EntriesAfterOverwrite(init, id, key, value, other);
      assert rows == init + [last];
      EntriesOfLonger(init, last, other);
      if last.serverId == Some(id) && last.key == key {
        EntriesOfLonger(init, last.(value := value), other);
      } else {
        EntriesOfLonger(OverwriteRow(init, Some(id), key, value), last, other);
      }
      if other == id && last.serverId == Some(id) {
        OverwriteOfLonger(EntriesOf(init, id), Entry(last.key, last.value), Entry(key, value));
      }
    }
  }

  lemma EntriesOfLonger(rows: seq<EntryRow>, last: EntryRow, id: nat)
    ensures EntriesOf(rows + [last], id)
            == if last.serverId == Some(id) then EntriesOf(rows, id) + [Entry(last.key, last.value)]
               else EntriesOf(rows, id)
  {
    assert (rows + [last])[..|rows|] == rows;
    assert EntriesOf(rows, id) + [] == EntriesOf(rows, id);
  }

  lemma {:induction false} OverwriteKeepsServers(rows: seq<EntryRow>, id: Option<nat>, key: string, value: string)
    ensures forall e :: e in OverwriteRow(rows, id, key, value) ==> exists f :: f in rows && f.serverId == e.serverId
  {
    if rows == [] {
    } else {
      var init, last := rows[..|rows| - 1], rows[|rows| - 1];
      OverwriteKeepsServers(init, id, key, value);
      assert rows == init + [last];
    }
  }

  lemma OverwriteOfLonger(log: seq<Entry>, last: Entry, e: Entry)
    ensures Overwrite(log + [last], e) == if last.key == e.key then log + [e] else Overwrite(log, e) + [last]
  {
    assert (log + [last])[..|log|] == log;
  }

  lemma {:induction false} RowsAndKeys(rows: seq<EntryRow>, id: nat, key: string)
    ensures HasRow(rows, Some(id), key) <==> HasKey(EntriesOf(rows, id), key)
  {
    if rows == [] {
    } else {
      var init, last := rows[..|rows| - 1], rows[|rows| - 1];
      RowsAndKeys(init, id, key);
      var log := EntriesOf(init, id);
      assert HasRow(rows, Some(id), key) <==>
             HasRow(init, Some(id), key) || (last.serverId == Some(id) && last.key == key) by {
        if i :| 0 <= i < |init| && init[i].serverId == Some(id) && init[i].key == key {
          assert rows[i] == init[i];
        }
        if i :| 0 <= i < |rows| - 1 && rows[i].serverId == Some(id) && rows[i].key == key {
          assert init[i] == rows[i];
        }
      }
      if last.serverId == Some(id) {
        HasKeyOfLonger(log, Entry(last.key, last.value), key);
      } else {
        assert log + [] == log;
      }
    }
  }

  lemma HasKeyOfLonger(log: seq<Entry>, last: Entry, key: string)
    ensures HasKey(log + [last], key) <==> HasKey(log, key) || last.key == key
  {
    var longer := log + [last];
    assert longer[|log|] == last && forall i :: 0 <= i < |log| ==> longer[i] == log[i];
  }

  lemma {:induction false} EntriesAfterDelete(rows: seq<EntryRow>, ids: set<nat>, id: nat)
    ensures EntriesOf(EntriesExcept(rows, ids), id) == if id in ids then [] else EntriesOf(rows, id)
  {
    if rows == [] {
    } else {
      var k := |rows| - 1;
      EntriesAfterDelete(rows[..k], ids, id);
      var kept := EntriesExcept(rows[..k], ids);
      assert (kept + [rows[k]])[..|kept|] == kept;
      assert kept + [] == kept;
    }
  }

  lemma {:induction false} DeletedEntriesAreGone(rows: seq<EntryRow>, ids: set<nat>)
    ensures forall e :: e in EntriesExcept(rows, ids) <==> e in rows && !(e.serverId.Some? && e.serverId.value in ids)
  {
    if rows == [] {
    } else {
      var k := |rows| - 1;
      DeletedEntriesAreGone(rows[..k], ids);
      assert rows == rows[..k] + [rows[k]];
    }
  }

  lemma {:induction false} NothingExcepted(rows: seq<EntryRow>)
    ensures EntriesExcept(rows, {}) == rows
  {
    if rows == [] {
    } else {
      NothingExcepted(rows[..|rows| - 1]);
    }
  }

  /** Deleting the entries of one id after another deletes those of all of them. */
  lemma {:induction false} DeletesCompose(rows: seq<EntryRow>, ids: set<nat>, id: nat)
    ensures EntriesExcept(EntriesExcept(rows, ids), {id}) == EntriesExcept(rows, ids + {id})
  {
    if rows == [] {
    } else {
      var k := |rows| - 1;
      DeletesCompose(rows[..k], ids, id);
      var kept := EntriesExcept(rows[..k], ids);
      assert (kept + [rows[k]])[..|kept|] == kept;
      assert kept + [] == kept;
    }
  }

  lemma {:induction false} RowsAfterDelete(rows: seq<ServerRow>, name: string)
    ensures forall r :: r in RowsExcept(rows, name) <==> r in rows && r.name != name
  {
    if rows == [] {
    } else {
      var k := |rows| - 1;
      RowsAfterDelete(rows[..k], name);
      assert rows == rows[..k] + [rows[k]];
    }
  }

  predicate Ascending(rows: seq<ServerRow>) {
    forall i, j :: 0 <= i < j < |rows| ==> rows[i].id < rows[j].id
  }

  lemma {:induction false} DeleteKeepsAscending(rows: seq<ServerRow>, name: string)
    requires Ascending(rows)
    ensures Ascending(RowsExcept(rows, name))
  {
    if rows == [] {
    } else {
      var k := |rows| - 1;
      DeleteKeepsAscending(rows[..k], name);
      RowsAfterDelete(rows[..k], name);
      var kept := RowsExcept(rows[..k], name);
      forall i | 0 <= i < |kept| ensures kept[i].id < rows[k].id {
        assert kept[i] in kept && kept[i] in rows[..k];
      }
    }
  }

  lemma {:induction false} IdOfFindsTheRow(rows: seq<ServerRow>, name: string)
    ensures IdOf(rows, name).None? ==> forall r :: r in rows ==> r.name != name
    ensures IdOf(rows, name).Some? ==> exists r :: r in rows && r.name == name && r.id == IdOf(rows, name).value
  {
    if rows == [] {
    } else {
      IdOfFindsTheRow(rows[..|rows| - 1], name);
      assert rows[|rows| - 1] in rows;
      assert forall r :: r in rows ==> r in rows[..|rows| - 1] || r == rows[|rows| - 1];
    }
  }

  lemma StoreServerKeepsSound(t: Tables, path: string, name: string, values: Values, faults: Faults)
    requires Sound(t)
    ensures Sound(StoreServer(t, path, name, values, faults).0)
  {
    var keys := Sorted(values.Keys);
    if Stores(|keys|, faults) {
      var v := WithServer(t, path, name);
      var u := StoreServer(t, path, name, values, faults).0;
      EntriesAfterInserts(v, t.nextServer, Snapshot(keys, values), 0);
      var added := ServerRow(t.nextServer, path, name);
      assert v.servers[|t.servers|] == added;
      assert added.id in Ids(v.servers);
      assert Ids(t.servers) <= Ids(v.servers);
      AscendingWithOneMore(t.servers, added);
    }
  }

  lemma AscendingWithOneMore(rows: seq<ServerRow>, last: ServerRow)
    requires Ascending(rows) && forall r :: r in rows ==> r.id < last.id
    ensures Ascending(rows + [last])
  {
  }

  lemma DeleteServerKeepsSound(t: Tables, name: string)
    requires Sound(t)
    ensures Sound(DeleteServer(t, name))
  {
    var ids := IdsNamed(t.servers, name);
    var u := DeleteServer(t, name);
    RowsAfterDelete(t.servers, name);
    DeleteKeepsAscending(t.servers, name);
    DeletedEntriesAreGone(t.entries, ids);
    forall e | e in u.entries ensures e.serverId.Some? && e.serverId.value in Ids(u.servers) {
      assert e in t.entries;
      var r :| r in t.servers && r.id == e.serverId.value;
      assert r.name != name;
      assert r in u.servers;
    }
  }

  lemma StoreEntryKeepsSound(t: Tables, name: string, key: string, value: string)
    requires Sound(t) && IdOf(t.servers, name).Some?
    ensures Sound(StoreConfigurationEntry(t, name, key, value))
  {
    IdOfFindsTheRow(t.servers, name);
  }

  /** Ids single out rows, so deleting by name spares the entries of every other name. */
  lemma SoundIdsAreUnique(t: Tables, a: ServerRow, b: ServerRow)
    requires Sound(t) && a in t.servers && b in t.servers && a.id == b.id
    ensures a == b
  {
  }

  // --------------------------------------------------------- the transactions

  /** `storeServer` is all or nothing: it fails exactly when one of its statements
    * does, and then nothing is stored; else there is one more server row, with
    * one entry for each key, and nothing of another id changes.
    */
  lemma StoreServerIsAllOrNothing(t: Tables, path: string, name: string, values: Values, faults: Faults)
    requires Sound(t)
    ensures var (u, ok) := StoreServer(t, path, name, values, faults);
      && (ok <==> forall f :: f in faults ==> f >= 2 + |values.Keys|)
      && (!ok ==> u == t)
      && (ok ==>
        && u.servers == t.servers + [ServerRow(t.nextServer, path, name)]
        && |u.entries| == |t.entries| + |values.Keys|
        && |EntriesOf(u.entries, t.nextServer)| == |values.Keys|
        && (forall key :: key in values ==> Entry(key, values[key]) in EntriesOf(u.entries, t.nextServer))
        && (forall id :: id != t.nextServer ==> EntriesOf(u.entries, id) == EntriesOf(t.entries, id)))
  {
    var keys := Sorted(values.Keys);
    var log := Snapshot(keys, values);
    ListsCounts(keys, values.Keys);
    if Stores(|keys|, faults) {
      var v := WithServer(t, path, name);
      forall id: nat ensures EntriesOf(WithEntries(v, t.nextServer, log).entries, id)
                             == EntriesOf(t.entries, id) + if id == t.nextServer then log else []
      {
        EntriesAfterInserts(v, t.nextServer, log, id);
      }
      NoEntriesOf(t.entries, t.nextServer);
      EntriesAfterInserts(v, t.nextServer, log, t.nextServer);
      forall key | key in values ensures Entry(key, values[key]) in log {
        var i :| 0 <= i < |keys| && keys[i] == key;
        assert log[i] == Entry(key, values[key]);
      }
    }
  }

  lemma {:induction false} ListsCounts(keys: seq<string>, s: set<string>)
    requires Lists(keys, s)
    ensures |keys| == |s|
  {
    if keys == [] {
      assert s == {};
    } else {
      var k := |keys| - 1;
      forall x ensures x in keys[..k] <==> x in s - {keys[k]} {
        if x in s && x != keys[k] {
          assert x in keys;
        }
      }
      ListsCounts(keys[..k], s - {keys[k]});
    }
  }

  /** A deleted name can be stored again: its new rows are just the new server's
    * snapshot, whatever the deleted server had logged.
    */
  lemma StoringAgainStartsAfresh(t: Tables, name: string, path: string, values: Values, faults: Faults)
    requires Sound(t) && Defaults().Keys <= values.Keys
    ensures var d := DeleteServer(t, name);
      var (u, ok) := StoreServer(d, path, name, values, faults);
      ok ==>
        && (forall r :: r in u.servers && r.name == name ==> r == ServerRow(t.nextServer, path, name))
        && Same(Replay(Defaults(), EntriesOf(u.entries, t.nextServer)), values)
        && (forall r :: r in t.servers && r.name != name ==>
              r in u.servers && EntriesOf(u.entries, r.id) == EntriesOf(t.entries, r.id))
  {
    var d := DeleteServer(t, name);
    DeleteServerKeepsSound(t, name);
    RowsAfterDelete(t.servers, name);
    var keys := Sorted(values.Keys);
    if Stores(|keys|, faults) {
      var v := WithServer(d, path, name);
      var log := Snapshot(keys, values);
      var u := StoreServer(d, path, name, values, faults).0;
      EntriesAfterInserts(v, t.nextServer, log, t.nextServer);
      NoEntriesOf(d.entries, t.nextServer);
      SnapshotRestores(Defaults(), keys, values);
      assert EntriesOf(u.entries, t.nextServer) == [] + log == log;
      forall r | r in t.servers && r.name != name
        ensures r in u.servers && EntriesOf(u.entries, r.id) == EntriesOf(t.entries, r.id)
      {
        EntriesAfterInserts(v, t.nextServer, log, r.id);
        EntriesAfterDelete(t.entries, IdsNamed(t.servers, name), r.id);
        if s :| s in t.servers && s.name == name && s.id == r.id {
          SoundIdsAreUnique(t, r, s);
        }
        assert r in d.servers;
      }
    }
  }
}
