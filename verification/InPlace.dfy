/** The daemon as it would be if a changed value updated the row of its key: every
  * run keeps the same servers as the daemon that appends a row for each change.
  */
module InPlace {
  import opened Common
  import opened Configuration
  import opened Tables
  import opened Persistence

  function WriteInPlace(d: Daemon, name: string, key: string, value: string): Daemon {
    Daemon(Written(d.mem, name, key, value),
           if Logs(d.mem, name, key, value) then UpsertConfigurationEntry(d.tables, name, key, value) else d.tables)
  }

  function NextInPlace(d: Daemon, step: Step): Option<Daemon> {
    if step.Set? && !step.fails then Some(WriteInPlace(d, step.name, step.key, step.value)) else Next(d, step)
  }

  function RunInPlace(steps: seq<Step>): Option<Daemon> {
    if steps == [] then Some(Daemon([], Empty()))
    else
      match RunInPlace(steps[..|steps| - 1])
      case None => None
      case Some(d) => NextInPlace(d, steps[|steps| - 1])
  }

  /** Each server has at most one row for a key. */
  ghost predicate OneRowPerKey(t: Tables) {
    forall r :: r in t.servers ==> UniqueKeys(EntriesOf(t.entries, r.id))
  }

  lemma UpsertingRecords(log: seq<Entry>, key: string, value: string)
    requires UniqueKeys(log)
    ensures Records(log, Upsert(log, Entry(key, value)), key, value) && UniqueKeys(Upsert(log, Entry(key, value)))
  {
    var e := Entry(key, value);
    UpsertKeepsKeysUnique(log, e);
    UpsertOverwrites(Defaults(), log, e);
    if HasKey(log, key) {
      OverwrittenKeys(log, e);
    } else {
      KeysOfLonger(log, e);
    }
  }

  lemma OverwrittenKeys(log: seq<Entry>, e: Entry)
    requires HasKey(log, e.key)
    ensures LoggedKeys(Overwrite(log, e)) == LoggedKeys(log) + {e.key}
    ensures FilledKeys(Overwrite(log, e)) <= FilledKeys(log) + if e.value != "" then {e.key} else {}
  {
    var after := Overwrite(log, e);
    OverwriteKeepsKeys(log, e);
    forall key | key in LoggedKeys(log) ensures key in LoggedKeys(after) {
      var i :| 0 <= i < |log| && log[i].key == key;
      assert after[i] in after;
    }
    forall key | key in LoggedKeys(after) ensures key in LoggedKeys(log) {
      var i :| 0 <= i < |after| && after[i].key == key;
      assert log[i] in log;
    }
    forall key | key in FilledKeys(after) ensures key in FilledKeys(log) + if e.value != "" then {e.key} else {} {
      var i :| 0 <= i < |after| && after[i].key == key && after[i].value != "";
      assert log[i] in log;
    }
  }

  lemma EntriesAfterUpsert(t: Tables, name: string, key: string, value: string, id: nat)
    requires IdOf(t.servers, name).Some?
    ensures var u := UpsertConfigurationEntry(t, name, key, value);
      EntriesOf(u.entries, id)
      == if IdOf(t.servers, name) == Some(id) then Upsert(EntriesOf(t.entries, id), Entry(key, value))
         else EntriesOf(t.entries, id)
  {
    var own := IdOf(t.servers, name).value;
    RowsAndKeys(t.entries, own, key);
    EntriesAfterOverwrite(t.entries, own, key, value, id);
    EntriesAfterInsert(t, Some(own), key, value, id);
    assert EntriesOf(t.entries, id) + [] == EntriesOf(t.entries, id);
  }

  lemma UpsertKeepsSound(t: Tables, name: string, key: string, value: string)
    requires Sound(t) && IdOf(t.servers, name).Some?
    ensures Sound(UpsertConfigurationEntry(t, name, key, value))
  {
    var own := IdOf(t.servers, name).value;
    if HasRow(t.entries, Some(own), key) {
      OverwriteKeepsServers(t.entries, Some(own), key, value);
    } else {
      StoreEntryKeepsSound(t, name, key, value);
    }
  }

  lemma WriteInPlaceKeepsConsistent(d: Daemon, name: string, key: string, value: string)
    requires Consistent(d) && OneRowPerKey(d.tables)
    ensures Consistent(WriteInPlace(d, name, key, value)) && OneRowPerKey(WriteInPlace(d, name, key, value).tables)
  {
    var t, u := d.tables, WriteInPlace(d, name, key, value).tables;
    if Logs(d.mem, name, key, value) {
      LoggedServerHasARow(d, name, key, value);
      UpsertKeepsSound(t, name, key, value);
    }
    forall r | r in t.servers
      ensures RowRecords(d.mem, r, t.entries, u.entries, name, key, value) && UniqueKeys(EntriesOf(u.entries, r.id))
    {
      if Logs(d.mem, name, key, value) {
        EntriesAfterUpsert(t, name, key, value, r.id);
        NamesSingleOutRows(d, r, name);
        UpsertingRecords(EntriesOf(t.entries, r.id), key, value);
      }
    }
    MatchesWritten(d.mem, t.servers, t.entries, u.entries, name, key, value);
  }

  lemma AddKeepsOneRowPerKey(d: Daemon, path: string, name: string, values: Values, faults: Faults)
    requires Consistent(d) && OneRowPerKey(d.tables)
    ensures OneRowPerKey(AddServer(d, path, name, values, faults).tables)
  {
    if !Taken(d.mem, name) {
      StoringKeepsOneRowPerKey(d.tables, path, name, values, faults);
    }
  }

  lemma StoringKeepsOneRowPerKey(t: Tables, path: string, name: string, values: Values, faults: Faults)
    requires Sound(t) && OneRowPerKey(t)
    ensures OneRowPerKey(StoreServer(t, path, name, values, faults).0)
  {
    var u := StoreServer(t, path, name, values, faults).0;
    if u != t {
      var log := Snapshot(Sorted(values.Keys), values);
      SnapshotKeysAreUnique(values);
      NewEntries(t, path, name, log);
      forall r | r in u.servers ensures UniqueKeys(EntriesOf(u.entries, r.id)) {
        if r in t.servers {
          EntriesAfterInserts(WithServer(t, path, name), t.nextServer, log, r.id);
          assert EntriesOf(t.entries, r.id) + [] == EntriesOf(t.entries, r.id);
        } else {
          EntriesAfterInserts(WithServer(t, path, name), t.nextServer, log, r.id);
          assert r.id == t.nextServer;
        }
      }
    }
  }

  lemma SnapshotKeysAreUnique(values: Values)
    ensures UniqueKeys(Snapshot(Sorted(values.Keys), values))
  {
  }

  lemma NextInPlaceKeepsConsistent(d: Daemon, step: Step)
    requires Consistent(d) && OneRowPerKey(d.tables) && Obeyed(step)
    ensures NextInPlace(d, step).Some?
    ensures Consistent(NextInPlace(d, step).value) && OneRowPerKey(NextInPlace(d, step).value.tables)
  {
    if step.Set? {
      WriteInPlaceKeepsConsistent(d, step.name, step.key, step.value);
    } else {
      NextKeepsConsistent(d, step);
      match step
      case Add(path, name, tweaks, faults) => AddKeepsOneRowPerKey(d, path, name, Replay(Defaults(), tweaks), faults);
      case Remove(name, _) =>
        RowsAfterDelete(d.tables.servers, name);
        FaultlessDelete(d.tables, name);
        forall r | r in RemoveServer(d, name, NO_FAULTS).tables.servers && Taken(d.mem, name)
          ensures EntriesOf(DeleteServer(d.tables, name).entries, r.id) == EntriesOf(d.tables.entries, r.id)
        {
          OtherEntriesStay(d.tables, name, NO_FAULTS, r);
        }
      case Restart =>
    }
  }

  lemma NextInPlaceFollowsRecall(d: Daemon, mem: Memory, step: Step)
    requires Consistent(d) && SameServers(d.mem, mem) && Obeyed(step)
    ensures NextInPlace(d, step).Some? && SameServers(NextInPlace(d, step).value.mem, Recall(mem, step))
  {
    NextFollowsRecall(d, mem, step);
  }

  lemma {:induction false} InPlaceFollowsRecall(steps: seq<Step>)
    requires AllObeyed(steps)
    ensures RunInPlace(steps).Some?
    ensures Consistent(RunInPlace(steps).value) && OneRowPerKey(RunInPlace(steps).value.tables)
    ensures SameServers(RunInPlace(steps).value.mem, RecallAll(steps))
  {
    if steps == [] {
    } else {
      var k := |steps| - 1;
      InPlaceFollowsRecall(steps[..k]);
      NextInPlaceKeepsConsistent(RunInPlace(steps[..k]).value, steps[k]);
      NextInPlaceFollowsRecall(RunInPlace(steps[..k]).value, RecallAll(steps[..k]), steps[k]);
    }
  }

  /** While the database carries out deletes and writes to the log, appending rows and
    * updating them in place keep the same servers with the same values; updating
    * leaves one row for each key.
    */
  lemma AppendingRunsLikeUpdating(steps: seq<Step>)
    requires AllObeyed(steps)
    ensures Run(steps).Some? && RunInPlace(steps).Some? && OneRowPerKey(RunInPlace(steps).value.tables)
    ensures SameServers(Run(steps).value.mem, RunInPlace(steps).value.mem)
  {
    RestartsOnlyForgetTheUnstored(steps);
    InPlaceFollowsRecall(steps);
    var a, b, c := Run(steps).value.mem, RecallAll(steps), RunInPlace(steps).value.mem;
    assert forall i :: 0 <= i < |a| ==> Alike(a[i], b[i]) && Alike(c[i], b[i]);
  }
}
