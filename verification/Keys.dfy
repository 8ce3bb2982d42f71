/** What restarts do to the keys a configuration lists. They keep every value, but
  * not every key: one that has only ever been stored empty is not listed again.
  */
module Keys {
  import opened Common
  import opened Configuration
  import opened Tables
  import opened Persistence

  lemma {:induction false} RestoredServers(rows: seq<ServerRow>, entries: seq<EntryRow>)
    requires Restore(rows, entries).Some?
    ensures var mem := Restore(rows, entries).value;
      |mem| == |rows| && forall i :: 0 <= i < |mem| ==>
        mem[i] == Listed(rows[i].path, rows[i].name, Replay(Defaults(), EntriesOf(entries, rows[i].id)), true)
  {
    if rows == [] {
    } else {
      RestoredServers(rows[..|rows| - 1], entries);
    }
  }

  // ----------------------------------------------------------------- one restart

  /** The key set a restart restores, read off the rows of the server. */
  lemma RestoredKeys(rows: seq<ServerRow>, entries: seq<EntryRow>, t: Listed, r: ServerRow)
    requires DistinctRows(rows) && Restore(rows, entries).Some?
    requires t in Restore(rows, entries).value && r in rows && r.name == t.name
    ensures t.values.Keys == Defaults().Keys + FilledKeys(EntriesOf(entries, r.id))
  {
    var mem := Restore(rows, entries).value;
    RestoredServers(rows, entries);
    var i :| 0 <= i < |mem| && mem[i] == t;
    SameNameSameRow(rows, r, rows[i]);
    ReplayKeys(Defaults(), EntriesOf(entries, r.id));
  }

  lemma SameNameSameRow(rows: seq<ServerRow>, a: ServerRow, b: ServerRow)
    requires DistinctRows(rows) && a in rows && b in rows && a.name == b.name
    ensures a == b
  {
    var i :| 0 <= i < |rows| && rows[i] == a;
    var j :| 0 <= j < |rows| && rows[j] == b;
    assert i == j;
  }

  /** A stored server lists the same keys after a restart exactly when every key it
    * lists is a default or has a row with a value that is not empty.
    */
  lemma KeysSurviveARestartIff(d: Daemon, s: Listed, r: ServerRow)
    requires Consistent(d) && s in d.mem && s.stored && r in d.tables.servers && r.name == s.name
    ensures Restore(d.tables.servers, d.tables.entries).Some?
    ensures forall t :: t in Restore(d.tables.servers, d.tables.entries).value && t.name == s.name ==>
      && t.values.Keys <= s.values.Keys
      && (t.values.Keys == s.values.Keys <==>
            forall key :: key in s.values && key !in Defaults() ==>
              key in FilledKeys(EntriesOf(d.tables.entries, r.id)))
  {
    RestoreRecalls(d.mem, d.tables.servers, d.tables.entries);
    NamesakesAreMirrored(d.mem, d.tables.servers, d.tables.entries, s, r);
    MatchedRowsAreDistinct(d.mem, d.tables.servers, d.tables.entries);
    forall t | t in Restore(d.tables.servers, d.tables.entries).value && t.name == s.name
      ensures t.values.Keys == Defaults().Keys + FilledKeys(EntriesOf(d.tables.entries, r.id))
    {
      RestoredKeys(d.tables.servers, d.tables.entries, t, r);
    }
  }

  /** For a server just stored: exactly when no key but the defaults reads as empty. */
  lemma FreshKeysSurviveIff(d: Daemon, path: string, name: string, values: Values, faults: Faults)
    requires Consistent(d) && Defaults().Keys <= values.Keys
    requires !Taken(d.mem, name) && Stores(|Sorted(values.Keys)|, faults)
    ensures var after := AddServer(d, path, name, values, faults);
      && Restore(after.tables.servers, after.tables.entries).Some?
      && forall t :: t in Restore(after.tables.servers, after.tables.entries).value && t.name == name ==>
        && (forall key :: key in t.values <==> key in values && (key in Defaults() || values[key] != ""))
        && (t.values.Keys == values.Keys <==> forall key :: key in values && key !in Defaults() ==> values[key] != "")
  {
    var after := AddServer(d, path, name, values, faults);
    var s, r := Listed(path, name, values, true), ServerRow(d.tables.nextServer, path, name);
    AddKeepsConsistent(d, path, name, values, faults);
    StoreServerIsAllOrNothing(d.tables, path, name, values, faults);
    ListsCounts(Sorted(values.Keys), values.Keys);
    NewEntries(d.tables, path, name, Snapshot(Sorted(values.Keys), values));
    SnapshotKeys(Sorted(values.Keys), values);
    assert s == after.mem[|d.mem|] && r == after.tables.servers[|d.tables.servers|];
    KeysSurviveARestartIff(after, s, r);
    MatchedRowsAreDistinct(after.mem, after.tables.servers, after.tables.entries);
    forall t | t in Restore(after.tables.servers, after.tables.entries).value && t.name == name
      ensures t.values.Keys == Defaults().Keys + FilledKeys(EntriesOf(after.tables.entries, r.id))
    {
      RestoredKeys(after.tables.servers, after.tables.entries, t, r);
    }
  }

  /** A key that is set and cleared before its server is added is lost by the first restart. */
  lemma AClearedKeyIsLost()
    ensures var steps := [Add("p", "n", [Entry("k", "a"), Entry("k", "")], {})];
      && Run(steps).Some? && |Run(steps).value.mem| == 1 && "k" in Run(steps).value.mem[0].values
      && Run(steps + [Restart]).Some? && |Run(steps + [Restart]).value.mem| == 1
      && "k" !in Run(steps + [Restart]).value.mem[0].values
  {
    var tweaks := ClearingTweaks();
    AnEmptyTweakIsLost("p", "n", tweaks, "k");
  }

  predicate IsEmptyTweak(values: Values, key: string) {
    key in values && values[key] == "" && key !in Defaults()
  }

  lemma AnEmptyTweakIsLost(path: string, name: string, tweaks: seq<Entry>, key: string)
    requires IsEmptyTweak(Replay(Defaults(), tweaks), key)
    ensures var steps := [Add(path, name, tweaks, {})];
      && Run(steps).Some? && |Run(steps).value.mem| == 1 && key in Run(steps).value.mem[0].values
      && Run(steps + [Restart]).Some? && |Run(steps + [Restart]).value.mem| == 1
      && key !in Run(steps + [Restart]).value.mem[0].values
  {
    var values := Replay(Defaults(), tweaks);
    ReplayKeys(Defaults(), tweaks);
    var d := AddAndRestart(Add(path, name, tweaks, {}));
    EmptyKeyIsLost(Daemon([], Empty()), path, name, values, key);
  }

  lemma AddAndRestart(add: Step) returns (d: Daemon)
    requires add.Add?
    ensures Consistent(Daemon([], Empty())) && Next(Daemon([], Empty()), add) == Some(d)
    ensures Run([add]) == Some(d) && Run([add] + [Restart]) == Next(d, Restart)
  {
    RestartsOnlyForgetTheUnstored([]);
    RunOneMore([], add);
    assert [] + [add] == [add];
    d := Run([add]).value;
    RunOneMore([add], Restart);
  }

  /** A server added as it is made reads as new, and does so again after a restart. */
  lemma NewServersReadAsNew(path: string, name: string)
    ensures var steps := [Add(path, name, [], {})];
      && Run(steps).Some? && |Run(steps).value.mem| == 1 && Run(steps + [Restart]).Some?
      && Run(steps).value.mem[0].name == name && Run(steps).value.mem[0].path == path
      && ReadsAsNew(Run(steps).value.mem[0].values)
      && |Run(steps + [Restart]).value.mem| == 1
      && Run(steps + [Restart]).value.mem[0].name == name && Run(steps + [Restart]).value.mem[0].path == path
      && ReadsAsNew(Run(steps + [Restart]).value.mem[0].values)
  {
    var d := AddAndRestart(Add(path, name, [], {}));
    AddedAlone(path, name);
    RestartOfOne(d, Listed(path, name, Defaults(), true));
    DefaultsRead();
  }

  lemma AddedAlone(path: string, name: string)
    ensures Consistent(AddServer(Daemon([], Empty()), path, name, Replay(Defaults(), []), {}))
    ensures AddServer(Daemon([], Empty()), path, name, Replay(Defaults(), []), {}).mem
            == [Listed(path, name, Defaults(), true)]
  {
    RestartsOnlyForgetTheUnstored([]);
    AddKeepsConsistent(Daemon([], Empty()), path, name, Defaults(), {});
  }

  lemma RestartOfOne(d: Daemon, s: Listed)
    requires Consistent(d) && d.mem == [s] && s.stored
    ensures Next(d, Restart).Some?
    ensures var mem := Next(d, Restart).value.mem; |mem| == 1 && Alike(mem[0], s)
  {
    NextFollowsRecall(d, d.mem, Restart);
    StoredOfAllStored(d.mem, "");
  }

  lemma RunOneMore(steps: seq<Step>, step: Step)
    ensures Run(steps + [step]) == match Run(steps) case None => None case Some(d) => Next(d, step)
  {
    assert (steps + [step])[..|steps|] == steps;
  }

  lemma EmptyKeyIsLost(d: Daemon, path: string, name: string, values: Values, key: string)
    requires Consistent(d) && d.mem == []
    requires Defaults().Keys <= values.Keys && IsEmptyTweak(values, key)
    ensures var after := AddServer(d, path, name, values, {});
      && after.mem == [Listed(path, name, values, true)]
      && Restore(after.tables.servers, after.tables.entries).Some?
      && var mem := Restore(after.tables.servers, after.tables.entries).value; |mem| == 1 && key !in mem[0].values
  {
    var after := AddServer(d, path, name, values, {});
    AddKeepsConsistent(d, path, name, values, {});
    FreshKeysSurviveIff(d, path, name, values, {});
    KeptServers(after, name);
    var mem := Restore(after.tables.servers, after.tables.entries).value;
    assert mem[0] in mem;
  }

  lemma ClearingTweaks() returns (tweaks: seq<Entry>)
    ensures tweaks == [Entry("k", "a"), Entry("k", "")] && IsEmptyTweak(Replay(Defaults(), tweaks), "k")
  {
    tweaks := [Entry("k", "a"), Entry("k", "")];
    ReplayKeys(Defaults(), tweaks);
    assert tweaks[0].value != "" && tweaks[0] in tweaks;
    ReplayIsLastWriterWins(Defaults(), tweaks, 1);
    assert |ARGUMENTS_KEY| != |"k"| && |LOGS_KEY| != |"k"|;
  }

  lemma KeptServers(d: Daemon, name: string)
    requires Consistent(d) && |d.mem| == 1 && d.mem[0].stored && d.mem[0].name == name
    ensures Restore(d.tables.servers, d.tables.entries).Some?
    ensures var mem := Restore(d.tables.servers, d.tables.entries).value;
      |mem| == 1 && mem[0].name == name && mem[0].values.Keys <= d.mem[0].values.Keys
  {
    RestoreRecalls(d.mem, d.tables.servers, d.tables.entries);
    assert Stored(d.mem) == d.mem by {
      assert Stored(d.mem[..0]) == [];
    }
    var r := d.tables.servers[|d.tables.servers| - 1];
    KeysSurviveARestartIff(d, d.mem[0], r);
  }

  // -------------------------------------------------------------------- every run

  /** Whether a restart came after the server of this name was last added. */
  function RestartedSince(steps: seq<Step>, name: string): bool {
    if steps == [] then false
    else
      var init := steps[..|steps| - 1];
      match steps[|steps| - 1]
      case Restart => true
      case Add(_, n, _, _) => (n != name || Taken(RecallAll(init), name)) && RestartedSince(init, name)
      case _ => RestartedSince(init, name)
  }

  /** The keys a configuration lists, read off its rows: with the first restart those
    * go that have never been filled.
    */
  predicate KeysAre(m: Values, log: seq<Entry>, restarted: bool) {
    m.Keys == Defaults().Keys + if restarted then FilledKeys(log) else LoggedKeys(log)
  }

  ghost predicate AllKeysAre(d: Daemon, steps: seq<Step>) {
    forall s, r :: s in d.mem && r in d.tables.servers && s.name == r.name ==>
      KeysAre(s.values, EntriesOf(d.tables.entries, r.id), RestartedSince(steps, s.name))
  }

  lemma AddKeepsKeys(d: Daemon, steps: seq<Step>, path: string, name: string, tweaks: seq<Entry>)
    requires Consistent(d) && AllKeysAre(d, steps) && SameServers(d.mem, RecallAll(steps)) && AllStored(d.mem)
    ensures AllKeysAre(AddServer(d, path, name, Replay(Defaults(), tweaks), {}), steps + [Add(path, name, tweaks, {})])
  {
    var values := Replay(Defaults(), tweaks);
    var after, longer := AddServer(d, path, name, values, {}), steps + [Add(path, name, tweaks, {})];
    assert longer[..|steps|] == steps;
    TakenAlike(d.mem, RecallAll(steps), name);
    if !Taken(d.mem, name) {
      forall s, r | s in after.mem && r in after.tables.servers && s.name == r.name
        ensures KeysAre(s.values, EntriesOf(after.tables.entries, r.id), RestartedSince(longer, s.name))
      {
        NewcomerOrNot(d, s, r, path, name, values);
        if s.name == name {
          NewcomersKeys(d.tables, path, name, tweaks);
        }
      }
    }
  }

  lemma NewcomersKeys(t: Tables, path: string, name: string, tweaks: seq<Entry>)
    requires Sound(t)
    ensures var values := Replay(Defaults(), tweaks);
      KeysAre(values, EntriesOf(StoreServer(t, path, name, values, {}).0.entries, t.nextServer), false)
  {
    var values := Replay(Defaults(), tweaks);
    ReplayKeys(Defaults(), tweaks);
    NewEntries(t, path, name, Snapshot(Sorted(values.Keys), values));
    SnapshotKeys(Sorted(values.Keys), values);
  }

  lemma TakenAlike(a: Memory, b: Memory, name: string)
    requires SameServers(a, b)
    ensures Taken(a, name) <==> Taken(b, name)
  {
    assert forall i :: 0 <= i < |a| ==> Alike(a[i], b[i]);
  }

  /** After an add, servers and rows of the name are the new ones, and all others are old. */
  lemma NewcomerOrNot(d: Daemon, s: Listed, r: ServerRow, path: string, name: string, values: Values)
    requires Consistent(d) && AllStored(d.mem) && !Taken(d.mem, name)
    requires var after := AddServer(d, path, name, values, {});
      s in after.mem && r in after.tables.servers && s.name == r.name
    ensures if s.name == name
            then s == Listed(path, name, values, true) && r == ServerRow(d.tables.nextServer, path, name)
            else
              && s in d.mem && r in d.tables.servers
              && EntriesOf(AddServer(d, path, name, values, {}).tables.entries, r.id)
                == EntriesOf(d.tables.entries, r.id)
  {
    StoreServerIsAllOrNothing(d.tables, path, name, values, {});
    RowNames(d.mem, d.tables.servers, d.tables.entries, name);
    assert forall x :: x in d.mem ==> x.name != name;
  }

  lemma RemoveKeepsKeys(d: Daemon, steps: seq<Step>, name: string)
    requires Consistent(d) && AllKeysAre(d, steps)
    ensures AllKeysAre(RemoveServer(d, name, NO_FAULTS), steps + [Remove(name, NO_FAULTS)])
  {
    var after, longer := RemoveServer(d, name, NO_FAULTS), steps + [Remove(name, NO_FAULTS)];
    assert longer[..|steps|] == steps;
    WithoutIsTheRest(d.mem, name);
    RowsAfterDelete(d.tables.servers, name);
    FaultlessDelete(d.tables, name);
    forall s, r | s in after.mem && r in after.tables.servers && s.name == r.name
      ensures KeysAre(s.values, EntriesOf(after.tables.entries, r.id), RestartedSince(longer, s.name))
    {
      if Taken(d.mem, name) {
        OtherEntriesStay(d.tables, name, NO_FAULTS, r);
      }
    }
  }

  lemma SetKeepsKeys(d: Daemon, steps: seq<Step>, name: string, key: string, value: string)
    requires Consistent(d) && AllKeysAre(d, steps) && AllStored(d.mem)
    ensures AllKeysAre(WriteValue(d, name, key, value, false), steps + [Set(name, key, value, false)])
  {
    var after, step := WriteValue(d, name, key, value, false), Set(name, key, value, false);
    forall s, r | s in after.mem && r in after.tables.servers && s.name == r.name
      ensures KeysAre(s.values, EntriesOf(after.tables.entries, r.id), RestartedSince(steps + [step], s.name))
    {
      var i :| 0 <= i < |after.mem| && after.mem[i] == s;
      SetsRestartNothing(steps, step, s.name);
      KeysAfterWrite(d, i, r, name, Entry(key, value), RestartedSince(steps, s.name));
    }
  }

  lemma SetsRestartNothing(steps: seq<Step>, step: Step, name: string)
    requires step.Set?
    ensures RestartedSince(steps + [step], name) == RestartedSince(steps, name)
  {
    assert (steps + [step])[..|steps|] == steps;
  }

  lemma KeysAfterWrite(d: Daemon, i: int, r: ServerRow, name: string, e: Entry, restarted: bool)
    requires Consistent(d) && 0 <= i < |d.mem| && d.mem[i].stored
    requires r in d.tables.servers && r.name == d.mem[i].name
    requires KeysAre(d.mem[i].values, EntriesOf(d.tables.entries, r.id), restarted)
    ensures var after := WriteValue(d, name, e.key, e.value, false);
      KeysAre(after.mem[i].values, EntriesOf(after.tables.entries, r.id), restarted)
  {
    WrittenLog(d, r, name, e.key, e.value);
    WrittenKeys(d.mem, d.mem[i], EntriesOf(d.tables.entries, r.id), name, e, restarted);
  }

  lemma WrittenKeys(mem: Memory, s: Listed, log: seq<Entry>, name: string, e: Entry, restarted: bool)
    requires DistinctNames(mem) && s in mem && s.stored && KeysAre(s.values, log, restarted)
    ensures KeysAre(Write(s, name, e.key, e.value).values,
                    if s.name == name && Logs(mem, name, e.key, e.value) then log + [e] else log, restarted)
  {
    if s.name == name {
      LogsIff(mem, s, e.key, e.value);
      KeysOfLonger(log, e);
    }
  }

  lemma WrittenLog(d: Daemon, r: ServerRow, name: string, key: string, value: string)
    requires Consistent(d) && r in d.tables.servers
    ensures EntriesOf(WriteValue(d, name, key, value, false).tables.entries, r.id)
            == if r.name == name && Logs(d.mem, name, key, value)
               then EntriesOf(d.tables.entries, r.id) + [Entry(key, value)]
               else EntriesOf(d.tables.entries, r.id)
  {
    if Logs(d.mem, name, key, value) {
      EntriesAfterInsert(d.tables, IdOf(d.tables.servers, name), key, value, r.id);
      NamesSingleOutRows(d, r, name);
      assert EntriesOf(d.tables.entries, r.id) + [] == EntriesOf(d.tables.entries, r.id);
    }
  }

  lemma RestartKeepsKeys(d: Daemon, steps: seq<Step>)
    requires Consistent(d) && Next(d, Restart).Some?
    ensures AllKeysAre(Next(d, Restart).value, steps + [Restart])
  {
    var t := d.tables;
    MatchedRowsAreDistinct(d.mem, t.servers, t.entries);
    forall s, r | s in Restore(t.servers, t.entries).value && r in t.servers && s.name == r.name
      ensures KeysAre(s.values, EntriesOf(t.entries, r.id), true)
    {
      RestoredKeys(t.servers, t.entries, s, r);
    }
  }

  /** After every run without database failure, each configuration lists the defaults
    * and the keys of its rows, or, when a restart came since, the keys its rows fill.
    */
  lemma {:induction false} KeysAfterEveryRun(steps: seq<Step>)
    requires NoFailure(steps)
    ensures Run(steps).Some? && AllKeysAre(Run(steps).value, steps)
  {
    if steps == [] {
    } else {
      var k := |steps| - 1;
      KeysAfterEveryRun(steps[..k]);
      KeysAfterOneMore(steps[..k], steps[k]);
      assert steps == steps[..k] + [steps[k]];
    }
  }

  lemma KeysAfterOneMore(steps: seq<Step>, step: Step)
    requires NoFailure(steps + [step])
    requires Run(steps).Some? && AllKeysAre(Run(steps).value, steps)
    ensures Run(steps + [step]).Some? && AllKeysAre(Run(steps + [step]).value, steps + [step])
  {
    assert (steps + [step])[|steps|] == step && forall i :: 0 <= i < |steps| ==> (steps + [step])[i] == steps[i];
    RunsOfStored(steps);
    RunOneMore(steps, step);
    NextKeepsKeys(Run(steps).value, steps, step);
  }

  lemma RunsOfStored(steps: seq<Step>)
    requires NoFailure(steps)
    ensures Run(steps).Some?
    ensures var d := Run(steps).value; Consistent(d) && SameServers(d.mem, RecallAll(steps)) && AllStored(d.mem)
  {
    RestartsOnlyForgetTheUnstored(steps);
    RecallIgnoresRestarts(steps);
    AllStoredAlike(Run(steps).value.mem, RecallAll(steps));
  }

  lemma NextKeepsKeys(d: Daemon, steps: seq<Step>, step: Step)
    requires Consistent(d) && AllKeysAre(d, steps) && SameServers(d.mem, RecallAll(steps)) && AllStored(d.mem)
    requires Unfailing(step)
    ensures Next(d, step).Some? && AllKeysAre(Next(d, step).value, steps + [step])
  {
    match step
    case Add(path, name, tweaks, faults) => AddKeepsKeys(d, steps, path, name, tweaks);
    case Remove(name, _) => RemoveKeepsKeys(d, steps, name);
    case Set(name, key, value, _) => SetKeepsKeys(d, steps, name, key, value);
    case Restart =>
      NextKeepsConsistent(d, Restart);
      RestartKeepsKeys(d, steps);
  }

  lemma AllStoredAlike(a: Memory, b: Memory)
    requires SameServers(a, b) && AllStored(b)
    ensures AllStored(a)
  {
    assert forall i :: 0 <= i < |a| ==> Alike(a[i], b[i]);
  }

  // --------------------------------------------- the same run without its restarts

  lemma {:induction false} WithoutRestartsKeeps(steps: seq<Step>, x: Step)
    requires x in WithoutRestarts(steps)
    ensures x in steps && !x.Restart?
  {
    var init, last := steps[..|steps| - 1], steps[|steps| - 1];
    if x in WithoutRestarts(init) {
      WithoutRestartsKeeps(init, x);
    } else {
      assert x == last && !last.Restart?;
    }
  }

  lemma WithoutRestartsFailsNowhere(steps: seq<Step>)
    requires NoFailure(steps)
    ensures NoFailure(WithoutRestarts(steps))
  {
    forall i | 0 <= i < |WithoutRestarts(steps)| ensures Unfailing(WithoutRestarts(steps)[i]) {
      WithoutRestartsKeeps(steps, WithoutRestarts(steps)[i]);
    }
  }

  lemma {:induction false} NoRestartSince(steps: seq<Step>, name: string)
    requires forall x :: x in steps ==> !x.Restart?
    ensures !RestartedSince(steps, name)
  {
    if steps != [] {
      NoRestartSince(steps[..|steps| - 1], name);
    }
  }

  /** When the database does not fail, restarts leave no trace in it either. */
  lemma {:induction false} TablesIgnoreRestarts(steps: seq<Step>)
    requires NoFailure(steps)
    ensures Run(steps).Some? && Run(WithoutRestarts(steps)).Some?
    ensures Run(steps).value.tables == Run(WithoutRestarts(steps)).value.tables
  {
    RestartsAreInvisible(steps);
    if steps == [] {
    } else {
      var init, last := steps[..|steps| - 1], steps[|steps| - 1];
      TablesIgnoreRestarts(init);
      RestartsAreInvisible(init);
      var left := WithoutRestarts(init);
      assert left + [] == left;
      if !last.Restart? {
        RunOneMore(left, last);
        SameTables(Run(init).value, Run(left).value, last);
      }
    }
  }

  lemma SameTables(d: Daemon, e: Daemon, step: Step)
    requires SameServers(d.mem, e.mem) && d.tables == e.tables && !step.Restart?
    ensures Next(d, step).Some? && Next(e, step).Some? && Next(d, step).value.tables == Next(e, step).value.tables
  {
    assert forall i :: 0 <= i < |d.mem| ==> Alike(d.mem[i], e.mem[i]);
    match step
    case Add(_, name, _, _) => TakenAlike(d.mem, e.mem, name);
    case Remove(name, _) => TakenAlike(d.mem, e.mem, name);
    case Set(name, key, value, _) => LogsAlike(d.mem, e.mem, name, key, value);
  }

  lemma LogsAlike(a: Memory, b: Memory, name: string, key: string, value: string)
    requires SameServers(a, b)
    ensures Logs(a, name, key, value) <==> Logs(b, name, key, value)
  {
    assert forall i :: 0 <= i < |a| ==> Alike(a[i], b[i]);
  }

  /** When the database does not fail, a run lists the same keys for a server as the
    * same run without restarts exactly when no restart came since the server was
    * added, or each of the keys is a default or has a row that fills it.
    */
  lemma RestartsKeepKeysIff(steps: seq<Step>, s: Listed, t: Listed, r: ServerRow)
    requires NoFailure(steps) && Run(steps).Some? && Run(WithoutRestarts(steps)).Some?
    requires s in Run(steps).value.mem && t in Run(WithoutRestarts(steps)).value.mem
    requires r in Run(steps).value.tables.servers
    requires s.name == t.name == r.name
    ensures s.values.Keys <= t.values.Keys
    ensures s.values.Keys == t.values.Keys <==>
      || !RestartedSince(steps, s.name)
      || forall key :: key in t.values && key !in Defaults() ==>
           key in FilledKeys(EntriesOf(Run(steps).value.tables.entries, r.id))
  {
    var left, log := WithoutRestarts(steps), EntriesOf(Run(steps).value.tables.entries, r.id);
    WithoutRestartsFailsNowhere(steps);
    forall x | x in left ensures !x.Restart? {
      WithoutRestartsKeeps(steps, x);
    }
    NoRestartSince(left, s.name);
    KeysAfterEveryRun(steps);
    KeysAfterEveryRun(left);
    TablesIgnoreRestarts(steps);
    assert KeysAre(s.values, log, RestartedSince(steps, s.name));
    assert KeysAre(t.values, log, false);
    assert FilledKeys(log) <= LoggedKeys(log);
  }
}
