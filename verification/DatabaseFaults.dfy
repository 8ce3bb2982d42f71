/** What becomes of writes and deletes the database did not carry out: at the next
  * restart, and over whole runs.
  */
module DatabaseFaults {
  import opened Common
  import opened Configuration
  import opened Tables
  import opened Persistence
  import opened Keys
  import opened Copies

  /** A change whose row could not be written is undone. */
  lemma LostWritesAreUndone(d: Daemon, name: string, key: string, value: string)
    requires Consistent(d)
    ensures var after := WriteValue(d, name, key, value, true);
      && Next(after, Restart).Some?
      && SameServers(Next(after, Restart).value.mem, Stored(d.mem))
  {
    RestoreRecalls(d.mem, d.tables.servers, d.tables.entries);
  }

  predicate HasStored(mem: Memory, name: string) {
    exists s :: s in mem && s.stored && s.name == name
  }

  lemma FailedDeleteLeavesRows(d: Daemon, name: string, faults: DeleteFaults)
    requires Consistent(d) && Taken(d.mem, name)
    ensures var rows := RemoveServer(d, name, faults).tables.servers;
      && DistinctRows(rows)
      && ((exists r :: r in rows && r.name == name) <==> faults.rows && HasStored(d.mem, name))
  {
    var rows := d.tables.servers;
    MatchedRowsAreDistinct(d.mem, rows, d.tables.entries);
    RowNames(d.mem, rows, d.tables.entries, name);
    RowsAfterDelete(rows, name);
    DistinctAfterDelete(rows, name);
  }

  lemma {:induction false} DistinctAfterDelete(rows: seq<ServerRow>, name: string)
    requires DistinctRows(rows)
    ensures DistinctRows(RowsExcept(rows, name))
  {
    if rows == [] {
    } else {
      var init, last := rows[..|rows| - 1], rows[|rows| - 1];
      DistinctAfterDelete(init, name);
      RowsAfterDelete(init, name);
      var kept := RowsExcept(init, name);
      forall i | 0 <= i < |kept| ensures kept[i].name != last.name {
        assert kept[i] in kept && kept[i] in init;
      }
    }
  }

  /** A removed server comes back with the next restart exactly when it was stored and
    * its row could not be deleted.
    */
  lemma RemovedServerReturnsIff(d: Daemon, name: string, faults: DeleteFaults)
    requires Consistent(d) && Taken(d.mem, name)
    ensures Next(RemoveServer(d, name, faults), Restart).Some?
    ensures Taken(Next(RemoveServer(d, name, faults), Restart).value.mem, name)
            <==> faults.rows && HasStored(d.mem, name)
  {
    var t := RemoveServer(d, name, faults).tables;
    FailedDeleteLeavesRows(d, name, faults);
    RestoreSucceeds(t.servers, t.entries);
    RestoredNames(t.servers, t.entries, name);
  }

  lemma {:induction false} OthersRecover(disk: seq<Copy>, name: string, faults: DeleteFaults)
    ensures Without(Recovered(Deleted(disk, name, faults)), name) == Without(Recovered(disk), name)
  {
    if disk == [] {
    } else {
      var init, last := disk[..|disk| - 1], disk[|disk| - 1];
      assert disk == init + [last];
      OthersRecover(init, name, faults);
      OneMoreRecovers(init, last, name);
      DeletedOfLonger(init, last, name, faults);
      OneMoreRecovers(Deleted(init, name, faults), if faults.rows then Left(last, name, faults) else last, name);
    }
  }

  lemma OneMoreRecovers(disk: seq<Copy>, last: Copy, name: string)
    ensures Without(Recovered(disk + [last]), name)
            == Without(Recovered(disk), name)
               + if last.name != name then [Listed(last.path, last.name, last.values, true)] else []
  {
    RecoveredOfLonger(disk, last);
    WithoutOfLonger(Recovered(disk), Listed(last.path, last.name, last.values, true), name);
  }

  lemma RecoveredOfLonger(disk: seq<Copy>, last: Copy)
    ensures Recovered(disk + [last]) == Recovered(disk) + [Listed(last.path, last.name, last.values, true)]
  {
    assert (disk + [last])[..|disk|] == disk;
  }

  lemma WithoutOfLonger(mem: Memory, last: Listed, name: string)
    ensures Without(mem + [last], name) == Without(mem, name) + if last.name != name then [last] else []
  {
    assert (mem + [last])[..|mem|] == mem;
  }

  lemma {:induction false} RecoveredFrom(rows: seq<ServerRow>, entries: seq<EntryRow>, name: string,
                                         faults: DeleteFaults, t: Listed)
    requires t in Recovered(LeftOver(CopiesOf(rows, entries), name, faults))
    ensures exists r :: r in rows && IsBack(t, Left(CopyOf(r, entries), name, faults))
  {
    var init, last := rows[..|rows| - 1], rows[|rows| - 1];
    assert rows == init + [last];
    CopiesOfLonger(init, last, entries);
    var copies, c := CopiesOf(init, entries), CopyOf(last, entries);
    assert (copies + [c])[..|copies|] == copies;
    var left := LeftOver(copies, name, faults);
    RecoveredOfLonger(left, Left(c, name, faults));
    if t in Recovered(left) {
      RecoveredFrom(init, entries, name, faults, t);
    }
  }

  predicate IsBack(t: Listed, c: Copy) {
    t == Listed(c.path, c.name, c.values, true)
  }

  lemma BackAfterRemoval(d: Daemon, name: string, faults: DeleteFaults)
    requires Consistent(d) && Taken(d.mem, name)
    ensures Next(d, Restart).Some? && Next(RemoveServer(d, name, faults), Restart).Some?
    ensures var disk := CopiesOf(d.tables.servers, d.tables.entries);
      && Next(d, Restart).value.mem == Recovered(disk)
      && Next(RemoveServer(d, name, faults), Restart).value.mem == Recovered(Deleted(disk, name, faults))
  {
    var t, u := d.tables, RemoveServer(d, name, faults).tables;
    NextKeepsConsistent(d, Restart);
    RemovedServerReturnsIff(d, name, faults);
    DeletingAgrees(t, name, faults);
    RecoveredCopies(t.servers, t.entries);
    RecoveredCopies(u.servers, u.entries);
  }

  /** A removal leaves every other server to come back as it would without it,
    * whichever of its statements fail.
    */
  lemma OtherServersComeBack(d: Daemon, name: string, faults: DeleteFaults)
    requires Consistent(d) && Taken(d.mem, name)
    ensures Next(d, Restart).Some? && Next(RemoveServer(d, name, faults), Restart).Some?
    ensures Without(Next(RemoveServer(d, name, faults), Restart).value.mem, name)
            == Without(Next(d, Restart).value.mem, name)
  {
    BackAfterRemoval(d, name, faults);
    OthersRecover(CopiesOf(d.tables.servers, d.tables.entries), name, faults);
  }

  /** A server that returns has its path, and its values unless its entries were deleted. */
  lemma ReturnedServerCarries(d: Daemon, name: string, faults: DeleteFaults, s: Listed, r: ServerRow, t: Listed)
    requires Consistent(d) && s in d.mem && s.name == name && r in d.tables.servers && r.name == name
    requires Taken(d.mem, name) && faults.rows && Next(RemoveServer(d, name, faults), Restart).Some?
    requires t in Next(RemoveServer(d, name, faults), Restart).value.mem && t.name == name
    ensures t.path == s.path && t.stored
    ensures Same(t.values, if faults.select || r.id in faults.entries then s.values else Defaults())
  {
    var rows, entries := d.tables.servers, d.tables.entries;
    BackAfterRemoval(d, name, faults);
    RecoveredFrom(rows, entries, name, faults, t);
    MatchedRowsAreDistinct(d.mem, rows, entries);
    RowNames(d.mem, rows, entries, name);
    OneOfAName(d.mem, s);
    NamesakesAreMirrored(d.mem, rows, entries, s, r);
    forall q | q in rows && q.name == name ensures q == r {
      SameNameSameRow(rows, q, r);
    }
  }

  lemma OneOfAName(mem: Memory, s: Listed)
    requires DistinctNames(mem) && s in mem
    ensures forall x :: x in mem && x.name == s.name ==> x == s
  {
  }

  lemma RestoredNames(rows: seq<ServerRow>, entries: seq<EntryRow>, name: string)
    requires Restore(rows, entries).Some?
    ensures Taken(Restore(rows, entries).value, name) <==> exists r :: r in rows && r.name == name
  {
    RestoredServers(rows, entries);
    var mem := Restore(rows, entries).value;
    if i :| 0 <= i < |mem| && mem[i].name == name {
      assert rows[i] in rows;
    }
    if r :| r in rows && r.name == name {
      var i :| 0 <= i < |rows| && rows[i] == r;
      assert mem[i].name == name;
    }
  }

  /** When the name is then stored again, the next restart crashes in that very case:
    * `add` refuses the second row of the name, and its null result is dereferenced.
    */
  lemma AddingAgainCrashesIff(d: Daemon, name: string, faults: DeleteFaults, path: string, values: Values)
    requires Consistent(d) && Taken(d.mem, name)
    ensures var after := AddServer(RemoveServer(d, name, faults), path, name, values, {});
      && |after.mem| == |Without(d.mem, name)| + 1
      && (Next(after, Restart).None? <==> faults.rows && HasStored(d.mem, name))
  {
    var gone := RemoveServer(d, name, faults);
    NameIsFree(d.mem, name);
    AddedRow(gone, path, name, values);
    FailedDeleteLeavesRows(d, name, faults);
    var after := AddServer(gone, path, name, values, {});
    RestoreSucceeds(after.tables.servers, after.tables.entries);
    DistinctWithOneMore(gone.tables.servers, ServerRow(gone.tables.nextServer, path, name));
  }

  lemma NameIsFree(mem: Memory, name: string)
    ensures !Taken(Without(mem, name), name)
  {
    WithoutIsTheRest(mem, name);
    var left := Without(mem, name);
    assert forall i :: 0 <= i < |left| ==> left[i] in left;
  }

  lemma AddedRow(d: Daemon, path: string, name: string, values: Values)
    requires !Taken(d.mem, name)
    ensures var after := AddServer(d, path, name, values, {});
      && |after.mem| == |d.mem| + 1
      && after.tables.servers == d.tables.servers + [ServerRow(d.tables.nextServer, path, name)]
  {
    var log := Snapshot(Sorted(values.Keys), values);
    EntriesAfterInserts(WithServer(d.tables, path, name), d.tables.nextServer, log, 0);
  }

  // ------------------------------------------------------------------ every run

  /** What becomes of a name: whether a server of the name is listed, and how many
    * rows on disk carry it.
    */
  datatype Life = Life(listed: bool, rows: nat)

  function LifeAfter(life: Life, step: Step, name: string): Life {
    match step
    case Add(_, n, tweaks, faults) =>
      if n != name || life.listed then life
      else Life(true, life.rows + if Stores(|Sorted(Replay(Defaults(), tweaks).Keys)|, faults) then 1 else 0)
    case Remove(n, failing) =>
      if n != name || !life.listed then life else Life(false, if failing.rows then life.rows else 0)
    case Set(_, _, _, _) => life
    case Restart => Life(life.rows > 0, life.rows)
  }

  /** Read off the steps alone. */
  function LifeOf(steps: seq<Step>, name: string): Life {
    if steps == [] then Life(false, 0) else LifeAfter(LifeOf(steps[..|steps| - 1], name), steps[|steps| - 1], name)
  }

  function LifeIn(t: Twin, name: string): Life {
    Life(Taken(t.mem, name), Number(t.disk, name))
  }

  lemma TakenWithOneMore(mem: Memory, s: Listed, name: string)
    ensures Taken(mem + [s], name) <==> Taken(mem, name) || s.name == name
  {
    var more := mem + [s];
    assert more[|mem|] == s && forall i :: 0 <= i < |mem| ==> more[i] == mem[i];
  }

  lemma TakenWithout(mem: Memory, name: string, other: string)
    ensures Taken(Without(mem, name), other) <==> Taken(mem, other) && other != name
  {
    WithoutIsTheRest(mem, name);
    TakenIff(mem, other);
    TakenIff(Without(mem, name), other);
  }

  lemma TakenIff(mem: Memory, name: string)
    ensures Taken(mem, name) <==> exists s :: s in mem && s.name == name
  {
    if s :| s in mem && s.name == name {
      var i :| 0 <= i < |mem| && mem[i] == s;
    }
  }

  lemma {:induction false} NumberDeleted(disk: seq<Copy>, name: string, failing: DeleteFaults, other: string)
    ensures Number(Deleted(disk, name, failing), other)
            == if other == name && !failing.rows then 0 else Number(disk, other)
  {
    if disk == [] {
    } else {
      var init, last := disk[..|disk| - 1], disk[|disk| - 1];
      assert disk == init + [last];
      NumberDeleted(init, name, failing, other);
      DeletedOfLonger(init, last, name, failing);
      NumberOfLonger(Deleted(init, name, failing), if failing.rows then Left(last, name, failing) else last, other);
    }
  }

  lemma {:induction false} NumberWritten(disk: seq<Copy>, name: string, key: string, value: string, other: string)
    ensures Number(WriteFirst(disk, name, key, value), other) == Number(disk, other)
  {
    if disk == [] {
    } else {
      var init, last := disk[..|disk| - 1], disk[|disk| - 1];
      NumberWritten(init, name, key, value, other);
      var written := WriteFirst(init, name, key, value);
      assert (written + [last])[..|written|] == written;
    }
  }

  lemma {:induction false} NumberRecovered(disk: seq<Copy>, name: string)
    ensures Taken(Recovered(disk), name) <==> Number(disk, name) > 0
  {
    if disk == [] {
    } else {
      var init, last := disk[..|disk| - 1], disk[|disk| - 1];
      NumberRecovered(init, name);
      TakenWithOneMore(Recovered(init), Listed(last.path, last.name, last.values, true), name);
    }
  }

  lemma NextLife(t: Twin, step: Step, name: string)
    requires TwinNext(t, step).Some?
    ensures LifeIn(TwinNext(t, step).value, name) == LifeAfter(LifeIn(t, name), step, name)
  {
    match step
    case Add(path, n, tweaks, faults) =>
      var values := Replay(Defaults(), tweaks);
      TakenWithOneMore(t.mem, Listed(path, n, values, Stores(|Sorted(values.Keys)|, faults)), name);
      assert (t.disk + [Copy(t.nextId, path, n, Kept(values))])[..|t.disk|] == t.disk;
    case Remove(n, failing) =>
      TakenWithout(t.mem, n, name);
      NumberDeleted(t.disk, n, failing, name);
    case Set(n, key, value, _) =>
      NumberWritten(t.disk, n, key, value, name);
    case Restart =>
      NumberRecovered(t.disk, name);
  }

  lemma {:induction false} LivesOfRuns(steps: seq<Step>, name: string)
    requires TwinRun(steps).Some?
    ensures LifeIn(TwinRun(steps).value, name) == LifeOf(steps, name)
  {
    if steps == [] {
    } else {
      var init, last := steps[..|steps| - 1], steps[|steps| - 1];
      LivesOfRuns(init, name);
      NextLife(TwinRun(init).value, last, name);
    }
  }

  /** Whatever fails, a run that has not crashed lists the names, and has the rows, that
    * can be counted from its steps.
    */
  lemma NamesAfterEveryRun(steps: seq<Step>, name: string)
    requires Run(steps).Some?
    ensures var d := Run(steps).value;
      LifeOf(steps, name) == Life(Taken(d.mem, name), Number(CopiesOf(d.tables.servers, d.tables.entries), name))
  {
    RunsKeepCopies(steps);
    LivesOfRuns(steps, name);
  }

  /** A restart after these steps meets two rows of a name. */
  ghost predicate Doubled(steps: seq<Step>, k: nat, name: string) {
    k < |steps| && steps[k].Restart? && LifeOf(steps[..k], name).rows > 1
  }

  /** A run crashes exactly when one of its restarts comes while some name has more
    * than one row: its server was removed, its row stayed, and a server of the name
    * was stored again.
    */
  lemma {:induction false} RunsCrashIff(steps: seq<Step>)
    ensures Run(steps).None? <==> exists k, name :: Doubled(steps, k, name)
  {
    if steps == [] {
    } else {
      var init := steps[..|steps| - 1];
      RunsCrashIff(init);
      forall k, name
        ensures Doubled(steps, k, name) <==> Doubled(init, k, name) || (k == |init| && Doubled(steps, k, name))
      {
        DoubledBefore(steps, k, name);
      }
      RunsKeepCopies(init);
      if Run(init).Some? {
        LastStepCrashesIff(steps, |init|);
      }
    }
  }

  lemma DoubledBefore(steps: seq<Step>, k: nat, name: string)
    requires steps != []
    ensures Doubled(steps, k, name) <==>
            Doubled(steps[..|steps| - 1], k, name) || (k == |steps| - 1 && Doubled(steps, k, name))
  {
    if k < |steps| - 1 {
      assert steps[..|steps| - 1][..k] == steps[..k];
    }
  }

  lemma LastStepCrashesIff(steps: seq<Step>, k: nat)
    requires |steps| == k + 1 && Run(steps[..k]).Some? && TwinRun(steps[..k]).Some?
    ensures Run(steps).None? <==> exists name :: Doubled(steps, k, name)
  {
    var t := TwinRun(steps[..k]).value;
    RunsKeepCopies(steps);
    forall name ensures Doubled(steps, k, name) <==> steps[k].Restart? && Number(t.disk, name) > 1 {
      LivesOfRuns(steps[..k], name);
    }
    assert TwinRun(steps) == TwinNext(t, steps[k]);
  }

  // ------------------------------------------------------------------ short runs

  const ROWS_STAY := DeleteFaults(false, {}, true)

  lemma LifeOfOneMore(steps: seq<Step>, step: Step, name: string)
    ensures LifeOf(steps + [step], name) == LifeAfter(LifeOf(steps, name), step, name)
  {
    assert (steps + [step])[..|steps|] == steps;
  }

  /** A server that was added and removed, while its row stayed. */
  lemma AddedAndRemoved(path: string, name: string, other: string) returns (steps: seq<Step>)
    ensures steps == [Add(path, name, [], {}), Remove(name, ROWS_STAY)]
    ensures LifeOf(steps, other) == Life(false, if other == name then 1 else 0)
  {
    LifeOfOneMore([], Add(path, name, [], {}), other);
    LifeOfOneMore([] + [Add(path, name, [], {})], Remove(name, ROWS_STAY), other);
    steps := [] + [Add(path, name, [], {})] + [Remove(name, ROWS_STAY)];
  }

  /** It is listed again after a restart. */
  lemma ARemovedServerReturns(path: string, name: string)
    ensures var steps := [Add(path, name, [], {}), Remove(name, ROWS_STAY)];
      && Run(steps).Some? && !Taken(Run(steps).value.mem, name)
      && Run(steps + [Restart]).Some? && Taken(Run(steps + [Restart]).value.mem, name)
  {
    var steps := AddedAndRemoved(path, name, name);
    var longer := steps + [Restart];
    LifeOfOneMore(steps, Restart, name);
    forall k: nat, other ensures !Doubled(steps, k, other) && !Doubled(longer, k, other) {
      var _ := AddedAndRemoved(path, name, other);
      assert longer[..2] == steps;
    }
    RunsCrashIff(steps);
    RunsCrashIff(longer);
    NamesAfterEveryRun(steps, name);
    NamesAfterEveryRun(longer, name);
  }

  /** And when the name is stored again before, that restart crashes. */
  lemma ADoubledNameCrashes(path: string, name: string)
    ensures Run([Add(path, name, [], {}), Remove(name, ROWS_STAY), Add(path, name, [], {}), Restart]).None?
  {
    var steps := AddedAndRemoved(path, name, name);
    LifeOfOneMore(steps, Add(path, name, [], {}), name);
    var run := steps + [Add(path, name, [], {})] + [Restart];
    assert run[..3] == steps + [Add(path, name, [], {})];
    assert Doubled(run, 3, name);
    RunsCrashIff(run);
    assert run == [Add(path, name, [], {}), Remove(name, ROWS_STAY), Add(path, name, [], {}), Restart];
  }
}
