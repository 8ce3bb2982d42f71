/** The SQLite database: two tables, with statements that may fail and a
  * transaction that can be rolled back.
  */
module DatabaseObjects {
  import opened Common
  import T = Tables

  class Database {
    var servers: seq<T.ServerRow>
    var entries: seq<T.EntryRow>
    var nextServer: nat
    var nextEntry: nat
    /** What a rollback returns to. */
    var saved: T.Tables

    ghost function View(): T.Tables
      reads this
    {
      T.Tables(servers, entries, nextServer, nextEntry)
    }

    constructor ()
      ensures View() == T.Empty()
    {
      servers, entries, nextServer, nextEntry := [], [], 1, 1;
      saved := T.Empty();
    }

    method Transaction()
      modifies this
      ensures View() == old(View()) && saved == old(View())
    {
      saved := T.Tables(servers, entries, nextServer, nextEntry);
    }

    method Rollback()
      modifies this
      ensures View() == old(saved)
    {
      servers, entries, nextServer, nextEntry := saved.servers, saved.entries, saved.nextServer, saved.nextEntry;
    }

    method InsertServer(path: string, name: string, fails: bool) returns (id: Option<nat>)
      modifies this
      ensures saved == old(saved)
      ensures fails ==> id.None? && View() == old(View())
      ensures !fails ==> id == Some(old(nextServer)) && View() == T.WithServer(old(View()), path, name)
    {
      if fails {
        return None;
      }
      id := Some(nextServer);
      servers := servers + [T.ServerRow(nextServer, path, name)];
      nextServer := nextServer + 1;
    }

    method InsertEntry(serverId: Option<nat>, key: string, value: string, fails: bool) returns (ok: bool)
      modifies this
      ensures saved == old(saved) && ok == !fails
      ensures View() == if fails then old(View()) else T.WithEntry(old(View()), serverId, key, value)
    {
      if fails {
        return false;
      }
      entries := entries + [T.EntryRow(nextEntry, serverId, key, value)];
      nextEntry := nextEntry + 1;
      ok := true;
    }

    method DeleteEntriesOf(id: nat, fails: bool)
      modifies this
      ensures View() == if fails then old(View()) else old(View()).(entries := T.EntriesExcept(old(entries), {id}))
    {
      if !fails {
        entries := T.EntriesExcept(entries, {id});
      }
    }

    method DeleteServersNamed(name: string, fails: bool)
      modifies this
      ensures View() == if fails then old(View()) else old(View()).(servers := T.RowsExcept(old(servers), name))
    {
      if !fails {
        servers := T.RowsExcept(servers, name);
      }
    }
  }
}
