/** The daemon's objects at work, from their making on. */
module Lifecycle {
  import opened Common
  import opened Servers
  import opened StatusObjects
  import opened DatabaseObjects
  import opened Supervision
  import C = Configuration
  import K = Coordinator
  import P = Persistence
  import R = Runs
  import S = Surprises
  import T = Tables
  import W = World

  /** The loop has one server, with all its supervision, and the run has numbered it 0. */
  ghost predicate Runs(loop: EventLoop, server: Server)
    reads *
  {
    && loop.Valid() && loop.serverManager.servers == [server]
    && server.coordinator != null && server.status != null
    && server in loop.numbers && loop.numbers[server] == 0
  }

  lemma TheOnlyServer(loop: EventLoop, server: Server, w: W.World)
    requires loop.Valid() && R.Run(loop.history) == Some(w) && loop.serverManager.servers == [server]
    ensures w.order == [loop.numbers[server]] && server.valid == (server.coordinator != null)
    ensures server.coordinator != null ==> server.Wired() && w.units[loop.numbers[server]].core == server.Core()
  {
    assert loop.serverManager.servers[0] == server;
    assert ListAgrees(loop.serverManager.servers, loop.numbers, w);
    if server.coordinator != null {
      assert CoreAgrees(server, loop.numbers[server], w);
    }
  }

  method Add() returns (loop: EventLoop, server: Server)
    ensures fresh(loop) && fresh(loop.serverManager) && fresh(server)
    ensures Runs(loop, server) && fresh(server.coordinator) && fresh(server.coordinator.tmux) && fresh(server.status)
    ensures loop.history == [W.AddServer(S.PATH, true)] && loop.serverManager.gameServers == map[]
    ensures server.path == S.PATH && server.UserFor("u") == "u"
  {
    var manager := new ServerManager();
    loop := new EventLoop(manager);
    var added := loop.AddServer(S.PATH, "tf2", true, {});
    server := added;
    ghost var w := S.AfterAdd();
    TheOnlyServer(loop, server, w);
    C.DefaultsRead();
  }

  method Start(loop: EventLoop, server: Server)
    requires Runs(loop, server) && server.UserFor("u") == "u"
    modifies loop, server`starters, server.coordinator, server.status, server.Tmux()
    ensures Runs(loop, server) && loop.history == old(loop.history) + [W.StartServer(0, "u", S.FINE)]
    ensures loop.serverManager.gameServers == old(loop.serverManager.gameServers)
  {
    loop.StartServer(server, "u", S.FINE);
  }

  /** The game server connects, and the server is running. */
  method Connect(loop: EventLoop, server: Server) returns (gs: GameServer)
    requires Runs(loop, server) && server.path == S.PATH && loop.serverManager.gameServers == map[]
    requires loop.history == [W.AddServer(S.PATH, true), W.StartServer(0, "u", S.FINE)]
    modifies loop, loop.serverManager, server, server.coordinator, server.status
    ensures Runs(loop, server) && fresh(gs) && server.coordinator.state == K.Running
    ensures loop.history == [W.AddServer(S.PATH, true), W.StartServer(0, "u", S.FINE), S.ONLINE]
    ensures loop.serverManager.gameServers == map[gs := server]
  {
    FirstOfOne(server, S.PATH);
    gs := loop.GameServerConnects(S.PATH, 24, "192.0.2.1:27015", "cp_badlands", map[], []);
    assert loop.history == [W.AddServer(S.PATH, true), W.StartServer(0, "u", S.FINE), S.ONLINE];
    ghost var w, core, r := S.ARunningServer();
    TheOnlyServer(loop, server, w);
  }

  lemma FirstOfOne(server: Server, path: string)
    requires server.path == path
    ensures ServerAt([server], path) == server
  {
    assert IsFirstAt([server], path, 0);
  }

  /** It is told to stop. */
  method Stop(loop: EventLoop, server: Server, gs: GameServer)
    requires Runs(loop, server) && loop.serverManager.gameServers == map[gs := server]
    requires loop.history == [W.AddServer(S.PATH, true), W.StartServer(0, "u", S.FINE), S.ONLINE]
    modifies loop, server.coordinator, server.status
    ensures Runs(loop, server) && loop.serverManager.gameServers == map[gs := server]
    ensures loop.history == [W.AddServer(S.PATH, true), W.StartServer(0, "u", S.FINE), S.ONLINE, W.StopServer(0)]
  {
    loop.StopServer(server, S.YES);
    assert loop.history == [W.AddServer(S.PATH, true), W.StartServer(0, "u", S.FINE), S.ONLINE, W.StopServer(0)];
  }

  /** Its game server says goodbye, and the session is gone. */
  method Quit(loop: EventLoop, server: Server, gs: GameServer)
    requires Runs(loop, server) && loop.serverManager.gameServers == map[gs := server]
    requires loop.history == [W.AddServer(S.PATH, true), W.StartServer(0, "u", S.FINE), S.ONLINE, W.StopServer(0)]
    modifies loop, loop.serverManager, server.coordinator, server.status, server.Tmux()
    ensures Runs(loop, server) && loop.serverManager.gameServers == map[]
    ensures server.coordinator.state == K.Offline && server.coordinator.tmux.sessions == {}
  {
    TheOnlyGameServer(loop, server, gs);
    loop.GameServerQuits(gs, [S.YES]);
    assert loop.history == [W.AddServer(S.PATH, true), W.StartServer(0, "u", S.FINE), S.ONLINE, W.StopServer(0),
                            W.AboutToQuit(0, [S.YES])];
    ghost var w := S.AStoppedServer();
    TheOnlyServer(loop, server, w);
  }

  lemma TheOnlyGameServer(loop: EventLoop, server: Server, gs: GameServer)
    requires Runs(loop, server) && loop.serverManager.gameServers == map[gs := server]
    requires loop.history == [W.AddServer(S.PATH, true), W.StartServer(0, "u", S.FINE), S.ONLINE, W.StopServer(0)]
    ensures gs.handle == 0 && loop.serverManager.Hearer(gs) == server && loop.Connections(gs) == 1
  {
    var w, core, r := S.AStoppingServer();
    TheOnlyServer(loop, server, w);
    assert RegistryAgrees(loop.serverManager.gameServers, loop.serverManager.servers, loop.numbers, w);
    assert gs in loop.serverManager.gameServers && server in loop.serverManager.servers;
  }

  /** The whole life of a server, with nothing given but the daemon's objects. */
  method WholeLife() returns (loop: EventLoop, server: Server)
    ensures fresh(loop) && Runs(loop, server) && loop.serverManager.gameServers == map[]
    ensures server.coordinator.state == K.Offline && server.coordinator.tmux.sessions == {}
  {
    loop, server := Add();
    Start(loop, server);
    assert loop.history == [W.AddServer(S.PATH, true), W.StartServer(0, "u", S.FINE)];
    var gs := Connect(loop, server);
    Stop(loop, server, gs);
    Quit(loop, server, gs);
  }

  // -------------------------------------------------------------------- restarts

  lemma RecallsTheWrite(steps: seq<P.Step>, name: string, key: string, value: string) returns (all: seq<P.Step>)
    requires P.NoFailure(steps)
    ensures all == steps + [P.Set(name, key, value, false)] + [P.Restart] && P.NoFailure(all)
    ensures P.RecallAll(all) == P.Written(P.RecallAll(steps), name, key, value)
  {
    var written := steps + [P.Set(name, key, value, false)];
    all := written + [P.Restart];
    assert written[..|steps|] == steps && all[..|written|] == written;
    P.RecallIgnoresRestarts(written);
    P.StoredOfAllStored(P.RecallAll(written), "");
  }

  lemma WrittenReads(start: P.Memory, before: P.Memory, end: P.Memory, name: string, key: string, value: string)
    requires P.SameServers(start, before) && P.SameServers(end, P.Written(before, name, key, value))
    ensures P.Taken(start, name) ==> P.Taken(end, name)
    ensures forall s :: s in end && s.name == name ==> C.Value(s.values, key) == value
  {
    var after := P.Written(before, name, key, value);
    assert forall i :: 0 <= i < |end| ==> P.Alike(start[i], before[i]) && P.Alike(end[i], after[i]);
    assert forall i :: 0 <= i < |end| ==> end[i].name == start[i].name;
  }

  lemma WrittenSurvives(steps: seq<P.Step>, name: string, key: string, value: string)
    requires P.NoFailure(steps) && P.Run(steps).Some? && P.Taken(P.Run(steps).value.mem, name)
    ensures var all := steps + [P.Set(name, key, value, false)] + [P.Restart];
      && P.NoFailure(all) && P.Run(all).Some? && P.Taken(P.Run(all).value.mem, name)
      && forall s :: s in P.Run(all).value.mem && s.name == name ==> C.Value(s.values, key) == value
  {
    var all := RecallsTheWrite(steps, name, key, value);
    P.RestartsOnlyForgetTheUnstored(steps);
    P.RestartsOnlyForgetTheUnstored(all);
    WrittenReads(P.Run(steps).value.mem, P.RecallAll(steps), P.Run(all).value.mem, name, key, value);
  }

  /** A value written through a listed server is there after a restart, in new objects. */
  method WriteAndRestart(daemon: MorgothDaemon, name: string, key: string, value: string, installed: string -> bool)
    requires daemon.Valid() && P.NoFailure(daemon.history) && P.Taken(daemon.View().mem, name)
    modifies daemon, daemon.database, set s | s in daemon.serverManager.servers :: s.configuration
    ensures daemon.Valid() && P.NoFailure(daemon.history) && P.Taken(daemon.View().mem, name)
    ensures fresh(daemon.serverManager)
    ensures forall s :: s in daemon.serverManager.servers ==> fresh(s) && fresh(s.configuration)
    ensures forall s :: s in daemon.serverManager.servers && s.name == name ==>
      C.Value(s.configuration.values, key) == value
  {
    ghost var history := daemon.history;
    ListViewNames(daemon.serverManager.servers, name);
    var server := daemon.serverManager.Find(name);
    if server != null {
      daemon.SetValue(server, key, value, false);
      var ok := daemon.Restart(installed);
      WrittenSurvives(history, name, key, value);
    }
  }

  /** So values outlive the daemon, with nothing given but an empty database. */
  method KeepAcrossRestarts(database: Database, installed: string -> bool) returns (daemon: MorgothDaemon)
    requires database.View() == T.Empty()
    modifies database
    ensures fresh(daemon) && daemon.Valid()
    ensures forall s :: s in daemon.serverManager.servers && s.name == "tf2" ==>
      C.Value(s.configuration.values, "key") == "two"
    ensures P.Taken(daemon.View().mem, "tf2")
  {
    daemon := new MorgothDaemon(database);
    var ok := daemon.AddServer(S.PATH, "tf2", true, [], {});
    AddedIsTaken(daemon.history, S.PATH, "tf2");
    WriteAndRestart(daemon, "tf2", "key", "one", installed);
    WriteAndRestart(daemon, "tf2", "key", "two", installed);
  }

  lemma AddedIsTaken(steps: seq<P.Step>, path: string, name: string)
    requires steps == [P.Add(path, name, [], {})]
    ensures P.NoFailure(steps) && P.Run(steps).Some? && P.Taken(P.Run(steps).value.mem, name)
  {
    P.RestartsOnlyForgetTheUnstored(steps);
    assert steps[..0] == [] && P.RecallAll(steps)[0].name == name;
    assert P.Alike(P.Run(steps).value.mem[0], P.RecallAll(steps)[0]);
  }
}
