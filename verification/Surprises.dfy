/** Short runs of one server in which the daemon does what one might not expect. */
module Surprises {
  import opened Common
  import opened Tmux
  import opened Status
  import opened Mirror
  import opened Coordinator
  import opened World
  import opened Runs

  const YES := Reply(false, true, true)
  const NO := Reply(false, false, false)
  const FINE := StartReplies(false, YES, true, YES, YES, YES)
  const PATH := "/srv/tf2"

  /** The game server that comes online. */
  const REMOTE := Connected(PATH, 24, "192.0.2.1:27015", "cp_badlands", map[])
  const ONLINE := Connect(PATH, 24, "192.0.2.1:27015", "cp_badlands", map[], [])

  // ------------------------------------------------------------------ single steps

  /** Server 0 is alone, without a game server. */
  predicate Lone(w: World, core: Core) {
    && w.order == [0] && w.units.Keys == {0} && w.units[0].path == PATH && w.units[0].core == core && core.valid
    && w.registry == map[] && w.remotes == map[] && w.nextGameServer == 0
  }

  /** Game server 0 is registered for server 0. */
  predicate Pair(w: World, core: Core, r: Remote) {
    && w.order == [0] && w.units.Keys == {0} && w.units[0].path == PATH && w.units[0].core == core && core.valid
    && w.registry == map[0 := 0] && w.remotes == map[0 := r]
  }

  lemma AfterAdd() returns (w: World)
    ensures Run([AddServer(PATH, true)]) == Some(w) && Lone(w, NewCore(true, true)) && w.nextStarter == 0
  {
    assert Run([]) == Some(INIT);
    RunGrows([], AddServer(PATH, true));
    assert [] + [AddServer(PATH, true)] == [AddServer(PATH, true)];
    w := Next(INIT, AddServer(PATH, true));
  }

  lemma AfterStart(events: seq<Event>, w: World, core: Core, user: string, r: StartReplies) returns (v: World)
    requires Run(events) == Some(w) && Lone(w, core)
    ensures Run(events + [StartServer(0, user, r)]) == Some(v) && Lone(v, Start(core, w.nextStarter, user, r))
  {
    RunGrows(events, StartServer(0, user, r));
    v := Next(w, StartServer(0, user, r));
  }

  lemma AfterConnect(events: seq<Event>, w: World, core: Core) returns (v: World)
    requires Run(events) == Some(w) && Lone(w, core)
    ensures Run(events + [ONLINE]) == Some(v)
    ensures var (d, q) := Online(core, 0, REMOTE, []); d.valid ==> Pair(v, d, q)
  {
    RunGrows(events, ONLINE);
    v := Register(w, REMOTE, []);
    Greeting(w, core, REMOTE);
  }

  lemma Greeting(w: World, core: Core, r: Remote)
    requires Lone(w, core) && r.location == PATH
    ensures Listed(w)
    ensures var (d, q) := Online(core, 0, r, []); d.valid ==> Pair(Register(w, r, []), d, q)
  {
    assert w.order[..0] == [];
    assert FirstAt(w.order, w.units, PATH) == Some(0);
    assert Register(w, r, []) == Greet(w, 0, r, []);
  }

  lemma AfterQuit(events: seq<Event>, w: World, core: Core, r: Remote, kills: seq<Reply>) returns (v: World)
    requires Run(events) == Some(w) && Pair(w, core, r) && |kills| == core.quits[0]
    ensures Run(events + [AboutToQuit(0, kills)]) == Some(v) && Lone(v.(nextGameServer := 0), Quit(core, 0, kills))
  {
    QuitCallsStayValid(core, kills);
    RunGrows(events, AboutToQuit(0, kills));
    v := Next(w, AboutToQuit(0, kills));
  }

  lemma AfterStop(events: seq<Event>, w: World, core: Core, r: Remote) returns (v: World)
    requires Run(events) == Some(w) && Pair(w, core, r)
    ensures Run(events + [StopServer(0)]) == Some(v) && Pair(v, Stop(core), r)
  {
    RunGrows(events, StopServer(0));
    v := Next(w, StopServer(0));
  }

  lemma AfterChange(events: seq<Event>, w: World, core: Core, r: Remote, change: Change) returns (v: World)
    requires Run(events) == Some(w) && Pair(w, core, r)
    ensures Run(events + [RemoteChange(0, change)]) == Some(v) && Pair(v, core, Happen(r, change))
  {
    RunGrows(events, RemoteChange(0, change));
    v := Next(w, RemoteChange(0, change));
  }

  lemma AfterArrival(events: seq<Event>, w: World, core: Core, r: Remote, id: int, name: string, steamId: nat)
    returns (v: World)
    requires Run(events) == Some(w) && Pair(w, core, r) && r.queue == [PlayerConnected(id)]
    ensures Run(events + [Delivery(0, name, steamId)]) == Some(v)
    ensures Pair(v, core.(status := AddPlayer(core.status, Player(id, name, steamId))), r.(queue := []))
  {
    RunGrows(events, Delivery(0, name, steamId));
    v := Next(w, Delivery(0, name, steamId));
    assert r.queue[1..] == [];
  }

  /** A player joins, and the status hears of it. */
  lemma AfterJoin(events: seq<Event>, w: World, core: Core, r: Remote, name: string, steamId: nat) returns (v: World)
    requires Run(events) == Some(w) && Pair(w, core, r) && r.queue == [] && r.playersHooked
    ensures Run(events + [RemoteChange(0, Join(7)), Delivery(0, name, steamId)]) == Some(v)
    ensures Pair(v, core.(status := AddPlayer(core.status, Player(7, name, steamId))), r)
  {
    var u := AfterChange(events, w, core, r, Join(7));
    v := AfterArrival(events + [RemoteChange(0, Join(7))], u, core, Happen(r, Join(7)), 7, name, steamId);
    assert events + [RemoteChange(0, Join(7))] + [Delivery(0, name, steamId)]
        == events + [RemoteChange(0, Join(7)), Delivery(0, name, steamId)];
  }

  // ------------------------------------------------------------------------- runs

  /** A user that cannot be resolved leaves a crashed server with its session. */
  lemma ACrashedServerKeepsItsSession()
    ensures var events := [AddServer(PATH, true), StartServer(0, "u", FINE.(userKnown := false))];
      && Run(events).Some? && 0 in Run(events).value.units
      && var c := Run(events).value.units[0].core;
         c.state == Crashed && c.error == UnableToResolveUser && c.tmux.alive == {"u"} && !c.tmux.killFailed
  {
    var w := AfterAdd();
    var v := AfterStart([AddServer(PATH, true)], w, NewCore(true, true), "u", FINE.(userKnown := false));
    assert [AddServer(PATH, true)] + [StartServer(0, "u", FINE.(userKnown := false))]
        == [AddServer(PATH, true), StartServer(0, "u", FINE.(userKnown := false))];
  }

  /** A server that was started without trouble and whose game server came online. */
  lemma ARunningServer() returns (w: World, core: Core, r: Remote)
    ensures Run([AddServer(PATH, true), StartServer(0, "u", FINE), ONLINE]) == Some(w) && Pair(w, core, r)
    ensures core.state == Running && core.quits == multiset{0} && core.armed == []
    ensures core.tmux == Session("u", {"u"}, false)
    ensures core.status == Blank(core.status.resets) && r.queue == [] && r.playersHooked && r.map_ == "cp_badlands"
  {
    var w0 := AfterAdd();
    var w1 := AfterStart([AddServer(PATH, true)], w0, NewCore(true, true), "u", FINE);
    var c := Start(NewCore(true, true), 0, "u", FINE);
    var events := [AddServer(PATH, true)] + [StartServer(0, "u", FINE)];
    assert events + [ONLINE] == [AddServer(PATH, true), StartServer(0, "u", FINE), ONLINE];
    w := AfterConnect(events, w1, c);
    FineStart(c);
    core, r := MeetingTheStarter(c);
  }

  lemma FineStart(c: Core)
    requires c == Start(NewCore(true, true), 0, "u", FINE)
    ensures c.valid && c.armed == [0] && c.quits == multiset{} && c.tmux == Session("u", {"u"}, false)
    ensures c.state == Starting
  {
  }

  lemma MeetingTheStarter(c: Core) returns (core: Core, r: Remote)
    requires c.valid && c.armed == [0] && c.quits == multiset{} && c.tmux == Session("u", {"u"}, false)
    ensures (core, r) == Online(c, 0, REMOTE, []) && core.valid
    ensures core.state == Running && core.quits == multiset{0} && core.armed == [] && core.tmux == c.tmux
    ensures core.status == Blank(core.status.resets) && r.queue == [] && r.playersHooked && r.map_ == "cp_badlands"
  {
    QuietTracking(c.status, REMOTE);
    core, r := MeetingOneStarter(c, REMOTE);
  }

  lemma MeetingOneStarter(c: Core, remote: Remote) returns (core: Core, r: Remote)
    requires c.armed == [0] && c.quits == multiset{}
    ensures (core, r) == Online(c, 0, remote, []) && r == Track(c.status, remote, []).1
    ensures core.valid == c.valid && core.state == Running && core.quits == multiset{0} && core.armed == []
    ensures core.tmux == c.tmux && core.status == Blank(core.status.resets)
  {
    ResolvingEndsRunning(c.(status := Track(c.status, remote, []).0), 0, 1);
    core, r := Online(c, 0, remote, []).0, Track(c.status, remote, []).1;
    assert multiset{}[0 := 1] == multiset{0};
  }

  /** A running server that was told to stop. */
  lemma AStoppingServer() returns (w: World, core: Core, r: Remote)
    ensures Run([AddServer(PATH, true), StartServer(0, "u", FINE), ONLINE, StopServer(0)]) == Some(w)
    ensures Pair(w, core, r)
    ensures core.quits == multiset{0} && core.tmux == Session("u", {"u"}, false)
  {
    var w0, running, r0 := ARunningServer();
    var events := [AddServer(PATH, true), StartServer(0, "u", FINE), ONLINE];
    w := AfterStop(events, w0, running, r0);
    assert events + [StopServer(0)] == [AddServer(PATH, true), StartServer(0, "u", FINE), ONLINE, StopServer(0)];
    core, r := Stop(running), r0;
  }

  /** And whose game server has quit. */
  lemma AStoppedServer() returns (w: World)
    ensures var events := [AddServer(PATH, true), StartServer(0, "u", FINE), ONLINE, StopServer(0),
                           AboutToQuit(0, [YES])];
      Run(events) == Some(w)
    ensures w.order == [0] && w.units.Keys == {0} && w.registry == map[]
    ensures w.units[0].core.valid && w.units[0].core.state == Offline && w.units[0].core.tmux.alive == {}
  {
    var w0, core, r := AStoppingServer();
    var events := [AddServer(PATH, true), StartServer(0, "u", FINE), ONLINE, StopServer(0)];
    w := AfterQuit(events, w0, core, r, [YES]);
    assert events + [AboutToQuit(0, [YES])]
        == [AddServer(PATH, true), StartServer(0, "u", FINE), ONLINE, StopServer(0), AboutToQuit(0, [YES])];
    assert [YES][..0] == [] && QuitCalls(core, [YES]) == OnStopped(core, YES);
  }

  /** A game server that no starter waits for. */
  lemma AStranger(events: seq<Event>, w: World, c: Core) returns (v: World, core: Core, r: Remote)
    requires Run(events) == Some(w) && Lone(w, c) && c.armed == [] && c.quits == multiset{} && c.status.players == []
    ensures Run(events + [ONLINE]) == Some(v) && Pair(v, core, r)
    ensures core.quits == multiset{} && core.status.players == [] && r.queue == [] && r.playersHooked
  {
    v := AfterConnect(events, w, c);
    QuietTracking(c.status, REMOTE);
    TrackKeepsTheRest(c.status, REMOTE, []);
    core, r := Online(c, 0, REMOTE, []).0, Track(c.status, REMOTE, []).1;
  }

  /** A failing kill leaves an offline server with its session. */
  lemma AnOfflineServerKeepsItsSession()
    ensures var events := [AddServer(PATH, true), StartServer(0, "u", FINE), ONLINE, AboutToQuit(0, [NO])];
      && Run(events).Some? && 0 in Run(events).value.units
      && var c := Run(events).value.units[0].core;
         c.state == Offline && c.tmux.alive == {"u"} && c.tmux.killFailed
  {
    var w, core, r := ARunningServer();
    var events := [AddServer(PATH, true), StartServer(0, "u", FINE), ONLINE];
    assert events + [AboutToQuit(0, [NO])]
      == [AddServer(PATH, true), StartServer(0, "u", FINE), ONLINE, AboutToQuit(0, [NO])];
    var v := AfterQuit(events, w, core, r, [NO]);
    assert [NO][..0] == [] && QuitCalls(core, [NO]) == OnStopped(core, NO);
  }

  /** A game server that was not started by morgoth leaves its players behind. */
  lemma AStrangersPlayersStay(name: string, steamId: nat)
    ensures var events := [AddServer(PATH, true), ONLINE, RemoteChange(0, Join(7)), Delivery(0, name, steamId),
                           AboutToQuit(0, [])];
      && Run(events).Some? && 0 in Run(events).value.units && Run(events).value.registry == map[]
      && Run(events).value.units[0].core.status.players == [Player(7, name, steamId)]
  {
    var e0 := [AddServer(PATH, true)];
    var w0 := AfterAdd();
    var w1, core, r := AStranger(e0, w0, NewCore(true, true));
    var e1 := e0 + [ONLINE];
    var w2 := AfterJoin(e1, w1, core, r, name, steamId);
    var e2 := e1 + [RemoteChange(0, Join(7)), Delivery(0, name, steamId)];
    var w3 := AfterQuit(e2, w2, core.(status := AddPlayer(core.status, Player(7, name, steamId))), r, []);
    assert e2 + [AboutToQuit(0, [])]
        == [AddServer(PATH, true), ONLINE, RemoteChange(0, Join(7)), Delivery(0, name, steamId), AboutToQuit(0, [])];
  }

  /** The snapshot of a game server that morgoth started is gone at once. */
  lemma TheSnapshotIsLost()
    ensures var events := [AddServer(PATH, true), StartServer(0, "u", FINE), ONLINE];
      && Run(events).Some? && 0 in Run(events).value.units && 0 in Run(events).value.remotes
      && var status, r := Run(events).value.units[0].core.status, Run(events).value.remotes[0];
         r.queue == [] && r.map_ == "cp_badlands" && status.map_ == "" && !Settled(status, r, Map)
  {
    var w, core, r := ARunningServer();
  }

  /** After a stop, the departure of a player who arrived before it names nobody. */
  lemma AStopUnlistsPlayers(name: string, steamId: nat)
    ensures var events := [AddServer(PATH, true), StartServer(0, "u", FINE), ONLINE, RemoteChange(0, Join(7)),
                           Delivery(0, name, steamId), StopServer(0), RemoteChange(0, Leave(7))];
      && Run(events).Some?
      && var w := Run(events).value;
         && 0 in w.units && 0 in w.remotes && w.remotes[0].queue == [PlayerDisconnected(7)]
         && !IsListed(w.units[0].core.status.players, 7)
  {
    var e0 := [AddServer(PATH, true), StartServer(0, "u", FINE), ONLINE];
    var w0, core, r := ARunningServer();
    var w1 := AfterJoin(e0, w0, core, r, name, steamId);
    var met := core.(status := AddPlayer(core.status, Player(7, name, steamId)));
    var e1 := e0 + [RemoteChange(0, Join(7)), Delivery(0, name, steamId)];
    var w2 := AfterStop(e1, w1, met, r);
    var e2 := e1 + [StopServer(0)];
    var w3 := AfterChange(e2, w2, Stop(met), r, Leave(7));
    assert e2 + [RemoteChange(0, Leave(7))] == [AddServer(PATH, true), StartServer(0, "u", FINE), ONLINE,
      RemoteChange(0, Join(7)), Delivery(0, name, steamId), StopServer(0), RemoteChange(0, Leave(7))];
  }
}
