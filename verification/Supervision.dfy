/** The event loop: what arrives from D-Bus, timers and tmux is handed to the
  * objects one event at a time, and the objects stay where the run has led.
  */
module Supervision {
  import opened Common
  import opened Servers
  import opened StatusObjects
  import C = Configuration
  import K = Coordinator
  import M = Mirror
  import R = Runs
  import S = Status
  import T = Tables
  import W = World
  import X = Tmux

  /** The server list is that of the run; `numbers` are the servers' numbers there. */
  ghost predicate ListAgrees(ss: seq<Server>, numbers: map<Server, nat>, w: W.World) {
    && |ss| == |w.order|
    && (forall i :: 0 <= i < |ss| ==> ss[i] in numbers && numbers[ss[i]] == w.order[i])
    && (forall s :: s in ss ==> s in numbers && UnitAgrees(s, numbers[s], w))
    && (forall s, t :: s in ss && t in ss && numbers[s] == numbers[t] ==> s == t)
  }

  ghost predicate UnitAgrees(s: Server, n: nat, w: W.World) {
    && n in w.units && w.units[n].path == s.path
    && w.units[n].core.valid == s.valid == (s.coordinator != null)
  }

  /** A server's coordinator, starters, session and status are what the run says. */
  ghost predicate CoreAgrees(s: Server, n: nat, w: W.World)
    reads s, s.coordinator, s.status, if s.coordinator != null then {s.coordinator.tmux} else {}
  {
    s.Wired() && n in w.units && w.units[n].core == s.Core()
  }

  ghost predicate CoresAgree(ss: seq<Server>, numbers: map<Server, nat>, w: W.World)
    reads *
  {
    forall s :: s in ss && s.coordinator != null ==> s in numbers && CoreAgrees(s, numbers[s], w)
  }

  ghost predicate OthersAgree(ss: seq<Server>, numbers: map<Server, nat>, w: W.World, server: Server?)
    reads *
  {
    forall t :: t in ss && t != server && t.coordinator != null ==> t in numbers && CoreAgrees(t, numbers[t], w)
  }

  /** The registered proxies stand for the run's live game servers, one each. Those
    * whose server was removed are its orphans.
    */
  ghost predicate RegistryAgrees(registry: map<GameServer, Server>, ss: seq<Server>, numbers: map<Server, nat>,
                                 w: W.World) {
    && (forall gs :: gs in registry && registry[gs] in ss ==>
          registry[gs] in numbers && gs.handle in w.registry && w.registry[gs.handle] == numbers[registry[gs]])
    && (forall gs :: gs in registry && registry[gs] !in ss ==> gs.handle in w.orphans)
    && (forall a, b :: a in registry && b in registry && a.handle == b.handle ==> a == b)
    && HandlesIn(registry) == w.registry.Keys + w.orphans && w.orphans !! w.registry.Keys
    && w.registry.Keys == w.remotes.Keys
  }

  function HandlesIn(registry: map<GameServer, Server>): set<nat> {
    set gs | gs in registry :: gs.handle
  }

  ghost predicate RemotesAgree(registry: map<GameServer, Server>, w: W.World)
    reads *
  {
    forall gs :: gs in registry && gs.handle in w.remotes ==> w.remotes[gs.handle] == gs.View()
  }

  /** What agrees whatever the objects' state. */
  ghost predicate BooksAgree(ss: seq<Server>, registry: map<GameServer, Server>, numbers: map<Server, nat>,
                             w: W.World) {
    ListAgrees(ss, numbers, w) && RegistryAgrees(registry, ss, numbers, w)
  }

  /** Only unit `n` differs, and only in its core and its history. */
  predicate OneUnit(w: W.World, v: W.World, n: nat, core: K.Core) {
    && v.order == w.order && v.orphans == w.orphans && n in w.units && n in v.units
    && v.units == w.units[n := v.units[n]]
    && v.units[n].path == w.units[n].path && v.units[n].core == core && core.valid == w.units[n].core.valid
  }

  lemma ListStays(ss: seq<Server>, numbers: map<Server, nat>, w: W.World, v: W.World, n: nat, core: K.Core)
    requires ListAgrees(ss, numbers, w) && OneUnit(w, v, n, core)
    ensures ListAgrees(ss, numbers, v)
  {
  }

  lemma CoresFollow(ss: seq<Server>, numbers: map<Server, nat>, w: W.World, v: W.World, server: Server, core: K.Core)
    requires ListAgrees(ss, numbers, w) && server in ss && OneUnit(w, v, numbers[server], core)
    requires OthersAgree(ss, numbers, w, server)
    requires server.coordinator != null ==> server.Wired() && core == server.Core()
    ensures CoresAgree(ss, numbers, v)
  {
    forall t | t in ss && t.coordinator != null ensures CoreAgrees(t, numbers[t], v) {
      assert t != server ==> CoreAgrees(t, numbers[t], w);
    }
  }

  function WithEntry(registry: map<GameServer, Server>, gs: GameServer, server: Server?): map<GameServer, Server> {
    if server == null then registry else registry[gs := server]
  }

  /** One lifetime of the server manager. `history` is the run so far, and
    * `numbers` are the servers' numbers in it.
    */
  class EventLoop {
    const serverManager: ServerManager
    /** Handles stand for the identity of starters and game servers. */
    var nextStarter: nat
    var nextGameServer: nat
    ghost var numbers: map<Server, nat>
    ghost var history: seq<W.Event>

    ghost predicate Agrees(w: W.World)
      reads *
    {
      && nextStarter == w.nextStarter && nextGameServer == w.nextGameServer
      && BooksAgree(serverManager.servers, serverManager.gameServers, numbers, w)
      && ObjectsAgree(w)
    }

    ghost predicate ObjectsAgree(w: W.World)
      reads *
    {
      CoresAgree(serverManager.servers, numbers, w) && RemotesAgree(serverManager.gameServers, w)
    }

    /** The objects are where the run has led. */
    ghost predicate Valid()
      reads *
    {
      R.Run(history).Some? && Agrees(R.Run(history).value)
    }

    constructor (serverManager: ServerManager)
      requires serverManager.servers == [] && serverManager.gameServers == map[]
      ensures Valid() && history == [] && this.serverManager == serverManager
    {
      this.serverManager := serverManager;
      nextStarter, nextGameServer := 0, 0;
      numbers, history := map[], [];
    }

    /** The run goes on with the event that led to `v`. */
    ghost method Record(v: W.World, e: W.Event)
      requires Agrees(v) && R.Run(history + [e]) == Some(v)
      modifies `history
      ensures Valid() && history == old(history) + [e]
    {
      history := history + [e];
    }

    /** Everything but this server's core agrees with `w`. */
    ghost predicate RestAgrees(w: W.World, server: Server)
      reads *
    {
      && OthersAgree(serverManager.servers, numbers, w, server)
      && RemotesAgree(serverManager.gameServers, w)
    }

    lemma Settle(w: W.World, v: W.World, server: Server)
      requires RestAgrees(w, server) && BooksAgree(serverManager.servers, serverManager.gameServers, numbers, w)
      requires server in serverManager.servers && server.Wired() && OneCore(w, v, numbers[server], server.Core())
      requires nextStarter == v.nextStarter && nextGameServer == v.nextGameServer
      ensures Agrees(v)
    {
      ListStays(serverManager.servers, numbers, w, v, numbers[server], server.Core());
      CoresFollow(serverManager.servers, numbers, w, v, server, server.Core());
    }

    lemma DepartureAgrees(w: W.World, v: W.World, core: K.Core, gs: GameServer, server: Server)
      requires RestAgrees(w, server) && ListAgrees(serverManager.servers, numbers, w) && server in serverManager.servers
      requires Departed(w, v, gs.handle, core) && w.registry[gs.handle] == numbers[server]
      requires forall g :: g in serverManager.gameServers ==> g.handle != gs.handle
      requires server.coordinator != null ==> server.Wired() && core == server.Core()
      ensures ObjectsAgree(v)
    {
      CoresFollow(serverManager.servers, numbers, w, v, server, core);
    }

    // ----------------------------------------------- events that change one core

    method StartServer(server: Server, daemonUser: string, replies: K.StartReplies)
      requires Valid() && server in serverManager.servers && server.coordinator != null
      modifies `nextStarter, `history, server`starters, server.coordinator, server.status, server.Tmux()
      ensures Valid()
      ensures history == old(history) + [W.StartServer(numbers[server], old(server.UserFor(daemonUser)), replies)]
    {
      ghost var w, n, user := R.Run(history).value, numbers[server], server.UserFor(daemonUser);
      assert CoreAgrees(server, n, w);
      ghost var v := ForeseeStart(history, n, user, replies);
      Begin(server, daemonUser, replies, w);
      Settle(w, v, server);
      Record(v, W.StartServer(n, user, replies));
    }

    method Begin(server: Server, daemonUser: string, replies: K.StartReplies, ghost w: W.World)
      requires ObjectsAgree(w) && server in serverManager.servers && server.coordinator != null && server.Wired()
      modifies `nextStarter, server`starters, server.coordinator, server.status, server.Tmux()
      ensures RestAgrees(w, server)
      ensures server.Wired()
      ensures server.Core() == K.Start(old(server.Core()), old(nextStarter), old(server.UserFor(daemonUser)), replies)
      ensures nextStarter == old(nextStarter) + 1
    {
      var ok := server.coordinator.Start(nextStarter, daemonUser, replies);
      nextStarter := nextStarter + 1;
      forall t | t in serverManager.servers && t != server && t.coordinator != null
        ensures CoreAgrees(t, numbers[t], w)
      {
        assert old(CoreAgrees(t, numbers[t], w));
      }
      forall gs: GameServer | old(allocated(gs)) ensures gs.View() == old(gs.View()) {
      }
    }

    method StopServer(server: Server, sent: X.Reply)
      requires Valid() && server in serverManager.servers && server.coordinator != null
      modifies `history, server.coordinator, server.status
      ensures Valid() && history == old(history) + [W.StopServer(numbers[server])]
    {
      ghost var w, n := R.Run(history).value, numbers[server];
      assert CoreAgrees(server, n, w);
      ghost var v := ForeseeStop(history, n);
      Halt(server, sent, w);
      Settle(w, v, server);
      Record(v, W.StopServer(n));
    }

    method Halt(server: Server, sent: X.Reply, ghost w: W.World)
      requires ObjectsAgree(w) && server in serverManager.servers && server.coordinator != null && server.Wired()
      modifies server.coordinator, server.status
      ensures RestAgrees(w, server) && server.Wired() && server.Core() == K.Stop(old(server.Core()))
    {
      server.coordinator.Stop(sent);
      forall t | t in serverManager.servers && t != server && t.coordinator != null
        ensures CoreAgrees(t, numbers[t], w)
      {
        assert old(CoreAgrees(t, numbers[t], w));
      }
      forall gs: GameServer | old(allocated(gs)) ensures gs.View() == old(gs.View()) {
      }
    }

    method StarterTimesOut(starter: ServerStarter)
      requires Valid() && starter.server in serverManager.servers && starter.server.coordinator != null
      requires starter in starter.server.starters
      modifies `history, starter.server`starters, starter.server.coordinator, starter.server.status
      ensures Valid() && history == old(history) + [W.StarterTimeout(numbers[starter.server], starter.handle)]
    {
      ghost var server := starter.server;
      ghost var w, n := R.Run(history).value, numbers[server];
      assert CoreAgrees(server, n, w);
      ghost var i :| 0 <= i < |server.starters| && server.starters[i] == starter;
      assert Handles(server.starters)[i] in server.Core().armed;
      ghost var v := ForeseeTimeout(history, n, starter.handle);
      Expire(starter, w);
      Settle(w, v, server);
      Record(v, W.StarterTimeout(n, starter.handle));
    }

    method Expire(starter: ServerStarter, ghost w: W.World)
      requires ObjectsAgree(w) && starter.server in serverManager.servers
      requires starter.server.coordinator != null && starter.server.Wired()
      modifies starter.server`starters, starter.server.coordinator, starter.server.status
      ensures RestAgrees(w, starter.server) && starter.server.Wired()
      ensures starter.server.Core() == K.TimeOut(old(starter.server.Core()), starter.handle)
    {
      starter.TimeoutStart();
      forall t | t in serverManager.servers && t != starter.server && t.coordinator != null
        ensures CoreAgrees(t, numbers[t], w)
      {
        assert old(CoreAgrees(t, numbers[t], w));
      }
      forall gs: GameServer | old(allocated(gs)) ensures gs.View() == old(gs.View()) {
      }
    }

    /** A session ends by itself or by hand. */
    method SessionEnds(server: Server, user: string)
      requires Valid() && server in serverManager.servers && server.coordinator != null
      modifies `history, server.Tmux()
      ensures Valid() && history == old(history) + [W.SessionEnds(numbers[server], user)]
    {
      ghost var w, n := R.Run(history).value, numbers[server];
      assert CoreAgrees(server, n, w);
      ghost var v := ForeseeLoss(history, n, user);
      Lose(server, user, w);
      Settle(w, v, server);
      Record(v, W.SessionEnds(n, user));
    }

    method Lose(server: Server, user: string, ghost w: W.World)
      requires ObjectsAgree(w) && server in serverManager.servers && server.coordinator != null && server.Wired()
      modifies server.Tmux()
      ensures RestAgrees(w, server) && server.Wired() && server.Core() == K.SessionLost(old(server.Core()), user)
    {
      server.coordinator.tmux.sessions := server.coordinator.tmux.sessions - {user};
      forall t | t in serverManager.servers && t != server && t.coordinator != null
        ensures CoreAgrees(t, numbers[t], w)
      {
        assert old(CoreAgrees(t, numbers[t], w));
      }
      forall gs: GameServer | old(allocated(gs)) ensures gs.View() == old(gs.View()) {
      }
    }

    // ------------------------------------------------- events of game servers

    /** How often the coordinator is connected to this game server's aboutToQuit. */
    function Connections(gs: GameServer): nat
      requires gs in serverManager.gameServers
      reads serverManager, CoordinatorOf(serverManager.Hearer(gs))
    {
      var coordinator := CoordinatorOf(serverManager.Hearer(gs));
      if coordinator == null then 0 else coordinator.quits[gs.handle]
    }

    lemma ConnectionsAgree(gs: GameServer, w: W.World)
      requires R.Run(history) == Some(w) && Agrees(w) && gs in serverManager.gameServers
      requires serverManager.gameServers[gs] in serverManager.servers
      ensures var server := serverManager.gameServers[gs];
        && gs.handle in w.registry && w.registry[gs.handle] == numbers[server] && numbers[server] in w.units
        && gs.handle in w.remotes && w.remotes[gs.handle] == gs.View()
        && w.units[numbers[server]].core.quits[gs.handle] == Connections(gs)
        && (server.coordinator != null ==> server.Wired() && w.units[numbers[server]].core == server.Core())
    {
      var server := serverManager.gameServers[gs];
      if server.coordinator == null {
        ConnectedByNobody(history, numbers[server]);
      } else {
        assert CoreAgrees(server, numbers[server], w);
      }
    }

    /** A game server says that it is about to quit. */
    method GameServerQuits(gs: GameServer, kills: seq<X.Reply>)
      requires Valid() && gs in serverManager.gameServers
      requires |kills| == Connections(gs)
      modifies `history, serverManager`gameServers, CoordinatorOf(serverManager.Hearer(gs))
      modifies StatusOf(serverManager.Hearer(gs)), TmuxOf(serverManager.Hearer(gs))
      ensures Valid()
      ensures history == old(history) + [if old(serverManager.Hearer(gs)) != null then W.AboutToQuit(gs.handle, kills)
                                         else W.OrphanQuits(gs.handle)]
      ensures serverManager.gameServers == old(serverManager.gameServers) - {gs}
    {
      if serverManager.Hearer(gs) == null {
        OrphanQuits(gs);
      } else {
        Quit(gs, kills);
      }
    }

    method Quit(gs: GameServer, kills: seq<X.Reply>)
      requires Valid() && gs in serverManager.gameServers && serverManager.gameServers[gs] in serverManager.servers
      requires |kills| == Connections(gs)
      modifies `history, serverManager`gameServers
      modifies serverManager.gameServers[gs].coordinator
      modifies serverManager.gameServers[gs].status, serverManager.gameServers[gs].Tmux()
      ensures Valid() && history == old(history) + [W.AboutToQuit(gs.handle, kills)]
      ensures serverManager.gameServers == old(serverManager.gameServers) - {gs}
    {
      ghost var w, server := R.Run(history).value, serverManager.gameServers[gs];
      ConnectionsAgree(gs, w);
      ghost var v, core := ForeseeQuit(history, gs.handle, kills);
      WithoutOne(serverManager.servers, serverManager.gameServers, numbers, w, v, core, gs);
      Part(gs, server, kills, w);
      DepartureAgrees(w, v, core, gs, server);
      Record(v, W.AboutToQuit(gs.handle, kills));
    }

    method OrphanQuits(gs: GameServer)
      requires Valid() && gs in serverManager.gameServers && serverManager.gameServers[gs] !in serverManager.servers
      modifies `history, serverManager`gameServers
      ensures Valid() && history == old(history) + [W.OrphanQuits(gs.handle)]
      ensures serverManager.gameServers == old(serverManager.gameServers) - {gs}
    {
      ghost var w := R.Run(history).value;
      ghost var v := ForeseeOrphanQuit(history, gs.handle);
      WithoutOrphan(serverManager.servers, serverManager.gameServers, numbers, w, v, gs);
      PartFromOrphan(gs, w);
      OrphanlessAgrees(w, v);
      Record(v, W.OrphanQuits(gs.handle));
    }

    method PartFromOrphan(gs: GameServer, ghost w: W.World)
      requires ObjectsAgree(w) && gs in serverManager.gameServers
      requires serverManager.gameServers[gs] !in serverManager.servers
      modifies serverManager`gameServers
      ensures serverManager.gameServers == old(serverManager.gameServers) - {gs} && ObjectsAgree(w)
    {
      AgreeingServersAreWired(w);
      serverManager.AboutToQuit(gs, []);
    }

    lemma OrphanlessAgrees(w: W.World, v: W.World)
      requires ObjectsAgree(w) && v.units == w.units && v.remotes == w.remotes
      ensures ObjectsAgree(v)
    {
      forall t | t in serverManager.servers && t.coordinator != null ensures CoreAgrees(t, numbers[t], v) {
        assert CoreAgrees(t, numbers[t], w);
      }
    }

    method Part(gs: GameServer, ghost server: Server, kills: seq<X.Reply>, ghost w: W.World)
      requires ObjectsAgree(w) && gs in serverManager.gameServers && serverManager.gameServers[gs] == server
      requires server in serverManager.servers
      requires server.coordinator != null ==> |kills| == server.coordinator.quits[gs.handle]
      modifies serverManager`gameServers, server.coordinator, server.status, server.Tmux()
      ensures serverManager.gameServers == old(serverManager.gameServers) - {gs} && RestAgrees(w, server)
      ensures server.coordinator != null ==>
        server.Wired() && server.Core() == K.Quit(old(server.Core()), gs.handle, kills)
    {
      AgreeingServersAreWired(w);
      serverManager.AboutToQuit(gs, kills);
      assert RemotesAgree(serverManager.gameServers, w) by {
        forall g: GameServer | old(allocated(g)) ensures g.View() == old(g.View()) {
        }
      }
      assert OthersAgree(serverManager.servers, numbers, w, server) by {
        forall t | t in serverManager.servers && t != server && t.coordinator != null
          ensures CoreAgrees(t, numbers[t], w)
        {
          assert old(CoreAgrees(t, numbers[t], w));
        }
      }
    }

    lemma AgreeingServersAreWired(w: W.World)
      requires ObjectsAgree(w)
      ensures AllWired(serverManager.servers)
    {
      assert forall s :: s in serverManager.servers && s.coordinator != null ==> CoreAgrees(s, numbers[s], w);
    }

    /** Four errors say that the game server is gone; any other reply is only noted. */
    method PingReplied(gs: GameServer, reply: W.PingReply, kill: X.Reply)
      requires Valid() && gs in serverManager.gameServers
      requires W.IsLost(reply) ==> serverManager.gameServers[gs] in serverManager.servers
      modifies `history, serverManager`gameServers
      modifies serverManager.gameServers[gs].coordinator
      modifies serverManager.gameServers[gs].status, serverManager.gameServers[gs].Tmux()
      ensures Valid() && history == old(history) + [W.Pinged(gs.handle, reply, kill)]
      ensures serverManager.gameServers
              == old(serverManager.gameServers)
                 - if reply in {W.NoReply, W.Timeout, W.Disconnected, W.TimedOut} then {gs} else {}
    {
      if W.IsLost(reply) {
        LosePing(gs, reply, kill);
      } else {
        ForeseeAnswer(history, gs.handle, reply, kill);
        Record(R.Run(history).value, W.Pinged(gs.handle, reply, kill));
      }
    }

    method LosePing(gs: GameServer, reply: W.PingReply, kill: X.Reply)
      requires Valid() && gs in serverManager.gameServers && W.IsLost(reply)
      requires serverManager.gameServers[gs] in serverManager.servers
      modifies `history, serverManager`gameServers
      modifies serverManager.gameServers[gs].coordinator
      modifies serverManager.gameServers[gs].status, serverManager.gameServers[gs].Tmux()
      ensures Valid() && history == old(history) + [W.Pinged(gs.handle, reply, kill)]
      ensures serverManager.gameServers == old(serverManager.gameServers) - {gs}
    {
      ghost var w, server := R.Run(history).value, serverManager.gameServers[gs];
      ConnectionsAgree(gs, w);
      ghost var v, core := ForeseeFailedPing(history, gs.handle, reply, kill);
      WithoutOne(serverManager.servers, serverManager.gameServers, numbers, w, v, core, gs);
      Fail(gs, server, kill, w);
      DepartureAgrees(w, v, core, gs, server);
      Record(v, W.Pinged(gs.handle, reply, kill));
    }

    method Fail(gs: GameServer, ghost server: Server, kill: X.Reply, ghost w: W.World)
      requires ObjectsAgree(w) && gs in serverManager.gameServers && serverManager.gameServers[gs] == server
      requires server in serverManager.servers && (server.coordinator != null ==> server.Wired())
      modifies serverManager`gameServers, server.coordinator, server.status, server.Tmux()
      ensures serverManager.gameServers == old(serverManager.gameServers) - {gs} && RestAgrees(w, server)
      ensures server.coordinator != null ==>
        server.Wired() && server.Core() == K.PingFailed(old(server.Core()), gs.handle, kill)
    {
      AgreeingServersAreWired(w);
      serverManager.PingLost(gs, kill);
      assert RemotesAgree(serverManager.gameServers, w) by {
        forall g: GameServer | old(allocated(g)) ensures g.View() == old(g.View()) {
        }
      }
      assert OthersAgree(serverManager.servers, numbers, w, server) by {
        forall t | t in serverManager.servers && t != server && t.coordinator != null
          ensures CoreAgrees(t, numbers[t], w)
        {
          assert old(CoreAgrees(t, numbers[t], w));
        }
      }
    }

    /** The remote end changes; what it announces is queued. */
    method RemoteChanges(gs: GameServer, change: M.Change)
      requires Valid() && gs in serverManager.gameServers && serverManager.gameServers[gs] in serverManager.servers
      modifies `history, gs
      ensures Valid() && history == old(history) + [W.RemoteChange(gs.handle, change)]
    {
      ghost var w := R.Run(history).value;
      ghost var v := ForeseeChange(history, gs.handle, change);
      assert BooksAgree(serverManager.servers, serverManager.gameServers, numbers, v);
      Change(gs, change, w, v);
      Record(v, W.RemoteChange(gs.handle, change));
    }

    method Change(gs: GameServer, change: M.Change, ghost w: W.World, ghost v: W.World)
      requires ObjectsAgree(w) && gs in serverManager.gameServers
      requires forall g :: g in serverManager.gameServers && g.handle == gs.handle ==> g == gs
      requires gs.handle in w.remotes && v == w.(remotes := w.remotes[gs.handle := M.Happen(gs.View(), change)])
      modifies gs
      ensures ObjectsAgree(v)
    {
      gs.Change(change);
      forall t: Server | old(allocated(t)) && t.coordinator != null && old(t.Wired())
        ensures t.Wired() && t.Core() == old(t.Core())
      {
      }
      forall g: GameServer | old(allocated(g)) && g != gs ensures g.View() == old(g.View()) {
      }
    }

    /** The oldest signal of a game server reaches the status that listens to it. */
    method SignalArrives(gs: GameServer, name: string, steamId: nat)
      requires Valid() && gs in serverManager.gameServers && gs.queue != []
      requires serverManager.gameServers[gs] in serverManager.servers
      requires serverManager.gameServers[gs].coordinator != null && serverManager.gameServers[gs].status != null
      requires gs.queue[0].PlayerDisconnected? ==>
        S.IsListed(serverManager.gameServers[gs].status.players, gs.queue[0].id)
      modifies `history, gs, serverManager.gameServers[gs].status
      ensures Valid() && history == old(history) + [W.Delivery(gs.handle, name, steamId)]
    {
      var server := serverManager.gameServers[gs];
      ghost var w := R.Run(history).value;
      ghost var v, core := ForeseeSignal(gs, server, name, steamId, w);
      DeliverOldest(gs, server, name, steamId, w, v, core);
    }

    method DeliverOldest(gs: GameServer, server: Server, name: string, steamId: nat,
                         ghost w: W.World, ghost v: W.World, ghost core: K.Core)
      requires ObjectsAgree(w) && gs in serverManager.gameServers && gs.queue != []
      requires serverManager.gameServers[gs] == server && server.coordinator != null && server.status != null
      requires gs.queue[0].PlayerDisconnected? ==> S.IsListed(server.status.players, gs.queue[0].id)
      requires Expects(gs, server, name, steamId, w, v, core)
      requires R.Run(history + [W.Delivery(gs.handle, name, steamId)]) == Some(v)
      requires nextStarter == v.nextStarter && nextGameServer == v.nextGameServer
      requires BooksAgree(serverManager.servers, serverManager.gameServers, numbers, v)
      modifies `history, gs, server.status
      ensures Valid() && history == old(history) + [W.Delivery(gs.handle, name, steamId)]
    {
      Deliver(gs, server, name, steamId, w, v, core);
      Record(v, W.Delivery(gs.handle, name, steamId));
    }

    method Deliver(gs: GameServer, server: Server, name: string, steamId: nat,
                   ghost w: W.World, ghost v: W.World, ghost core: K.Core)
      requires ObjectsAgree(w) && gs in serverManager.gameServers && gs.queue != []
      requires serverManager.gameServers[gs] == server && server.coordinator != null && server.status != null
      requires gs.queue[0].PlayerDisconnected? ==> S.IsListed(server.status.players, gs.queue[0].id)
      requires Expects(gs, server, name, steamId, w, v, core)
      modifies gs, server.status
      ensures ObjectsAgree(v)
    {
      PassOn(gs, server, name, steamId, w);
      CoresFollow(serverManager.servers, numbers, w, v, server, server.Core());
    }

    /** Where the delivery of the game server's oldest signal will lead. */
    ghost predicate Expects(gs: GameServer, server: Server, name: string, steamId: nat, w: W.World, v: W.World,
                            core: K.Core)
      requires gs.queue != []
      reads *
    {
      && ListAgrees(serverManager.servers, numbers, w) && server in serverManager.servers
      && (forall g :: g in serverManager.gameServers && g.handle == gs.handle ==> g == gs)
      && server.Wired() && Delivered(w, v, numbers[server], gs.handle, core)
      && core == server.Core().(status := M.Deliver(server.status.View(), gs.queue[0], name, steamId))
    }

    lemma ForeseeSignal(gs: GameServer, server: Server, name: string, steamId: nat, w: W.World)
      returns (v: W.World, core: K.Core)
      requires R.Run(history) == Some(w) && Agrees(w) && gs in serverManager.gameServers && gs.queue != []
      requires serverManager.gameServers[gs] == server && server in serverManager.servers && server.coordinator != null
      requires server.status != null
      requires gs.queue[0].PlayerDisconnected? ==> S.IsListed(server.status.players, gs.queue[0].id)
      ensures R.Run(history + [W.Delivery(gs.handle, name, steamId)]) == Some(v)
      ensures BooksAgree(serverManager.servers, serverManager.gameServers, numbers, v)
      ensures Expects(gs, server, name, steamId, w, v, core)
    {
      ConnectionsAgree(gs, w);
      v, core := ForeseeDelivery(history, gs.handle, name, steamId);
      DeliveryKeepsBooks(serverManager.servers, serverManager.gameServers, numbers, w, v, gs, core);
    }

    method PassOn(gs: GameServer, server: Server, name: string, steamId: nat, ghost w: W.World)
      requires ObjectsAgree(w) && gs in serverManager.gameServers && gs.queue != [] && server in serverManager.servers
      requires server.coordinator != null && server.Wired()
      requires gs.queue[0].PlayerDisconnected? ==> S.IsListed(server.status.players, gs.queue[0].id)
      modifies gs, server.status
      ensures OthersAgree(serverManager.servers, numbers, w, server)
      ensures server.Wired()
      ensures var c := old(server.Core());
        server.Core() == c.(status := M.Deliver(c.status, old(gs.queue)[0], name, steamId))
      ensures gs.View() == old(gs.View()).(queue := old(gs.queue)[1..])
      ensures forall g :: g in serverManager.gameServers && g != gs ==> g.View() == old(g.View())
    {
      server.status.HandleSignal(gs.queue[0], name, steamId);
      gs.queue := gs.queue[1..];
      forall t | t in serverManager.servers && t != server && t.coordinator != null
        ensures CoreAgrees(t, numbers[t], w)
      {
        assert old(CoreAgrees(t, numbers[t], w));
      }
      forall g: GameServer | old(allocated(g)) && g != gs ensures g.View() == old(g.View()) {
      }
    }

    /** A game server connects; the first server at its location hears of it. */
    method GameServerConnects(location: string, maxPlayers: int, address: string, map_: string,
                              conVars: map<string, string>, meanwhile: seq<seq<M.Change>>) returns (gs: GameServer)
      requires Valid()
      modifies `history, `nextGameServer, serverManager`gameServers, ServerAt(serverManager.servers, location)
      modifies CoordinatorOf(ServerAt(serverManager.servers, location))
      modifies StatusOf(ServerAt(serverManager.servers, location))
      ensures Valid() && history == old(history) + [W.Connect(location, maxPlayers, address, map_, conVars, meanwhile)]
      ensures fresh(gs)
      ensures var server := ServerAt(serverManager.servers, location);
        serverManager.gameServers == WithEntry(old(serverManager.gameServers), gs, server)
    {
      gs := new GameServer(nextGameServer, location, maxPlayers, address, map_, conVars);
      Introduce(gs, ServerAt(serverManager.servers, location), meanwhile);
    }

    method Introduce(gs: GameServer, ghost server: Server?, meanwhile: seq<seq<M.Change>>)
      requires Valid() && gs !in serverManager.gameServers && gs.handle == nextGameServer
      requires server == ServerAt(serverManager.servers, gs.location)
      requires gs.View() == M.Connected(gs.location, gs.maxPlayers, gs.address, gs.map_, gs.conVars)
      modifies `history, `nextGameServer, serverManager`gameServers, gs, server, CoordinatorOf(server), StatusOf(server)
      ensures Valid()
      ensures history
              == old(history) + [W.Connect(gs.location, gs.maxPlayers, gs.address, old(gs.map_), old(gs.conVars),
                                           meanwhile)]
      ensures serverManager.gameServers == WithEntry(old(serverManager.gameServers), gs, server)
    {
      ghost var w, r := R.Run(history).value, gs.View();
      ghost var v, after := ForeseeMeeting(gs, server, meanwhile, w);
      Admit(gs, server, meanwhile, w, v, after);
      Record(v, W.Connect(r.location, r.maxPlayers, r.address, r.map_, r.conVars, meanwhile));
    }

    /** Where the arrival of a game server at `server`, if any, will lead. */
    ghost predicate Awaits(gs: GameServer, server: Server?, meanwhile: seq<seq<M.Change>>,
                           w: W.World, v: W.World, after: (K.Core, M.Remote))
      reads this, serverManager, gs
    {
      && ListAgrees(serverManager.servers, numbers, w) && gs.handle == w.nextGameServer
      && (forall g :: g in serverManager.gameServers ==> g.handle != gs.handle)
      && (server == null ==> v == w.(nextGameServer := w.nextGameServer + 1))
      && (server != null ==>
        && server in serverManager.servers && Entered(w, v, numbers[server], after)
        && after == Greeted(w.units[numbers[server]].core, gs.handle, gs.View(), meanwhile))
    }

    lemma ForeseeMeeting(gs: GameServer, server: Server?, meanwhile: seq<seq<M.Change>>, w: W.World)
      returns (v: W.World, after: (K.Core, M.Remote))
      requires R.Run(history) == Some(w) && BooksAgree(serverManager.servers, serverManager.gameServers, numbers, w)
      requires gs !in serverManager.gameServers && gs.handle == w.nextGameServer
      requires server == ServerAt(serverManager.servers, gs.location)
      requires gs.View() == M.Connected(gs.location, gs.maxPlayers, gs.address, gs.map_, gs.conVars)
      ensures var r := gs.View();
        R.Run(history + [W.Connect(r.location, r.maxPlayers, r.address, r.map_, r.conVars, meanwhile)]) == Some(v)
      ensures v.nextStarter == w.nextStarter && v.nextGameServer == w.nextGameServer + 1
      ensures BooksAgree(serverManager.servers, WithEntry(serverManager.gameServers, gs, server), numbers, v)
      ensures Awaits(gs, server, meanwhile, w, v, after)
    {
      v, after := ForeseeConnect(history, serverManager.servers, numbers, gs.View(), meanwhile);
      var more := WithEntry(serverManager.gameServers, gs, server);
      WithOneMore(serverManager.servers, serverManager.gameServers, more, numbers, w, v, gs, server, after);
    }

    method Admit(gs: GameServer, ghost server: Server?, meanwhile: seq<seq<M.Change>>,
                 ghost w: W.World, ghost v: W.World, ghost after: (K.Core, M.Remote))
      requires ObjectsAgree(w) && gs !in serverManager.gameServers
      requires server == ServerAt(serverManager.servers, gs.location) && Awaits(gs, server, meanwhile, w, v, after)
      modifies `nextGameServer, serverManager`gameServers, gs, server, CoordinatorOf(server), StatusOf(server)
      ensures ObjectsAgree(v) && nextGameServer == old(nextGameServer) + 1
      ensures serverManager.gameServers == WithEntry(old(serverManager.gameServers), gs, server)
    {
      ghost var registry := serverManager.gameServers;
      Register(gs, server, meanwhile, w);
      MeetingAgrees(registry, gs, server, w, v, after);
      TakeHandle(v);
    }

    lemma MeetingAgrees(registry: map<GameServer, Server>, gs: GameServer, server: Server?,
                        w: W.World, v: W.World, after: (K.Core, M.Remote))
      requires ListAgrees(serverManager.servers, numbers, w) && OthersAgree(serverManager.servers, numbers, w, server)
      requires RemotesAgree(registry, w) && gs.handle == w.nextGameServer
      requires forall g :: g in registry ==> g.handle != gs.handle
      requires serverManager.gameServers == WithEntry(registry, gs, server)
      requires server == null ==> v == w.(nextGameServer := w.nextGameServer + 1)
      requires server != null ==>
        server in serverManager.servers && Entered(w, v, numbers[server], after) && after.1 == gs.View()
      requires server != null && server.coordinator != null ==> server.Wired() && after.0 == server.Core()
      ensures ObjectsAgree(v)
    {
      if server == null {
        forall t | t in serverManager.servers && t.coordinator != null ensures CoreAgrees(t, numbers[t], v) {
          assert CoreAgrees(t, numbers[t], w);
        }
      } else {
        CoresFollow(serverManager.servers, numbers, w, v, server, after.0);
      }
    }

    method TakeHandle(ghost v: W.World)
      requires ObjectsAgree(v)
      modifies `nextGameServer
      ensures ObjectsAgree(v) && nextGameServer == old(nextGameServer) + 1
    {
      nextGameServer := nextGameServer + 1;
    }

    method Register(gs: GameServer, ghost server: Server?, meanwhile: seq<seq<M.Change>>, ghost w: W.World)
      requires ObjectsAgree(w) && gs !in serverManager.gameServers
      requires server == ServerAt(serverManager.servers, gs.location)
      modifies serverManager`gameServers, gs, server, CoordinatorOf(server), StatusOf(server)
      ensures serverManager.gameServers == WithEntry(old(serverManager.gameServers), gs, server)
      ensures server != null && server.coordinator != null ==>
        server.Wired() && (server.Core(), gs.View())
          == K.Online(old(server.Core()), gs.handle, old(gs.View()), meanwhile)
      ensures CoordinatorOf(server) == null ==> gs.View() == old(gs.View())
      ensures OthersAgree(serverManager.servers, numbers, w, server)
      ensures RemotesAgree(old(serverManager.gameServers), w)
    {
      serverManager.RegisterGameServer(gs, meanwhile);
      assert RemotesAgree(old(serverManager.gameServers), w) by {
        forall g: GameServer | old(allocated(g)) && g != gs ensures g.View() == old(g.View()) {
        }
      }
      assert OthersAgree(serverManager.servers, numbers, w, server) by {
        forall t | t in serverManager.servers && t != server && t.coordinator != null
          ensures CoreAgrees(t, numbers[t], w)
        {
          assert old(CoreAgrees(t, numbers[t], w));
        }
      }
    }

    // ------------------------------------------------------ the list of servers

    /** Null when the name is taken; then nothing happens. */
    method AddServer(path: string, name: string, installed: bool, failing: T.Faults) returns (server: Server?)
      requires Valid() && serverManager.Valid()
      modifies `history, `numbers, serverManager`servers
      modifies if serverManager.listener != null then {serverManager.listener.database} else {}
      ensures Valid() && serverManager.Valid() && (server == null <==> NameTaken(old(serverManager.servers), name))
      ensures history == old(history) + if server != null then [W.AddServer(path, installed)] else []
      ensures serverManager.servers == old(serverManager.servers) + if server != null then [server] else []
      ensures server != null ==> fresh(server) && server.path == path && server.valid == installed
      ensures server != null ==> server.configuration != null && server.configuration.values == C.Defaults()
      ensures server != null && installed ==>
        && server.coordinator != null && fresh(server.coordinator)
        && server.status != null && fresh(server.status) && fresh(server.coordinator.tmux)
    {
      ghost var w := R.Run(history).value;
      ghost var v := ForeseeAddition(history, path, installed);
      server := Enlist(path, name, installed, failing, w);
      if server != null {
        NewServerKeepsBooks(old(serverManager.servers), serverManager.gameServers, old(numbers), w, v, server);
        NewServerAgrees(w, v, server, old(serverManager.servers), old(numbers));
        Record(v, W.AddServer(path, installed));
      }
    }

    lemma NewServerAgrees(w: W.World, v: W.World, server: Server, ss: seq<Server>, nums: map<Server, nat>)
      requires CoresAgree(ss, nums, w) && RemotesAgree(serverManager.gameServers, w)
      requires serverManager.servers == ss + [server] && numbers == nums[server := w.nextServer] && server !in ss
      requires server.AsNew(server.valid) && w.nextServer !in w.units && v == W.WithServer(w, server.path, server.valid)
      ensures ObjectsAgree(v)
    {
      forall t | t in serverManager.servers && t.coordinator != null ensures CoreAgrees(t, numbers[t], v) {
        assert t != server ==> t in ss && CoreAgrees(t, nums[t], w);
      }
    }

    method Enlist(path: string, name: string, installed: bool, failing: T.Faults, ghost w: W.World)
      returns (server: Server?)
      requires ObjectsAgree(w) && serverManager.Valid()
      modifies `numbers, serverManager`servers
      modifies if serverManager.listener != null then {serverManager.listener.database} else {}
      ensures serverManager.Valid() && (server == null <==> NameTaken(old(serverManager.servers), name))
      ensures serverManager.servers == old(serverManager.servers) + if server != null then [server] else []
      ensures server != null ==>
        fresh(server) && server.path == path && server.valid == installed && server.AsNew(installed)
      ensures server != null ==> server.configuration != null && server.configuration.values == C.Defaults()
      ensures server != null && installed ==>
        fresh(server.coordinator) && fresh(server.status) && fresh(server.coordinator.tmux)
      ensures numbers == if server != null then old(numbers)[server := w.nextServer] else old(numbers)
      ensures CoresAgree(old(serverManager.servers), old(numbers), w) && RemotesAgree(serverManager.gameServers, w)
    {
      server := serverManager.Add(path, name, installed, failing);
      if server != null {
        numbers := numbers[server := w.nextServer];
      }
      forall t: Server | old(allocated(t)) && t.coordinator != null && old(t.Wired())
        ensures t.Wired() && t.Core() == old(t.Core())
      {
      }
      forall gs: GameServer | old(allocated(gs)) ensures gs.View() == old(gs.View()) {
      }
    }

    /** The game servers of a removed server stay registered, for nobody. */
    method RemoveServer(name: string, faults: T.DeleteFaults) returns (ok: bool, ghost removed: Server?)
      requires Valid() && serverManager.Valid()
      modifies `history, serverManager`servers
      modifies if serverManager.listener != null then {serverManager.listener.database} else {}
      ensures Valid() && serverManager.Valid() && ok == NameTaken(old(serverManager.servers), name)
      ensures !ok ==> history == old(history) && serverManager.servers == old(serverManager.servers)
      ensures ok ==> removed != null && removed in old(serverManager.servers) && removed.name == name
      ensures ok ==> removed in numbers && history == old(history) + [W.RemoveServer(numbers[removed])]
      ensures ok ==> serverManager.servers == Except(old(serverManager.servers), removed)
    {
      ghost var w, ss := R.Run(history).value, serverManager.servers;
      ok, removed := Delist(name, faults, w);
      if ok {
        GoneServerKeepsBooks(ss, serverManager.gameServers, numbers, w, removed);
        ghost var v := ForeseeRemoval(history, numbers[removed]);
        GoneServerAgrees(w, v, removed, ss);
        Record(v, W.RemoveServer(numbers[removed]));
      }
    }

    method Delist(name: string, faults: T.DeleteFaults, ghost w: W.World) returns (ok: bool, ghost removed: Server?)
      requires ObjectsAgree(w) && serverManager.Valid()
      modifies serverManager`servers
      modifies if serverManager.listener != null then {serverManager.listener.database} else {}
      ensures serverManager.Valid() && ok == NameTaken(old(serverManager.servers), name)
      ensures !ok ==> serverManager.servers == old(serverManager.servers)
      ensures ok ==> removed != null && removed in old(serverManager.servers) && removed.name == name
      ensures ok ==> serverManager.servers == Except(old(serverManager.servers), removed)
      ensures CoresAgree(old(serverManager.servers), numbers, w) && RemotesAgree(serverManager.gameServers, w)
    {
      ok, removed := serverManager.Remove(name, faults);
      forall t: Server | old(allocated(t)) && t.coordinator != null && old(t.Wired())
        ensures t.Wired() && t.Core() == old(t.Core())
      {
      }
      forall gs: GameServer | old(allocated(gs)) ensures gs.View() == old(gs.View()) {
      }
    }

    lemma GoneServerAgrees(w: W.World, v: W.World, server: Server, ss: seq<Server>)
      requires CoresAgree(ss, numbers, w) && RemotesAgree(serverManager.gameServers, w) && ListAgrees(ss, numbers, w)
      requires server in ss && serverManager.servers == Except(ss, server) && v == W.WithoutServer(w, numbers[server])
      ensures ObjectsAgree(v)
    {
      forall t | t in serverManager.servers && t.coordinator != null ensures CoreAgrees(t, numbers[t], v) {
        assert t in ss && t != server && CoreAgrees(t, numbers[t], w);
      }
    }

    // ------------------------------- what the run's theorems say of the objects

    /** A running server has a registered game server connected to its coordinator. */
    lemma RunningServersHaveALiveWitness(server: Server)
      requires Valid() && server in serverManager.servers && server.coordinator != null
      requires server.coordinator.state == K.Running
      ensures exists gs :: gs in serverManager.gameServers && serverManager.gameServers[gs] == server
                           && server.coordinator.quits[gs.handle] > 0
    {
      var w, n := R.Run(history).value, numbers[server];
      assert CoreAgrees(server, n, w);
      R.RunningHasALiveWitness(history, n);
      var h :| h in w.registry && w.registry[h] == n && w.units[n].core.quits[h] > 0;
      var gs := ProxyOf(serverManager.servers, serverManager.gameServers, numbers, w, h, server);
    }

    /** Which sessions may be alive in which state. */
    lemma ServersSessionsAreAccountedFor(server: Server)
      requires Valid() && server in serverManager.servers && server.coordinator != null
      ensures var c := server.coordinator;
        && (forall user :: user in c.tmux.sessions ==> user == c.tmux.user)
        && (c.tmux.sessions != {} && !c.tmux.killFailed ==>
              && c.state != K.Offline
              && (c.state == K.Crashed ==>
                    c.error in {K.UnableToCreateTmuxSession, K.UnableToResolveUser, K.ServerNotRegisteredOnTime}))
    {
      var w, n := R.Run(history).value, numbers[server];
      assert CoreAgrees(server, n, w);
      R.SessionsAreAccountedFor(history, n);
    }

    /** Starting signals equal started and failed signals and waiting starters. */
    lemma ServersStartersAreConserved(server: Server)
      requires Valid() && server in serverManager.servers && server.coordinator != null
      ensures var c := server.coordinator; c.starting == c.started + c.failed + |server.starters|
      ensures server.status != null && server.status.playerCount == |server.status.players|
    {
      var w, n := R.Run(history).value, numbers[server];
      assert CoreAgrees(server, n, w);
      R.StartersAreConserved(history, n);
      R.PlayersAgreeWithHistory(history, n);
    }
  }

  // ------------------------------------------------------------ what a run does

  /** `v` is `w` with another core for server `n`. */
  predicate OneCore(w: W.World, v: W.World, n: nat, core: K.Core) {
    OneUnit(w, v, n, core) && v.registry == w.registry && v.remotes == w.remotes && v.nextGameServer == w.nextGameServer
  }

  /** `v` is `w` without game server `h`, whose server now has this core. */
  predicate Departed(w: W.World, v: W.World, h: nat, core: K.Core) {
    && h in w.registry && OneUnit(w, v, w.registry[h], core)
    && v.registry == w.registry - {h} && v.remotes == w.remotes - {h}
    && v.nextStarter == w.nextStarter && v.nextGameServer == w.nextGameServer
  }

  lemma WithoutOne(ss: seq<Server>, registry: map<GameServer, Server>, numbers: map<Server, nat>,
                   w: W.World, v: W.World, core: K.Core, gs: GameServer)
    requires BooksAgree(ss, registry, numbers, w) && gs in registry && Departed(w, v, gs.handle, core)
    ensures BooksAgree(ss, registry - {gs}, numbers, v) && forall g :: g in registry - {gs} ==> g.handle != gs.handle
  {
    ListStays(ss, numbers, w, v, w.registry[gs.handle], core);
    RegistryWithout(registry, ss, numbers, w, v, gs);
  }

  lemma RegistryWithout(registry: map<GameServer, Server>, ss: seq<Server>, numbers: map<Server, nat>,
                        w: W.World, v: W.World, gs: GameServer)
    requires RegistryAgrees(registry, ss, numbers, w) && gs in registry && gs.handle in w.registry
    requires v.registry == w.registry - {gs.handle} && v.remotes.Keys == w.remotes.Keys - {gs.handle}
    requires v.orphans == w.orphans
    ensures RegistryAgrees(registry - {gs}, ss, numbers, v)
  {
    HandlesWithout(registry, gs);
  }

  lemma WithoutOrphan(ss: seq<Server>, registry: map<GameServer, Server>, numbers: map<Server, nat>,
                      w: W.World, v: W.World, gs: GameServer)
    requires BooksAgree(ss, registry, numbers, w) && gs in registry && registry[gs] !in ss
    requires v == w.(orphans := w.orphans - {gs.handle}, departures := w.departures + 1)
    ensures BooksAgree(ss, registry - {gs}, numbers, v)
  {
    HandlesWithout(registry, gs);
  }

  lemma ProxyOf(ss: seq<Server>, registry: map<GameServer, Server>, numbers: map<Server, nat>, w: W.World,
                h: nat, server: Server) returns (gs: GameServer)
    requires BooksAgree(ss, registry, numbers, w) && server in ss && h in w.registry && w.registry[h] == numbers[server]
    ensures gs in registry && registry[gs] == server && gs.handle == h
  {
    assert h in HandlesIn(registry);
    gs :| gs in registry && gs.handle == h;
  }

  lemma HandlesWithout(registry: map<GameServer, Server>, gs: GameServer)
    requires gs in registry && forall g :: g in registry && g.handle == gs.handle ==> g == gs
    ensures HandlesIn(registry - {gs}) == HandlesIn(registry) - {gs.handle}
  {
  }

  lemma ConnectedByNobody(history: seq<W.Event>, n: nat)
    requires R.Run(history).Some? && n in R.Run(history).value.units && !R.Run(history).value.units[n].core.valid
    ensures R.Run(history).value.units[n].core.quits == multiset{}
  {
    R.RunsAreValid(history);
    assert K.Healthy(R.Run(history).value.units[n].core);
  }

  lemma ForeseeQuit(history: seq<W.Event>, h: nat, kills: seq<X.Reply>) returns (v: W.World, core: K.Core)
    requires R.Run(history).Some?
    requires var w := R.Run(history).value;
      h in w.registry && w.registry[h] in w.units && |kills| == w.units[w.registry[h]].core.quits[h]
    ensures R.Run(history + [W.AboutToQuit(h, kills)]) == Some(v)
    ensures var w := R.Run(history).value;
      var c := w.units[w.registry[h]].core;
      Departed(w, v, h, core) && (c.valid ==> core == K.Quit(c, h, kills))
  {
    v := Foresee(history, W.AboutToQuit(h, kills));
    var n := R.Run(history).value.registry[h];
    core := v.units[n].core;
    K.QuitCallsStayValid(R.Run(history).value.units[n].core, kills);
  }

  lemma ForeseeOrphanQuit(history: seq<W.Event>, h: nat) returns (v: W.World)
    requires R.Run(history).Some? && h in R.Run(history).value.orphans
    ensures R.Run(history + [W.OrphanQuits(h)]) == Some(v)
    ensures var w := R.Run(history).value; v == w.(orphans := w.orphans - {h}, departures := w.departures + 1)
  {
    v := Foresee(history, W.OrphanQuits(h));
  }

  lemma ForeseeFailedPing(history: seq<W.Event>, h: nat, reply: W.PingReply, kill: X.Reply)
    returns (v: W.World, core: K.Core)
    requires R.Run(history).Some? && W.IsLost(reply)
    requires var w := R.Run(history).value; h in w.registry && w.registry[h] in w.units
    ensures R.Run(history + [W.Pinged(h, reply, kill)]) == Some(v)
    ensures var w := R.Run(history).value;
      var c := w.units[w.registry[h]].core;
      Departed(w, v, h, core) && (c.valid ==> core == K.PingFailed(c, h, kill))
  {
    v := Foresee(history, W.Pinged(h, reply, kill));
    core := v.units[R.Run(history).value.registry[h]].core;
  }

  lemma ForeseeAnswer(history: seq<W.Event>, h: nat, reply: W.PingReply, kill: X.Reply)
    requires R.Run(history).Some? && !W.IsLost(reply)
    ensures R.Run(history + [W.Pinged(h, reply, kill)]) == R.Run(history)
  {
    var v := Foresee(history, W.Pinged(h, reply, kill));
  }

  /** `v` is `w` after game server `h` delivered its oldest signal to server `n`. */
  predicate Delivered(w: W.World, v: W.World, n: nat, h: nat, core: K.Core) {
    && OneUnit(w, v, n, core) && h in w.remotes && w.remotes[h].queue != []
    && v.registry == w.registry && v.remotes == w.remotes[h := w.remotes[h].(queue := w.remotes[h].queue[1..])]
    && v.nextStarter == w.nextStarter && v.nextGameServer == w.nextGameServer
  }

  lemma DeliveryKeepsBooks(ss: seq<Server>, registry: map<GameServer, Server>, numbers: map<Server, nat>,
                           w: W.World, v: W.World, gs: GameServer, core: K.Core)
    requires BooksAgree(ss, registry, numbers, w) && gs in registry && registry[gs] in ss
    requires Delivered(w, v, numbers[registry[gs]], gs.handle, core)
    ensures BooksAgree(ss, registry, numbers, v) && forall g :: g in registry && g.handle == gs.handle ==> g == gs
  {
    ListStays(ss, numbers, w, v, numbers[registry[gs]], core);
  }

  lemma ForeseeDelivery(history: seq<W.Event>, h: nat, name: string, steamId: nat) returns (v: W.World, core: K.Core)
    requires R.Run(history).Some?
    requires var w := R.Run(history).value;
      && h in w.registry && w.registry[h] in w.units && h in w.remotes && w.remotes[h].queue != []
      && (w.remotes[h].queue[0].PlayerDisconnected? ==>
            S.IsListed(w.units[w.registry[h]].core.status.players, w.remotes[h].queue[0].id))
    ensures R.Run(history + [W.Delivery(h, name, steamId)]) == Some(v)
    ensures var w := R.Run(history).value;
      var c := w.units[w.registry[h]].core;
      && Delivered(w, v, w.registry[h], h, core)
      && core == c.(status := M.Deliver(c.status, w.remotes[h].queue[0], name, steamId))
  {
    v := Foresee(history, W.Delivery(h, name, steamId));
    core := v.units[R.Run(history).value.registry[h]].core;
  }

  lemma NewServerKeepsBooks(ss: seq<Server>, registry: map<GameServer, Server>, numbers: map<Server, nat>,
                            w: W.World, v: W.World, server: Server)
    requires BooksAgree(ss, registry, numbers, w)
    requires server !in ss && forall gs :: gs in registry ==> registry[gs] != server
    requires w.nextServer !in w.units && v == W.WithServer(w, server.path, server.valid)
    requires server.valid == (server.coordinator != null)
    ensures BooksAgree(ss + [server], registry, numbers[server := w.nextServer], v)
  {
    forall s | s in ss + [server] ensures s in ss || s == server {
    }
  }

  lemma ForeseeAddition(history: seq<W.Event>, path: string, installed: bool) returns (v: W.World)
    requires R.Run(history).Some?
    ensures R.Run(history + [W.AddServer(path, installed)]) == Some(v)
    ensures var w := R.Run(history).value;
      w.nextServer !in w.units && v == W.WithServer(w, path, installed)
  {
    v := Foresee(history, W.AddServer(path, installed));
    R.RunsAreValid(history);
  }

  lemma GoneServerKeepsBooks(ss: seq<Server>, registry: map<GameServer, Server>, numbers: map<Server, nat>,
                             w: W.World, server: Server)
    requires BooksAgree(ss, registry, numbers, w) && server in ss
    ensures BooksAgree(Except(ss, server), registry, numbers, W.WithoutServer(w, numbers[server]))
  {
    ExceptIsWithoutNumber(ss, w.order, numbers, server);
  }

  lemma {:induction false} ExceptIsWithoutNumber(ss: seq<Server>, order: seq<nat>, numbers: map<Server, nat>,
                                                 server: Server)
    requires |ss| == |order| && server in numbers
    requires forall i :: 0 <= i < |ss| ==> ss[i] in numbers && numbers[ss[i]] == order[i]
    requires forall s :: s in ss && numbers[s] == numbers[server] ==> s == server
    ensures var left, rest := Except(ss, server), W.Without(order, numbers[server]);
      |left| == |rest| && forall i :: 0 <= i < |left| ==> left[i] in numbers && numbers[left[i]] == rest[i]
  {
    if ss == [] {
    } else {
      var k := |ss| - 1;
      assert ss[k] in ss && forall i :: 0 <= i < k ==> ss[..k][i] in ss;
      ExceptIsWithoutNumber(ss[..k], order[..k], numbers, server);
    }
  }

  lemma ForeseeRemoval(history: seq<W.Event>, n: nat) returns (v: W.World)
    requires R.Run(history).Some? && n in R.Run(history).value.units
    ensures R.Run(history + [W.RemoveServer(n)]) == Some(v) && v == W.WithoutServer(R.Run(history).value, n)
  {
    v := Foresee(history, W.RemoveServer(n));
  }

  /** What a server and a game server are like after meeting. */
  function Greeted(c: K.Core, h: nat, r: M.Remote, meanwhile: seq<seq<M.Change>>): (K.Core, M.Remote) {
    if c.valid then K.Online(c, h, r, meanwhile) else (c, r)
  }

  /** `v` is `w` with one more game server, at server `n`. */
  predicate Entered(w: W.World, v: W.World, n: nat, after: (K.Core, M.Remote)) {
    && OneUnit(w, v, n, after.0)
    && v.registry == w.registry[w.nextGameServer := n] && v.remotes == w.remotes[w.nextGameServer := after.1]
    && v.nextStarter == w.nextStarter && v.nextGameServer == w.nextGameServer + 1
  }

  lemma WithOneMore(ss: seq<Server>, registry: map<GameServer, Server>, more: map<GameServer, Server>,
                    numbers: map<Server, nat>, w: W.World, v: W.World, gs: GameServer, server: Server?,
                    after: (K.Core, M.Remote))
    requires BooksAgree(ss, registry, numbers, w) && gs !in registry
    requires gs.handle == w.nextGameServer && gs.handle !in w.registry && gs.handle !in w.orphans
    requires more == WithEntry(registry, gs, server)
    requires server == null ==> v == w.(nextGameServer := w.nextGameServer + 1)
    requires server != null ==> server in ss && Entered(w, v, numbers[server], after)
    ensures BooksAgree(ss, more, numbers, v) && forall g :: g in registry ==> g.handle != gs.handle
  {
    if server != null {
      ListStays(ss, numbers, w, v, numbers[server], after.0);
      HandlesWithMore(registry, gs, server);
      NewProxyAgrees(registry, ss, numbers, w, v, gs, server);
    }
    assert forall g :: g in registry ==> g.handle in HandlesIn(registry);
  }

  lemma HandlesWithMore(registry: map<GameServer, Server>, gs: GameServer, server: Server)
    ensures HandlesIn(registry[gs := server]) == HandlesIn(registry) + {gs.handle}
  {
    var more := registry[gs := server];
    assert gs in more && forall g :: g in registry ==> g in more;
  }

  lemma NewProxyAgrees(registry: map<GameServer, Server>, ss: seq<Server>, numbers: map<Server, nat>,
                       w: W.World, v: W.World, gs: GameServer, server: Server)
    requires RegistryAgrees(registry, ss, numbers, w) && server in ss && server in numbers
    requires gs.handle !in w.registry && gs.handle !in w.orphans
    requires HandlesIn(registry[gs := server]) == HandlesIn(registry) + {gs.handle}
    requires v.registry == w.registry[gs.handle := numbers[server]] && v.orphans == w.orphans
    requires v.remotes.Keys == w.remotes.Keys + {gs.handle}
    ensures RegistryAgrees(registry[gs := server], ss, numbers, v)
  {
    assert forall g :: g in registry ==> g.handle in HandlesIn(registry);
  }

  lemma ForeseeConnect(history: seq<W.Event>, ss: seq<Server>, numbers: map<Server, nat>, r: M.Remote,
                       meanwhile: seq<seq<M.Change>>)
    returns (v: W.World, after: (K.Core, M.Remote))
    requires R.Run(history).Some? && ListAgrees(ss, numbers, R.Run(history).value)
    requires r == M.Connected(r.location, r.maxPlayers, r.address, r.map_, r.conVars)
    ensures R.Run(history + [W.Connect(r.location, r.maxPlayers, r.address, r.map_, r.conVars, meanwhile)]) == Some(v)
    ensures var w, server := R.Run(history).value, ServerAt(ss, r.location);
      && w.nextGameServer !in w.registry && w.nextGameServer !in w.orphans
      && (server == null ==> v == w.(nextGameServer := w.nextGameServer + 1))
      && (server != null ==>
        && Entered(w, v, numbers[server], after)
        && after == Greeted(w.units[numbers[server]].core, w.nextGameServer, r, meanwhile))
  {
    var w := R.Run(history).value;
    ForeseeRegistration(history, r, meanwhile);
    v := W.Register(w, r, meanwhile);
    FirstAtIsServerAt(ss, numbers, w, r.location);
    var server := ServerAt(ss, r.location);
    after := (K.NewCore(true, true), r);
    if server != null {
      after := Greeted(w.units[numbers[server]].core, w.nextGameServer, r, meanwhile);
      RegisteringEnters(w, numbers[server], r, meanwhile);
    }
  }

  lemma ForeseeRegistration(history: seq<W.Event>, r: M.Remote, meanwhile: seq<seq<M.Change>>)
    requires R.Run(history).Some?
    requires r == M.Connected(r.location, r.maxPlayers, r.address, r.map_, r.conVars)
    ensures var w := R.Run(history).value;
      && W.Listed(w) && w.nextGameServer !in w.registry && w.nextGameServer !in w.orphans
      && R.Run(history + [W.Connect(r.location, r.maxPlayers, r.address, r.map_, r.conVars, meanwhile)])
         == Some(W.Register(w, r, meanwhile))
  {
    var v := Foresee(history, W.Connect(r.location, r.maxPlayers, r.address, r.map_, r.conVars, meanwhile));
    R.RunsAreValid(history);
  }

  lemma RegisteringEnters(w: W.World, n: nat, r: M.Remote, meanwhile: seq<seq<M.Change>>)
    requires W.Listed(w) && W.FirstAt(w.order, w.units, r.location) == Some(n)
    ensures Entered(w, W.Register(w, r, meanwhile), n, Greeted(w.units[n].core, w.nextGameServer, r, meanwhile))
  {
    OnlineStaysValid(w.units[n].core, w.nextGameServer, r, meanwhile);
  }

  lemma OnlineStaysValid(c: K.Core, gs: nat, r: M.Remote, meanwhile: seq<seq<M.Change>>)
    ensures K.Online(c, gs, r, meanwhile).0.valid == c.valid
  {
    var (status, q) := M.Track(c.status, r, meanwhile);
    K.ResolvingEndsRunning(c.(status := status), gs, |c.armed|);
  }

  lemma FirstAtIsServerAt(ss: seq<Server>, numbers: map<Server, nat>, w: W.World, path: string)
    requires ListAgrees(ss, numbers, w) && forall s :: s in w.order ==> s in w.units
    ensures var server := ServerAt(ss, path);
      W.FirstAt(w.order, w.units, path) == if server == null then None else Some(numbers[server])
  {
    if i :| IsFirstAt(ss, path, i) {
      assert forall j :: 0 <= j < i ==> w.units[w.order[j]].path == ss[j].path;
      FirstAtFinds(w.order, w.units, path, i);
    } else {
      NobodyAt(ss, path, |ss|);
      assert forall j :: 0 <= j < |ss| ==> w.units[w.order[j]].path == ss[j].path;
      FirstAtFindsNone(w.order, w.units, path);
    }
  }

  lemma {:induction false} NobodyAt(ss: seq<Server>, path: string, k: nat)
    requires k <= |ss| && !exists i :: IsFirstAt(ss, path, i)
    ensures forall j :: 0 <= j < k ==> ss[j].path != path
  {
    if k > 0 {
      NobodyAt(ss, path, k - 1);
      assert !IsFirstAt(ss, path, k - 1);
    }
  }

  lemma {:induction false} FirstAtFindsNone(order: seq<nat>, units: map<nat, W.Unit>, path: string)
    requires forall s :: s in order ==> s in units
    requires forall j :: 0 <= j < |order| ==> units[order[j]].path != path
    ensures W.FirstAt(order, units, path) == None
  {
    if order == [] {
    } else {
      FirstAtFindsNone(order[..|order| - 1], units, path);
    }
  }

  lemma {:induction false} FirstAtFinds(order: seq<nat>, units: map<nat, W.Unit>, path: string, i: nat)
    requires forall s :: s in order ==> s in units
    requires i < |order| && units[order[i]].path == path && forall j :: 0 <= j < i ==> units[order[j]].path != path
    ensures W.FirstAt(order, units, path) == Some(order[i])
  {
    if i == |order| - 1 {
      FirstAtFindsNone(order[..i], units, path);
    } else {
      FirstAtFinds(order[..|order| - 1], units, path, i);
    }
  }

  lemma ForeseeChange(history: seq<W.Event>, h: nat, change: M.Change) returns (v: W.World)
    requires R.Run(history).Some? && h in R.Run(history).value.registry
    ensures R.Run(history + [W.RemoteChange(h, change)]) == Some(v)
    ensures var w := R.Run(history).value;
      h in w.remotes && v == w.(remotes := w.remotes[h := M.Happen(w.remotes[h], change)])
  {
    v := Foresee(history, W.RemoteChange(h, change));
  }

  lemma ForeseeStart(history: seq<W.Event>, n: nat, user: string, replies: K.StartReplies) returns (v: W.World)
    requires R.Run(history).Some? && n in R.Run(history).value.units && R.Run(history).value.units[n].core.valid
    ensures R.Run(history + [W.StartServer(n, user, replies)]) == Some(v)
    ensures var w := R.Run(history).value;
      OneCore(w, v, n, K.Start(w.units[n].core, w.nextStarter, user, replies)) && v.nextStarter == w.nextStarter + 1
  {
    v := ForeseeCoreEvent(history, W.StartServer(n, user, replies));
  }

  lemma ForeseeStop(history: seq<W.Event>, n: nat) returns (v: W.World)
    requires R.Run(history).Some? && n in R.Run(history).value.units && R.Run(history).value.units[n].core.valid
    ensures R.Run(history + [W.StopServer(n)]) == Some(v)
    ensures var w := R.Run(history).value; OneCore(w, v, n, K.Stop(w.units[n].core)) && v.nextStarter == w.nextStarter
  {
    v := ForeseeCoreEvent(history, W.StopServer(n));
  }

  lemma ForeseeTimeout(history: seq<W.Event>, n: nat, starter: nat) returns (v: W.World)
    requires R.Run(history).Some? && n in R.Run(history).value.units
    requires starter in R.Run(history).value.units[n].core.armed
    ensures R.Run(history + [W.StarterTimeout(n, starter)]) == Some(v)
    ensures var w := R.Run(history).value;
      OneCore(w, v, n, K.TimeOut(w.units[n].core, starter)) && v.nextStarter == w.nextStarter
  {
    v := ForeseeCoreEvent(history, W.StarterTimeout(n, starter));
  }

  lemma ForeseeLoss(history: seq<W.Event>, n: nat, user: string) returns (v: W.World)
    requires R.Run(history).Some? && n in R.Run(history).value.units
    ensures R.Run(history + [W.SessionEnds(n, user)]) == Some(v)
    ensures var w := R.Run(history).value;
      OneCore(w, v, n, K.SessionLost(w.units[n].core, user)) && v.nextStarter == w.nextStarter
  {
    v := ForeseeCoreEvent(history, W.SessionEnds(n, user));
  }

  lemma ForeseeCoreEvent(history: seq<W.Event>, e: W.Event) returns (v: W.World)
    requires R.Run(history).Some? && W.ChangesOneCore(e) && e.server in R.Run(history).value.units
    requires var c := R.Run(history).value.units[e.server].core;
      && (e.StartServer? || e.StopServer? ==> c.valid)
      && (e.StarterTimeout? ==> e.starter in c.armed)
    ensures R.Run(history + [e]) == Some(v)
    ensures var w := R.Run(history).value;
      && W.Listed(w) && W.Mapped(w) && W.Allowed(w, e) && OneCore(w, v, e.server, W.CoreAfter(w, e))
      && v.nextStarter == w.nextStarter + if e.StartServer? then 1 else 0
  {
    v := Foresee(history, e);
    CoreEventIsOneCore(R.Run(history).value, e);
  }

  lemma CoreEventIsOneCore(w: W.World, e: W.Event)
    requires W.Listed(w) && W.Mapped(w) && W.Allowed(w, e) && W.ChangesOneCore(e)
    ensures OneCore(w, W.Next(w, e), e.server, W.CoreAfter(w, e))
  {
  }

  lemma Foresee(history: seq<W.Event>, e: W.Event) returns (v: W.World)
    requires R.Run(history).Some?
    ensures var w := R.Run(history).value;
      W.Listed(w) && W.Mapped(w) && (W.Allowed(w, e) ==> R.Run(history + [e]) == Some(v) && v == W.Next(w, e))
  {
    R.RunsAreValid(history);
    var w := R.Run(history).value;
    if W.Allowed(w, e) {
      R.RunGrows(history, e);
      v := W.Next(w, e);
    } else {
      v := w;
    }
  }
}
