/** The daemon's objects: servers with their configurations, the manager that
  * lists them, and the persistor that mirrors the list in the database.
  */
module Servers {
  import opened Common
  import opened DatabaseObjects
  import opened StatusObjects
  import opened TmuxWrapper
  import C = Configuration
  import T = Tables
  import P = Persistence
  import K = Coordinator
  import M = Mirror
  import X = Tmux

  class ServerConfiguration {
    var server: Server?
    var values: map<string, string>
    /** Whom valueChanged is connected to. */
    var listener: Persistor?

    constructor ()
      ensures values == map[] && listener == null && server == null
    {
      server, values, listener := null, map[], null;
    }

    ghost predicate Logs(key: string, value: string)
      reads this
    {
      listener != null && C.Value(values, key) != value
    }

    method Value(key: string) returns (value: string)
      ensures value == C.Value(values, key)
    {
      value := if key in values then values[key] else "";
    }

    /** `fails` says whether the statement that logs the change fails. */
    method SetValue(key: string, value: string, fails: bool := false)
      requires listener != null ==> server != null
      modifies this`values, if listener != null then {listener.database} else {}
      ensures values == C.SetValue(old(values), key, value)
      ensures listener != null && old(Logs(key, value)) && !fails ==>
        listener.database.View() == T.StoreConfigurationEntry(old(listener.database.View()), server.name, key, value)
      ensures listener != null && (fails || !old(Logs(key, value))) ==>
        listener.database.View() == old(listener.database.View())
    {
      var oldValue := Value(key);
      if oldValue != value {
        values := values[key := value];
        if listener != null {
          listener.StoreConfigurationEntry(this, key, value, fails);
        }
      }
    }
  }

  class ServerCoordinator {
    var server: Server?
    var state: K.State
    var error: K.ErrorType
    const tmux: TmuxSessionWrapper
    /** Whom stateChanged is connected to. */
    const status: ServerStatus
    /** The connections of game servers' aboutToQuit to this coordinator. */
    var quits: multiset<nat>
    ghost var starting: nat
    ghost var started: nat
    ghost var failed: nat

    constructor (status: ServerStatus)
      ensures this.status == status && fresh(tmux) && tmux.View() == X.Session("", {}, false)
      ensures server == null && state == K.Offline && error == K.NoError && quits == multiset{}
      ensures starting == started == failed == 0
    {
      this.status := status;
      tmux := new TmuxSessionWrapper();
      server, state, error, quits := null, K.Offline, K.NoError, multiset{};
      starting, started, failed := 0, 0, 0;
    }

    ghost predicate Wired()
      reads this, server, tmux, if server != null then {server.status} else {}
    {
      server != null && server.coordinator == this && server.Wired()
    }

    method SetState(newState: K.State)
      requires Wired()
      modifies `state, status
      ensures Wired() && server.Core() == K.SetState(old(server.Core()), newState)
    {
      state := newState;
      status.Reset();
    }

    /** Every call makes a starter of its own; there is no check of the state. */
    method Start(starter: nat, daemonUser: string, r: K.StartReplies) returns (ok: bool)
      requires Wired()
      modifies this, status, tmux, server`starters
      ensures ok && server == old(server) && Wired()
      ensures server.Core() == K.Start(old(server.Core()), starter, old(server.UserFor(daemonUser)), r)
      ensures server.valid && server.configuration != null && old(tmux.sessions) == {} && !r.probe ==>
        tmux.user == server.ConfiguredUser(daemonUser)
    {
      server.TheConfiguredUserWins(daemonUser);
      K.FreshStartsRunUnder(server.Core(), starter, server.UserFor(daemonUser), r);
      var s := new ServerStarter(starter, server);
      s.Start(daemonUser, r);
      ok := true;
    }

    method Stop(r: X.Reply)
      requires Wired()
      modifies `state, status
      ensures Wired() && server.Core() == K.Stop(old(server.Core()))
      ensures state == if old(state) in {K.Running, K.Starting} then K.ShuttingDown else old(state)
    {
      if state == K.Running || state == K.Starting {
        SetState(K.ShuttingDown);
        var sent := tmux.SendKeys(r);
      }
    }

    method OnStarting()
      requires Wired()
      modifies `state, `starting, status
      ensures Wired() && server.Core() == K.Announce(old(server.Core())) && state == K.Starting
    {
      starting := starting + 1;
      SetState(K.Starting);
    }

    method OnServerFailed(newError: K.ErrorType)
      requires Wired()
      modifies `state, `error, `failed, status
      ensures Wired() && server.Core() == K.Fail(old(server.Core()), newError)
      ensures state == K.Crashed && error == newError
    {
      error := newError;
      failed := failed + 1;
      SetState(K.Crashed);
    }

    method OnGameServerStarted(gs: nat)
      requires Wired()
      modifies `state, `quits, `started, status
      ensures Wired() && server.Core() == K.OnStarted(old(server.Core()), gs) && state == K.Running
    {
      quits := quits + multiset{gs};
      started := started + 1;
      SetState(K.Running);
    }

    method OnGameServerStopped(kill: X.Reply)
      requires Wired()
      modifies `state, status, tmux
      ensures Wired() && server.Core() == K.OnStopped(old(server.Core()), kill) && state == K.Offline
    {
      SetState(K.Offline);
      var killed := tmux.Kill(kill);
    }

    method OnGameServerTimedOut(kill: X.Reply)
      requires Wired()
      modifies `state, status, tmux
      ensures Wired() && server.Core() == K.OnTimedOut(old(server.Core()), kill) && state == K.Crashed
    {
      SetState(K.Crashed);
      var killed := tmux.Kill(kill);
    }

    /** aboutToQuit calls the coordinator once per connection; then the proxy goes. */
    method AboutToQuit(gs: nat, kills: seq<X.Reply>)
      requires Wired() && |kills| == quits[gs]
      modifies `state, `quits, status, tmux
      ensures Wired() && server.Core() == K.Quit(old(server.Core()), gs, kills)
      ensures state == if kills != [] then K.Offline else old(state)
    {
      for i := 0 to |kills|
        invariant state == if i > 0 then K.Offline else old(state)
        invariant Wired() && server.Core() == K.QuitCalls(old(server.Core()), kills[..i])
        invariant quits == old(quits)
      {
        OnGameServerStopped(kills[i]);
        assert kills[..i + 1][..i] == kills[..i];
      }
      assert kills[..|kills|] == kills;
      quits := quits[gs := 0];
    }

    method PingFailed(gs: nat, kill: X.Reply)
      requires Wired()
      modifies `state, `quits, status, tmux
      ensures Wired() && server.Core() == K.PingFailed(old(server.Core()), gs, kill)
      ensures state == K.Crashed && quits[gs] == 0
    {
      OnGameServerTimedOut(kill);
      quits := quits[gs := 0];
    }
  }

  class ServerStarter {
    const handle: nat
    const server: Server

    constructor (handle: nat, server: Server)
      ensures this.handle == handle && this.server == server
    {
      this.handle, this.server := handle, server;
    }

    method Start(daemonUser: string, r: K.StartReplies)
      requires server.Wired()
      modifies server`starters, server.coordinator, server.status, server.coordinator.tmux
      ensures server.Wired() && server.coordinator.server == server
      ensures server.Core() == K.Start(old(server.Core()), handle, old(server.UserFor(daemonUser)), r)
    {
      var coordinator := server.coordinator;
      var tmux := coordinator.tmux;
      coordinator.OnStarting();
      if !server.valid {
        coordinator.OnServerFailed(K.InvalidInstallation);
        return;
      }
      if server.configuration == null {
        coordinator.OnServerFailed(K.InvalidConfiguration);
        return;
      }
      var user := server.configuration.Value(C.USER_KEY);
      if user == "" {
        user := daemonUser;
      }
      tmux.SetUser(user, r.probe);
      var ok := tmux.Create(r.create);
      if !ok {
        coordinator.OnServerFailed(K.UnableToCreateTmuxSession);
        return;
      }
      if user != "" && !r.userKnown {
        coordinator.OnServerFailed(K.UnableToResolveUser);
        return;
      }
      Launch(r);
    }

    method Launch(r: K.StartReplies)
      requires server.Wired()
      modifies server`starters, server.coordinator, server.status, server.coordinator.tmux
      ensures server.Wired() && server.coordinator.server == server
      ensures server.Core() == K.Launch(old(server.Core()), handle, r)
    {
      var coordinator := server.coordinator;
      var tmux := coordinator.tmux;
      var ok := tmux.RedirectOutput(r.redirect);
      if !ok {
        ok := tmux.Kill(r.kill);
        coordinator.OnServerFailed(K.UnableToRedirectTmuxOutput);
        return;
      }
      ok := tmux.SendKeys(r.command);
      if !ok {
        ok := tmux.Kill(r.kill);
        coordinator.OnServerFailed(K.ServerExecutableFailed);
        return;
      }
      server.starters := server.starters + [this];
    }

    method TimeoutStart()
      requires server.Wired()
      modifies server`starters, server.coordinator, server.status
      ensures server.Wired() && server.Core() == K.TimeOut(old(server.Core()), handle)
      ensures server.coordinator.state == K.Crashed && server.coordinator.error == K.ServerNotRegisteredOnTime
    {
      server.coordinator.OnServerFailed(K.ServerNotRegisteredOnTime);
      server.starters := WithoutStarter(server.starters, handle);
    }

    method HandleGameServerRegistered(gs: GameServer)
      requires server.Wired()
      modifies server.coordinator, server.status
      ensures server.Wired() && server.Core() == K.OnStarted(old(server.Core()), gs.handle)
    {
      server.coordinator.OnGameServerStarted(gs.handle);
    }
  }

  function Handles(ss: seq<ServerStarter>): (hs: seq<nat>)
    ensures |hs| == |ss| && forall i :: 0 <= i < |ss| ==> hs[i] == ss[i].handle
  {
    if ss == [] then [] else Handles(ss[..|ss| - 1]) + [ss[|ss| - 1].handle]
  }

  /** The connection of a deleted starter is gone. */
  function WithoutStarter(ss: seq<ServerStarter>, handle: nat): (left: seq<ServerStarter>)
    ensures Handles(left) == K.RemoveStarter(Handles(ss), handle)
    ensures forall s :: s in left ==> s in ss
  {
    if ss == [] then []
    else
      assert Handles(ss)[1..] == Handles(ss[1..]);
      if ss[0].handle == handle then ss[1..]
      else [ss[0]] + WithoutStarter(ss[1..], handle)
  }

  class Server {
    const name: string
    const path: string
    const valid: bool
    const configuration: ServerConfiguration?
    const coordinator: ServerCoordinator?
    const status: ServerStatus?
    /** Whom gameServerOnline is connected to, besides the status. */
    var starters: seq<ServerStarter>

    /** `installed` says whether the path holds a game server installation. Only
      * then the server gets a coordinator and a status.
      */
    constructor (path: string, name: string, installed: bool)
      ensures this.path == path && this.name == name && valid == installed
      ensures configuration != null && fresh(configuration)
      ensures configuration.server == this && configuration.listener == null && configuration.values == C.Defaults()
      ensures configuration.values
              == map["org.morgoth.Server.launchArguments" := "-port 27015 -secured +map cp_badlands",
                     "org.morgoth.Server.logDirectory" := "logs"]
      ensures AsNew(installed)
      ensures installed ==> fresh(coordinator) && fresh(status) && fresh(coordinator.tmux)
    {
      this.path, this.name, this.valid := path, name, installed;
      configuration := new ServerConfiguration();
      starters := [];
      if installed {
        var s := new ServerStatus();
        status := s;
        coordinator := new ServerCoordinator(s);
      } else {
        status, coordinator := null, null;
      }
      new;
      configuration.server := this;
      configuration.SetValue(C.ARGUMENTS_KEY, "-port 27015 -secured +map cp_badlands");
      configuration.SetValue(C.LOGS_KEY, "logs");
      assert configuration.values == C.Defaults();
      if installed {
        coordinator.server := this;
        coordinator.tmux.owner := this;
        status.owner := this;
      }
    }

    /** Only a valid installation gets a coordinator and a status. */
    ghost predicate AsNew(installed: bool)
      reads this, coordinator, status, if coordinator != null then {coordinator.tmux} else {}
    {
      && valid == installed
      && (if installed then Wired() && Core() == K.NewCore(true, true)
          else coordinator == null && status == null && starters == [])
    }

    /** The coordinator, its session and the status are this server's own. */
    ghost predicate Wired()
      reads this, coordinator, status, if coordinator != null then {coordinator.tmux} else {}
    {
      && coordinator != null && status != null && coordinator.status == status
      && coordinator.server == this && coordinator.tmux.owner == this && status.owner == this
      && forall s :: s in starters ==> s.server == this
    }

    ghost function Core(): K.Core
      requires Wired()
      reads this, coordinator, status, if coordinator != null then {coordinator.tmux} else {}
    {
      K.Core(valid, configuration != null, coordinator.state, coordinator.error, coordinator.tmux.View(),
             Handles(starters), coordinator.quits, status.View(),
             coordinator.starting, coordinator.started, coordinator.failed)
    }

    function Tmux(): TmuxSessionWrapper? {
      if coordinator == null then null else coordinator.tmux
    }

    /** Who shall own the session: the configured user, else the daemon's. */
    ghost function UserFor(daemonUser: string): string
      reads configuration
    {
      if configuration != null && C.Value(configuration.values, C.USER_KEY) != ""
      then C.Value(configuration.values, C.USER_KEY)
      else daemonUser
    }

    /** The user of the configuration, if it names one, and else the daemon's. */
    ghost function ConfiguredUser(daemonUser: string): string
      requires configuration != null
      reads configuration
    {
      var key := "org.morgoth.Server.user";
      if key in configuration.values && configuration.values[key] != "" then configuration.values[key] else daemonUser
    }

    lemma TheConfiguredUserWins(daemonUser: string)
      ensures configuration != null ==> UserFor(daemonUser) == ConfiguredUser(daemonUser)
    {
    }

    /** The gameServerOnline signal: the status hears it first, then the starters. */
    method GameServerOnline(gs: GameServer, meanwhile: seq<seq<M.Change>>)
      requires Wired()
      modifies `starters, coordinator, status, gs
      ensures Wired()
      ensures (Core(), gs.View()) == K.Online(old(Core()), gs.handle, old(gs.View()), meanwhile)
    {
      status.TrackGameServer(gs, meanwhile);
      ResolveStarters(gs);
    }

    /** Each starter hears the signal, reports its success and is deleted. */
    method ResolveStarters(gs: GameServer)
      requires Wired()
      modifies `starters, coordinator, status
      ensures Wired()
      ensures Core() == K.ResolveStarters(old(Core()), gs.handle, |old(starters)|).(armed := [])
    {
      for i := 0 to |starters|
        invariant Wired() && starters == old(starters)
        invariant Core() == K.ResolveStarters(old(Core()), gs.handle, i)
      {
        starters[i].HandleGameServerRegistered(gs);
      }
      DropStarters();
    }

    method DropStarters()
      requires Wired()
      modifies `starters
      ensures Wired() && Core() == old(Core()).(armed := [])
    {
      starters := [];
      assert Handles(starters) == [];
    }

    ghost function View(): P.Listed
      reads configuration
      requires configuration != null
    {
      P.Listed(path, name, configuration.values, configuration.listener != null)
    }

    /** The configuration is this server's own and has the default keys. */
    ghost predicate Configured()
      reads configuration
    {
      configuration != null && configuration.server == this && C.Defaults().Keys <= configuration.values.Keys
    }
  }

  ghost predicate AllConfigured(ss: seq<Server>)
    reads set s | s in ss :: s.configuration
  {
    forall i :: 0 <= i < |ss| ==> ss[i].Configured()
  }

  ghost function ListView(ss: seq<Server>): (mem: P.Memory)
    requires AllConfigured(ss)
    reads set s | s in ss :: s.configuration
    ensures |mem| == |ss| && forall i :: 0 <= i < |ss| ==> mem[i] == ss[i].View()
  {
    seq(|ss|, i requires 0 <= i < |ss| && ss[i].Configured()
              reads if 0 <= i < |ss| then {ss[i].configuration} else {}
           => ss[i].View())
  }

  lemma ListViewGrows(ss: seq<Server>, server: Server)
    requires AllConfigured(ss) && server.Configured()
    ensures AllConfigured(ss + [server]) && ListView(ss + [server]) == ListView(ss) + [server.View()]
  {
  }

  /** `removeAll`. */
  function Except(ss: seq<Server>, server: Server): (left: seq<Server>)
    ensures forall s :: s in left ==> s in ss && s != server
    ensures forall s :: s in ss && s != server ==> s in left
  {
    var keep := (s: Server) => s != server;
    FilterKeeps(ss, keep);
    Filter(ss, keep)
  }

  predicate NameTaken(ss: seq<Server>, name: string) {
    exists i :: 0 <= i < |ss| && ss[i].name == name
  }

  predicate UniqueNames(ss: seq<Server>) {
    forall i, j :: 0 <= i < j < |ss| ==> ss[i].name != ss[j].name
  }

  lemma ConfiguredExcept(ss: seq<Server>, server: Server)
    requires AllConfigured(ss)
    ensures AllConfigured(Except(ss, server))
  {
    var left := Except(ss, server);
    assert forall i :: 0 <= i < |left| ==> left[i] in left;
  }

  lemma {:induction false} UniqueExcept(ss: seq<Server>, server: Server)
    requires UniqueNames(ss)
    ensures UniqueNames(Except(ss, server))
  {
    if ss == [] {
    } else {
      var k := |ss| - 1;
      UniqueExcept(ss[..k], server);
      var left := Except(ss[..k], server);
      forall i | 0 <= i < |left| ensures left[i].name != ss[k].name {
        assert left[i] in ss[..k];
      }
    }
  }

  /** Names are unique, so removing the object is removing the name. */
  lemma {:induction false} ExceptIsWithout(ss: seq<Server>, server: Server)
    requires AllConfigured(ss) && forall s :: s in ss && s.name == server.name ==> s == server
    ensures AllConfigured(Except(ss, server)) && ListView(Except(ss, server)) == P.Without(ListView(ss), server.name)
  {
    ConfiguredExcept(ss, server);
    if ss == [] {
    } else {
      var k := |ss| - 1;
      ExceptIsWithout(ss[..k], server);
      assert ListView(ss)[..k] == ListView(ss[..k]);
      var left := Except(ss[..k], server);
      if ss[k] == server {
        assert Except(ss, server) == left;
      } else {
        ListViewGrows(left, ss[k]);
      }
    }
  }

  lemma NamesSingleOut(ss: seq<Server>, server: Server)
    requires UniqueNames(ss) && server in ss
    ensures forall s :: s in ss && s.name == server.name ==> s == server
  {
  }

  lemma RemovedView(ss: seq<Server>, server: Server)
    requires AllConfigured(ss) && UniqueNames(ss) && server in ss
    ensures AllConfigured(Except(ss, server)) && ListView(Except(ss, server)) == P.Without(ListView(ss), server.name)
  {
    NamesSingleOut(ss, server);
    ExceptIsWithout(ss, server);
  }

  lemma ListViewNames(ss: seq<Server>, name: string)
    requires AllConfigured(ss)
    ensures P.Taken(ListView(ss), name) <==> NameTaken(ss, name)
    ensures P.DistinctNames(ListView(ss)) <==> UniqueNames(ss)
  {
  }

  class ServerManager {
    var servers: seq<Server>
    var gameServers: map<GameServer, Server>
    /** Whom serverAdded and serverAboutToBeRemoved are connected to. */
    var listener: Persistor?

    constructor ()
      ensures servers == [] && gameServers == map[] && listener == null
    {
      servers, gameServers, listener := [], map[], null;
    }

    ghost predicate Valid()
      reads this, set s | s in servers :: s.configuration
    {
      AllConfigured(servers) && UniqueNames(servers)
    }

    method Find(name: string) returns (server: Server?)
      ensures server == null <==> !NameTaken(servers, name)
      ensures server != null ==> server in servers && server.name == name
    {
      for i := 0 to |servers|
        invariant forall j :: 0 <= j < i ==> servers[j].name != name
      {
        if servers[i].name == name {
          return servers[i];
        }
      }
      server := null;
    }

    method ServerNames() returns (names: seq<string>)
      ensures |names| == |servers| && forall i :: 0 <= i < |names| ==> names[i] == servers[i].name
    {
      names := [];
      for i := 0 to |servers|
        invariant |names| == i && forall j :: 0 <= j < i ==> names[j] == servers[j].name
      {
        names := names + [servers[i].name];
      }
    }

    /** `failing` are the statements of storing the server that fail. */
    method AddServer(server: Server, failing: T.Faults) returns (ok: bool)
      requires Valid() && server.Configured()
      requires server !in servers ==> server.configuration.listener == null
      modifies `servers, server.configuration`listener, if listener != null then {listener.database} else {}
      ensures Valid() && ok == !NameTaken(old(servers), server.name)
      ensures servers == old(servers) + if ok then [server] else []
      ensures !ok || listener == null ==> server.configuration.listener == old(server.configuration.listener)
      ensures !ok && listener != null ==> listener.database.View() == old(listener.database.View())
      ensures ok && listener != null ==>
        var r := T.StoreServer(old(listener.database.View()), server.path, server.name, server.configuration.values,
                               failing);
        listener.database.View() == r.0 && server.configuration.listener == if r.1 then listener else null
    {
      if server in servers {
        return false;
      }
      var other := Find(server.name);
      if other != null {
        return false;
      }
      servers := servers + [server];
      if listener != null {
        listener.StoreServer(server, failing);
      }
      ok := true;
    }

    method Add(path: string, name: string, installed: bool, failing: T.Faults) returns (server: Server?)
      requires Valid()
      modifies `servers, if listener != null then {listener.database} else {}
      ensures Valid() && (server == null <==> NameTaken(old(servers), name))
      ensures servers == old(servers) + if server != null then [server] else []
      ensures server != null ==>
        server.path == path && server.name == name && fresh(server) && fresh(server.configuration)
      ensures server != null ==> server.AsNew(installed)
      ensures server != null && installed ==>
        fresh(server.coordinator) && fresh(server.status) && fresh(server.coordinator.tmux)
      ensures server != null ==> server.configuration.values == C.Defaults()
      ensures server != null && listener == null ==> server.configuration.listener == null
      ensures server == null && listener != null ==> listener.database.View() == old(listener.database.View())
      ensures server != null && listener != null ==>
        var r := T.StoreServer(old(listener.database.View()), path, name, C.Defaults(), failing);
        listener.database.View() == r.0 && server.configuration.listener == if r.1 then listener else null
    {
      var s := new Server(path, name, installed);
      var ok := AddServer(s, failing);
      server := if ok then s else null;
    }

    /** `faults` are the statements of deleting the server that fail. */
    method Remove(serverName: string, faults: T.DeleteFaults) returns (ok: bool, ghost removed: Server?)
      requires Valid()
      modifies `servers, if listener != null then {listener.database} else {}
      ensures Valid() && ok == NameTaken(old(servers), serverName)
      ensures !ok ==> servers == old(servers)
      ensures ok ==> removed != null && removed in old(servers) && removed.name == serverName
      ensures ok ==> servers == Except(old(servers), removed)
      ensures ok ==> ListView(servers) == P.Without(old(ListView(servers)), serverName)
      ensures listener != null ==>
        var t := old(listener.database.View());
        listener.database.View() == if ok then T.TryDeleteServer(t, serverName, faults) else t
    {
      var server := Find(serverName);
      if server == null {
        return false, null;
      }
      if listener != null {
        listener.DeleteServer(server, faults);
      }
      Detach(server);
      ok, removed := true, server;
    }

    method Detach(server: Server)
      requires Valid() && server in servers
      modifies `servers
      ensures Valid() && servers == Except(old(servers), server)
      ensures ListView(servers) == P.Without(old(ListView(servers)), server.name)
    {
      RemovedView(servers, server);
      UniqueExcept(servers, server);
      servers := Except(servers, server);
    }

    // ------------------------------------------------------ live game servers

    method FindAt(location: string) returns (server: Server?)
      ensures server == ServerAt(servers, location)
    {
      for i := 0 to |servers|
        invariant forall j :: 0 <= j < i ==> servers[j].path != location
      {
        if servers[i].path == location {
          assert IsFirstAt(servers, location, i);
          return servers[i];
        }
      }
      server := null;
    }

    /** The first listed server at the game server's location hears that it is
      * online; without one the game server is not registered.
      */
    method RegisterGameServer(gs: GameServer, meanwhile: seq<seq<M.Change>>)
      requires gs !in gameServers && AllWired(servers)
      modifies `gameServers, gs, ServerAt(servers, gs.location)
      modifies CoordinatorOf(ServerAt(servers, gs.location)), StatusOf(ServerAt(servers, gs.location))
      ensures AllWired(servers)
      ensures var server := ServerAt(servers, gs.location);
        gameServers == if server == null then old(gameServers) else old(gameServers)[gs := server]
      ensures var server := ServerAt(servers, gs.location);
        server != null && server.coordinator != null ==>
          (server.Core(), gs.View()) == K.Online(old(server.Core()), gs.handle, old(gs.View()), meanwhile)
      ensures CoordinatorOf(ServerAt(servers, gs.location)) == null ==> gs.View() == old(gs.View())
      ensures forall s :: s in servers && s != ServerAt(servers, gs.location) && s.coordinator != null ==>
        s.Core() == old(s.Core())
    {
      var server := FindAt(gs.location);
      if server != null {
        Announce(server, gs, meanwhile);
      }
    }

    /** The server's gameServerOnline signal, and then the registry. */
    method Announce(server: Server, gs: GameServer, meanwhile: seq<seq<M.Change>>)
      requires AllWired(servers) && server in servers
      modifies `gameServers, gs, server`starters, server.coordinator, server.status
      ensures AllWired(servers) && gameServers == old(gameServers)[gs := server]
      ensures server.coordinator == null ==> gs.View() == old(gs.View())
      ensures server.coordinator != null ==>
        (server.Core(), gs.View()) == K.Online(old(server.Core()), gs.handle, old(gs.View()), meanwhile)
      ensures forall s :: s in servers && s != server && s.coordinator != null ==> s.Core() == old(s.Core())
    {
      if server.coordinator != null {
        server.GameServerOnline(gs, meanwhile);
      }
      gameServers := gameServers[gs := server];
      forall s | s in servers && s != server && s.coordinator != null
        ensures s.Wired() && s.Core() == old(s.Core())
      {
        assert old(s.Wired());
        assert server.coordinator != null ==> s.coordinator != server.coordinator && s.status != server.status;
      }
    }

    /** Who is told about a game server: nobody once its server was removed, as the
      * server's coordinator and its connections went with it.
      */
    function Hearer(gs: GameServer): Server?
      requires gs in gameServers
      reads this
    {
      if gameServers[gs] in servers then gameServers[gs] else null
    }

    /** `kills` answers the kill of each connection the coordinator was given. */
    method AboutToQuit(gs: GameServer, kills: seq<X.Reply>)
      requires gs in gameServers && AllWired(servers)
      requires CoordinatorOf(Hearer(gs)) != null ==> |kills| == CoordinatorOf(Hearer(gs)).quits[gs.handle]
      modifies `gameServers, CoordinatorOf(Hearer(gs)), StatusOf(Hearer(gs)), TmuxOf(Hearer(gs))
      ensures AllWired(servers) && gameServers == old(gameServers) - {gs}
      ensures var server := old(Hearer(gs));
        CoordinatorOf(server) != null ==> server.Core() == K.Quit(old(server.Core()), gs.handle, kills)
      ensures forall s :: s in servers && s != old(Hearer(gs)) && s.coordinator != null ==> s.Core() == old(s.Core())
    {
      var server := Hearer(gs);
      gameServers := gameServers - {gs};
      if server != null && server.coordinator != null {
        server.coordinator.AboutToQuit(gs.handle, kills);
      }
      forall s | s in servers && s != server && s.coordinator != null ensures s.Wired() && s.Core() == old(s.Core()) {
        assert old(s.Wired());
      }
    }

    /** A ping was lost: the game server is gone. It must still be registered, and its
      * server listed.
      */
    method PingLost(gs: GameServer, kill: X.Reply)
      requires gs in gameServers && gameServers[gs] in servers && AllWired(servers)
      modifies `gameServers, gameServers[gs].coordinator, gameServers[gs].status, gameServers[gs].Tmux()
      ensures AllWired(servers) && gameServers == old(gameServers) - {gs}
      ensures var server := old(gameServers)[gs];
        server.coordinator != null ==>
          server.Core() == K.PingFailed(old(server.Core()), gs.handle, kill) && server.coordinator.state == K.Crashed
      ensures forall s :: s in servers && s != old(gameServers)[gs] && s.coordinator != null ==>
        s.Core() == old(s.Core())
    {
      var server := gameServers[gs];
      if server.coordinator != null {
        server.coordinator.PingFailed(gs.handle, kill);
      }
      gameServers := gameServers - {gs};
      forall s | s in servers && s != server && s.coordinator != null ensures s.Wired() && s.Core() == old(s.Core()) {
        assert old(s.Wired());
      }
    }
  }

  predicate IsFirstAt(ss: seq<Server>, path: string, i: int) {
    0 <= i < |ss| && ss[i].path == path && forall j :: 0 <= j < i ==> ss[j].path != path
  }

  /** The first server at a path. */
  ghost function ServerAt(ss: seq<Server>, path: string): (server: Server?)
    ensures server != null ==> server in ss && server.path == path
  {
    if exists i :: IsFirstAt(ss, path, i) then
      var i :| IsFirstAt(ss, path, i);
      ss[i]
    else null
  }

  function CoordinatorOf(server: Server?): ServerCoordinator? {
    if server == null then null else server.coordinator
  }

  function StatusOf(server: Server?): ServerStatus? {
    if server == null then null else server.status
  }

  function TmuxOf(server: Server?): TmuxSessionWrapper? {
    if server == null then null else server.Tmux()
  }

  /** A server either has all its supervision objects, its own, or none. */
  ghost predicate AllWired(ss: seq<Server>)
    reads ss, set s | s in ss :: s.coordinator, set s | s in ss :: s.status
    reads set s | s in ss && s.coordinator != null :: s.coordinator.tmux
  {
    forall s :: s in ss && s.coordinator != null ==> s.Wired()
  }

  class Persistor {
    const serverManager: ServerManager
    const database: Database

    constructor (serverManager: ServerManager, database: Database)
      ensures this.serverManager == serverManager && this.database == database
    {
      this.serverManager, this.database := serverManager, database;
    }

    /** `failing` are the statements that fail, counted as in Tables.Faults. */
    method StoreServer(server: Server, failing: T.Faults)
      requires server.Configured() && server.configuration.listener == null
      modifies database, server.configuration`listener
      ensures var values := server.configuration.values;
        database.View() == T.StoreServer(old(database.View()), server.path, server.name, values, failing).0
      ensures var r := T.StoreServer(old(database.View()), server.path, server.name, server.configuration.values,
                                     failing);
        server.configuration.listener == if r.1 then this else null
    {
      var values := server.configuration.values;
      var keys := C.Sorted(values.Keys);
      database.Transaction();
      var id := database.InsertServer(server.path, server.name, 0 in failing);
      if id.None? {
        database.Rollback();
        return;
      }
      if 1 in failing {
        database.Rollback();
        return;
      }
      var ok := StoreEntries(id.value, server.configuration, keys, failing);
      if !ok {
        database.Rollback();
        return;
      }
      server.configuration.listener := this;
    }

    method StoreEntries(id: nat, configuration: ServerConfiguration, keys: seq<string>, failing: T.Faults)
      returns (ok: bool)
      requires forall f :: f in failing ==> f >= 2
      modifies database
      ensures database.saved == old(database.saved)
      ensures ok <==> T.Stores(|keys|, failing)
      ensures ok ==> database.View() == T.WithEntries(old(database.View()), id, C.Snapshot(keys, configuration.values))
    {
      ghost var log := C.Snapshot(keys, configuration.values);
      for i := 0 to |keys|
        invariant database.saved == old(database.saved)
        invariant database.View() == T.WithEntries(old(database.View()), id, log[..i])
        invariant T.Stores(i, failing)
      {
        var value := configuration.Value(keys[i]);
        var inserted := database.InsertEntry(Some(id), keys[i], value, 2 + i in failing);
        if !inserted {
          return false;
        }
        assert log[..i + 1][..i] == log[..i];
      }
      assert log[..|keys|] == log;
      ok := true;
    }

    method DeleteServer(server: Server, faults: T.DeleteFaults)
      modifies database
      ensures database.View() == T.TryDeleteServer(old(database.View()), server.name, faults)
    {
      var rows := if faults.select then [] else database.servers;
      ghost var ids := {};
      T.NothingExcepted(database.entries);
      for i := 0 to |rows|
        invariant ids == T.IdsNamed(rows[..i], server.name) - faults.entries
        invariant database.View() == old(database.View()).(entries := T.EntriesExcept(old(database.entries), ids))
      {
        if rows[i].name == server.name {
          database.DeleteEntriesOf(rows[i].id, rows[i].id in faults.entries);
          if rows[i].id !in faults.entries {
            T.DeletesCompose(old(database.entries), ids, rows[i].id);
            ids := ids + {rows[i].id};
          }
        }
        assert rows[..i + 1] == rows[..i] + [rows[i]];
      }
      assert rows[..|rows|] == rows;
      database.DeleteServersNamed(server.name, faults.rows);
    }

    /** A failing statement is only logged. */
    method StoreConfigurationEntry(configuration: ServerConfiguration, key: string, value: string, fails: bool)
      requires configuration.server != null
      modifies database
      ensures database.View()
              == if fails then old(database.View())
                 else T.StoreConfigurationEntry(old(database.View()), configuration.server.name, key, value)
    {
      var id := T.IdOf(database.servers, configuration.server.name);
      var ok := database.InsertEntry(id, key, value, fails);
    }

    /** False when `add` refuses a row's name and its null result is dereferenced. */
    method RestoreServers(installed: string -> bool) returns (ok: bool)
      requires serverManager.servers == [] && serverManager.listener == null
      modifies serverManager`servers
      ensures serverManager.Valid()
      ensures ok <==> P.Restore(database.servers, database.entries).Some?
      ensures ok ==> ListView(serverManager.servers) == P.Restore(database.servers, database.entries).value
      ensures forall s :: s in serverManager.servers ==>
        fresh(s) && fresh(s.configuration) && s.configuration.listener == this
    {
      var rows := database.servers;
      for i := 0 to |rows|
        invariant serverManager.Valid()
        invariant P.Restore(rows[..i], database.entries) == Some(ListView(serverManager.servers))
        invariant forall s :: s in serverManager.servers ==>
          fresh(s) && fresh(s.configuration) && s.configuration.listener == this
      {
        ListViewNames(serverManager.servers, rows[i].name);
        RestoreOneMore(rows, i, database.entries, ListView(serverManager.servers));
        var restored := RestoreServer(rows[i], installed(rows[i].path));
        if !restored {
          NoRestoreFromPrefix(rows, i + 1, database.entries);
          return false;
        }
      }
      assert rows[..|rows|] == rows;
      ok := true;
    }

    method RestoreServer(row: T.ServerRow, installed: bool) returns (ok: bool)
      requires serverManager.Valid() && serverManager.listener == null
      modifies serverManager`servers
      ensures serverManager.Valid() && ok == !NameTaken(old(serverManager.servers), row.name)
      ensures !ok ==> serverManager.servers == old(serverManager.servers)
      ensures ok ==>
        var values := C.Replay(C.Defaults(), T.EntriesOf(database.entries, row.id));
        ListView(serverManager.servers)
          == old(ListView(serverManager.servers)) + [P.Listed(row.path, row.name, values, true)]
      ensures old(serverManager.servers) <= serverManager.servers
      ensures forall s :: s in serverManager.servers && s !in old(serverManager.servers) ==>
        fresh(s) && fresh(s.configuration) && s.configuration.listener == this
    {
      ghost var before := serverManager.servers;
      var server := serverManager.Add(row.path, row.name, installed, {});
      if server == null {
        return false;
      }
      assert serverManager.servers[|before|].Configured();
      RestoreConfiguration(server, row.id);
      assert ListView(before) == old(ListView(before));
      ListViewGrows(before, server);
      ok := true;
    }

    /** Nothing listens to the configuration yet, so replaying it writes no row. */
    method RestoreConfiguration(server: Server, id: nat)
      requires server.Configured() && server.configuration.listener == null
      requires server.configuration.values == C.Defaults()
      modifies server.configuration
      ensures server.Configured() && server.configuration.listener == this
      ensures server.configuration.values == C.Replay(C.Defaults(), T.EntriesOf(database.entries, id))
    {
      var log := T.EntriesOf(database.entries, id);
      for i := 0 to |log|
        invariant server.configuration.listener == null && server.configuration.server == server
        invariant server.configuration.values == C.Replay(C.Defaults(), log[..i])
      {
        server.configuration.SetValue(log[i].key, log[i].value);
        assert log[..i + 1][..i] == log[..i];
      }
      assert log[..|log|] == log;
      C.ReplayKeys(C.Defaults(), log);
      server.configuration.listener := this;
    }

    method Initialize(installed: string -> bool) returns (ok: bool)
      requires serverManager.servers == [] && serverManager.listener == null
      modifies serverManager`servers, serverManager`listener
      ensures serverManager.Valid()
      ensures ok <==> P.Restore(database.servers, database.entries).Some?
      ensures ok ==> ListView(serverManager.servers) == P.Restore(database.servers, database.entries).value
      ensures ok ==> serverManager.listener == this
      ensures forall s :: s in serverManager.servers ==>
        fresh(s) && fresh(s.configuration) && s.configuration.listener == this
    {
      ok := RestoreServers(installed);
      if ok {
        serverManager.listener := this;
      }
    }
  }

  /** The daemon owns the manager and the persistor; the database outlives both.
    * `history` is the run so far.
    */
  class MorgothDaemon {
    var serverManager: ServerManager
    var persistor: Persistor
    const database: Database
    ghost var history: seq<P.Step>

    ghost predicate Connected()
      reads this, serverManager, set s | s in serverManager.servers :: s.configuration
    {
      && serverManager.Valid() && serverManager.listener == persistor
      && persistor.serverManager == serverManager && persistor.database == database
      && forall s :: s in serverManager.servers ==>
        s.configuration.listener == null || s.configuration.listener == persistor
    }

    ghost function View(): P.Daemon
      requires Connected()
      reads this, serverManager, database, set s | s in serverManager.servers :: s.configuration
    {
      P.Daemon(ListView(serverManager.servers), database.View())
    }

    /** The objects are where the run has led. */
    ghost predicate Valid()
      reads this, serverManager, database, set s | s in serverManager.servers :: s.configuration
    {
      Connected() && P.Run(history) == Some(View())
    }

    constructor (database: Database)
      requires database.View() == T.Empty()
      ensures Valid() && history == [] && this.database == database
      ensures fresh(serverManager) && fresh(persistor) && serverManager.servers == []
    {
      var manager := new ServerManager();
      var p := new Persistor(manager, database);
      manager.listener := p;
      this.database, serverManager, persistor, history := database, manager, p, [];
    }

    ghost method Record(step: P.Step)
      requires Connected() && P.Run(history).Some? && P.Next(P.Run(history).value, step) == Some(View())
      modifies `history
      ensures Valid() && history == old(history) + [step]
    {
      assert (history + [step])[..|history|] == history;
      history := history + [step];
    }

    method AddServer(path: string, name: string, installed: bool, tweaks: seq<C.Entry>, failing: T.Faults)
      returns (ok: bool)
      requires Valid()
      modifies this`history, serverManager`servers, database
      ensures Valid() && history == old(history) + [P.Add(path, name, tweaks, failing)]
      ensures ok == !P.Taken(old(View()).mem, name)
      ensures old(serverManager.servers) <= serverManager.servers
      ensures forall s :: s in serverManager.servers && s !in old(serverManager.servers) ==>
        fresh(s) && fresh(s.configuration)
    {
      var server := NewServer(path, name, installed, tweaks);
      ok := List(server, failing);
      Record(P.Add(path, name, tweaks, failing));
    }

    method NewServer(path: string, name: string, installed: bool, tweaks: seq<C.Entry>) returns (server: Server)
      ensures fresh(server) && server.Configured()
      ensures fresh(server.configuration) && server.configuration.listener == null
      ensures server.path == path && server.name == name
      ensures server.configuration.values == C.Replay(C.Defaults(), tweaks)
    {
      server := new Server(path, name, installed);
      for i := 0 to |tweaks|
        invariant server.configuration.listener == null && server.configuration.server == server
        invariant server.configuration.values == C.Replay(C.Defaults(), tweaks[..i])
      {
        server.configuration.SetValue(tweaks[i].key, tweaks[i].value);
        assert tweaks[..i + 1][..i] == tweaks[..i];
      }
      assert tweaks[..|tweaks|] == tweaks;
      C.ReplayKeys(C.Defaults(), tweaks);
    }

    method List(server: Server, failing: T.Faults) returns (ok: bool)
      requires Connected() && server.Configured() && server.configuration.listener == null
      requires server !in serverManager.servers
      modifies serverManager`servers, server.configuration`listener, database
      ensures Connected() && ok == !P.Taken(old(View()).mem, server.name)
      ensures View() == P.AddServer(old(View()), server.path, server.name, server.configuration.values, failing)
      ensures serverManager.servers == old(serverManager.servers) + if ok then [server] else []
    {
      ghost var before := View();
      ghost var ss := serverManager.servers;
      ListViewNames(ss, server.name);
      ok := serverManager.AddServer(server, failing);
      if ok {
        forall i | 0 <= i < |ss| ensures ss[i].View() == before.mem[i] {
          assert ss[i].configuration.server != server.configuration.server;
        }
        assert ListView(ss) == before.mem;
        ListViewGrows(ss, server);
      }
    }

    method RemoveServer(name: string, failing: T.DeleteFaults) returns (ok: bool)
      requires Valid()
      modifies this`history, serverManager`servers, database
      ensures Valid() && history == old(history) + [P.Remove(name, failing)]
      ensures ok == P.Taken(old(View()).mem, name)
      ensures forall s :: s in serverManager.servers ==> s in old(serverManager.servers)
    {
      ok := Unlist(name, failing);
      Record(P.Remove(name, failing));
    }

    method Unlist(name: string, failing: T.DeleteFaults) returns (ok: bool)
      requires Connected()
      modifies serverManager`servers, database
      ensures Connected() && ok == P.Taken(old(View()).mem, name)
      ensures View() == P.RemoveServer(old(View()), name, failing)
      ensures forall s :: s in serverManager.servers ==> s in old(serverManager.servers)
    {
      ghost var ss := serverManager.servers;
      ghost var before := ListView(ss);
      assert P.Taken(before, name) == NameTaken(ss, name) by {
        ListViewNames(ss, name);
      }
      ghost var removed;
      ok, removed := serverManager.Remove(name, failing);
    }

    /** Writing through the configuration object of a listed server. */
    method SetValue(server: Server, key: string, value: string, fails: bool)
      requires Valid() && server in serverManager.servers
      modifies this`history, server.configuration`values, database
      ensures Valid() && history == old(history) + [P.Set(server.name, key, value, fails)]
    {
      Write(server, key, value, fails);
      Record(P.Set(server.name, key, value, fails));
    }

    method Write(server: Server, key: string, value: string, fails: bool)
      requires Connected() && server in serverManager.servers
      modifies server.configuration`values, database
      ensures Connected() && View() == P.WriteValue(old(View()), server.name, key, value, fails)
    {
      ghost var ss := serverManager.servers;
      ghost var before := ListView(ss);
      NamesSingleOut(ss, server);
      ghost var i :| 0 <= i < |ss| && ss[i] == server;
      server.configuration.SetValue(key, value, fails);
      WrittenView(before, ss, i, key, value);
    }

    /** Unless storing has failed, the servers in memory are those of the same run
      * without its restarts.
      */
    lemma RestartsWereInvisible()
      requires Valid() && P.NoFailure(history)
      ensures var run := P.Run(P.WithoutRestarts(history));
        run.Some? && P.SameServers(ListView(serverManager.servers), run.value.mem)
    {
      P.RestartsAreInvisible(history);
    }

    /** Everything in memory is dropped and rebuilt, as new objects. False when the
      * restored rows repeat a name; the daemon has crashed then.
      */
    method Restart(installed: string -> bool) returns (ok: bool)
      requires Valid()
      modifies this
      ensures ok <==> P.Run(old(history) + [P.Restart]).Some?
      ensures P.AllObeyed(old(history)) ==> ok
      ensures ok ==> Valid() && history == old(history) + [P.Restart]
      ensures fresh(serverManager) && fresh(persistor)
      ensures forall s :: s in serverManager.servers ==> fresh(s) && fresh(s.configuration)
    {
      RestartSucceedsIff(history);
      ok := Rebuild(installed);
      if ok {
        Record(P.Restart);
      }
    }

    method Rebuild(installed: string -> bool) returns (ok: bool)
      requires Connected()
      modifies `serverManager, `persistor
      ensures ok <==> P.Restore(database.servers, database.entries).Some?
      ensures ok ==> Connected()
      ensures ok ==> View() == P.Daemon(P.Restore(database.servers, database.entries).value, database.View())
      ensures fresh(serverManager) && fresh(persistor)
      ensures forall s :: s in serverManager.servers ==> fresh(s) && fresh(s.configuration)
    {
      var manager := new ServerManager();
      var p := new Persistor(manager, database);
      ok := p.Initialize(installed);
      serverManager := manager;
      persistor := p;
    }
  }

  lemma RestartSucceedsIff(history: seq<P.Step>)
    requires P.Run(history).Some?
    ensures var t := P.Run(history).value.tables;
      && (P.Run(history + [P.Restart]).Some? <==> P.Restore(t.servers, t.entries).Some?)
      && (P.AllObeyed(history) ==> P.Restore(t.servers, t.entries).Some?)
  {
    assert (history + [P.Restart])[..|history|] == history;
    if P.AllObeyed(history) {
      P.ReachableTables(history);
    }
  }

  /** One configuration of a uniquely named server was written. */
  lemma WrittenView(before: P.Memory, ss: seq<Server>, i: nat, key: string, value: string)
    requires AllConfigured(ss) && UniqueNames(ss) && i < |ss| == |before|
    requires forall j :: 0 <= j < |ss| && j != i ==> before[j] == ss[j].View()
    requires before[i].(values := C.SetValue(before[i].values, key, value)) == ss[i].View()
    ensures ListView(ss) == P.Written(before, ss[i].name, key, value)
    ensures P.Logs(before, ss[i].name, key, value) <==> before[i].stored && C.Value(before[i].values, key) != value
  {
  }

  lemma RestoreOneMore(rows: seq<T.ServerRow>, i: nat, entries: seq<T.EntryRow>, mem: P.Memory)
    requires i < |rows| && P.Restore(rows[..i], entries) == Some(mem)
    ensures P.Restore(rows[..i + 1], entries)
            == if P.Taken(mem, rows[i].name) then None
               else var values := C.Replay(C.Defaults(), T.EntriesOf(entries, rows[i].id));
                 Some(mem + [P.Listed(rows[i].path, rows[i].name, values, true)])
  {
    assert rows[..i + 1][..i] == rows[..i];
  }

  lemma {:induction false} NoRestoreFromPrefix(rows: seq<T.ServerRow>, k: nat, entries: seq<T.EntryRow>)
    requires k <= |rows| && P.Restore(rows[..k], entries).None?
    ensures P.Restore(rows, entries).None?
    decreases |rows| - k
  {
    if k == |rows| {
      assert rows[..k] == rows;
    } else {
      assert rows[..k + 1][..k] == rows[..k];
      NoRestoreFromPrefix(rows, k + 1, entries);
    }
  }
}
