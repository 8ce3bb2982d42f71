/** All servers and all game servers together: the events that happen to them,
  * and what holds after any run of events.
  */
module World {
  import opened Common
  import opened Tmux
  import opened Status
  import opened Mirror
  import opened Coordinator

  /** `writers` says, for each mirrored field written since the last reset, which
    * game server's text was put there last.
    */
  datatype Unit = Unit(path: string, core: Core, writers: map<Field, nat>)

  /** `order` is the server list; `registry` maps each live game server to its
    * server, and `remotes` to its remote end; `orphans` are the live game servers
    * whose server was removed. The last three fields count the ways in and out.
    */
  datatype World = World(order: seq<nat>, units: map<nat, Unit>, registry: map<nat, nat>, remotes: map<nat, Remote>,
                         orphans: set<nat>, nextServer: nat, nextGameServer: nat, nextStarter: nat,
                         registrations: nat, departures: nat, pingFailures: nat)

  const INIT := World([], map[], map[], map[], {}, 0, 0, 0, 0, 0, 0)

  datatype PingReply = Answered | NoReply | Timeout | Disconnected | TimedOut | OtherError

  predicate IsLost(reply: PingReply) {
    reply in {NoReply, Timeout, Disconnected, TimedOut}
  }

  datatype Event =
    | AddServer(path: string, valid: bool)
    | RemoveServer(server: nat)
    | StartServer(server: nat, user: string, replies: StartReplies)
    | StopServer(server: nat)
    | Connect(location: string, maxPlayers: int, address: string, map_: string, conVars: map<string, string>,
              meanwhile: seq<seq<Change>>)
    | AboutToQuit(gs: nat, kills: seq<Reply>)
    | OrphanQuits(gs: nat)
    | Pinged(gs: nat, reply: PingReply, kill: Reply)
    | StarterTimeout(server: nat, starter: nat)
    | SessionEnds(server: nat, user: string)
    | RemoteChange(gs: nat, change: Change)
    | Delivery(gs: nat, name: string, steamId: nat)

  /** The first listed server at a path. */
  function FirstAt(order: seq<nat>, units: map<nat, Unit>, path: string): (s: Option<nat>)
    requires forall s :: s in order ==> s in units
    ensures s.Some? ==> s.value in order && units[s.value].path == path
  {
    if order == [] then None
    else
      var last := order[|order| - 1];
      var earlier := FirstAt(order[..|order| - 1], units, path);
      if earlier.None? && units[last].path == path then Some(last) else earlier
  }

  predicate Listed(w: World) {
    (forall s :: s in w.order ==> s in w.units) && (forall s :: s in w.units ==> s in w.order)
  }

  predicate Mapped(w: World) {
    w.registry.Keys == w.remotes.Keys && forall gs :: gs in w.registry ==> w.registry[gs] in w.units
  }

  /** What the environment may do next. An invalid installation has no coordinator
    * to start or stop, a ping fails once and only while the server is listed, and a
    * player leaves only when listed.
    */
  predicate Allowed(w: World, e: Event)
    requires Listed(w) && Mapped(w)
  {
    match e
    case AddServer(_, _) => true
    case RemoveServer(s) => s in w.units
    case StartServer(s, _, _) => s in w.units && w.units[s].core.valid
    case StopServer(s) => s in w.units && w.units[s].core.valid
    case Connect(_, _, _, _, _, _) => true
    case AboutToQuit(gs, kills) => gs in w.registry && |kills| == w.units[w.registry[gs]].core.quits[gs]
    case OrphanQuits(gs) => gs in w.orphans
    case Pinged(gs, reply, _) => IsLost(reply) ==> gs in w.registry
    case StarterTimeout(s, starter) => s in w.units && starter in w.units[s].core.armed
    case SessionEnds(s, _) => s in w.units
    case RemoteChange(gs, _) => gs in w.registry
    case Delivery(gs, _, _) =>
      && gs in w.registry && w.remotes[gs].queue != []
      && var n := w.remotes[gs].queue[0];
         n.PlayerDisconnected? ==> IsListed(w.units[w.registry[gs]].core.status.players, n.id)
  }

  function Without(order: seq<nat>, server: nat): seq<nat> {
    Filter(order, (s: nat) => s != server)
  }

  /** One more server at the end of the list. */
  function WithServer(w: World, path: string, valid: bool): World {
    w.(order := w.order + [w.nextServer],
       units := w.units[w.nextServer := Unit(path, NewCore(valid, true), map[])],
       nextServer := w.nextServer + 1)
  }

  function GameServersOf(registry: map<nat, nat>, s: nat): set<nat> {
    set gs | gs in registry && registry[gs] == s
  }

  /** The server goes, with its coordinator and status. Its game servers stay
    * registered, for nobody.
    */
  function WithoutServer(w: World, s: nat): World {
    var left := GameServersOf(w.registry, s);
    w.(order := Without(w.order, s), units := w.units - {s},
       registry := w.registry - left, remotes := w.remotes - left, orphans := w.orphans + left)
  }

  /** A unit after its core changed; a reset leaves no field written. */
  function After(u: Unit, core: Core): Unit {
    Unit(u.path, core, if core.status.resets == u.core.status.resets then u.writers else map[])
  }

  function AllWrittenBy(gs: nat): map<Field, nat> {
    map[Map := gs, Hostname := gs, Password := gs, StvPassword := gs, StvPort := gs]
  }

  function With(w: World, s: nat, core: Core): World
    requires s in w.units
  {
    w.(units := w.units[s := After(w.units[s], core)])
  }

  /** A game server leaves: the coordinator, if there is one, hears it and ends up
    * as `heard`; the proxy's connections go.
    */
  function Left(c: Core, heard: Core, gs: nat): Core {
    if c.valid then heard else Forget(c, gs)
  }

  /** The newcomer enters the registry, and its server becomes `u`. */
  function Enter(w: World, s: nat, u: Unit, q: Remote): World {
    var gs := w.nextGameServer;
    w.(units := w.units[s := u], registry := w.registry[gs := s], remotes := w.remotes[gs := q],
       nextGameServer := gs + 1, registrations := w.registrations + 1)
  }

  /** The server hears of the newcomer and takes its snapshot. */
  function Greet(w: World, s: nat, r: Remote, meanwhile: seq<seq<Change>>): World
    requires s in w.units
  {
    var u, gs := w.units[s], w.nextGameServer;
    var (core, q) := Online(u.core, gs, r, meanwhile);
    Enter(w, s, After(Unit(u.path, u.core, AllWrittenBy(gs)), core), q)
  }

  /** `registerGameServer`: every connection gets a proxy of its own. */
  function Register(w: World, r: Remote, meanwhile: seq<seq<Change>>): World
    requires Listed(w)
  {
    match FirstAt(w.order, w.units, r.location)
    case None => w.(nextGameServer := w.nextGameServer + 1)
    case Some(s) =>
      if w.units[s].core.valid then Greet(w, s, r, meanwhile) else Enter(w, s, w.units[s], r)
  }

  function Drop(w: World, gs: nat): World {
    w.(registry := w.registry - {gs}, remotes := w.remotes - {gs})
  }

  function DeliverNext(w: World, gs: nat, name: string, steamId: nat): World
    requires Mapped(w) && gs in w.registry && w.remotes[gs].queue != []
  {
    var s, r := w.registry[gs], w.remotes[gs];
    var u, n := w.units[s], r.queue[0];
    var core := u.core.(status := Deliver(u.core.status, n, name, steamId));
    var writers := if Subject(n).Some? then u.writers[Subject(n).value := gs] else u.writers;
    w.(units := w.units[s := Unit(u.path, core, writers)], remotes := w.remotes[gs := r.(queue := r.queue[1..])])
  }

  function Next(w: World, e: Event): (v: World)
    requires Listed(w) && Mapped(w) && Allowed(w, e)
    ensures v.registry.Keys == v.remotes.Keys
  {
    match e
    case AddServer(path, valid) => WithServer(w, path, valid)
    case RemoveServer(s) => WithoutServer(w, s)
    case StartServer(s, user, replies) =>
      With(w, s, Start(w.units[s].core, w.nextStarter, user, replies)).(nextStarter := w.nextStarter + 1)
    case StopServer(s) => With(w, s, Stop(w.units[s].core))
    case Connect(location, maxPlayers, address, m, conVars, meanwhile) =>
      Register(w, Connected(location, maxPlayers, address, m, conVars), meanwhile)
    case AboutToQuit(gs, kills) =>
      var s := w.registry[gs];
      var c := w.units[s].core;
      Drop(With(w, s, Left(c, Quit(c, gs, kills), gs)), gs).(departures := w.departures + 1)
    case OrphanQuits(gs) => w.(orphans := w.orphans - {gs}, departures := w.departures + 1)
    case Pinged(gs, reply, kill) =>
      if !IsLost(reply) then w
      else
        var s := w.registry[gs];
        var c := w.units[s].core;
        Drop(With(w, s, Left(c, PingFailed(c, gs, kill), gs)), gs).(pingFailures := w.pingFailures + 1)
    case StarterTimeout(s, starter) => With(w, s, TimeOut(w.units[s].core, starter))
    case SessionEnds(s, user) => With(w, s, SessionLost(w.units[s].core, user))
    case RemoteChange(gs, change) => w.(remotes := w.remotes[gs := Happen(w.remotes[gs], change)])
    case Delivery(gs, name, steamId) => DeliverNext(w, gs, name, steamId)
  }

  // ------------------------------------------------------------------ invariant

  /** Each live game server belongs to the first listed server at its location. */
  ghost predicate Placed(w: World)
    requires Listed(w)
  {
    && Mapped(w)
    && (forall gs :: gs in w.registry ==> gs < w.nextGameServer)
    && (forall gs :: gs in w.registry ==> FirstAt(w.order, w.units, w.remotes[gs].location) == Some(w.registry[gs]))
  }

  /** Every registration is still live, or has left once. */
  predicate Accounted(w: World) {
    w.registrations == |w.registry| + |w.orphans| + w.departures + w.pingFailures
  }

  /** Orphans have been registered, and have lost their server. */
  predicate Orphaned(w: World) {
    forall gs :: gs in w.orphans ==> gs < w.nextGameServer && gs !in w.registry
  }

  ghost predicate AllHealthy(units: map<nat, Unit>) {
    forall s :: s in units ==> Healthy(units[s].core)
  }

  /** Every queue ends with current texts. */
  ghost predicate AllAnnounced(remotes: map<nat, Remote>) {
    forall gs, f :: gs in remotes ==> Announced(remotes[gs], f)
  }

  predicate Single(armed: seq<nat>) {
    forall i, j :: 0 <= i < j < |armed| ==> armed[i] != armed[j]
  }

  ghost predicate Linked(c: Core, s: nat, registry: map<nat, nat>, nextStarter: nat) {
    && (forall a :: a in c.armed ==> a < nextStarter)
    && Single(c.armed)
    && (forall gs :: gs in c.quits ==> gs in registry && registry[gs] == s)
  }

  /** Starters are single, and only live game servers of a server are connected to it. */
  ghost predicate AllLinked(w: World) {
    forall s :: s in w.units ==> s < w.nextServer && Linked(w.units[s].core, s, w.registry, w.nextStarter)
  }

  ghost predicate Follows(status: Status, writers: map<Field, nat>, s: nat, registry: map<nat, nat>,
                          remotes: map<nat, Remote>)
    requires registry.Keys == remotes.Keys
  {
    forall f :: f in writers && writers[f] in registry ==>
      registry[writers[f]] == s && Settled(status, remotes[writers[f]], f)
  }

  /** A field last written by a live game server is settled with it. */
  ghost predicate AllFollow(w: World)
    requires w.registry.Keys == w.remotes.Keys
  {
    forall s :: s in w.units ==>
      && (forall f :: f in w.units[s].writers ==> w.units[s].writers[f] < w.nextGameServer)
      && Follows(w.units[s].core.status, w.units[s].writers, s, w.registry, w.remotes)
  }

  ghost predicate Valid(w: World) {
    && Listed(w) && Placed(w) && Orphaned(w) && Accounted(w)
    && AllHealthy(w.units) && AllAnnounced(w.remotes) && AllLinked(w) && AllFollow(w)
  }

  // ---------------------------------------------------------------- small lemmas

  lemma {:induction false} FirstAtReads(order: seq<nat>, a: map<nat, Unit>, b: map<nat, Unit>, path: string)
    requires forall s :: s in order ==> s in a && s in b && a[s].path == b[s].path
    ensures FirstAt(order, a, path) == FirstAt(order, b, path)
  {
    if order == [] {
    } else {
      FirstAtReads(order[..|order| - 1], a, b, path);
    }
  }

  lemma {:induction false} FirstAtWithout(order: seq<nat>, units: map<nat, Unit>, server: nat, path: string)
    requires forall s :: s in order ==> s in units
    ensures forall s :: s in Without(order, server) <==> s in order && s != server
    ensures FirstAt(order, units, path).Some? && FirstAt(order, units, path).value != server ==>
      FirstAt(Without(order, server), units, path) == FirstAt(order, units, path)
  {
    if order == [] {
    } else {
      var k := |order| - 1;
      assert order == order[..k] + [order[k]];
      FirstAtWithout(order[..k], units, server, path);
      var left := Without(order[..k], server);
      assert (left + [order[k]])[..|left|] == left;
      assert left + [] == left;
      if FirstAt(order[..k], units, path).None? {
        FirstAtOfNone(order[..k], units, server, path);
      }
    }
  }

  lemma {:induction false} FirstAtOfNone(order: seq<nat>, units: map<nat, Unit>, server: nat, path: string)
    requires forall s :: s in order ==> s in units
    requires FirstAt(order, units, path).None?
    ensures forall s :: s in Without(order, server) ==> s in order
    ensures FirstAt(Without(order, server), units, path).None?
  {
    if order == [] {
    } else {
      var k := |order| - 1;
      FirstAtOfNone(order[..k], units, server, path);
      var left := Without(order[..k], server);
      assert (left + [order[k]])[..|left|] == left;
      assert left + [] == left;
    }
  }

  /** Where game servers belong depends on no unit's core. */
  lemma PlacedReads(w: World, v: World)
    requires Listed(w) && Placed(w)
    requires v.order == w.order && v.units.Keys == w.units.Keys
    requires forall s :: s in w.units ==> v.units[s].path == w.units[s].path
    requires v.registry.Keys == v.remotes.Keys && v.registry.Keys <= w.registry.Keys
    requires v.nextGameServer == w.nextGameServer
    requires forall gs :: gs in v.registry ==>
      v.registry[gs] == w.registry[gs] && v.remotes[gs].location == w.remotes[gs].location
    ensures Listed(v) && Placed(v)
  {
    forall gs | gs in v.registry ensures FirstAt(v.order, v.units, v.remotes[gs].location) == Some(v.registry[gs]) {
      FirstAtReads(w.order, w.units, v.units, w.remotes[gs].location);
    }
  }

  // -------------------------------------------- placement and accounting

  /** The events that only change one server's core. */
  function CoreAfter(w: World, e: Event): Core
    requires Listed(w) && Mapped(w) && Allowed(w, e) && ChangesOneCore(e)
  {
    var c := w.units[e.server].core;
    match e
    case StartServer(_, user, replies) => Start(c, w.nextStarter, user, replies)
    case StopServer(_) => Stop(c)
    case StarterTimeout(_, starter) => TimeOut(c, starter)
    case SessionEnds(_, user) => SessionLost(c, user)
  }

  predicate ChangesOneCore(e: Event) {
    e.StartServer? || e.StopServer? || e.StarterTimeout? || e.SessionEnds?
  }

  lemma AddKeepsPlaced(w: World, e: Event)
    requires Listed(w) && Placed(w) && w.nextServer !in w.units && e.AddServer?
    ensures Listed(Next(w, e)) && Placed(Next(w, e))
  {
    var v := Next(w, e);
    assert forall s :: s in v.order <==> s in w.order || s == w.nextServer;
    forall gs | gs in w.registry ensures FirstAt(v.order, v.units, v.remotes[gs].location) == Some(w.registry[gs]) {
      assert v.order[..|w.order|] == w.order;
      FirstAtReads(w.order, w.units, v.units, w.remotes[gs].location);
    }
  }

  lemma RemoveKeepsPlaced(w: World, s: nat)
    requires Listed(w) && Placed(w) && s in w.units
    ensures Listed(WithoutServer(w, s)) && Placed(WithoutServer(w, s))
  {
    var v := WithoutServer(w, s);
    FirstAtWithout(w.order, w.units, s, "");
    forall gs | gs in v.registry ensures FirstAt(v.order, v.units, v.remotes[gs].location) == Some(v.registry[gs]) {
      assert v.registry[gs] == w.registry[gs] != s;
      FirstAtWithout(w.order, w.units, s, w.remotes[gs].location);
      FirstAtReads(v.order, w.units, v.units, w.remotes[gs].location);
    }
  }

  lemma EnterKeepsPlaced(w: World, s: nat, u: Unit, q: Remote)
    requires Listed(w) && Placed(w) && s in w.units && u.path == w.units[s].path
    requires FirstAt(w.order, w.units, q.location) == Some(s)
    ensures Listed(Enter(w, s, u, q)) && Placed(Enter(w, s, u, q))
  {
    var v := Enter(w, s, u, q);
    forall g | g in v.registry ensures FirstAt(v.order, v.units, v.remotes[g].location) == Some(v.registry[g]) {
      FirstAtReads(w.order, w.units, v.units, v.remotes[g].location);
    }
  }

  lemma GreetKeepsPlaced(w: World, s: nat, r: Remote, meanwhile: seq<seq<Change>>)
    requires Listed(w) && Placed(w) && s in w.units && FirstAt(w.order, w.units, r.location) == Some(s)
    ensures Listed(Greet(w, s, r, meanwhile)) && Placed(Greet(w, s, r, meanwhile))
  {
    var u, gs := w.units[s], w.nextGameServer;
    TrackKeepsTheRest(u.core.status, r, meanwhile);
    var (core, q) := Online(u.core, gs, r, meanwhile);
    EnterKeepsPlaced(w, s, After(Unit(u.path, u.core, AllWrittenBy(gs)), core), q);
  }

  lemma RegisterKeepsPlaced(w: World, r: Remote, meanwhile: seq<seq<Change>>)
    requires Listed(w) && Placed(w)
    ensures Listed(Register(w, r, meanwhile)) && Placed(Register(w, r, meanwhile))
  {
    match FirstAt(w.order, w.units, r.location)
    case None =>
    case Some(s) =>
      if w.units[s].core.valid {
        GreetKeepsPlaced(w, s, r, meanwhile);
      } else {
        EnterKeepsPlaced(w, s, w.units[s], r);
      }
  }

  lemma HappenKeepsLocation(r: Remote, change: Change)
    ensures Happen(r, change).location == r.location
  {
  }

  lemma DepartureKeepsPlaced(w: World, e: Event)
    requires Listed(w) && Placed(w) && Allowed(w, e) && (e.AboutToQuit? || e.Pinged?)
    ensures Listed(Next(w, e)) && Placed(Next(w, e))
  {
    PlacedReads(w, Next(w, e));
  }

  lemma DeliveryKeepsPlaced(w: World, gs: nat, name: string, steamId: nat)
    requires Listed(w) && Placed(w) && gs in w.registry && w.remotes[gs].queue != []
    ensures Listed(DeliverNext(w, gs, name, steamId)) && Placed(DeliverNext(w, gs, name, steamId))
  {
    PlacedReads(w, DeliverNext(w, gs, name, steamId));
  }

  lemma ChangeKeepsPlaced(w: World, gs: nat, change: Change)
    requires Listed(w) && Placed(w) && gs in w.registry
    ensures var v := w.(remotes := w.remotes[gs := Happen(w.remotes[gs], change)]); Listed(v) && Placed(v)
  {
    HappenKeepsLocation(w.remotes[gs], change);
    PlacedReads(w, w.(remotes := w.remotes[gs := Happen(w.remotes[gs], change)]));
  }

  lemma CoreEventKeepsPlaced(w: World, e: Event)
    requires Listed(w) && Placed(w) && Allowed(w, e) && ChangesOneCore(e)
    ensures Listed(Next(w, e)) && Placed(Next(w, e))
  {
    PlacedReads(w, Next(w, e));
  }

  lemma NextKeepsPlaced(w: World, e: Event)
    requires Listed(w) && Placed(w) && Allowed(w, e) && w.nextServer !in w.units
    ensures Listed(Next(w, e)) && Placed(Next(w, e))
  {
    match e
    case AddServer(_, _) => AddKeepsPlaced(w, e);
    case RemoveServer(s) => RemoveKeepsPlaced(w, s);
    case OrphanQuits(_) =>
    case Connect(location, maxPlayers, address, m, conVars, meanwhile) =>
      RegisterKeepsPlaced(w, Connected(location, maxPlayers, address, m, conVars), meanwhile);
    case RemoteChange(gs, change) => ChangeKeepsPlaced(w, gs, change);
    case Delivery(gs, name, steamId) => DeliveryKeepsPlaced(w, gs, name, steamId);
    case _ =>
      if ChangesOneCore(e) {
        CoreEventKeepsPlaced(w, e);
      } else {
        DepartureKeepsPlaced(w, e);
      }
  }

  lemma SmallerByOne(registry: map<nat, nat>, gs: nat)
    requires gs in registry
    ensures |registry| == |registry - {gs}| + 1
  {
  }

  lemma RegisterKeepsAccounted(w: World, r: Remote, meanwhile: seq<seq<Change>>)
    requires Listed(w) && Accounted(w) && w.nextGameServer !in w.registry
    ensures Accounted(Register(w, r, meanwhile))
  {
  }

  lemma RemovalOrphans(w: World, s: nat)
    requires Orphaned(w)
    ensures var v := WithoutServer(w, s); |v.registry| + |v.orphans| == |w.registry| + |w.orphans|
  {
    var left := GameServersOf(w.registry, s);
    var v := WithoutServer(w, s);
    assert v.registry.Keys == w.registry.Keys - left;
    assert |w.registry.Keys| == |w.registry.Keys - left| + |left|;
    assert |v.registry| == |v.registry.Keys| && |w.registry| == |w.registry.Keys|;
  }

  lemma NextKeepsOrphaned(w: World, e: Event)
    requires Listed(w) && Mapped(w) && Orphaned(w) && Allowed(w, e)
    requires forall gs :: gs in w.registry ==> gs < w.nextGameServer
    ensures Orphaned(Next(w, e))
  {
  }

  lemma NextKeepsAccounted(w: World, e: Event)
    requires Listed(w) && Mapped(w) && Orphaned(w) && Accounted(w) && Allowed(w, e) && w.nextGameServer !in w.registry
    ensures Accounted(Next(w, e))
  {
    if e.RemoveServer? {
      RemovalOrphans(w, e.server);
    }
    if e.AboutToQuit? || (e.Pinged? && IsLost(e.reply)) {
      SmallerByOne(w.registry, e.gs);
    } else if e.Connect? {
      RegisterKeepsAccounted(w, Connected(e.location, e.maxPlayers, e.address, e.map_, e.conVars), e.meanwhile);
    }
  }

  // --------------------------------------------------------- healthy servers

  lemma CoreAfterIsHealthy(w: World, e: Event)
    requires Listed(w) && Mapped(w) && Allowed(w, e) && ChangesOneCore(e)
    requires Healthy(w.units[e.server].core)
    ensures Healthy(CoreAfter(w, e))
  {
    var c := w.units[e.server].core;
    match e
    case StartServer(_, user, replies) => StartKeepsHealthy(c, w.nextStarter, user, replies);
    case StopServer(_) => OthersKeepHealthy(c, "");
    case StarterTimeout(_, starter) => TimeOutKeepsHealthy(c, starter);
    case SessionEnds(_, user) => OthersKeepHealthy(c, user);
  }

  lemma RegisterKeepsHealthy(w: World, r: Remote, meanwhile: seq<seq<Change>>)
    requires Listed(w) && AllHealthy(w.units)
    ensures AllHealthy(Register(w, r, meanwhile).units)
  {
    match FirstAt(w.order, w.units, r.location)
    case None =>
    case Some(s) => OnlineKeepsHealthy(w.units[s].core, w.nextGameServer, r, meanwhile);
  }

  lemma GameServerEventKeepsHealthy(w: World, e: Event)
    requires Listed(w) && Mapped(w) && Allowed(w, e)
    requires e.AboutToQuit? || (e.Pinged? && IsLost(e.reply)) || e.Delivery?
    requires Healthy(w.units[w.registry[e.gs]].core)
    ensures var s := w.registry[e.gs]; s in Next(w, e).units && Healthy(Next(w, e).units[s].core)
  {
    var c := w.units[w.registry[e.gs]].core;
    assert !c.valid && !e.Delivery? ==> Forget(c, e.gs) == c;
    match e
    case AboutToQuit(gs, kills) => QuitKeepsHealthy(c, gs, kills);
    case Pinged(gs, _, kill) => PingFailedKeepsHealthy(c, gs, kill);
    case Delivery(gs, name, steamId) =>
      var n := w.remotes[gs].queue[0];
      DeliverKeepsCounted(c.status, n, name, steamId);
      StatusKeepsHealthy(c, Deliver(c.status, n, name, steamId));
  }

  lemma HealthyWith(w: World, v: World, s: nat)
    requires AllHealthy(w.units) && s in v.units && v.units == w.units[s := v.units[s]] && Healthy(v.units[s].core)
    ensures AllHealthy(v.units)
  {
  }

  lemma GameServerEventKeepsAllHealthy(w: World, e: Event)
    requires Listed(w) && Mapped(w) && AllHealthy(w.units) && Allowed(w, e)
    requires e.AboutToQuit? || (e.Pinged? && IsLost(e.reply)) || e.Delivery?
    ensures AllHealthy(Next(w, e).units)
  {
    GameServerEventKeepsHealthy(w, e);
    HealthyWith(w, Next(w, e), w.registry[e.gs]);
  }

  lemma NewcomerIsHealthy(w: World, path: string, valid: bool)
    requires AllHealthy(w.units)
    ensures AllHealthy(WithServer(w, path, valid).units)
  {
    assert Healthy(NewCore(valid, true));
  }

  lemma NextKeepsHealthy(w: World, e: Event)
    requires Listed(w) && Mapped(w) && AllHealthy(w.units) && Allowed(w, e)
    ensures AllHealthy(Next(w, e).units)
  {
    if ChangesOneCore(e) {
      CoreEventKeepsHealthy(w, e);
    } else if e.AboutToQuit? || (e.Pinged? && IsLost(e.reply)) || e.Delivery? {
      GameServerEventKeepsAllHealthy(w, e);
    } else {
      OtherEventKeepsHealthy(w, e);
    }
  }

  lemma OtherEventKeepsHealthy(w: World, e: Event)
    requires Listed(w) && Mapped(w) && AllHealthy(w.units) && Allowed(w, e) && !ChangesOneCore(e)
    requires !e.AboutToQuit? && !(e.Pinged? && IsLost(e.reply)) && !e.Delivery?
    ensures AllHealthy(Next(w, e).units)
  {
    match e
    case AddServer(path, valid) => NewcomerIsHealthy(w, path, valid);
    case Connect(location, maxPlayers, address, m, conVars, meanwhile) =>
      RegisterKeepsHealthy(w, Connected(location, maxPlayers, address, m, conVars), meanwhile);
    case _ =>
  }

  lemma CoreEventKeepsHealthy(w: World, e: Event)
    requires Listed(w) && Mapped(w) && AllHealthy(w.units) && Allowed(w, e) && ChangesOneCore(e)
    ensures AllHealthy(Next(w, e).units)
  {
    CoreAfterIsHealthy(w, e);
    HealthyWith(w, Next(w, e), e.server);
  }

  // ---------------------------------------------------- starters and connections

  lemma {:induction false} RemoveStarterKeepsSingle(armed: seq<nat>, starter: nat)
    requires Single(armed)
    ensures forall a :: a in RemoveStarter(armed, starter) <==> a in armed && a != starter
    ensures Single(RemoveStarter(armed, starter))
  {
    if armed == [] {
    } else {
      var rest := armed[1..];
      assert armed == [armed[0]] + rest;
      assert Single(rest) && armed[0] !in rest by {
        assert forall i :: 0 <= i < |rest| ==> rest[i] == armed[i + 1];
      }
      RemoveStarterKeepsSingle(rest, starter);
      var kept := RemoveStarter(rest, starter);
      assert forall i :: 0 <= i < |kept| ==> kept[i] in kept;
    }
  }

  lemma StartArms(c: Core, starter: nat, user: string, r: StartReplies)
    ensures var d := Start(c, starter, user, r);
      d.quits == c.quits && d.status == Blank(d.status.resets) && d.status.resets > c.status.resets
      && (d.armed == c.armed || d.armed == c.armed + [starter])
  {
  }

  lemma StartedStarterIsNew(c: Core, d: Core, s: nat, registry: map<nat, nat>, starter: nat)
    requires Linked(c, s, registry, starter)
    requires d.quits == c.quits && (d.armed == c.armed || d.armed == c.armed + [starter])
    ensures Linked(d, s, registry, starter + 1)
  {
    assert forall i :: 0 <= i < |c.armed| ==> c.armed[i] in c.armed;
  }

  lemma CoreAfterIsLinked(w: World, e: Event)
    requires Listed(w) && Mapped(w) && Allowed(w, e) && ChangesOneCore(e)
    requires Linked(w.units[e.server].core, e.server, w.registry, w.nextStarter)
    ensures Linked(CoreAfter(w, e), e.server, w.registry, w.nextStarter + if e.StartServer? then 1 else 0)
  {
    var c := w.units[e.server].core;
    match e
    case StartServer(s, user, replies) =>
      StartArms(c, w.nextStarter, user, replies);
      StartedStarterIsNew(c, CoreAfter(w, e), s, w.registry, w.nextStarter);
    case StopServer(_) =>
    case StarterTimeout(_, starter) => RemoveStarterKeepsSingle(c.armed, starter);
    case SessionEnds(_, _) =>
  }

  lemma LinkedWith(w: World, v: World, s: nat)
    requires AllLinked(w) && s in w.units && w.nextStarter <= v.nextStarter && v.nextServer == w.nextServer
    requires s in v.units && v.units == w.units[s := v.units[s]]
    requires Linked(v.units[s].core, s, v.registry, v.nextStarter)
    requires forall gs :: gs in w.registry && w.registry[gs] != s ==>
      gs in v.registry && v.registry[gs] == w.registry[gs]
    ensures AllLinked(v)
  {
  }

  lemma OnlineIsLinked(c: Core, s: nat, registry: map<nat, nat>, gs: nat, nextStarter: nat,
                       r: Remote, meanwhile: seq<seq<Change>>)
    requires Linked(c, s, registry, nextStarter) && gs !in registry
    ensures Linked(Online(c, gs, r, meanwhile).0, s, registry[gs := s], nextStarter)
  {
    var d := Online(c, gs, r, meanwhile).0;
    OnlineConnects(c, gs, r, meanwhile);
    forall g | g in d.quits ensures g in registry[gs := s] && registry[gs := s][g] == s {
      assert g != gs ==> g in c.quits;
    }
  }

  lemma OnlineConnects(c: Core, gs: nat, r: Remote, meanwhile: seq<seq<Change>>)
    ensures var d := Online(c, gs, r, meanwhile).0;
      d.armed == [] && d.quits == c.quits[gs := c.quits[gs] + |c.armed|]
  {
    var (status, _) := Track(c.status, r, meanwhile);
    ResolvingEndsRunning(c.(status := status), gs, |c.armed|);
  }

  lemma {:induction false} QuitCallsKeepLinks(c: Core, kills: seq<Reply>)
    ensures QuitCalls(c, kills).quits == c.quits && QuitCalls(c, kills).armed == c.armed
  {
    if kills == [] {
    } else {
      QuitCallsKeepLinks(c, kills[..|kills| - 1]);
    }
  }

  lemma LeavingKeepsLinked(w: World, v: World, gs: nat, core: Core)
    requires AllLinked(w) && gs in w.registry && w.registry[gs] in w.units
    requires var c := w.units[w.registry[gs]].core; core.armed == c.armed && core.quits == c.quits[gs := 0]
    requires v.units == w.units[w.registry[gs] := After(w.units[w.registry[gs]], core)]
    requires v.registry == w.registry - {gs} && v.nextServer == w.nextServer && v.nextStarter == w.nextStarter
    ensures AllLinked(v)
  {
    var s := w.registry[gs];
    assert Linked(w.units[s].core, s, w.registry, w.nextStarter);
    LinkedWith(w, v, s);
  }

  lemma GoneKeepsLinked(w: World, e: Event)
    requires Listed(w) && Mapped(w) && AllLinked(w) && Allowed(w, e)
    requires e.AboutToQuit? || (e.Pinged? && IsLost(e.reply))
    ensures AllLinked(Next(w, e))
  {
    var c := w.units[w.registry[e.gs]].core;
    if e.AboutToQuit? {
      QuitCallsKeepLinks(c, e.kills);
      LeavingKeepsLinked(w, Next(w, e), e.gs, Left(c, Quit(c, e.gs, e.kills), e.gs));
    } else {
      LeavingKeepsLinked(w, Next(w, e), e.gs, Left(c, PingFailed(c, e.gs, e.kill), e.gs));
    }
  }

  lemma DeliveryKeepsLinked(w: World, gs: nat, name: string, steamId: nat)
    requires Mapped(w) && AllLinked(w) && gs in w.registry && w.remotes[gs].queue != []
    ensures AllLinked(DeliverNext(w, gs, name, steamId))
  {
  }

  lemma RegisterKeepsLinked(w: World, r: Remote, meanwhile: seq<seq<Change>>)
    requires Listed(w) && Mapped(w) && AllLinked(w) && w.nextGameServer !in w.registry
    ensures AllLinked(Register(w, r, meanwhile))
  {
    if s :| FirstAt(w.order, w.units, r.location) == Some(s) {
      if w.units[s].core.valid {
        GreetKeepsLinked(w, s, r, meanwhile);
      } else {
        LinkedGrows(w.units[s].core, s, w.registry, w.nextGameServer, w.nextStarter);
        EnterKeepsLinked(w, s, w.units[s], r);
      }
    }
  }

  lemma LinkedGrows(c: Core, s: nat, registry: map<nat, nat>, gs: nat, nextStarter: nat)
    requires Linked(c, s, registry, nextStarter) && gs !in registry
    ensures Linked(c, s, registry[gs := s], nextStarter)
  {
  }

  lemma GreetKeepsLinked(w: World, s: nat, r: Remote, meanwhile: seq<seq<Change>>)
    requires AllLinked(w) && s in w.units && w.nextGameServer !in w.registry
    ensures AllLinked(Greet(w, s, r, meanwhile))
  {
    var u, gs := w.units[s], w.nextGameServer;
    assert Linked(u.core, s, w.registry, w.nextStarter);
    OnlineIsLinked(u.core, s, w.registry, gs, w.nextStarter, r, meanwhile);
    var (core, q) := Online(u.core, gs, r, meanwhile);
    EnterKeepsLinked(w, s, After(Unit(u.path, u.core, AllWrittenBy(gs)), core), q);
  }

  lemma EnterKeepsLinked(w: World, s: nat, u: Unit, q: Remote)
    requires AllLinked(w) && s in w.units && w.nextGameServer !in w.registry
    requires Linked(u.core, s, w.registry[w.nextGameServer := s], w.nextStarter)
    ensures AllLinked(Enter(w, s, u, q))
  {
    LinkedWith(w, Enter(w, s, u, q), s);
  }

  lemma RemovalKeepsLinked(w: World, s: nat)
    requires AllLinked(w)
    ensures AllLinked(WithoutServer(w, s))
  {
    var v := WithoutServer(w, s);
    forall t | t in v.units ensures t < v.nextServer && Linked(v.units[t].core, t, v.registry, v.nextStarter) {
      assert Linked(w.units[t].core, t, w.registry, w.nextStarter);
    }
  }

  lemma NextKeepsLinked(w: World, e: Event)
    requires Listed(w) && Mapped(w) && AllLinked(w) && Allowed(w, e) && w.nextGameServer !in w.registry
    ensures AllLinked(Next(w, e))
  {
    if ChangesOneCore(e) {
      assert Linked(w.units[e.server].core, e.server, w.registry, w.nextStarter);
      CoreAfterIsLinked(w, e);
      LinkedWith(w, Next(w, e), e.server);
    } else if e.Connect? {
      RegisterKeepsLinked(w, Connected(e.location, e.maxPlayers, e.address, e.map_, e.conVars), e.meanwhile);
    } else if e.AboutToQuit? || (e.Pinged? && IsLost(e.reply)) {
      GoneKeepsLinked(w, e);
    } else if e.RemoveServer? {
      RemovalKeepsLinked(w, e.server);
    } else if e.Delivery? {
      DeliveryKeepsLinked(w, e.gs, e.name, e.steamId);
    }
  }

  // ------------------------------------------------------------- mirrored fields

  /** A status either starts a new life or stays as it was. */
  predicate FreshOrSame(before: Status, after: Status) {
    after == before || after.resets != before.resets
  }

  lemma FollowWith(w: World, v: World, s: nat, core: Core)
    requires w.registry.Keys == w.remotes.Keys && AllFollow(w) && s in w.units
    requires FreshOrSame(w.units[s].core.status, core.status)
    requires v.units == w.units[s := After(w.units[s], core)]
    requires v.registry == w.registry && v.remotes == w.remotes && v.nextGameServer == w.nextGameServer
    ensures AllFollow(v)
  {
  }

  lemma DropKeepsFollow(w: World, v: World, gs: nat)
    requires w.registry.Keys == w.remotes.Keys && AllFollow(w)
    requires v.units == w.units && v.nextGameServer == w.nextGameServer
    requires v.registry == w.registry - {gs} && v.remotes == w.remotes - {gs}
    ensures AllFollow(v)
  {
  }

  /** Coming online either ends in a reset or leaves every field settled. */
  lemma OnlineSettles(c: Core, gs: nat, r: Remote, meanwhile: seq<seq<Change>>)
    requires r.queue == []
    ensures var (core, q) := Online(c, gs, r, meanwhile);
      && (forall f :: Heard(q, f) && Announced(q, f))
      && if c.armed == [] then core.status.resets == c.status.resets && forall f :: Settled(core.status, q, f)
         else core.status == Blank(c.status.resets + |c.armed|)
  {
    var (status, q) := Track(c.status, r, meanwhile);
    forall f ensures Heard(q, f) && Announced(q, f) && Settled(status, q, f) && status.resets == c.status.resets {
      TrackSettles(c.status, r, meanwhile, f);
    }
    TrackKeepsTheRest(c.status, r, meanwhile);
    ResolvingEndsRunning(c.(status := status), gs, |c.armed|);
  }

  lemma EnterKeepsFollow(w: World, s: nat, u: Unit, q: Remote)
    requires w.registry.Keys == w.remotes.Keys && AllFollow(w)
    requires AllAnnounced(w.remotes) && w.nextGameServer !in w.registry
    requires s in w.units && forall f :: Announced(q, f)
    requires
      || u == w.units[s]
      || forall f :: f in u.writers ==> u.writers[f] == w.nextGameServer && Settled(u.core.status, q, f)
    ensures AllFollow(Enter(w, s, u, q)) && AllAnnounced(Enter(w, s, u, q).remotes)
  {
    var v := Enter(w, s, u, q);
    forall t | t in w.units
      ensures Follows(w.units[t].core.status, w.units[t].writers, t, v.registry, v.remotes)
    {
      assert Follows(w.units[t].core.status, w.units[t].writers, t, w.registry, w.remotes);
    }
  }

  lemma RegisterKeepsFollow(w: World, r: Remote, meanwhile: seq<seq<Change>>)
    requires Listed(w) && Mapped(w) && AllFollow(w) && AllAnnounced(w.remotes)
    requires w.nextGameServer !in w.registry && r.queue == []
    ensures AllFollow(Register(w, r, meanwhile)) && AllAnnounced(Register(w, r, meanwhile).remotes)
  {
    if s :| FirstAt(w.order, w.units, r.location) == Some(s) {
      GreetKeepsFollow(w, s, r, meanwhile);
      EnterKeepsFollow(w, s, w.units[s], r);
    }
  }

  lemma GreetKeepsFollow(w: World, s: nat, r: Remote, meanwhile: seq<seq<Change>>)
    requires w.registry.Keys == w.remotes.Keys && AllFollow(w)
    requires AllAnnounced(w.remotes) && w.nextGameServer !in w.registry
    requires s in w.units && r.queue == []
    ensures AllFollow(Greet(w, s, r, meanwhile)) && AllAnnounced(Greet(w, s, r, meanwhile).remotes)
  {
    var u, gs := w.units[s], w.nextGameServer;
    var (core, q) := Online(u.core, gs, r, meanwhile);
    GreetedUnitFollows(u, gs, r, meanwhile);
    EnterKeepsFollow(w, s, After(Unit(u.path, u.core, AllWrittenBy(gs)), core), q);
  }

  lemma GreetedUnitFollows(u: Unit, gs: nat, r: Remote, meanwhile: seq<seq<Change>>)
    requires r.queue == []
    ensures var (core, q) := Online(u.core, gs, r, meanwhile);
      var v := After(Unit(u.path, u.core, AllWrittenBy(gs)), core);
      && (forall f :: Announced(q, f))
      && forall f :: f in v.writers ==> v.writers[f] == gs && Settled(v.core.status, q, f)
  {
    OnlineSettles(u.core, gs, r, meanwhile);
  }

  lemma RemoteChangeKeepsFollow(w: World, v: World, gs: nat, change: Change)
    requires w.registry.Keys == w.remotes.Keys && gs in w.registry && AllFollow(w) && AllAnnounced(w.remotes)
    requires v == w.(remotes := w.remotes[gs := Happen(w.remotes[gs], change)])
    ensures AllFollow(v) && AllAnnounced(v.remotes)
  {
    forall f: Field ensures Announced(v.remotes[gs], f) {
      HappenKeepsSettled(Blank(0), w.remotes[gs], change, f);
    }
    forall s | s in v.units ensures Follows(v.units[s].core.status, v.units[s].writers, s, v.registry, v.remotes) {
      assert Follows(w.units[s].core.status, w.units[s].writers, s, w.registry, w.remotes);
      forall f | f in v.units[s].writers && v.units[s].writers[f] == gs
        ensures Settled(v.units[s].core.status, v.remotes[gs], f)
      {
        HappenKeepsSettled(w.units[s].core.status, w.remotes[gs], change, f);
      }
    }
  }

  lemma DeliverSparesOthers(s: Status, n: Note, f: Field, name: string, steamId: nat, r: Remote)
    requires Subject(n) != Some(f) && Settled(s, r, f)
    ensures Settled(Deliver(s, n, name, steamId), r, f)
  {
  }

  lemma DeliveredUnitFollows(u: Unit, s: nat, w: World, v: World, gs: nat, name: string, steamId: nat)
    requires w.registry.Keys == w.remotes.Keys && gs in w.registry && w.registry[gs] == s
    requires Follows(u.core.status, u.writers, s, w.registry, w.remotes)
    requires w.remotes[gs].queue != [] && forall f :: Announced(w.remotes[gs], f)
    requires v.registry == w.registry && v.remotes == w.remotes[gs := w.remotes[gs].(queue := w.remotes[gs].queue[1..])]
    ensures var n := w.remotes[gs].queue[0];
      && (forall f :: Announced(v.remotes[gs], f))
      && Follows(Deliver(u.core.status, n, name, steamId),
                 if Subject(n).Some? then u.writers[Subject(n).value := gs] else u.writers, s, v.registry, v.remotes)
  {
    var r, n := w.remotes[gs], w.remotes[gs].queue[0];
    var writers := if Subject(n).Some? then u.writers[Subject(n).value := gs] else u.writers;
    forall f: Field ensures Announced(v.remotes[gs], f) {
      DeliverKeepsSettled(u.core.status, r, f, name, steamId);
    }
    forall f | f in writers && writers[f] in w.registry
      ensures w.registry[writers[f]] == s && Settled(Deliver(u.core.status, n, name, steamId), v.remotes[writers[f]], f)
    {
      DeliverKeepsSettled(u.core.status, r, f, name, steamId);
      if Subject(n) != Some(f) && writers[f] != gs {
        DeliverSparesOthers(u.core.status, n, f, name, steamId, w.remotes[writers[f]]);
      }
    }
  }

  lemma DeliveryKeepsFollow(w: World, gs: nat, name: string, steamId: nat)
    requires Mapped(w) && AllFollow(w) && AllAnnounced(w.remotes)
    requires gs in w.registry && gs < w.nextGameServer && w.remotes[gs].queue != []
    ensures AllFollow(DeliverNext(w, gs, name, steamId)) && AllAnnounced(DeliverNext(w, gs, name, steamId).remotes)
  {
    var v := DeliverNext(w, gs, name, steamId);
    var s := w.registry[gs];
    DeliveredUnitFollows(w.units[s], s, w, v, gs, name, steamId);
    forall t | t in v.units && t != s
      ensures Follows(v.units[t].core.status, v.units[t].writers, t, v.registry, v.remotes)
    {
      assert Follows(w.units[t].core.status, w.units[t].writers, t, w.registry, w.remotes);
    }
  }

  lemma {:induction false} QuitCallsRenewStatus(c: Core, kills: seq<Reply>)
    ensures if kills == [] then QuitCalls(c, kills) == c
            else QuitCalls(c, kills).status == Blank(c.status.resets + |kills|)
  {
    if kills == [] {
    } else {
      QuitCallsRenewStatus(c, kills[..|kills| - 1]);
    }
  }

  lemma GoneKeepsFollow(w: World, e: Event)
    requires Listed(w) && Mapped(w) && AllFollow(w) && AllAnnounced(w.remotes) && Allowed(w, e)
    requires e.AboutToQuit? || (e.Pinged? && IsLost(e.reply))
    ensures AllFollow(Next(w, e)) && AllAnnounced(Next(w, e).remotes)
  {
    var s := w.registry[e.gs];
    var c := w.units[s].core;
    var core := Left(c, if e.AboutToQuit? then Quit(c, e.gs, e.kills) else PingFailed(c, e.gs, e.kill), e.gs);
    if e.AboutToQuit? {
      QuitCallsRenewStatus(c, e.kills);
    }
    var u := With(w, s, core);
    FollowWith(w, u, s, core);
    DropKeepsFollow(u, Next(w, e), e.gs);
  }

  lemma NextKeepsFollow(w: World, e: Event)
    requires Listed(w) && Mapped(w) && AllFollow(w) && AllAnnounced(w.remotes) && Allowed(w, e)
    requires w.nextGameServer !in w.registry && forall gs :: gs in w.registry ==> gs < w.nextGameServer
    ensures AllFollow(Next(w, e)) && AllAnnounced(Next(w, e).remotes)
  {
    match e
    case AddServer(_, _) =>
    case RemoveServer(s) => RemovalKeepsFollow(w, s);
    case Connect(location, maxPlayers, address, m, conVars, meanwhile) =>
      RegisterKeepsFollow(w, Connected(location, maxPlayers, address, m, conVars), meanwhile);
    case AboutToQuit(_, _) => GoneKeepsFollow(w, e);
    case OrphanQuits(_) =>
    case Pinged(_, reply, _) =>
      if IsLost(reply) {
        GoneKeepsFollow(w, e);
      }
    case RemoteChange(gs, change) => RemoteChangeKeepsFollow(w, Next(w, e), gs, change);
    case Delivery(gs, name, steamId) => DeliveryKeepsFollow(w, gs, name, steamId);
    case _ => CoreEventKeepsFollow(w, e);
  }

  lemma CoreEventKeepsFollow(w: World, e: Event)
    requires Listed(w) && Mapped(w) && AllFollow(w) && Allowed(w, e) && ChangesOneCore(e)
    ensures AllFollow(Next(w, e)) && Next(w, e).remotes == w.remotes
  {
    if e.StartServer? {
      StartArms(w.units[e.server].core, w.nextStarter, e.user, e.replies);
    }
    FollowWith(w, Next(w, e), e.server, CoreAfter(w, e));
  }

  lemma RemovalKeepsFollow(w: World, s: nat)
    requires w.registry.Keys == w.remotes.Keys && AllFollow(w) && AllAnnounced(w.remotes)
    ensures AllFollow(WithoutServer(w, s)) && AllAnnounced(WithoutServer(w, s).remotes)
  {
    var v := WithoutServer(w, s);
    forall t | t in v.units ensures Follows(v.units[t].core.status, v.units[t].writers, t, v.registry, v.remotes) {
      assert Follows(w.units[t].core.status, w.units[t].writers, t, w.registry, w.remotes);
    }
  }

  // ------------------------------------------------------------------ every run

  lemma NextKeepsValid(w: World, e: Event)
    requires Valid(w) && Allowed(w, e)
    ensures Valid(Next(w, e))
  {
    assert w.nextServer !in w.units && w.nextGameServer !in w.registry;
    NextKeepsPlaced(w, e);
    NextKeepsOrphaned(w, e);
    NextKeepsAccounted(w, e);
    NextKeepsHealthy(w, e);
    NextKeepsLinked(w, e);
    NextKeepsFollow(w, e);
  }
}
