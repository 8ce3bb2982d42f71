/** What each event does to a server's coordinator, state by state: the state it leads
  * to, the error it reports, and everything it leaves alone.
  */
module Transitions {
  import opened Common
  import opened Tmux
  import opened Status
  import opened Mirror
  import opened Coordinator
  import opened World
  import opened Runs

  // ---------------------------------------------------------- adding and stopping

  /** A new server is offline, without error, session, starter or connection. */
  lemma ANewServerIsIdle(events: seq<Event>, path: string, valid: bool)
    requires Run(events + [AddServer(path, valid)]).Some?
    ensures Run(events).Some? && Run(events).value.nextServer !in Run(events).value.units
    ensures var s, w := Run(events).value.nextServer, Run(events + [AddServer(path, valid)]).value;
      && w.order == Run(events).value.order + [s] && s in w.units && w.units[s].path == path
      && var c := w.units[s].core;
         && c.valid == valid && c.configured && c.state == Offline && c.error == NoError
         && c.tmux == Session("", {}, false) && c.armed == [] && c.quits == multiset{}
         && c.status == Blank(0) && c.starting == c.started == c.failed == 0
  {
    RunOneMore(events, AddServer(path, valid));
  }

  /** A running or starting server is shutting down, with a blank status, and all else
    * is as before; in any other state nothing has happened.
    */
  predicate HasStopped(w: World, v: World, s: nat) {
    && s in w.units && s in v.units
    && var c := w.units[s].core;
       if c.state in {Running, Starting}
       then v.units[s].core == c.(state := ShuttingDown, status := Blank(c.status.resets + 1))
       else v == w
  }

  lemma StopStep(w: World, s: nat)
    requires Listed(w) && Mapped(w) && Allowed(w, StopServer(s))
    ensures HasStopped(w, Next(w, StopServer(s)), s)
  {
    assert w.units[s := w.units[s]] == w.units;
  }

  /** What `stop` does. */
  lemma StopShutsDown(events: seq<Event>, s: nat)
    requires Run(events + [StopServer(s)]).Some?
    ensures Run(events).Some? && HasStopped(Run(events).value, Run(events + [StopServer(s)]).value, s)
  {
    RunOneMore(events, StopServer(s));
    StopStep(Run(events).value, s);
  }

  // --------------------------------------------------------------- starters

  /** How a start ends: with the first thing that is refused, and else with the server
    * starting and one more starter waiting.
    */
  lemma StartEnds(c: Core, starter: nat, user: string, r: StartReplies)
    requires Healthy(c) && c.valid && c.configured
    ensures var d := Start(c, starter, user, r);
      && d == c.(state := d.state, error := d.error, tmux := d.tmux, armed := d.armed, status := d.status,
                 starting := c.starting + 1, failed := d.failed)
      && (if r.create.late || c.tmux.alive != {} || !r.create.done then FailedWith(c, d, UnableToCreateTmuxSession)
          else if user != "" && !r.userKnown then FailedWith(c, d, UnableToResolveUser)
          else if !r.redirect.done then FailedWith(c, d, UnableToRedirectTmuxOutput)
          else if !r.command.done then FailedWith(c, d, ServerExecutableFailed)
          else
            && d.state == Starting && d.error == c.error && d.failed == c.failed && d.armed == c.armed + [starter]
            && d.status == Blank(c.status.resets + 1))
  {
  }

  /** The server has crashed with this error. */
  predicate FailedWith(c: Core, d: Core, error: ErrorType) {
    && d.state == Crashed && d.error == error && d.failed == c.failed + 1 && d.armed == c.armed
    && d.status == Blank(c.status.resets + 2)
  }

  /** A start runs under the user asked for, unless a session exists, or might. */
  lemma StartRunsUnder(c: Core, starter: nat, user: string, r: StartReplies)
    requires Healthy(c) && c.valid && c.configured
    ensures Start(c, starter, user, r).tmux.user == if c.tmux.alive == {} && !r.probe then user else c.tmux.user
  {
  }

  lemma StartsInRuns(events: seq<Event>, s: nat, user: string, r: StartReplies)
    requires Run(events + [StartServer(s, user, r)]).Some?
    ensures Run(events).Some? && s in Run(events).value.units
    ensures s in Run(events + [StartServer(s, user, r)]).value.units
    ensures var w, v := Run(events).value, Run(events + [StartServer(s, user, r)]).value;
      var c, d := w.units[s].core, v.units[s].core;
      && Healthy(c) && c.valid && c.configured
      && v.nextStarter == w.nextStarter + 1 && d == Start(c, w.nextStarter, user, r)
  {
    RunOneMore(events, StartServer(s, user, r));
    StartChecksNeverFail(events, s);
    assert Healthy(Run(events).value.units[s].core);
  }

  /** The same over runs. */
  lemma StartEndsInRuns(events: seq<Event>, s: nat, user: string, r: StartReplies)
    requires Run(events + [StartServer(s, user, r)]).Some?
    ensures Run(events).Some? && s in Run(events).value.units
    ensures s in Run(events + [StartServer(s, user, r)]).value.units
    ensures var c, d := Run(events).value.units[s].core, Run(events + [StartServer(s, user, r)]).value.units[s].core;
      && (if r.create.late || c.tmux.alive != {} || !r.create.done then FailedWith(c, d, UnableToCreateTmuxSession)
          else if user != "" && !r.userKnown then FailedWith(c, d, UnableToResolveUser)
          else if !r.redirect.done then FailedWith(c, d, UnableToRedirectTmuxOutput)
          else if !r.command.done then FailedWith(c, d, ServerExecutableFailed)
          else
            && d.state == Starting && d.error == c.error && d.failed == c.failed
            && d.armed == c.armed + [Run(events).value.nextStarter])
      && d.tmux.user == (if c.tmux.alive == {} && !r.probe then user else c.tmux.user)
      && d.quits == c.quits && d.started == c.started
  {
    StartsInRuns(events, s, user, r);
    var w := Run(events).value;
    StartEnds(w.units[s].core, w.nextStarter, user, r);
    StartRunsUnder(w.units[s].core, w.nextStarter, user, r);
  }

  /** The server has crashed because a starter timed out, and only it stopped waiting. */
  ghost predicate HasTimedOut(c: Core, d: Core, starter: nat) {
    && d == c.(state := Crashed, error := ServerNotRegisteredOnTime, status := Blank(c.status.resets + 1),
               failed := c.failed + 1, armed := d.armed)
    && starter in c.armed && |d.armed| == |c.armed| - 1
    && forall a :: a in d.armed <==> a in c.armed && a != starter
  }

  ghost predicate HasExpired(w: World, v: World, s: nat, starter: nat) {
    s in w.units && s in v.units && HasTimedOut(w.units[s].core, v.units[s].core, starter)
  }

  /** What a starter's timeout does. */
  lemma TimeoutCrashes(events: seq<Event>, s: nat, starter: nat)
    requires Run(events + [StarterTimeout(s, starter)]).Some?
    ensures Run(events).Some?
    ensures HasExpired(Run(events).value, Run(events + [StarterTimeout(s, starter)]).value, s, starter)
  {
    RunOneMore(events, StarterTimeout(s, starter));
    TimeoutStep(Run(events).value, s, starter);
  }

  lemma TimeoutStep(w: World, s: nat, starter: nat)
    requires Valid(w) && Allowed(w, StarterTimeout(s, starter))
    ensures HasExpired(w, Next(w, StarterTimeout(s, starter)), s, starter)
  {
    assert Linked(w.units[s].core, s, w.registry, w.nextStarter);
    TimedOutByName(w.units[s].core, starter);
  }

  lemma TimedOutByName(c: Core, starter: nat)
    requires Single(c.armed) && starter in c.armed
    ensures HasTimedOut(c, TimeOut(c, starter), starter)
  {
    RemoveStarterKeepsSingle(c.armed, starter);
    RemoveStarterCounts(c.armed, starter);
  }

  // ------------------------------------------------------------ game servers

  /** A game server that connects makes its server running exactly when starters wait
    * for it; else the state stays.
    */
  lemma ArrivalRuns(w: World, r: Remote, meanwhile: seq<seq<Change>>, s: nat)
    requires Listed(w) && FirstAt(w.order, w.units, r.location) == Some(s) && w.units[s].core.valid
    ensures var c, d := w.units[s].core, Register(w, r, meanwhile).units[s].core;
      && d == c.(state := if c.armed != [] then Running else c.state, armed := [], started := c.started + |c.armed|,
                 quits := c.quits[w.nextGameServer := c.quits[w.nextGameServer] + |c.armed|], status := d.status)
  {
    var c := w.units[s].core;
    ResolvingEndsRunning(c.(status := Track(c.status, r, meanwhile).0), w.nextGameServer, |c.armed|);
  }

  /** The server is offline when its game server was connected; the connections are
    * gone, and the session is as the kills left it.
    */
  predicate HasQuit(c: Core, d: Core, gs: nat, kills: seq<Reply>) {
    && d == c.(state := if kills != [] then Offline else c.state, quits := c.quits[gs := 0], tmux := d.tmux,
               status := if kills != [] then Blank(c.status.resets + |kills|) else c.status)
    && d.tmux.user == c.tmux.user
    && (d.tmux.alive == {} <==> c.tmux.alive == {} || SomeKillWorks(kills))
  }

  /** The game server is gone, and its server has heard it once per connection. */
  predicate HasSaidGoodbye(w: World, v: World, gs: nat, kills: seq<Reply>) {
    && gs in w.registry && v.registry == w.registry - {gs} && v.orphans == w.orphans
    && v.departures == w.departures + 1 && v.pingFailures == w.pingFailures
    && var s := w.registry[gs];
       && s in w.units && s in v.units && |kills| == w.units[s].core.quits[gs]
       && HasQuit(w.units[s].core, v.units[s].core, gs, kills)
  }

  /** What a game server's goodbye does. */
  lemma QuitEndsOffline(events: seq<Event>, gs: nat, kills: seq<Reply>)
    requires Run(events + [AboutToQuit(gs, kills)]).Some?
    ensures Run(events).Some?
    ensures HasSaidGoodbye(Run(events).value, Run(events + [AboutToQuit(gs, kills)]).value, gs, kills)
  {
    RunOneMore(events, AboutToQuit(gs, kills));
    QuitStep(Run(events).value, gs, kills);
  }

  lemma QuitStep(w: World, gs: nat, kills: seq<Reply>)
    requires Valid(w) && Allowed(w, AboutToQuit(gs, kills))
    ensures HasSaidGoodbye(w, Next(w, AboutToQuit(gs, kills)), gs, kills)
  {
    var c := w.units[w.registry[gs]].core;
    assert Healthy(c);
    QuitByName(c, gs, kills);
  }

  lemma QuitByName(c: Core, gs: nat, kills: seq<Reply>)
    requires Healthy(c) && |kills| == c.quits[gs]
    ensures HasQuit(c, Left(c, Quit(c, gs, kills), gs), gs, kills)
  {
    QuitCallsByName(c, kills);
    SessionAfterQuit(c, kills);
    if !c.valid {
      assert c.quits[gs] == 0 && kills == [] && !SomeKillWorks(kills);
    }
  }

  lemma {:induction false} QuitCallsByName(c: Core, kills: seq<Reply>)
    ensures var d := QuitCalls(c, kills);
      && d == c.(state := if kills != [] then Offline else c.state, tmux := d.tmux,
                 status := if kills != [] then Blank(c.status.resets + |kills|) else c.status)
      && d.tmux.user == c.tmux.user && (kills == [] ==> d.tmux == c.tmux)
  {
    if kills == [] {
    } else {
      QuitCallsByName(c, kills[..|kills| - 1]);
    }
  }

  /** A valid server has crashed, without an error; the connections are gone, and the
    * session is as the kill left it.
    */
  predicate HasLost(c: Core, d: Core, gs: nat, kill: Reply) {
    if !c.valid then d == c
    else
      && d == c.(state := Crashed, status := Blank(c.status.resets + 1), quits := c.quits[gs := 0], tmux := d.tmux)
      && d.quits[gs] == 0 && d.tmux.user == c.tmux.user
      && (d.tmux.alive == {} <==> c.tmux.alive == {} || kill.done || kill.effect)
  }

  predicate HasVanished(w: World, v: World, gs: nat, kill: Reply) {
    && gs in w.registry && v.registry == w.registry - {gs} && v.orphans == w.orphans
    && v.departures == w.departures && v.pingFailures == w.pingFailures + 1
    && var s := w.registry[gs];
       s in w.units && s in v.units && HasLost(w.units[s].core, v.units[s].core, gs, kill)
  }

  /** What a lost ping does. */
  lemma LostPingCrashes(events: seq<Event>, gs: nat, reply: PingReply, kill: Reply)
    requires reply in {NoReply, Timeout, Disconnected, TimedOut} && Run(events + [Pinged(gs, reply, kill)]).Some?
    ensures Run(events).Some?
    ensures HasVanished(Run(events).value, Run(events + [Pinged(gs, reply, kill)]).value, gs, kill)
  {
    RunOneMore(events, Pinged(gs, reply, kill));
    PingStep(Run(events).value, gs, reply, kill);
  }

  lemma PingStep(w: World, gs: nat, reply: PingReply, kill: Reply)
    requires Valid(w) && Allowed(w, Pinged(gs, reply, kill)) && reply in {NoReply, Timeout, Disconnected, TimedOut}
    ensures HasVanished(w, Next(w, Pinged(gs, reply, kill)), gs, kill)
  {
    PingNext(w, gs, reply, kill);
    var c := w.units[w.registry[gs]].core;
    assert Healthy(c);
    LostByName(c, gs, kill);
  }

  lemma PingNext(w: World, gs: nat, reply: PingReply, kill: Reply)
    requires Listed(w) && Mapped(w) && Allowed(w, Pinged(gs, reply, kill)) && IsLost(reply)
    ensures var v, s := Next(w, Pinged(gs, reply, kill)), w.registry[gs];
      var c := w.units[s].core;
      && v.registry == w.registry - {gs} && s in v.units && v.units[s].core == Left(c, PingFailed(c, gs, kill), gs)
      && v.orphans == w.orphans && v.departures == w.departures && v.pingFailures == w.pingFailures + 1
  {
  }

  lemma LostByName(c: Core, gs: nat, kill: Reply)
    requires Healthy(c)
    ensures HasLost(c, Left(c, PingFailed(c, gs, kill), gs), gs, kill)
  {
    SessionAfterPingFailed(c, gs, kill);
    assert !c.valid ==> c.quits[gs := 0] == c.quits;
  }

  /** Any other reply changes nothing. */
  lemma AnsweredPingsChangeNothing(events: seq<Event>, gs: nat, reply: PingReply, kill: Reply)
    requires reply in {Answered, OtherError} && Run(events).Some?
    ensures Run(events + [Pinged(gs, reply, kill)]) == Run(events)
  {
    RunsAreValid(events);
    AnswersAllowed(Run(events).value, gs, reply, kill);
    RunGrows(events, Pinged(gs, reply, kill));
  }

  lemma AnswersAllowed(w: World, gs: nat, reply: PingReply, kill: Reply)
    requires Listed(w) && Mapped(w) && reply in {Answered, OtherError}
    ensures Allowed(w, Pinged(gs, reply, kill)) && Next(w, Pinged(gs, reply, kill)) == w
  {
  }

  /** A session that ends by itself is all that changes. */
  lemma SessionEndsAlone(events: seq<Event>, s: nat, user: string)
    requires Run(events + [SessionEnds(s, user)]).Some?
    ensures Run(events).Some? && s in Run(events).value.units && s in Run(events + [SessionEnds(s, user)]).value.units
    ensures var c, d := Run(events).value.units[s].core, Run(events + [SessionEnds(s, user)]).value.units[s].core;
      d == c.(tmux := c.tmux.(alive := c.tmux.alive - {user}))
  {
    RunOneMore(events, SessionEnds(s, user));
  }

  // ------------------------------------------------------------- the registry

  /** A newcomer is registered for the first server at its location, and for nobody
    * when there is none.
    */
  lemma ArrivalsRegister(w: World, r: Remote, meanwhile: seq<seq<Change>>)
    requires Listed(w)
    ensures var v, gs := Register(w, r, meanwhile), w.nextGameServer;
      && v.order == w.order && v.orphans == w.orphans && v.nextGameServer == gs + 1
      && v.departures == w.departures && v.pingFailures == w.pingFailures
      && ((forall s :: s in w.order ==> w.units[s].path != r.location) ==> v == w.(nextGameServer := gs + 1))
      && forall i: int :: IsFirst(w, r.location, i) ==>
           v.registry == w.registry[gs := w.order[i]] && v.registrations == w.registrations + 1
  {
    FirstIsFirst(w.order, w.units, r.location);
  }

  predicate IsFirst(w: World, path: string, i: int)
    requires Listed(w)
  {
    && 0 <= i < |w.order| && w.units[w.order[i]].path == path
    && forall j :: 0 <= j < i ==> w.units[w.order[j]].path != path
  }

  lemma {:induction false} FirstIsFirst(order: seq<nat>, units: map<nat, Unit>, path: string)
    requires forall s :: s in order ==> s in units
    ensures FirstAt(order, units, path).None? ==> forall s :: s in order ==> units[s].path != path
    ensures forall i :: 0 <= i < |order| && units[order[i]].path == path
                        && (forall j :: 0 <= j < i ==> units[order[j]].path != path) ==>
      FirstAt(order, units, path) == Some(order[i])
  {
    if order == [] {
    } else {
      var init := order[..|order| - 1];
      assert order == init + [order[|order| - 1]];
      FirstIsFirst(init, units, path);
    }
  }

  /** A removed server is gone from the list, and its game servers are orphans. */
  lemma RemovalOrphansItsGameServers(events: seq<Event>, s: nat)
    requires Run(events + [RemoveServer(s)]).Some?
    ensures Run(events).Some? && HasGone(Run(events).value, Run(events + [RemoveServer(s)]).value, s)
  {
    RunOneMore(events, RemoveServer(s));
    FirstAtWithout(Run(events).value.order, Run(events).value.units, s, "");
  }

  ghost predicate HasGone(w: World, v: World, s: nat) {
    && s in w.units && v.units == w.units - {s} && (forall t :: t in v.order <==> t in w.order && t != s)
    && (forall gs :: gs in v.registry <==> gs in w.registry && w.registry[gs] != s)
    && (forall gs :: gs in v.registry ==> v.registry[gs] == w.registry[gs])
    && (forall gs :: gs in v.orphans <==> gs in w.orphans || (gs in w.registry && w.registry[gs] == s))
  }

  /** An orphan that says goodbye is gone, and all else stays. */
  lemma OrphansLeaveQuietly(events: seq<Event>, gs: nat)
    requires Run(events + [OrphanQuits(gs)]).Some?
    ensures Run(events).Some? && gs in Run(events).value.orphans
    ensures var w := Run(events).value;
      Run(events + [OrphanQuits(gs)]).value == w.(orphans := w.orphans - {gs}, departures := w.departures + 1)
  {
    RunOneMore(events, OrphanQuits(gs));
  }

  // ---------------------------------------------------------- what is announced

  /** Every signal is connected, and the four conVars are watched. */
  predicate AllHeard(r: Remote) {
    && r.mapHooked && r.conVarsHooked && r.playersHooked
    && r.watched == {"hostname", "sv_password", "tv_password", "tv_port"}
  }

  /** Nothing is connected, and no signal is under way. */
  predicate Unheard(r: Remote) {
    !r.mapHooked && !r.conVarsHooked && !r.playersHooked && r.watched == {} && r.queue == []
  }

  lemma TrackHooksAll(s: Status, r: Remote, meanwhile: seq<seq<Change>>)
    requires r.watched == {}
    ensures AllHeard(Track(s, r, meanwhile).1)
  {
    forall q: Remote, i: nat ensures SameHooks(HappenAll(q, At(meanwhile, i)), q) {
      HappenAllKeepsHooks(q, At(meanwhile, i));
    }
  }

  predicate SameHooks(q: Remote, r: Remote) {
    && q.mapHooked == r.mapHooked && q.conVarsHooked == r.conVarsHooked && q.playersHooked == r.playersHooked
    && q.watched == r.watched
  }

  /** What a change at a tracked game server does: it posts one signal, unless the
    * conVar is not watched.
    */
  lemma ChangesByName(r: Remote, text: string, conVar: string, id: int)
    requires AllHeard(r)
    ensures Happen(r, NewMap(text)) == r.(map_ := text, queue := r.queue + [MapChanged(text)])
    ensures var q := Happen(r, NewConVar(conVar, text));
      q == r.(conVars := r.conVars[conVar := text],
              queue := r.queue + if conVar in {"hostname", "sv_password", "tv_password", "tv_port"}
                                 then [ConVarChanged(conVar, text)] else [])
    ensures Happen(r, Join(id)) == r.(queue := r.queue + [PlayerConnected(id)])
    ensures Happen(r, Leave(id)) == r.(queue := r.queue + [PlayerDisconnected(id)])
  {
  }

  /** A game server of a valid server is heard in full, one of an invalid server not
    * at all.
    */
  predicate HeardAt(w: World, gs: nat)
    requires Mapped(w) && gs in w.registry
  {
    if w.units[w.registry[gs]].core.valid then AllHeard(w.remotes[gs]) else Unheard(w.remotes[gs])
  }

  lemma ValidStays(w: World, e: Event, s: nat)
    requires Valid(w) && Allowed(w, e) && s in w.units && s in Next(w, e).units
    ensures Next(w, e).units[s].core.valid == w.units[s].core.valid
  {
    if Target(w, e) != Some(s) {
      OthersStay(w, e, s);
    } else {
      ValidStaysAtTarget(w, e, s);
    }
  }

  lemma ValidStaysAtTarget(w: World, e: Event, s: nat)
    requires Listed(w) && Mapped(w) && Allowed(w, e) && s in w.units && Target(w, e) == Some(s)
    ensures s in Next(w, e).units ==> Next(w, e).units[s].core.valid == w.units[s].core.valid
  {
    match e
    case AboutToQuit(_, kills) => QuitCallsKeepErrors(w.units[s].core, kills);
    case Connect(location, maxPlayers, address, m, conVars, meanwhile) =>
      OnlineKeepsErrors(w.units[s].core, w.nextGameServer,
                        Connected(location, maxPlayers, address, m, conVars), meanwhile);
    case _ =>
  }

  /** The newcomer. */
  lemma NewcomersAreHeard(w: World, r: Remote, meanwhile: seq<seq<Change>>)
    requires Listed(w) && Mapped(w) && w.nextGameServer !in w.registry && Unheard(r)
    ensures var v := Register(w, r, meanwhile);
      && Mapped(v) && (w.nextGameServer in v.registry ==> HeardAt(v, w.nextGameServer))
  {
    var s := FirstAt(w.order, w.units, r.location);
    if s.Some? && w.units[s.value].core.valid {
      GreetedAreHeard(w, s.value, r, meanwhile);
    }
  }

  lemma GreetedAreHeard(w: World, s: nat, r: Remote, meanwhile: seq<seq<Change>>)
    requires Mapped(w) && s in w.units && w.units[s].core.valid && Unheard(r)
    ensures var v := Greet(w, s, r, meanwhile);
      Mapped(v) && w.nextGameServer in v.registry && HeardAt(v, w.nextGameServer)
  {
    var core := w.units[s].core;
    TrackHooksAll(core.status, r, meanwhile);
    OnlineKeepsErrors(core, w.nextGameServer, r, meanwhile);
    assert Online(core, w.nextGameServer, r, meanwhile).1 == Track(core.status, r, meanwhile).1;
  }

  lemma RemoteStays(w: World, e: Event, gs: nat)
    requires Listed(w) && Mapped(w) && Allowed(w, e) && gs in w.registry && gs in Next(w, e).registry
    requires e.Connect? ==> gs != w.nextGameServer
    ensures Next(w, e).registry[gs] == w.registry[gs]
    ensures var q, r := Next(w, e).remotes[gs], w.remotes[gs];
      || q == r
      || (e.RemoteChange? && q == Happen(r, e.change))
      || (r.queue != [] && q == r.(queue := r.queue[1..]))
  {
  }

  lemma OnlyArrivalsRegister(w: World, e: Event, gs: nat)
    requires Listed(w) && Mapped(w) && Allowed(w, e) && gs !in w.registry && gs in Next(w, e).registry
    ensures e.Connect? && gs == w.nextGameServer
  {
  }

  lemma HeardStays(r: Remote, e: Event, q: Remote)
    requires
      || q == r
      || (e.RemoteChange? && q == Happen(r, e.change))
      || (r.queue != [] && q == r.(queue := r.queue[1..]))
    ensures AllHeard(r) ==> AllHeard(q)
    ensures Unheard(r) ==> Unheard(q)
  {
  }

  lemma NextKeepsHeard(w: World, e: Event, gs: nat)
    requires Valid(w) && Allowed(w, e)
    requires Mapped(Next(w, e)) && gs in Next(w, e).registry
    requires gs in w.registry ==> HeardAt(w, gs)
    ensures HeardAt(Next(w, e), gs)
  {
    if gs in w.registry {
      StayersAreHeard(w, e, gs);
    } else {
      OnlyArrivalsRegister(w, e, gs);
      NewcomersAreHeard(w, Connected(e.location, e.maxPlayers, e.address, e.map_, e.conVars), e.meanwhile);
    }
  }

  lemma StayersAreHeard(w: World, e: Event, gs: nat)
    requires Valid(w) && Allowed(w, e) && gs in w.registry && HeardAt(w, gs)
    requires Mapped(Next(w, e)) && gs in Next(w, e).registry
    ensures HeardAt(Next(w, e), gs)
  {
    assert gs < w.nextGameServer by {
      assert Placed(w);
    }
    RemoteStays(w, e, gs);
    ValidStays(w, e, w.registry[gs]);
    HeardStays(w.remotes[gs], e, Next(w, e).remotes[gs]);
  }

  /** After every run, the signals of a registered game server are all connected when
    * its server has a coordinator, and else none is.
    */
  lemma {:induction false} GameServersAreHeard(events: seq<Event>, gs: nat)
    requires Run(events).Some? && gs in Run(events).value.registry
    ensures Mapped(Run(events).value) && HeardAt(Run(events).value, gs)
  {
    if events == [] {
    } else {
      var init, e := events[..|events| - 1], events[|events| - 1];
      assert events == init + [e];
      RunOneMore(init, e);
      if gs in Run(init).value.registry {
        GameServersAreHeard(init, gs);
      }
      assert Mapped(Next(Run(init).value, e)) by {
        RunsAreValid(events);
      }
      NextKeepsHeard(Run(init).value, e, gs);
    }
  }

  // ------------------------------------------------ where each state comes from

  /** Nothing a start asks for is refused. */
  predicate StartRuns(c: Core, user: string, r: StartReplies) {
    && !r.create.late && c.tmux.alive == {} && r.create.done
    && (user == "" || r.userKnown) && r.redirect.done && r.command.done
  }

  /** The events that bring a server into a state. */
  predicate Brings(w: World, e: Event, s: nat, state: State)
    requires Listed(w) && Mapped(w) && Allowed(w, e) && s in w.units
  {
    var c := w.units[s].core;
    match state
    case Starting =>
      e.StartServer? && e.server == s && StartRuns(c, e.user, e.replies)
    case Running =>
      e.Connect? && FirstAt(w.order, w.units, e.location) == Some(s) && c.valid && c.armed != []
    case ShuttingDown =>
      e.StopServer? && e.server == s && c.state in {Running, Starting}
    case Offline =>
      e.AboutToQuit? && w.registry[e.gs] == s && c.quits[e.gs] > 0
    case Crashed =>
      || (e.StartServer? && e.server == s && !StartRuns(c, e.user, e.replies))
      || (e.StarterTimeout? && e.server == s)
      || (e.Pinged? && e.reply in {NoReply, Timeout, Disconnected, TimedOut} && w.registry[e.gs] == s && c.valid)
  }

  /** The state an event about a server leads to. */
  function StateAfter(w: World, e: Event, s: nat): State
    requires Listed(w) && Mapped(w) && Allowed(w, e) && s in w.units && Target(w, e) == Some(s)
  {
    var c := w.units[s].core;
    match e
    case StartServer(_, user, replies) => if StartRuns(c, user, replies) then Starting else Crashed
    case StopServer(_) => if c.state in {Running, Starting} then ShuttingDown else c.state
    case StarterTimeout(_, _) => Crashed
    case Connect(_, _, _, _, _, _) => if c.valid && c.armed != [] then Running else c.state
    case AboutToQuit(gs, _) => if c.quits[gs] > 0 then Offline else c.state
    case Pinged(_, _, _) => if c.valid then Crashed else c.state
    case _ => c.state
  }

  predicate IsAfter(w: World, e: Event, s: nat)
    requires Listed(w) && Mapped(w) && Allowed(w, e) && s in w.units && Target(w, e) == Some(s)
  {
    s in Next(w, e).units && Next(w, e).units[s].core.state == StateAfter(w, e, s)
  }

  lemma AfterStart(w: World, e: Event, s: nat)
    requires Valid(w) && Allowed(w, e) && e.StartServer? && Target(w, e) == Some(s) && s in w.units
    requires w.units[s].core.configured
    ensures IsAfter(w, e, s)
  {
    assert Healthy(w.units[s].core);
    StartEnds(w.units[s].core, w.nextStarter, e.user, e.replies);
  }

  lemma AfterArrival(w: World, e: Event, s: nat)
    requires Valid(w) && Allowed(w, e) && e.Connect? && Target(w, e) == Some(s) && s in w.units
    ensures IsAfter(w, e, s)
  {
    if w.units[s].core.valid {
      ArrivalRuns(w, Connected(e.location, e.maxPlayers, e.address, e.map_, e.conVars), e.meanwhile, s);
    }
  }

  lemma AfterQuit(w: World, e: Event, s: nat)
    requires Valid(w) && Allowed(w, e) && e.AboutToQuit? && Target(w, e) == Some(s) && s in w.units
    ensures IsAfter(w, e, s)
  {
    QuitStep(w, e.gs, e.kills);
  }

  lemma AfterPing(w: World, e: Event, s: nat)
    requires Valid(w) && Allowed(w, e) && e.Pinged? && IsLost(e.reply) && Target(w, e) == Some(s) && s in w.units
    ensures IsAfter(w, e, s)
  {
    PingStep(w, e.gs, e.reply, e.kill);
  }

  lemma AfterOthers(w: World, e: Event, s: nat)
    requires Listed(w) && Mapped(w) && Allowed(w, e) && Target(w, e) == Some(s) && s in w.units && s in Next(w, e).units
    requires e.StopServer? || e.StarterTimeout? || e.SessionEnds? || e.Delivery?
    ensures IsAfter(w, e, s)
  {
  }

  lemma TargetStates(w: World, e: Event, s: nat)
    requires Valid(w) && Allowed(w, e) && Target(w, e) == Some(s) && s in w.units && s in Next(w, e).units
    requires w.units[s].core.configured
    ensures IsAfter(w, e, s)
  {
    if e.StartServer? {
      AfterStart(w, e, s);
    } else if e.Connect? {
      AfterArrival(w, e, s);
    } else if e.AboutToQuit? {
      AfterQuit(w, e, s);
    } else if e.Pinged? {
      AfterPing(w, e, s);
    } else {
      AfterOthers(w, e, s);
    }
  }

  lemma BringsTheState(w: World, e: Event, s: nat, state: State)
    requires Listed(w) && Mapped(w) && Allowed(w, e) && s in w.units && Target(w, e) == Some(s)
    ensures Brings(w, e, s, state) ==> StateAfter(w, e, s) == state
    ensures StateAfter(w, e, s) == state && w.units[s].core.state != state ==> Brings(w, e, s, state)
  {
  }

  lemma BringsToTheTarget(w: World, e: Event, s: nat, state: State)
    requires Listed(w) && Mapped(w) && Allowed(w, e) && s in w.units
    ensures Brings(w, e, s, state) ==> Target(w, e) == Some(s)
  {
  }

  /** An event that brings a state leads to it, and no other event leads to it from
    * another state.
    */
  lemma StatesComeFrom(events: seq<Event>, e: Event, s: nat, state: State)
    requires Run(events + [e]).Some?
    ensures Run(events).Some? && Valid(Run(events).value) && Allowed(Run(events).value, e)
    ensures var w, v := Run(events).value, Run(events + [e]).value;
      s in w.units && s in v.units ==>
        && (Brings(w, e, s, state) ==> v.units[s].core.state == state)
        && (v.units[s].core.state == state && w.units[s].core.state != state ==> Brings(w, e, s, state))
  {
    RunOneMore(events, e);
    var w := Run(events).value;
    if s in w.units && s in Next(w, e).units {
      StartChecksNeverFail(events, s);
      BringsToTheTarget(w, e, s, state);
      if Target(w, e) == Some(s) {
        BringsTheState(w, e, s, state);
        TargetStates(w, e, s);
      } else {
        OthersStay(w, e, s);
      }
    }
  }
}
