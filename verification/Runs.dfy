/** What the supervision of servers guarantees after every run of events. */
module Runs {
  import opened Common
  import opened Decimal
  import opened Tmux
  import opened Status
  import opened Mirror
  import opened Coordinator
  import opened World

  /** The world after a run, or None when an event is not allowed. The three functions
    * are one recursion, apart so that a run unfolds without unfolding its last step.
    */
  function Run(events: seq<Event>): Option<World>
    decreases |events|, 2
  {
    if events == [] then Some(INIT) else OneMore(events)
  }

  function OneMore(events: seq<Event>): Option<World>
    requires events != []
    decreases |events|, 1
  {
    if Run(events[..|events| - 1]).None? then None else LastTaken(events)
  }

  function LastTaken(events: seq<Event>): Option<World>
    requires events != [] && Run(events[..|events| - 1]).Some?
    decreases |events|, 0
  {
    var w, e := Run(events[..|events| - 1]).value, events[|events| - 1];
    if Listed(w) && Mapped(w) && Allowed(w, e) then Some(Next(w, e)) else None
  }

  lemma {:induction false} RunsAreValid(events: seq<Event>)
    requires Run(events).Some?
    ensures Valid(Run(events).value)
  {
    if events == [] {
    } else {
      RunsAreValid(events[..|events| - 1]);
      assert Run(events) == LastTaken(events);
      NextKeepsValid(Run(events[..|events| - 1]).value, events[|events| - 1]);
    }
  }

  /** A running server has a live witness: a game server registered for this very
    * server whose aboutToQuit is connected to its coordinator.
    */
  lemma RunningHasALiveWitness(events: seq<Event>, s: nat)
    requires Run(events).Some? && s in Run(events).value.units
    requires Run(events).value.units[s].core.state == Running
    ensures var w := Run(events).value;
      exists gs :: gs in w.registry && w.registry[gs] == s && w.units[s].core.quits[gs] > 0
  {
    RunsAreValid(events);
    var w := Run(events).value;
    var c := w.units[s].core;
    WitnessOfRunning(c);
    assert Linked(c, s, w.registry, w.nextStarter);
    var gs :| gs in c.quits;
    assert gs in w.registry && w.registry[gs] == s && c.quits[gs] > 0;
  }

  lemma WitnessOfRunning(c: Core)
    requires Healthy(c) && c.state == Running
    ensures exists gs :: gs in c.quits
  {
  }

  /** Unless the last kill failed, an offline server has no session, and a crashed
    * one has a session only after one of three errors. In any case a session lives
    * only under the wrapper's current user.
    */
  lemma SessionsAreAccountedFor(events: seq<Event>, s: nat)
    requires Run(events).Some? && s in Run(events).value.units
    ensures var c := Run(events).value.units[s].core;
      && (forall user :: user in c.tmux.alive ==> user == c.tmux.user)
      && (c.tmux.alive != {} && !c.tmux.killFailed ==>
            && c.state != Offline
            && (c.state == Crashed ==>
                  c.error in {UnableToCreateTmuxSession, UnableToResolveUser, ServerNotRegisteredOnTime}))
  {
    RunsAreValid(events);
    assert Healthy(Run(events).value.units[s].core);
  }

  /** A successful kill, or destruction, leaves no session under any user. */
  lemma KillLeavesNoSession(events: seq<Event>, s: nat, r: Reply)
    requires Run(events).Some? && s in Run(events).value.units
    ensures var t := Run(events).value.units[s].core.tmux;
      Kill(t, r).1 ==> Kill(t, r).0.alive == {}
  {
    RunsAreValid(events);
    assert Healthy(Run(events).value.units[s].core);
    SessionsStayHome(Run(events).value.units[s].core.tmux, r, "");
  }

  /** Every starter that announced itself has started, has failed, or is armed. */
  lemma StartersAreConserved(events: seq<Event>, s: nat)
    requires Run(events).Some? && s in Run(events).value.units
    ensures var c := Run(events).value.units[s].core;
      && c.starting == c.started + c.failed + |c.armed|
      && forall i, j :: 0 <= i < j < |c.armed| ==> c.armed[i] != c.armed[j]
  {
    RunsAreValid(events);
    var w := Run(events).value;
    assert Healthy(w.units[s].core) && Linked(w.units[s].core, s, w.registry, w.nextStarter);
  }

  /** A game server that comes online resolves all armed starters of its server. */
  lemma OnlineResolvesAllStarters(w: World, r: Remote, meanwhile: seq<seq<Change>>, s: nat)
    requires Listed(w) && FirstAt(w.order, w.units, r.location) == Some(s) && w.units[s].core.valid
    ensures var c, d := w.units[s].core, Register(w, r, meanwhile).units[s].core;
      && d.armed == [] && d.started == c.started + |c.armed| && d.failed == c.failed
      && d.state == (if c.armed == [] then c.state else Running)
      && d.quits[w.nextGameServer] == c.quits[w.nextGameServer] + |c.armed|
  {
    var c := w.units[s].core;
    var (status, _) := Track(c.status, r, meanwhile);
    ResolvingEndsRunning(c.(status := status), w.nextGameServer, |c.armed|);
  }

  // ---------------------------------------------------------- registry, isolation

  /** Registrations equal live entries, with or without a server, plus quits plus ping
    * failures, and each live game server belongs to the first listed server at its
    * location, unless its server was removed.
    */
  lemma RegistryIsConserved(events: seq<Event>)
    requires Run(events).Some?
    ensures var w := Run(events).value;
      && Listed(w) && w.registry.Keys == w.remotes.Keys
      && w.registrations == |w.registry| + |w.orphans| + w.departures + w.pingFailures
      && w.orphans !! w.registry.Keys
      && forall gs :: gs in w.registry ==> FirstAt(w.order, w.units, w.remotes[gs].location) == Some(w.registry[gs])
  {
    RunsAreValid(events);
  }

  /** The server an event is about. */
  function Target(w: World, e: Event): Option<nat>
    requires Listed(w) && Mapped(w) && Allowed(w, e)
  {
    match e
    case AddServer(_, _) => None
    case Connect(location, _, _, _, _, _) => FirstAt(w.order, w.units, location)
    case Pinged(gs, reply, _) => if IsLost(reply) then Some(w.registry[gs]) else None
    case AboutToQuit(gs, _) => Some(w.registry[gs])
    case OrphanQuits(_) => None
    case RemoteChange(_, _) => None
    case Delivery(gs, _, _) => Some(w.registry[gs])
    case _ => Some(e.server)
  }

  lemma RunOneMore(events: seq<Event>, e: Event)
    requires Run(events + [e]).Some?
    ensures Run(events).Some? && Valid(Run(events).value)
    ensures Allowed(Run(events).value, e) && Run(events + [e]).value == Next(Run(events).value, e)
  {
    assert (events + [e])[..|events|] == events;
    assert Run(events + [e]) == LastTaken(events + [e]);
    RunsAreValid(events);
  }

  lemma RunGrows(events: seq<Event>, e: Event)
    requires Run(events).Some? && Listed(Run(events).value) && Mapped(Run(events).value)
    requires Allowed(Run(events).value, e)
    ensures Run(events + [e]) == Some(Next(Run(events).value, e))
  {
    assert (events + [e])[..|events|] == events;
    assert Run(events + [e]) == LastTaken(events + [e]);
  }

  /** An event changes nothing of any server but the one it is about. */
  lemma EventsAreIsolated(events: seq<Event>, e: Event, s: nat)
    requires Run(events + [e]).Some?
    ensures Run(events).Some? && Valid(Run(events).value) && Allowed(Run(events).value, e)
    ensures var w, v := Run(events).value, Run(events + [e]).value;
      s in w.units && Target(w, e) != Some(s) ==> s in v.units && v.units[s] == w.units[s]
  {
    RunOneMore(events, e);
    OthersStay(Run(events).value, e, s);
  }

  lemma OthersStay(w: World, e: Event, s: nat)
    requires Listed(w) && Mapped(w) && Allowed(w, e) && AllLinked(w)
    ensures s in w.units && Target(w, e) != Some(s) ==> s in Next(w, e).units && Next(w, e).units[s] == w.units[s]
  {
    if e.Connect? {
      RegistrationSparesOthers(w, Connected(e.location, e.maxPlayers, e.address, e.map_, e.conVars), e.meanwhile, s);
    } else if ChangesOneCore(e) {
      CoreEventSparesOthers(w, e, s);
    } else {
      OtherEventSparesOthers(w, e, s);
    }
  }

  lemma RegistrationSparesOthers(w: World, r: Remote, meanwhile: seq<seq<Change>>, s: nat)
    requires Listed(w)
    ensures s in w.units && FirstAt(w.order, w.units, r.location) != Some(s) ==>
      s in Register(w, r, meanwhile).units && Register(w, r, meanwhile).units[s] == w.units[s]
  {
  }

  lemma CoreEventSparesOthers(w: World, e: Event, s: nat)
    requires Listed(w) && Mapped(w) && Allowed(w, e) && ChangesOneCore(e)
    ensures s in w.units && s != e.server ==> s in Next(w, e).units && Next(w, e).units[s] == w.units[s]
  {
  }

  lemma OtherEventSparesOthers(w: World, e: Event, s: nat)
    requires Listed(w) && Mapped(w) && Allowed(w, e) && w.nextServer !in w.units && !ChangesOneCore(e) && !e.Connect?
    ensures s in w.units && Target(w, e) != Some(s) ==> s in Next(w, e).units && Next(w, e).units[s] == w.units[s]
  {
  }

  /** A game server that has left or lost its server is never registered for a server
    * again, and none is ever handed to another server.
    */
  lemma {:induction false} GameServersLeaveOnce(events: seq<Event>, more: seq<Event>, gs: nat)
    requires Run(events + more).Some?
    ensures Run(events).Some?
    ensures var w, v := Run(events).value, Run(events + more).value;
      && (gs < w.nextGameServer ==> gs < v.nextGameServer)
      && (gs < w.nextGameServer && gs !in w.registry ==> gs !in v.registry)
      && (gs in w.registry && gs in v.registry ==> v.registry[gs] == w.registry[gs])
    decreases |more|
  {
    if more == [] {
      assert events + more == events;
    } else {
      var k := |more| - 1;
      assert events + more == events + more[..k] + [more[k]];
      RunOneMore(events + more[..k], more[k]);
      GameServersLeaveOnce(events, more[..k], gs);
      GameServerSteps(Run(events + more[..k]).value, more[k], gs);
      RunsAreValid(events);
    }
  }

  lemma GameServerSteps(w: World, e: Event, gs: nat)
    requires Listed(w) && Placed(w) && Allowed(w, e)
    ensures var v := Next(w, e);
      && (gs < w.nextGameServer ==> gs < v.nextGameServer)
      && (gs < w.nextGameServer && gs !in w.registry ==> gs !in v.registry)
      && (gs in w.registry && gs in v.registry ==> v.registry[gs] == w.registry[gs])
  {
  }

  /** A starter that has ended is never armed again. */
  lemma {:induction false} StartersEndOnce(events: seq<Event>, more: seq<Event>, starter: nat, s: nat)
    requires Run(events + more).Some?
    ensures Run(events).Some?
    ensures var w, v := Run(events).value, Run(events + more).value;
      && w.nextStarter <= v.nextStarter && w.nextServer <= v.nextServer
      && (s in v.units && s < w.nextServer ==> s in w.units)
      && (s in v.units && s in w.units && starter < w.nextStarter && starter !in w.units[s].core.armed ==>
            starter !in v.units[s].core.armed)
    decreases |more|
  {
    if more == [] {
      assert events + more == events;
    } else {
      var k := |more| - 1;
      assert events + more == events + more[..k] + [more[k]];
      RunOneMore(events + more[..k], more[k]);
      StartersEndOnce(events, more[..k], starter, s);
      StarterSteps(Run(events + more[..k]).value, more[k], s, starter);
      RunsAreValid(events);
      ServersAreOld(Run(events).value, s);
    }
  }

  lemma ServersAreOld(w: World, s: nat)
    requires AllLinked(w)
    ensures s in w.units ==> s < w.nextServer
  {
  }

  lemma CountersGrow(w: World, e: Event, s: nat)
    requires Listed(w) && Mapped(w) && Allowed(w, e)
    ensures var v := Next(w, e);
      && w.nextStarter <= v.nextStarter && w.nextServer <= v.nextServer
      && (s in v.units && s < w.nextServer ==> s in w.units)
  {
  }

  lemma StarterSteps(w: World, e: Event, s: nat, starter: nat)
    requires Listed(w) && Mapped(w) && Allowed(w, e) && AllLinked(w)
    ensures var v := Next(w, e);
      && w.nextStarter <= v.nextStarter && w.nextServer <= v.nextServer
      && (s in v.units && s < w.nextServer ==> s in w.units)
      && (s in v.units && s in w.units && starter < w.nextStarter && starter !in w.units[s].core.armed ==>
            starter !in v.units[s].core.armed)
  {
    CountersGrow(w, e, s);
    OthersStay(w, e, s);
    if s in w.units && Target(w, e) == Some(s) && starter < w.nextStarter && starter !in w.units[s].core.armed {
      assert Linked(w.units[s].core, s, w.registry, w.nextStarter);
      ArmedStartersStayOrGo(w, e, s, starter);
    }
  }

  lemma ArmedStartersStayOrGo(w: World, e: Event, s: nat, starter: nat)
    requires Listed(w) && Mapped(w) && Allowed(w, e) && s in w.units
    requires Single(w.units[s].core.armed) && Target(w, e) == Some(s)
    requires starter < w.nextStarter && starter !in w.units[s].core.armed
    ensures s in Next(w, e).units ==> starter !in Next(w, e).units[s].core.armed
  {
    var c := w.units[s].core;
    match e
    case StartServer(_, user, replies) => StartArms(c, w.nextStarter, user, replies);
    case StarterTimeout(_, t) => RemoveStarterKeepsSingle(c.armed, t);
    case AboutToQuit(_, kills) => QuitCallsKeepLinks(c, kills);
    case _ =>
  }

  // ------------------------------------------------- checks that never fail

  /** Every listed server has a configuration, and an invalid one is never started. */
  predicate ChecksPass(c: Core) {
    && c.configured && c.error !in {InvalidInstallation, InvalidConfiguration}
    && (!c.valid ==> c.state == Offline && c.error == NoError)
  }

  lemma {:induction false} QuitCallsKeepErrors(c: Core, kills: seq<Reply>)
    ensures var d := QuitCalls(c, kills); d.valid == c.valid && d.configured == c.configured && d.error == c.error
  {
    if kills == [] {
    } else {
      QuitCallsKeepErrors(c, kills[..|kills| - 1]);
    }
  }

  lemma OnlineKeepsErrors(c: Core, gs: nat, r: Remote, meanwhile: seq<seq<Change>>)
    ensures var d := Online(c, gs, r, meanwhile).0;
      d.valid == c.valid && d.configured == c.configured && d.error == c.error
  {
    ResolvingEndsRunning(c.(status := Track(c.status, r, meanwhile).0), gs, |c.armed|);
  }

  lemma CoreEventChecksPass(w: World, e: Event)
    requires Listed(w) && Mapped(w) && Allowed(w, e) && ChangesOneCore(e)
    requires ChecksPass(w.units[e.server].core) && Healthy(w.units[e.server].core)
    ensures ChecksPass(CoreAfter(w, e))
  {
  }

  lemma ChecksPassAtTarget(w: World, e: Event, s: nat)
    requires Listed(w) && Mapped(w) && Allowed(w, e) && s in w.units && Target(w, e) == Some(s)
    requires ChecksPass(w.units[s].core) && Healthy(w.units[s].core)
    ensures s in Next(w, e).units ==> ChecksPass(Next(w, e).units[s].core)
  {
    var c := w.units[s].core;
    if ChangesOneCore(e) {
      CoreEventChecksPass(w, e);
    } else {
      match e
      case AboutToQuit(_, kills) => QuitCallsKeepErrors(c, kills);
      case Connect(location, maxPlayers, address, m, conVars, meanwhile) =>
        OnlineKeepsErrors(c, w.nextGameServer, Connected(location, maxPlayers, address, m, conVars), meanwhile);
      case _ =>
    }
  }

  lemma ChecksPassNext(w: World, e: Event, s: nat)
    requires Valid(w) && Allowed(w, e) && s in Next(w, e).units
    requires s in w.units ==> ChecksPass(w.units[s].core)
    ensures ChecksPass(Next(w, e).units[s].core)
  {
    if s !in w.units {
      NewServersAreNew(w, e, s);
    } else if Target(w, e) == Some(s) {
      ChecksPassAtTarget(w, e, s);
    } else {
      OthersStay(w, e, s);
    }
  }

  lemma NewServersAreNew(w: World, e: Event, s: nat)
    requires Listed(w) && Mapped(w) && Allowed(w, e) && s in Next(w, e).units && s !in w.units
    ensures e.AddServer? && s == w.nextServer && Next(w, e).units[s].core == NewCore(e.valid, true)
  {
  }

  /** No run meets the starter's checks for an invalid installation or a missing
    * configuration: an invalid server has no coordinator that could start it, and
    * every server has a configuration.
    */
  lemma {:induction false} StartChecksNeverFail(events: seq<Event>, s: nat)
    requires Run(events).Some? && s in Run(events).value.units
    ensures var c := Run(events).value.units[s].core;
      && c.configured && c.error !in {InvalidInstallation, InvalidConfiguration}
      && (!c.valid ==> c.state == Offline && c.error == NoError)
  {
    if events == [] {
    } else {
      var init, e := events[..|events| - 1], events[|events| - 1];
      assert Run(events) == LastTaken(events);
      RunsAreValid(init);
      if s in Run(init).value.units {
        StartChecksNeverFail(init, s);
      }
      ChecksPassNext(Run(init).value, e, s);
    }
  }

  // ---------------------------------------------------------------- the status

  /** The player list is the arrivals since the last reset, in order, without the
    * earliest arrival of each id for each departure; the count is its length.
    */
  lemma PlayersAgreeWithHistory(events: seq<Event>, s: nat)
    requires Run(events).Some? && s in Run(events).value.units
    ensures var st := Run(events).value.units[s].core.status;
      && st.players == Remaining(st.arrived, st.gone)
      && st.playerCount == |st.players|
  {
    RunsAreValid(events);
    assert Healthy(Run(events).value.units[s].core);
  }

  /** A field that a live game server wrote last since the last reset ends, once the
    * game server's notifications are delivered, at its current value.
    */
  lemma MirrorsFollowTheirGameServer(events: seq<Event>, s: nat, f: Field, name: string, steamId: nat)
    requires Run(events).Some? && s in Run(events).value.units
    ensures var w := Run(events).value;
      var u := w.units[s];
      f in u.writers && u.writers[f] in w.registry ==>
        && w.registry[u.writers[f]] == s && u.writers[f] in w.remotes
        && var r := w.remotes[u.writers[f]];
           Shows(Drain(u.core.status, r.queue, name, steamId), f, Current(r, f))
  {
    RunsAreValid(events);
    var w := Run(events).value;
    var u := w.units[s];
    if f in u.writers && u.writers[f] in w.registry {
      assert Follows(u.core.status, u.writers, s, w.registry, w.remotes);
      DrainedMirrorIsCurrent(u.core.status, w.remotes[u.writers[f]], f, name, steamId);
    }
  }

  /** The same name by name: `gs` is the game server that wrote a field last. */
  lemma MirrorsByName(events: seq<Event>, s: nat, gs: nat, name: string, steamId: nat)
    requires Run(events).Some? && s in Run(events).value.units && gs in Run(events).value.registry
    ensures var w := Run(events).value;
      gs in w.remotes
      && var writers, r := w.units[s].writers, w.remotes[gs];
         var d := Drain(w.units[s].core.status, r.queue, name, steamId);
         && (Map in writers && writers[Map] == gs ==> d.map_ == r.map_)
         && (Hostname in writers && writers[Hostname] == gs ==> d.hostname == ConVar(r, "hostname"))
         && (Password in writers && writers[Password] == gs ==> d.password == ConVar(r, "sv_password"))
         && (StvPassword in writers && writers[StvPassword] == gs ==> d.stvPassword == ConVar(r, "tv_password"))
         && (StvPort in writers && writers[StvPort] == gs && ToInt(ConVar(r, "tv_port")).Some? ==>
               Some(d.stvPort) == ToInt(ConVar(r, "tv_port")))
  {
    var w := Run(events).value;
    assert gs in w.remotes by {
      RunsAreValid(events);
    }
    var d, r := Drain(w.units[s].core.status, w.remotes[gs].queue, name, steamId), w.remotes[gs];
    forall f | f in w.units[s].writers && w.units[s].writers[f] == gs ensures Shows(d, f, Current(r, f)) {
      MirrorsFollowTheirGameServer(events, s, f, name, steamId);
    }
    ShownByName(d, r);
  }

  /** What it means to show a field. */
  lemma ShownByName(d: Status, r: Remote)
    ensures Shows(d, Map, Current(r, Map)) <==> d.map_ == r.map_
    ensures Shows(d, Hostname, Current(r, Hostname)) <==> d.hostname == ConVar(r, "hostname")
    ensures Shows(d, Password, Current(r, Password)) <==> d.password == ConVar(r, "sv_password")
    ensures Shows(d, StvPassword, Current(r, StvPassword)) <==> d.stvPassword == ConVar(r, "tv_password")
    ensures Shows(d, StvPort, Current(r, StvPort)) <==>
      var port := ToInt(ConVar(r, "tv_port")); port.Some? ==> port == Some(d.stvPort)
  {
  }

  predicate AllSettled(status: Status, r: Remote) {
    forall f :: Settled(status, r, f)
  }

  /** A text that a blank status shows as well: none, or for the port 0 or no number. */
  predicate LooksBlank(f: Field, text: string) {
    if f == StvPort then ToInt(text).None? || ToInt(text).value == 0 else text == ""
  }

  /** The snapshot a game server's arrival takes shows, or is about to show, every
    * text of the game server afterwards exactly when no starter was waiting for it,
    * or each text has a notification under way or looks blank.
    */
  lemma SnapshotSurvivesIffUnawaited(w: World, r: Remote, meanwhile: seq<seq<Change>>, s: nat)
    requires Listed(w) && FirstAt(w.order, w.units, r.location) == Some(s) && w.units[s].core.valid && r.queue == []
    ensures var c, v := w.units[s].core, Register(w, r, meanwhile);
      var status, q := v.units[s].core.status, v.remotes[w.nextGameServer];
      && (c.armed != [] ==> status == Blank(c.status.resets + |c.armed|))
      && (AllSettled(status, q) <==>
            c.armed == [] || forall f :: Pending(q.queue, f).Some? || LooksBlank(f, Current(q, f)))
  {
    var c := w.units[s].core;
    OnlineSettles(c, w.nextGameServer, r, meanwhile);
    var q := Register(w, r, meanwhile).remotes[w.nextGameServer];
    if c.armed != [] {
      forall f ensures
        Settled(Blank(c.status.resets + |c.armed|), q, f) <==> Pending(q.queue, f).Some? || LooksBlank(f, Current(q, f))
      {
        BlankSettlesIff(c.status.resets + |c.armed|, q, f);
      }
    }
  }

  lemma BlankSettlesIff(resets: nat, q: Remote, f: Field)
    requires Heard(q, f) && Announced(q, f)
    ensures Settled(Blank(resets), q, f) <==> Pending(q.queue, f).Some? || LooksBlank(f, Current(q, f))
  {
  }

  /** When nothing happens at the game server meanwhile, that can be told beforehand:
    * no starter is waiting, or all its texts look blank.
    */
  lemma QuietSnapshotSurvivesIff(w: World, r: Remote, s: nat)
    requires Listed(w) && FirstAt(w.order, w.units, r.location) == Some(s) && w.units[s].core.valid && r.queue == []
    ensures var v := Register(w, r, []);
      AllSettled(v.units[s].core.status, v.remotes[w.nextGameServer]) <==>
        w.units[s].core.armed == [] || forall f :: LooksBlank(f, Current(r, f))
  {
    SnapshotSurvivesIffUnawaited(w, r, [], s);
    QuietTracking(w.units[s].core.status, r);
    var q := Register(w, r, []).remotes[w.nextGameServer];
    assert forall f :: Current(q, f) == Current(r, f) && Pending(q.queue, f).None?;
  }

  /** Tracking a game server that stays as it is. */
  lemma QuietTracking(s: Status, r: Remote)
    ensures var q := Track(s, r, []).1;
      q.queue == r.queue && q.map_ == r.map_ && q.conVars == r.conVars && q.playersHooked
  {
    assert forall i: nat :: At([], i) == [];
    assert forall q: Remote :: HappenAll(q, []) == q;
  }

  /** The rest of the status. The player limit survives under the same condition. The
    * address does when its text splits into host and port, and else an older address
    * stays. Players are never read, so those of an earlier game server stay.
    */
  lemma RestOfTheSnapshot(w: World, r: Remote, meanwhile: seq<seq<Change>>, s: nat)
    requires Listed(w) && FirstAt(w.order, w.units, r.location) == Some(s) && w.units[s].core.valid
    ensures var c, status := w.units[s].core, Register(w, r, meanwhile).units[s].core.status;
      && (status.maxPlayers == r.maxPlayers <==> c.armed == [] || r.maxPlayers == 0)
      && (status.address == AddressFrom(r.address, NoAddress) <==>
            if c.armed == [] then IsAddress(r.address) || c.status.address == NoAddress else !IsAddress(r.address))
      && (status.players == [] <==> c.armed != [] || c.status.players == [])
      && (status.playerCount == 0 <==> c.armed != [] || c.status.playerCount == 0)
  {
    var c := w.units[s].core;
    var (status, _) := Track(c.status, r, meanwhile);
    TrackKeepsTheRest(c.status, r, meanwhile);
    ResolvingEndsRunning(c.(status := status), w.nextGameServer, |c.armed|);
  }

  /** A newcomer counts as the last writer of every field exactly when no starter was waiting. */
  lemma NewcomersWriteIffUnawaited(w: World, r: Remote, meanwhile: seq<seq<Change>>, s: nat)
    requires Listed(w) && FirstAt(w.order, w.units, r.location) == Some(s) && w.units[s].core.valid && r.queue == []
    ensures var c, u := w.units[s].core, Register(w, r, meanwhile).units[s];
      && ((forall f :: f in u.writers && u.writers[f] == w.nextGameServer) <==> c.armed == [])
      && (c.armed != [] ==> u.writers == map[])
  {
    var c := w.units[s].core;
    OnlineSettles(c, w.nextGameServer, r, meanwhile);
    AllWrittenByCovers(w.nextGameServer);
    var u := Register(w, r, meanwhile).units[s];
    if c.armed == [] {
      assert u.writers == AllWrittenBy(w.nextGameServer);
    } else {
      assert u.writers == map[];
      assert Map !in u.writers;
    }
  }

  /** After every run, a player is listed exactly when more arrivals than departures
    * with the id were delivered since the last reset. A departure breaks the status
    * when its player is not, because of a reset or because nobody tracked the arrival.
    */
  lemma DepartureIsListedIff(events: seq<Event>, s: nat, id: int)
    requires Run(events).Some? && s in Run(events).value.units
    ensures var st := Run(events).value.units[s].core.status;
      IsListed(st.players, id) <==> Count(st.arrived, id) > st.gone[id]
  {
    RunsAreValid(events);
    assert Healthy(Run(events).value.units[s].core);
    var st := Run(events).value.units[s].core.status;
    DepartureRemovesFirst(st.arrived, st.gone, id);
  }

  /** A game server's departure blanks the status exactly when the departure is a lost
    * ping or the game server had a connection (or there was nothing to blank); else
    * the status keeps what the departed game server put there.
    */
  lemma DepartureBlanksStatusIff(events: seq<Event>, e: Event)
    requires Run(events + [e]).Some? && (e.AboutToQuit? || (e.Pinged? && IsLost(e.reply)))
    ensures Run(events).Some? && e.gs in Run(events).value.registry
    ensures var w, v := Run(events).value, Run(events + [e]).value;
      var s := w.registry[e.gs];
      && s in w.units && s in v.units
      && (w.units[s].core.valid ==>
            var before, after := w.units[s].core.status, v.units[s].core.status;
            var heard := e.Pinged? || w.units[s].core.quits[e.gs] > 0;
            && (after == Blank(after.resets) <==> heard || before == Blank(before.resets))
            && (!heard ==> v.units[s] == w.units[s]))
  {
    RunOneMore(events, e);
    if e.AboutToQuit? {
      var c := Run(events).value.units[Run(events).value.registry[e.gs]].core;
      QuitCallsRenewStatus(c, e.kills);
      assert c.quits[e.gs] == 0 ==> c.quits[e.gs := 0] == c.quits;
    }
  }

  lemma AllWrittenByCovers(gs: nat)
    ensures forall f: Field :: f in AllWrittenBy(gs) && AllWrittenBy(gs)[f] == gs
  {
    forall f: Field ensures f in AllWrittenBy(gs) && AllWrittenBy(gs)[f] == gs {
      match f
      case Map => case Hostname => case Password => case StvPassword => case StvPort =>
    }
  }
}
