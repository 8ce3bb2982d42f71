/** The supervision of one server: its coordinator, starters, tmux session and
  * status, and what each event does to them.
  */
module Coordinator {
  import opened Tmux
  import opened Status
  import opened Mirror

  datatype State = Offline | Starting | Running | ShuttingDown | Crashed

  datatype ErrorType =
    | NoError
    | InvalidInstallation
    | InvalidConfiguration
    | UnableToCreateTmuxSession
    | UnableToResolveUser
    | UnableToRedirectTmuxOutput
    | ServerExecutableFailed
    | ServerNotRegisteredOnTime

  /** `armed` are the starters that wait for the game server, oldest first.
    * `quits` counts, for each game server, the connections of its aboutToQuit to
    * this coordinator. The last three fields count the starters' signals.
    */
  datatype Core = Core(valid: bool, configured: bool, state: State, error: ErrorType, tmux: Session,
                       armed: seq<nat>, quits: multiset<nat>, status: Status,
                       starting: nat, started: nat, failed: nat)

  function NewCore(valid: bool, configured: bool): Core {
    Core(valid, configured, Offline, NoError, Session("", {}, false), [], multiset{}, Blank(0), 0, 0, 0)
  }

  /** Every state change resets the status. */
  function SetState(c: Core, state: State): Core {
    c.(state := state, status := Reset(c.status))
  }

  // ------------------------------------------------------------------- starting

  /** The answers the starter gets: whether the user is known, and its commands. */
  datatype StartReplies = StartReplies(probe: bool, create: Reply, userKnown: bool, redirect: Reply, command: Reply,
                                       kill: Reply)

  function Announce(c: Core): Core {
    SetState(c.(starting := c.starting + 1), Starting)
  }

  function Fail(c: Core, error: ErrorType): Core {
    SetState(c.(error := error, failed := c.failed + 1), Crashed)
  }

  function KillAndFail(c: Core, kill: Reply, error: ErrorType): Core {
    Fail(c.(tmux := Kill(c.tmux, kill).0), error)
  }

  function Start(c: Core, starter: nat, user: string, r: StartReplies): Core {
    var a := Announce(c);
    if !c.valid then Fail(a, InvalidInstallation)
    else if !c.configured then Fail(a, InvalidConfiguration)
    else
      var (tmux, created) := Create(SetUser(a.tmux, user, r.probe), r.create);
      var b := a.(tmux := tmux);
      if !created then Fail(b, UnableToCreateTmuxSession)
      else if user != "" && !r.userKnown then Fail(b, UnableToResolveUser)
      else Launch(b, starter, r)
  }

  /** The session exists: redirect its output, type the command, and wait. */
  function Launch(c: Core, starter: nat, r: StartReplies): Core {
    if !Accepts(c.tmux, r.redirect) then KillAndFail(c, r.kill, UnableToRedirectTmuxOutput)
    else if !Accepts(c.tmux, r.command) then KillAndFail(c, r.kill, ServerExecutableFailed)
    else c.(armed := c.armed + [starter])
  }

  function RemoveStarter(armed: seq<nat>, starter: nat): seq<nat> {
    if armed == [] then []
    else if armed[0] == starter then armed[1..]
    else [armed[0]] + RemoveStarter(armed[1..], starter)
  }

  function TimeOut(c: Core, starter: nat): Core {
    Fail(c.(armed := RemoveStarter(c.armed, starter)), ServerNotRegisteredOnTime)
  }

  // ------------------------------------------------------------------- stopping

  function Stop(c: Core): Core {
    if c.state == Running || c.state == Starting then SetState(c, ShuttingDown) else c
  }

  function OnStopped(c: Core, kill: Reply): Core {
    var d := SetState(c, Offline);
    d.(tmux := Kill(d.tmux, kill).0)
  }

  function OnTimedOut(c: Core, kill: Reply): Core {
    var d := SetState(c, Crashed);
    d.(tmux := Kill(d.tmux, kill).0)
  }

  // --------------------------------------------------------- game server events

  /** One starter hears of the game server; its `started` makes a connection. */
  function OnStarted(c: Core, gs: nat): Core {
    SetState(c.(quits := c.quits + multiset{gs}, started := c.started + 1), Running)
  }

  /** The starters hear of it one after another, in connection order. */
  function ResolveStarters(c: Core, gs: nat, n: nat): Core {
    if n == 0 then c else OnStarted(ResolveStarters(c, gs, n - 1), gs)
  }

  /** The status is connected first and takes its snapshot; then come the starters. */
  function Online(c: Core, gs: nat, r: Remote, meanwhile: seq<seq<Change>>): (Core, Remote) {
    var (status, q) := Track(c.status, r, meanwhile);
    (ResolveStarters(c.(status := status), gs, |c.armed|).(armed := []), q)
  }

  /** aboutToQuit runs the coordinator once per connection it was given. */
  function QuitCalls(c: Core, kills: seq<Reply>): Core {
    if kills == [] then c else OnStopped(QuitCalls(c, kills[..|kills| - 1]), kills[|kills| - 1])
  }

  /** Deleting the game server's proxy drops its connections. */
  function Forget(c: Core, gs: nat): Core {
    c.(quits := c.quits[gs := 0])
  }

  function Quit(c: Core, gs: nat, kills: seq<Reply>): Core {
    Forget(QuitCalls(c, kills), gs)
  }

  function PingFailed(c: Core, gs: nat, kill: Reply): Core {
    Forget(OnTimedOut(c, kill), gs)
  }

  /** The session ends by itself or is ended by hand. */
  function SessionLost(c: Core, user: string): Core {
    c.(tmux := c.tmux.(alive := c.tmux.alive - {user}))
  }

  // ------------------------------------------------------------------ invariant

  /** What holds of every server between events. */
  ghost predicate Healthy(c: Core) {
    && AtHome(c.tmux)
    && (!c.valid || !c.configured ==> c.tmux.alive == {} && c.armed == [] && c.quits == multiset{})
    && (c.state == Offline && c.tmux.alive != {} ==> c.tmux.killFailed)
    && (c.state == Crashed && c.tmux.alive != {} ==>
          c.tmux.killFailed || c.error in {UnableToCreateTmuxSession, UnableToResolveUser, ServerNotRegisteredOnTime})
    && (c.state == Running ==> c.armed == [] && c.quits != multiset{})
    && c.starting == c.started + c.failed + |c.armed|
    && Counted(c.status)
  }

  /** What holds while a starter has announced itself and not yet ended. */
  ghost predicate Underway(c: Core) {
    && AtHome(c.tmux)
    && (!c.valid || !c.configured ==> c.tmux.alive == {} && c.armed == [] && c.quits == multiset{})
    && c.starting == c.started + c.failed + |c.armed| + 1
    && Counted(c.status)
  }

  lemma FailEndsHealthy(c: Core, error: ErrorType)
    requires Underway(c)
    requires c.tmux.alive != {} ==>
      c.tmux.killFailed || error in {UnableToCreateTmuxSession, UnableToResolveUser, ServerNotRegisteredOnTime}
    ensures Healthy(Fail(c, error))
  {
  }

  lemma KillAndFailEndsHealthy(c: Core, kill: Reply, error: ErrorType)
    requires Underway(c)
    ensures Healthy(KillAndFail(c, kill, error))
  {
  }

  lemma StartKeepsHealthy(c: Core, starter: nat, user: string, r: StartReplies)
    requires Healthy(c)
    ensures Healthy(Start(c, starter, user, r))
  {
    var a := Announce(c);
    assert Underway(a);
    if !c.valid {
      FailEndsHealthy(a, InvalidInstallation);
    } else if !c.configured {
      FailEndsHealthy(a, InvalidConfiguration);
    } else {
      SessionsStayHome(c.tmux, Reply(r.probe, false, false), user);
      SessionsStayHome(SetUser(c.tmux, user, r.probe), r.create, user);
      var (tmux, created) := Create(SetUser(a.tmux, user, r.probe), r.create);
      var b := a.(tmux := tmux);
      FailEndsHealthy(b, UnableToCreateTmuxSession);
      FailEndsHealthy(b, UnableToResolveUser);
      LaunchEndsHealthy(b, starter, r);
    }
  }

  lemma LaunchEndsHealthy(c: Core, starter: nat, r: StartReplies)
    requires Underway(c) && c.state == Starting && c.valid && c.configured
    ensures Healthy(Launch(c, starter, r))
  {
    KillAndFailEndsHealthy(c, r.kill, UnableToRedirectTmuxOutput);
    KillAndFailEndsHealthy(c, r.kill, ServerExecutableFailed);
  }

  lemma {:induction false} RemoveStarterCounts(armed: seq<nat>, starter: nat)
    requires starter in armed
    ensures |RemoveStarter(armed, starter)| == |armed| - 1
    ensures forall a :: a in RemoveStarter(armed, starter) ==> a in armed
  {
    if armed[0] != starter {
      assert armed == [armed[0]] + armed[1..];
      RemoveStarterCounts(armed[1..], starter);
    }
  }

  lemma TimeOutKeepsHealthy(c: Core, starter: nat)
    requires Healthy(c) && starter in c.armed
    ensures Healthy(TimeOut(c, starter))
  {
    RemoveStarterCounts(c.armed, starter);
  }

  lemma {:induction false} ResolvingEndsRunning(c: Core, gs: nat, n: nat)
    ensures var d := ResolveStarters(c, gs, n);
      && d == c.(state := d.state, status := d.status, quits := d.quits, started := c.started + n)
      && d.quits == c.quits[gs := c.quits[gs] + n]
      && (if n == 0 then d == c else d.state == Running && d.status == Blank(c.status.resets + n))
  {
    if n > 0 {
      ResolvingEndsRunning(c, gs, n - 1);
    } else {
      assert c.quits == c.quits[gs := c.quits[gs]];
    }
  }

  lemma OnlineKeepsHealthy(c: Core, gs: nat, r: Remote, meanwhile: seq<seq<Change>>)
    requires Healthy(c)
    ensures Healthy(Online(c, gs, r, meanwhile).0)
  {
    var (status, q) := Track(c.status, r, meanwhile);
    TrackKeepsTheRest(c.status, r, meanwhile);
    var d := c.(status := status);
    ResolvingEndsRunning(d, gs, |c.armed|);
    assert c.armed != [] ==> gs in ResolveStarters(d, gs, |c.armed|).quits;
  }

  lemma {:induction false} QuitCallsEndOffline(c: Core, kills: seq<Reply>)
    requires Healthy(c)
    ensures var d := QuitCalls(c, kills);
      && Healthy(d) && d.quits == c.quits && d.armed == c.armed
      && (if kills == [] then d == c else d.state == Offline && d.status.resets > c.status.resets)
  {
    if kills == [] {
    } else {
      var k := |kills| - 1;
      QuitCallsEndOffline(c, kills[..k]);
      SessionsStayHome(QuitCalls(c, kills[..k]).tmux, kills[k], "");
    }
  }

  lemma {:induction false} QuitCallsStayValid(core: Core, kills: seq<Reply>)
    ensures QuitCalls(core, kills).valid == core.valid
  {
    if kills == [] {
    } else {
      QuitCallsStayValid(core, kills[..|kills| - 1]);
    }
  }

  lemma QuitKeepsHealthy(c: Core, gs: nat, kills: seq<Reply>)
    requires Healthy(c) && |kills| == c.quits[gs]
    ensures Healthy(Quit(c, gs, kills))
  {
    QuitCallsEndOffline(c, kills);
    if kills == [] {
      assert c.quits[gs := 0] == c.quits;
    }
  }

  lemma PingFailedKeepsHealthy(c: Core, gs: nat, kill: Reply)
    requires Healthy(c)
    ensures Healthy(PingFailed(c, gs, kill))
  {
  }

  lemma OthersKeepHealthy(c: Core, user: string)
    requires Healthy(c)
    ensures Healthy(Stop(c)) && Healthy(SessionLost(c, user))
  {
  }

  lemma StatusKeepsHealthy(c: Core, s: Status)
    requires Healthy(c) && Counted(s)
    ensures Healthy(c.(status := s))
  {
  }

  lemma DeliverKeepsCounted(s: Status, n: Note, name: string, steamId: nat)
    requires Counted(s) && (n.PlayerDisconnected? ==> IsListed(s.players, n.id))
    ensures Counted(Deliver(s, n, name, steamId))
    ensures Deliver(s, n, name, steamId).resets == s.resets
  {
    if n.PlayerConnected? {
      AddPlayerKeepsCounted(s, Player(n.id, name, steamId));
    } else if n.PlayerDisconnected? {
      RemovePlayerKeepsCounted(s, n.id);
    } else {
      var d := Deliver(s, n, name, steamId);
      assert d.players == s.players && d.playerCount == s.playerCount && d.arrived == s.arrived && d.gone == s.gone;
    }
  }

  // -------------------------------------------- which sessions outlive their server

  /** How a start ends for the session: with the server waiting in it; or, by error,
    * as it was unless the failed command created it after all; left behind; or gone
    * exactly when the kill took effect.
    */
  lemma SessionAfterStart(c: Core, starter: nat, user: string, r: StartReplies)
    requires Healthy(c) && c.valid && c.configured
    ensures var d := Start(c, starter, user, r);
      if d.failed == c.failed then d.armed == c.armed + [starter] && d.tmux.alive == {d.tmux.user}
      else
        && d.state == Crashed && d.failed == c.failed + 1
        && match d.error
           case UnableToCreateTmuxSession =>
             d.tmux.alive != {} <==> c.tmux.alive != {} || (!r.create.late && !r.create.done && r.create.effect)
           case UnableToResolveUser => d.tmux.alive == {d.tmux.user}
           case UnableToRedirectTmuxOutput => d.tmux.alive == {} <==> r.kill.done || r.kill.effect
           case ServerExecutableFailed => d.tmux.alive == {} <==> r.kill.done || r.kill.effect
           case _ => false
  {
  }

  /** A start without a session runs under the user asked for. */
  lemma FreshStartsRunUnder(c: Core, starter: nat, user: string, r: StartReplies)
    ensures c.valid && c.configured && c.tmux.alive == {} && !r.probe ==> Start(c, starter, user, r).tmux.user == user
  {
  }

  /** A starter's timeout never touches the session. */
  lemma SessionAfterTimeOut(c: Core, starter: nat)
    ensures TimeOut(c, starter).tmux == c.tmux
  {
  }

  /** A lost ping leaves a session exactly when there was one and the kill had no effect. */
  lemma SessionAfterPingFailed(c: Core, gs: nat, kill: Reply)
    requires Healthy(c)
    ensures PingFailed(c, gs, kill).tmux.alive == {} <==> c.tmux.alive == {} || kill.done || kill.effect
  {
  }

  predicate SomeKillWorks(kills: seq<Reply>) {
    exists i :: 0 <= i < |kills| && (kills[i].done || kills[i].effect)
  }

  lemma SomeKillWorksSplit(kills: seq<Reply>)
    requires kills != []
    ensures var last := kills[|kills| - 1];
      SomeKillWorks(kills) <==> SomeKillWorks(kills[..|kills| - 1]) || last.done || last.effect
  {
    var init := kills[..|kills| - 1];
    assert forall i :: 0 <= i < |init| ==> init[i] == kills[i];
  }

  /** So does aboutToQuit, over all the kills its connections make. */
  lemma {:induction false} SessionAfterQuit(c: Core, kills: seq<Reply>)
    requires Healthy(c)
    ensures QuitCalls(c, kills).tmux.alive == {} <==> c.tmux.alive == {} || SomeKillWorks(kills)
    ensures forall gs :: Quit(c, gs, kills).tmux == QuitCalls(c, kills).tmux
  {
    if kills == [] {
    } else {
      var k := |kills| - 1;
      SomeKillWorksSplit(kills);
      SessionAfterQuit(c, kills[..k]);
      QuitCallsEndOffline(c, kills[..k]);
    }
  }
}
