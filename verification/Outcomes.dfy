/** What becomes of each starter. */
module Outcomes {
  import opened Common
  import opened Tmux
  import opened Mirror
  import opened Coordinator
  import opened World
  import opened Runs

  /** Its `started` signal, its `failed` signal, or its deletion with its server. */
  datatype Outcome = Started | Failed | Abandoned

  /** How an event ends a starter, if it does. */
  function Ending(w: World, e: Event, a: nat): Option<Outcome>
    requires Listed(w) && Mapped(w) && Allowed(w, e)
  {
    match e
    case StartServer(s, user, r) =>
      if a == w.nextStarter && a !in Start(w.units[s].core, a, user, r).armed then Some(Failed) else None
    case StarterTimeout(_, starter) => if a == starter then Some(Failed) else None
    case Connect(location, _, _, _, _, _) =>
      (match FirstAt(w.order, w.units, location)
       case None => None
       case Some(s) => if w.units[s].core.valid && a in w.units[s].core.armed then Some(Started) else None)
    case RemoveServer(s) => if a in w.units[s].core.armed then Some(Abandoned) else None
    case _ => None
  }

  /** All endings of a starter over a run, in order. */
  function Outcomes(events: seq<Event>, a: nat): seq<Outcome>
    requires Run(events).Some?
  {
    if events == [] then []
    else
      assert OneMore(events).Some?;
      assert LastTaken(events).Some?;
      var init := events[..|events| - 1];
      match Ending(Run(init).value, events[|events| - 1], a)
      case None => Outcomes(init, a)
      case Some(outcome) => Outcomes(init, a) + [outcome]
  }

  predicate Waiting(w: World, a: nat) {
    exists s :: s in w.units && a in w.units[s].core.armed
  }

  /** No starter waits for two servers. */
  predicate Apart(w: World) {
    forall s, t, a ::
      s in w.units && t in w.units && a in w.units[s].core.armed && a in w.units[t].core.armed ==> s == t
  }

  /** An armed starter stays armed, unless the event ends it. */
  lemma StayArmed(w: World, e: Event, s: nat, a: nat)
    requires Valid(w) && Apart(w) && Allowed(w, e) && s in w.units && a in w.units[s].core.armed
    ensures if Ending(w, e, a).None? then s in Next(w, e).units && a in Next(w, e).units[s].core.armed
            else s in Next(w, e).units ==> a !in Next(w, e).units[s].core.armed
  {
    assert Linked(w.units[s].core, s, w.registry, w.nextStarter) && Healthy(w.units[s].core);
    if Target(w, e) == Some(s) {
      StayArmedAtTarget(w, e, s, a);
    } else {
      OthersStay(w, e, s);
      NotEndedElsewhere(w, e, s, a);
    }
  }

  lemma NotEndedElsewhere(w: World, e: Event, s: nat, a: nat)
    requires Listed(w) && Mapped(w) && Apart(w) && Allowed(w, e) && s in w.units && a in w.units[s].core.armed
    requires a < w.nextStarter
    requires Target(w, e) != Some(s)
    ensures Ending(w, e, a).None?
  {
  }

  lemma StayArmedAtTarget(w: World, e: Event, s: nat, a: nat)
    requires Listed(w) && Mapped(w) && Allowed(w, e) && s in w.units && Target(w, e) == Some(s)
    requires a in w.units[s].core.armed && a < w.nextStarter && Single(w.units[s].core.armed)
    requires Healthy(w.units[s].core)
    ensures if Ending(w, e, a).None? then s in Next(w, e).units && a in Next(w, e).units[s].core.armed
            else s in Next(w, e).units ==> a !in Next(w, e).units[s].core.armed
  {
    var c := w.units[s].core;
    match e
    case StartServer(_, user, replies) => StartArms(c, w.nextStarter, user, replies);
    case StarterTimeout(_, t) => RemoveStarterKeepsSingle(c.armed, t);
    case AboutToQuit(_, kills) => QuitCallsKeepLinks(c, kills);
    case _ =>
  }

  /** Only a start arms a starter, and it arms the next one. */
  lemma GetArmed(w: World, e: Event, s: nat, a: nat)
    requires Valid(w) && Allowed(w, e) && s in Next(w, e).units && !(s in w.units && a in w.units[s].core.armed)
    ensures a in Next(w, e).units[s].core.armed <==>
      e.StartServer? && e.server == s && a == w.nextStarter && Ending(w, e, a).None?
  {
    if s in w.units && Target(w, e) == Some(s) {
      assert Linked(w.units[s].core, s, w.registry, w.nextStarter);
      GetArmedAtTarget(w, e, s, a);
    } else if s in w.units {
      OthersStay(w, e, s);
    } else {
      NewServersAreNew(w, e, s);
    }
  }

  lemma GetArmedAtTarget(w: World, e: Event, s: nat, a: nat)
    requires Listed(w) && Mapped(w) && Allowed(w, e) && s in w.units && Target(w, e) == Some(s) && s in Next(w, e).units
    requires a !in w.units[s].core.armed && Single(w.units[s].core.armed)
    ensures a in Next(w, e).units[s].core.armed <==> e.StartServer? && a == w.nextStarter && Ending(w, e, a).None?
  {
    var c := w.units[s].core;
    match e
    case StartServer(_, user, replies) => StartArms(c, w.nextStarter, user, replies);
    case StarterTimeout(_, t) => RemoveStarterKeepsSingle(c.armed, t);
    case AboutToQuit(_, kills) => QuitCallsKeepLinks(c, kills);
    case _ =>
  }

  /** A starter has ended when it was issued and no longer waits. */
  predicate Ended(w: World, a: nat) {
    a < w.nextStarter && !Waiting(w, a)
  }

  lemma NextKeepsApart(w: World, e: Event)
    requires Valid(w) && Apart(w) && Allowed(w, e)
    ensures Apart(Next(w, e))
  {
    var v := Next(w, e);
    forall s, t, a | s in v.units && t in v.units && a in v.units[s].core.armed && a in v.units[t].core.armed
      ensures s == t
    {
      ArmedBefore(w, e, s, a);
      ArmedBefore(w, e, t, a);
    }
  }

  lemma ArmedBefore(w: World, e: Event, s: nat, a: nat)
    requires Valid(w) && Allowed(w, e) && s in Next(w, e).units && a in Next(w, e).units[s].core.armed
    ensures if a < w.nextStarter then s in w.units && a in w.units[s].core.armed
            else e.StartServer? && e.server == s && a == w.nextStarter
  {
    if s in w.units && a in w.units[s].core.armed {
      assert Linked(w.units[s].core, s, w.registry, w.nextStarter);
    } else {
      GetArmed(w, e, s, a);
    }
  }

  /** An event ends exactly the starters that had not ended and now have. */
  lemma EndingsAreOnce(w: World, e: Event, a: nat)
    requires Valid(w) && Apart(w) && Allowed(w, e)
    ensures Ended(Next(w, e), a) <==> Ended(w, a) || Ending(w, e, a).Some?
    ensures Ending(w, e, a).Some? ==> !Ended(w, a)
  {
    Issued(w, e, a);
    if Waiting(w, a) {
      WaitingEnds(w, e, a);
    } else {
      NotWaiting(w, e, a);
    }
  }

  /** A waiting starter waits on exactly when the event does not end it. */
  lemma WaitingEnds(w: World, e: Event, a: nat)
    requires Valid(w) && Apart(w) && Allowed(w, e) && Waiting(w, a)
    ensures a < w.nextStarter && (Waiting(Next(w, e), a) <==> Ending(w, e, a).None?)
  {
    var v := Next(w, e);
    var s :| s in w.units && a in w.units[s].core.armed;
    assert Linked(w.units[s].core, s, w.registry, w.nextStarter);
    StayArmed(w, e, s, a);
    if t :| t in v.units && a in v.units[t].core.armed {
      ArmedBefore(w, e, t, a);
    }
  }

  /** A starter that does not wait is issued by this event or none of its business. */
  lemma NotWaiting(w: World, e: Event, a: nat)
    requires Valid(w) && Allowed(w, e) && !Waiting(w, a)
    ensures Ending(w, e, a).Some? || Waiting(Next(w, e), a) <==> e.StartServer? && a == w.nextStarter
    ensures !(Ending(w, e, a).Some? && Waiting(Next(w, e), a))
  {
    var v := Next(w, e);
    if t :| t in v.units && a in v.units[t].core.armed {
      GetArmed(w, e, t, a);
    }
    if e.StartServer? {
      GetArmed(w, e, e.server, a);
    } else {
      NothingToEnd(w, e, a);
    }
  }

  lemma NothingToEnd(w: World, e: Event, a: nat)
    requires Listed(w) && Mapped(w) && Allowed(w, e) && !Waiting(w, a) && !e.StartServer?
    ensures Ending(w, e, a).None?
  {
  }

  lemma Issued(w: World, e: Event, a: nat)
    requires Listed(w) && Mapped(w) && Allowed(w, e)
    ensures a < Next(w, e).nextStarter <==> a < w.nextStarter || (e.StartServer? && a == w.nextStarter)
  {
  }

  /** Main theorem. After every run, a starter that was issued and no longer waits has
    * had exactly one outcome, and every other starter has had none.
    */
  lemma {:induction false} EveryStarterEndsOnce(events: seq<Event>, a: nat)
    requires Run(events).Some?
    ensures Apart(Run(events).value)
    ensures |Outcomes(events, a)| == if Ended(Run(events).value, a) then 1 else 0
  {
    if events == [] {
    } else {
      var init, e := events[..|events| - 1], events[|events| - 1];
      assert Run(events) == LastTaken(events);
      RunsAreValid(init);
      EveryStarterEndsOnce(init, a);
      NextKeepsApart(Run(init).value, e);
      EndingsAreOnce(Run(init).value, e, a);
    }
  }

  // --------------------------------------------- outcomes against the counters

  /** The server a starter was made for. */
  function MadeFor(events: seq<Event>, a: nat): Option<nat>
    requires Run(events).Some?
  {
    if events == [] then None
    else
      assert OneMore(events).Some?;
      assert LastTaken(events).Some?;
      var init, e := events[..|events| - 1], events[|events| - 1];
      if e.StartServer? && a == Run(init).value.nextStarter then Some(e.server) else MadeFor(init, a)
  }

  /** The starters of a server that have ended in this way. */
  function EndedAs(events: seq<Event>, s: nat, outcome: Outcome): set<nat>
    requires Run(events).Some?
  {
    set a: nat | a < Run(events).value.nextStarter && HasEndedAs(events, s, outcome, a)
  }

  predicate HasEndedAs(events: seq<Event>, s: nat, outcome: Outcome, a: nat)
    requires Run(events).Some?
  {
    MadeFor(events, a) == Some(s) && Outcomes(events, a) == [outcome]
  }

  /** The starters an event ends in this way. */
  function EndingNow(w: World, e: Event, outcome: Outcome): set<nat>
    requires Listed(w) && Mapped(w) && Allowed(w, e)
  {
    set a: nat | a < Next(w, e).nextStarter && Ending(w, e, a) == Some(outcome)
  }

  lemma EndingsBelongToTheTarget(w: World, e: Event, a: nat)
    requires Listed(w) && Mapped(w) && Allowed(w, e) && Ending(w, e, a).Some?
    ensures Target(w, e).Some?
    ensures
      || (e.StartServer? && a == w.nextStarter && Target(w, e).value == e.server)
      || (Target(w, e).value in w.units && a in w.units[Target(w, e).value].core.armed)
  {
  }

  lemma {:induction false} Members(armed: seq<nat>, s: set<nat>)
    requires Single(armed) && forall a :: a in s <==> a in armed
    ensures |s| == |armed|
  {
    if armed == [] {
      assert s == {};
    } else {
      var init, last := armed[..|armed| - 1], armed[|armed| - 1];
      assert armed == init + [last];
      Members(init, s - {last});
    }
  }

  lemma {:induction false} QuitCallsKeepCounts(c: Core, kills: seq<Reply>)
    ensures QuitCalls(c, kills).started == c.started && QuitCalls(c, kills).failed == c.failed
  {
    if kills == [] {
    } else {
      QuitCallsKeepCounts(c, kills[..|kills| - 1]);
    }
  }

  /** The target's counters grow by just the starters the event ends. */
  ghost predicate Counts(c: Core, d: Core, started: set<nat>, failed: set<nat>) {
    d.started == c.started + |started| && d.failed == c.failed + |failed|
  }

  lemma StartCounts(w: World, e: Event)
    requires Listed(w) && Mapped(w) && Allowed(w, e) && e.StartServer?
    requires forall a :: a in w.units[e.server].core.armed ==> a < w.nextStarter
    ensures Counts(w.units[e.server].core, CoreAfter(w, e), EndingNow(w, e, Started), EndingNow(w, e, Failed))
  {
    var c, d := w.units[e.server].core, CoreAfter(w, e);
    StartArms(c, w.nextStarter, e.user, e.replies);
    assert EndingNow(w, e, Started) == {};
    assert EndingNow(w, e, Failed) == if w.nextStarter in d.armed then {} else {w.nextStarter};
  }

  lemma TimeoutCounts(w: World, e: Event)
    requires Listed(w) && Mapped(w) && Allowed(w, e) && e.StarterTimeout? && e.starter < w.nextStarter
    ensures Counts(w.units[e.server].core, CoreAfter(w, e), EndingNow(w, e, Started), EndingNow(w, e, Failed))
  {
    assert EndingNow(w, e, Started) == {};
    assert EndingNow(w, e, Failed) == {e.starter};
  }

  lemma OnlineCounts(c: Core, gs: nat, r: Remote, meanwhile: seq<seq<Change>>)
    ensures var d := Online(c, gs, r, meanwhile).0; d.started == c.started + |c.armed| && d.failed == c.failed
  {
    ResolvingEndsRunning(c.(status := Track(c.status, r, meanwhile).0), gs, |c.armed|);
  }

  lemma ConnectCounts(w: World, e: Event, s: nat)
    requires Listed(w) && Mapped(w) && Allowed(w, e) && e.Connect? && FirstAt(w.order, w.units, e.location) == Some(s)
    requires Linked(w.units[s].core, s, w.registry, w.nextStarter) && Healthy(w.units[s].core)
    ensures Counts(w.units[s].core, Next(w, e).units[s].core, EndingNow(w, e, Started), EndingNow(w, e, Failed))
  {
    var c := w.units[s].core;
    var r := Connected(e.location, e.maxPlayers, e.address, e.map_, e.conVars);
    assert EndingNow(w, e, Failed) == {};
    assert Next(w, e).nextStarter == w.nextStarter;
    assert forall a :: a in EndingNow(w, e, Started) <==> c.valid && a in c.armed;
    OnlineCounts(c, w.nextGameServer, r, e.meanwhile);
    Members(c.armed, EndingNow(w, e, Started));
  }

  lemma QuietEventCounts(w: World, e: Event, s: nat)
    requires Listed(w) && Mapped(w) && Allowed(w, e) && Target(w, e) == Some(s) && s in w.units && s in Next(w, e).units
    requires !e.StartServer? && !e.StarterTimeout? && !e.Connect?
    ensures Counts(w.units[s].core, Next(w, e).units[s].core, EndingNow(w, e, Started), EndingNow(w, e, Failed))
  {
    if e.AboutToQuit? {
      QuitCallsKeepCounts(w.units[s].core, e.kills);
    }
    assert EndingNow(w, e, Started) == {} && EndingNow(w, e, Failed) == {};
  }

  lemma TargetCounts(w: World, e: Event, s: nat)
    requires Valid(w) && Allowed(w, e) && Target(w, e) == Some(s) && s in w.units && s in Next(w, e).units
    ensures Counts(w.units[s].core, Next(w, e).units[s].core, EndingNow(w, e, Started), EndingNow(w, e, Failed))
  {
    assert Linked(w.units[s].core, s, w.registry, w.nextStarter) && Healthy(w.units[s].core);
    if e.StartServer? {
      StartCounts(w, e);
    } else if e.StarterTimeout? {
      TimeoutCounts(w, e);
    } else if e.Connect? {
      ConnectCounts(w, e, s);
    } else {
      QuietEventCounts(w, e, s);
    }
  }

  /** Exactly the issued starters were made for a server, and an armed one for the
    * server it waits for.
    */
  lemma {:induction false} EveryStarterHasAServer(events: seq<Event>, a: nat)
    requires Run(events).Some?
    ensures var w := Run(events).value;
      && (MadeFor(events, a).Some? <==> a < w.nextStarter)
      && (MadeFor(events, a).Some? ==> MadeFor(events, a).value < w.nextServer)
      && (forall s :: s in w.units && a in w.units[s].core.armed ==> MadeFor(events, a) == Some(s))
  {
    if events == [] {
    } else {
      var init, e := events[..|events| - 1], events[|events| - 1];
      assert Run(events) == LastTaken(events);
      var w := Run(init).value;
      RunsAreValid(init);
      EveryStarterHasAServer(init, a);
      Issued(w, e, a);
      CountersGrow(w, e, 0);
      forall s | s in Next(w, e).units && a in Next(w, e).units[s].core.armed ensures MadeFor(events, a) == Some(s) {
        ArmedBefore(w, e, s, a);
      }
    }
  }

  lemma LastStep(events: seq<Event>) returns (init: seq<Event>, w: World, e: Event)
    requires Run(events).Some? && events != []
    ensures init == events[..|events| - 1] && e == events[|events| - 1]
    ensures Run(init) == Some(w) && Valid(w) && Allowed(w, e) && Run(events) == Some(Next(w, e))
  {
    init, e := events[..|events| - 1], events[|events| - 1];
    assert Run(events) == LastTaken(events);
    RunsAreValid(init);
    w := Run(init).value;
  }

  lemma OneMoreOutcome(events: seq<Event>, init: seq<Event>, w: World, e: Event, a: nat)
    requires Run(events).Some? && events == init + [e] && Run(init) == Some(w) && Valid(w) && Allowed(w, e)
    ensures Outcomes(events, a) == Outcomes(init, a) + if Ending(w, e, a).None? then [] else [Ending(w, e, a).value]
    ensures MadeFor(events, a) == if e.StartServer? && a == w.nextStarter then Some(e.server) else MadeFor(init, a)
  {
    assert events[..|events| - 1] == init;
    assert Outcomes(init, a) + [] == Outcomes(init, a);
  }

  /** An event ends starters of the server it is about. */
  lemma EndingsServer(events: seq<Event>, init: seq<Event>, w: World, e: Event, a: nat)
    requires Run(events).Some? && events == init + [e] && Run(init) == Some(w) && Valid(w) && Allowed(w, e)
    requires Ending(w, e, a).Some?
    ensures MadeFor(events, a) == Target(w, e)
  {
    OneMoreOutcome(events, init, w, e, a);
    EveryStarterHasAServer(init, a);
    EndingsBelongToTheTarget(w, e, a);
  }

  lemma EndedStayEnded(events: seq<Event>, init: seq<Event>, w: World, e: Event, a: nat)
    requires Run(events).Some? && events == init + [e] && Run(init) == Some(w) && Valid(w) && Allowed(w, e)
    requires Outcomes(init, a) != []
    ensures Ending(w, e, a).None? && Outcomes(events, a) == Outcomes(init, a) && MadeFor(events, a) == MadeFor(init, a)
  {
    OneMoreOutcome(events, init, w, e, a);
    EveryStarterEndsOnce(init, a);
    EndingsAreOnce(w, e, a);
  }

  lemma EndedOrEnding(events: seq<Event>, init: seq<Event>, w: World, e: Event, s: nat, outcome: Outcome, a: nat)
    requires Run(events).Some? && events == init + [e] && Run(init) == Some(w) && Valid(w) && Allowed(w, e)
    ensures var now := Target(w, e) == Some(s) && Ending(w, e, a) == Some(outcome);
      && (HasEndedAs(events, s, outcome, a) <==> HasEndedAs(init, s, outcome, a) || now)
      && !(HasEndedAs(init, s, outcome, a) && now)
  {
    if Outcomes(init, a) != [] {
      EndedStayEnded(events, init, w, e, a);
    } else {
      OneMoreOutcome(events, init, w, e, a);
      if Ending(w, e, a).Some? {
        EndingsServer(events, init, w, e, a);
        assert Outcomes(events, a) == [Ending(w, e, a).value];
      }
    }
  }

  lemma EndedAreIssued(events: seq<Event>, s: nat, outcome: Outcome, a: nat)
    requires Run(events).Some?
    ensures a in EndedAs(events, s, outcome) <==> HasEndedAs(events, s, outcome, a)
  {
    EveryStarterHasAServer(events, a);
  }

  lemma EndingAreIssued(w: World, e: Event, outcome: Outcome, a: nat)
    requires Valid(w) && Apart(w) && Allowed(w, e)
    ensures a in EndingNow(w, e, outcome) <==> Ending(w, e, a) == Some(outcome)
  {
    EndingsAreOnce(w, e, a);
  }

  /** One more event adds to the starters of a server that ended in some way those
    * the event ends so, if the event is about this server, and no others.
    */
  lemma EndedAsGrows(events: seq<Event>, init: seq<Event>, w: World, e: Event, s: nat, outcome: Outcome)
    requires Run(events).Some? && events == init + [e] && Run(init) == Some(w) && Valid(w) && Allowed(w, e) && Apart(w)
    ensures |EndedAs(events, s, outcome)|
            == |EndedAs(init, s, outcome)| + if Target(w, e) == Some(s) then |EndingNow(w, e, outcome)| else 0
  {
    var more := if Target(w, e) == Some(s) then EndingNow(w, e, outcome) else {};
    forall a: nat
      ensures a in EndedAs(events, s, outcome) <==> a in EndedAs(init, s, outcome) || a in more
      ensures !(a in EndedAs(init, s, outcome) && a in more)
    {
      InEndedAs(events, init, w, e, s, outcome, a);
    }
    UnionCounts(EndedAs(events, s, outcome), EndedAs(init, s, outcome), more);
  }

  lemma InEndedAs(events: seq<Event>, init: seq<Event>, w: World, e: Event, s: nat, outcome: Outcome, a: nat)
    requires Run(events).Some? && events == init + [e] && Run(init) == Some(w) && Valid(w) && Allowed(w, e) && Apart(w)
    ensures var now := Target(w, e) == Some(s) && a in EndingNow(w, e, outcome);
      && (a in EndedAs(events, s, outcome) <==> a in EndedAs(init, s, outcome) || now)
      && !(a in EndedAs(init, s, outcome) && now)
  {
    EndedOrEnding(events, init, w, e, s, outcome, a);
    EndedAreIssued(events, s, outcome, a);
    EndedAreIssued(init, s, outcome, a);
    EndingAreIssued(w, e, outcome, a);
  }

  lemma UnionCounts(all: set<nat>, before: set<nat>, more: set<nat>)
    requires forall a :: a in all <==> a in before || a in more
    requires forall a :: !(a in before && a in more)
    ensures |all| == |before| + |more|
  {
    assert all == before + more && before !! more;
  }

  ghost predicate CountersAgree(c: Core, events: seq<Event>, s: nat)
    requires Run(events).Some?
  {
    c.started == |EndedAs(events, s, Started)| && c.failed == |EndedAs(events, s, Failed)|
  }

  /** After every run, a listed server's counters are the numbers of its starters that
    * have started and that have failed; none of its starters was deleted with it.
    */
  lemma {:induction false} CountersCountOutcomes(events: seq<Event>, s: nat)
    requires Run(events).Some? && s in Run(events).value.units
    ensures var c := Run(events).value.units[s].core;
      c.started == |EndedAs(events, s, Started)| && c.failed == |EndedAs(events, s, Failed)|
  {
    var init, w, e := LastStep(events);
    assert events == init + [e];
    if s in w.units {
      CountersCountOutcomes(init, s);
      CountersOfOld(events, init, w, e, s);
    } else {
      CountersOfNew(events, init, w, e, s);
    }
  }

  lemma CountersOfOld(events: seq<Event>, init: seq<Event>, w: World, e: Event, s: nat)
    requires Run(events).Some? && events == init + [e] && Run(init) == Some(w) && Valid(w) && Allowed(w, e)
    requires s in w.units && s in Next(w, e).units && CountersAgree(w.units[s].core, init, s)
    ensures CountersAgree(Next(w, e).units[s].core, events, s)
  {
    EveryStarterEndsOnce(init, 0);
    EndedAsGrows(events, init, w, e, s, Started);
    EndedAsGrows(events, init, w, e, s, Failed);
    OneMoreCounts(w, e, s);
  }

  lemma CountersOfNew(events: seq<Event>, init: seq<Event>, w: World, e: Event, s: nat)
    requires Run(events).Some? && events == init + [e] && Run(init) == Some(w) && Valid(w) && Allowed(w, e)
    requires s !in w.units && s in Next(w, e).units
    ensures CountersAgree(Next(w, e).units[s].core, events, s)
  {
    NewServersAreNew(w, e, s);
    NoStarters(init, s);
    EveryStarterEndsOnce(init, 0);
    EndedAsGrows(events, init, w, e, s, Started);
    EndedAsGrows(events, init, w, e, s, Failed);
  }

  /** The starters an event ends are added to the counters of the server it is about. */
  lemma OneMoreCounts(w: World, e: Event, s: nat)
    requires Valid(w) && Allowed(w, e) && s in w.units && s in Next(w, e).units
    ensures var c, d := w.units[s].core, Next(w, e).units[s].core;
      if Target(w, e) == Some(s) then Counts(c, d, EndingNow(w, e, Started), EndingNow(w, e, Failed)) else d == c
  {
    if Target(w, e) == Some(s) {
      TargetCounts(w, e, s);
    } else {
      OthersStay(w, e, s);
    }
  }

  lemma NoStarters(events: seq<Event>, s: nat)
    requires Run(events).Some? && s >= Run(events).value.nextServer
    ensures forall outcome :: EndedAs(events, s, outcome) == {}
  {
    forall a: nat ensures MadeFor(events, a) != Some(s) {
      EveryStarterHasAServer(events, a);
    }
  }
}
