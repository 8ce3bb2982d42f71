/** One wrapper's tmux session. The random session name is unique, so all that
  * matters is under which users the session of that name lives.
  */
module Tmux {

  /** How one tmux command goes. A `has-session` probe that is not answered in
    * time counts as a yes (`late`); the command itself reports success (`done`),
    * and one that reports failure may still have taken `effect`.
    */
  datatype Reply = Reply(late: bool, done: bool, effect: bool)

  /** `killFailed` remembers how the last `kill` ended. */
  datatype Session = Session(user: string, alive: set<string>, killFailed: bool)

  predicate Exists(t: Session, late: bool) {
    late || t.user in t.alive
  }

  function Create(t: Session, r: Reply): (Session, bool) {
    if Exists(t, r.late) then (t, false)
    else (if r.done || r.effect then t.(alive := t.alive + {t.user}) else t, r.done)
  }

  /** `pipe-pane` and `send-keys`. */
  predicate Accepts(t: Session, r: Reply) {
    Exists(t, r.late) && r.done
  }

  function Kill(t: Session, r: Reply): (Session, bool) {
    if !Exists(t, r.late) then (t.(killFailed := false), true)
    else (t.(alive := if r.done || r.effect then t.alive - {t.user} else t.alive, killFailed := !r.done), r.done)
  }

  function SetUser(t: Session, user: string, late: bool): Session {
    if user == t.user || Exists(t, late) then t else t.(user := user)
  }

  /** No session is stranded under a user the wrapper has left behind. */
  predicate AtHome(t: Session) {
    t.alive <= {t.user}
  }

  lemma SessionsStayHome(t: Session, r: Reply, user: string)
    requires AtHome(t)
    ensures AtHome(Create(t, r).0) && AtHome(Kill(t, r).0) && AtHome(SetUser(t, user, r.late))
    ensures Kill(t, r).1 ==> Kill(t, r).0.alive == {}
    ensures Kill(t, r).0.killFailed <==> !Kill(t, r).1
  {
  }
}
