/** The wrapper of one tmux session. */
module TmuxWrapper {
  import Tmux

  class TmuxSessionWrapper {
    var user: string
    /** The tmux servers' state: under which users a session of this name lives. */
    var sessions: set<string>
    ghost var killFailed: bool
    /** The server this wrapper is part of. */
    ghost var owner: object?

    ghost function View(): Tmux.Session
      reads this
    {
      Tmux.Session(user, sessions, killFailed)
    }

    constructor ()
      ensures View() == Tmux.Session("", {}, false)
    {
      user, sessions, killFailed, owner := "", {}, false, null;
    }

    method Exists(late: bool) returns (yes: bool)
      ensures yes <==> Tmux.Exists(View(), late)
    {
      yes := late || user in sessions;
    }

    method Create(r: Tmux.Reply) returns (ok: bool)
      modifies `user, `sessions, `killFailed
      ensures (View(), ok) == Tmux.Create(old(View()), r)
      ensures ok <==> !r.late && old(user) !in old(sessions) && r.done
      ensures ok ==> sessions == old(sessions) + {user}
      ensures user == old(user) && (sessions == old(sessions) || sessions == old(sessions) + {user})
    {
      var there := Exists(r.late);
      if there {
        return false;
      }
      if r.done || r.effect {
        sessions := sessions + {user};
      }
      ok := r.done;
    }

    method RedirectOutput(r: Tmux.Reply) returns (ok: bool)
      ensures ok <==> Tmux.Accepts(View(), r)
      ensures ok <==> (r.late || user in sessions) && r.done
    {
      var there := Exists(r.late);
      if !there {
        return false;
      }
      ok := r.done;
    }

    method SendKeys(r: Tmux.Reply) returns (ok: bool)
      ensures ok <==> Tmux.Accepts(View(), r)
      ensures ok <==> (r.late || user in sessions) && r.done
    {
      var there := Exists(r.late);
      if !there {
        return false;
      }
      ok := r.done;
    }

    method Kill(r: Tmux.Reply) returns (ok: bool)
      modifies `user, `sessions, `killFailed
      ensures (View(), ok) == Tmux.Kill(old(View()), r)
      ensures user == old(user) && (!r.late && user !in old(sessions) ==> ok && sessions == old(sessions))
      ensures r.late || user in old(sessions) ==>
        ok == r.done && sessions == if r.done || r.effect then old(sessions) - {user} else old(sessions)
    {
      var there := Exists(r.late);
      if !there {
        killFailed := false;
        return true;
      }
      if r.done || r.effect {
        sessions := sessions - {user};
      }
      killFailed := !r.done;
      ok := r.done;
    }

    method SetUser(newUser: string, late: bool)
      modifies `user, `sessions, `killFailed
      ensures View() == Tmux.SetUser(old(View()), newUser, late)
      ensures sessions == old(sessions) && user == if late || old(user) in sessions then old(user) else newUser
    {
      if newUser != user {
        var there := Exists(late);
        if there {
          return;
        }
        user := newUser;
      }
    }
  }
}
