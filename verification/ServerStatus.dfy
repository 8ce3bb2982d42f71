/** The status object of a server, and the proxy of a remote game server. */
module StatusObjects {
  import opened Common
  import opened Decimal
  import S = Status
  import M = Mirror

  /** A game server's proxy together with the remote end it stands for. A blocking
    * call lets the remote change (`meanwhile`) before it is answered.
    */
  class GameServer {
    const handle: nat
    const location: string
    const maxPlayers: int
    const address: string
    var map_: string
    var conVars: map<string, string>
    var mapHooked: bool
    var conVarsHooked: bool
    var playersHooked: bool
    var watched: set<string>
    var queue: seq<M.Note>

    ghost function View(): M.Remote
      reads this
    {
      M.Remote(location, maxPlayers, address, map_, conVars, mapHooked, conVarsHooked, playersHooked, watched, queue)
    }

    constructor (handle: nat, location: string, maxPlayers: int, address: string, map_: string,
                 conVars: map<string, string>)
      ensures this.handle == handle
      ensures View() == M.Connected(location, maxPlayers, address, map_, conVars)
    {
      this.handle, this.location, this.maxPlayers, this.address := handle, location, maxPlayers, address;
      this.map_, this.conVars := map_, conVars;
      mapHooked, conVarsHooked, playersHooked := false, false, false;
      watched, queue := {}, [];
    }

    method Change(c: M.Change)
      modifies this
      ensures View() == M.Happen(old(View()), c)
    {
      match c
      case NewMap(m) =>
        map_ := m;
        if mapHooked {
          queue := queue + [M.MapChanged(m)];
        }
      case NewConVar(n, v) =>
        conVars := conVars[n := v];
        if conVarsHooked && n in watched {
          queue := queue + [M.ConVarChanged(n, v)];
        }
      case Join(id) =>
        if playersHooked {
          queue := queue + [M.PlayerConnected(id)];
        }
      case Leave(id) =>
        if playersHooked {
          queue := queue + [M.PlayerDisconnected(id)];
        }
    }

    method Pass(meanwhile: seq<M.Change>)
      modifies this
      ensures View() == M.HappenAll(old(View()), meanwhile)
    {
      for i := 0 to |meanwhile|
        invariant View() == M.HappenAll(old(View()), meanwhile[..i])
      {
        Change(meanwhile[i]);
        assert meanwhile[..i + 1][..i] == meanwhile[..i];
      }
      assert meanwhile[..|meanwhile|] == meanwhile;
    }

    method ReadMap(meanwhile: seq<M.Change>) returns (m: string)
      modifies this
      ensures View() == M.HappenAll(old(View()), meanwhile) && m == map_
    {
      Pass(meanwhile);
      m := map_;
    }

    method GetConVarValue(name: string, meanwhile: seq<M.Change>) returns (v: string)
      modifies this
      ensures View() == M.HappenAll(old(View()), meanwhile) && v == M.ConVar(View(), name)
    {
      Pass(meanwhile);
      v := if name in conVars then conVars[name] else "";
    }

    method WatchConVar(name: string, meanwhile: seq<M.Change>)
      modifies this
      ensures var q := M.HappenAll(old(View()), meanwhile); View() == q.(watched := q.watched + {name})
    {
      Pass(meanwhile);
      watched := watched + {name};
    }
  }

  class ServerStatus {
    var hostname: string
    var playerCount: int
    var maxPlayers: int
    var map_: string
    var address: S.Address
    var password: string
    var stvPort: int
    var stvPassword: string
    var players: seq<S.Player>
    ghost var resets: nat
    ghost var arrived: seq<S.Player>
    ghost var gone: multiset<int>
    /** The server this status is part of. */
    ghost var owner: object?

    ghost function View(): S.Status
      reads this
    {
      S.Status(hostname, playerCount, maxPlayers, map_, address, password, stvPort, stvPassword, players,
               resets, arrived, gone)
    }

    constructor ()
      ensures View() == S.Blank(0)
    {
      hostname, map_, password, stvPassword := "", "", "", "";
      playerCount, maxPlayers, stvPort := 0, 0, 0;
      address, players := S.NoAddress, [];
      resets, arrived, gone, owner := 0, [], multiset{}, null;
    }

    method Reset()
      modifies this
      ensures owner == old(owner)
      ensures View() == S.Blank(old(resets) + 1)
    {
      ClearTexts();
      maxPlayers, address, stvPort := 0, S.NoAddress, 0;
      ClearPlayers();
      resets := resets + 1;
    }

    method ClearTexts()
      modifies `hostname, `map_, `password, `stvPassword
      ensures hostname == map_ == password == stvPassword == ""
    {
      hostname, map_, password, stvPassword := "", "", "", "";
    }

    method SetAddressFromString(addressString: string)
      modifies this
      ensures owner == old(owner)
      ensures View() == old(View()).(address := S.AddressFrom(addressString, old(address)))
    {
      var s := S.Split(addressString, ':');
      if |s| == 2 {
        var port := ToInt(s[1]);
        address := S.Steam(s[0], if port.Some? then port.value else 0);
      }
    }

    method SetStvPortFromString(stvPortString: string)
      modifies this
      ensures owner == old(owner)
      ensures View() == old(View()).(stvPort := S.PortFrom(stvPortString, old(stvPort)))
    {
      var port := ToInt(stvPortString);
      if port.Some? {
        stvPort := port.value;
      }
    }

    method HandleConVarChange(conVarName: string, newValue: string)
      modifies this
      ensures owner == old(owner)
      ensures View() == M.Deliver(old(View()), M.ConVarChanged(conVarName, newValue), "", 0)
    {
      if conVarName == "hostname" {
        hostname := newValue;
      } else if conVarName == "sv_password" {
        password := newValue;
      } else if conVarName == "tv_port" {
        SetStvPortFromString(newValue);
      } else if conVarName == "tv_password" {
        stvPassword := newValue;
      }
    }

    method AddPlayer(player: S.Player)
      modifies this
      ensures owner == old(owner)
      ensures View() == S.AddPlayer(old(View()), player)
    {
      players := players + [player];
      playerCount := playerCount + 1;
      arrived := arrived + [player];
    }

    /** Erasing is undefined when nobody has this id. */
    method RemovePlayer(id: int)
      requires S.IsListed(players, id)
      modifies this
      ensures owner == old(owner)
      ensures View() == S.RemovePlayer(old(View()), id)
    {
      var i := 0;
      while players[i].id != id
        invariant 0 <= i < |players|
        invariant forall j :: 0 <= j < i ==> players[j].id != id
        invariant S.IsListed(players, id)
        decreases |players| - i
      {
        var k :| 0 <= k < |players| && players[k].id == id;
        assert k > i;
        i := i + 1;
      }
      RemoveFirstAt(players, id, i);
      players := players[..i] + players[i + 1..];
      playerCount := playerCount - 1;
      gone := gone + multiset{id};
    }

    method ClearPlayers()
      modifies `players, `playerCount, `arrived, `gone
      ensures players == [] && playerCount == 0 && arrived == [] && gone == multiset{}
    {
      players, arrived, gone := [], [], multiset{};
      playerCount := 0;
    }

    /** One signal of the game server is delivered. A player's name and SteamID are
      * asked of the remote at that moment.
      */
    method HandleSignal(n: M.Note, name: string, steamId: nat)
      requires n.PlayerDisconnected? ==> S.IsListed(players, n.id)
      modifies this
      ensures owner == old(owner)
      ensures View() == M.Deliver(old(View()), n, name, steamId)
    {
      match n
      case MapChanged(m) => map_ := m;
      case ConVarChanged(conVar, value) => HandleConVarChange(conVar, value);
      case PlayerConnected(id) => AddPlayer(S.Player(id, name, steamId));
      case PlayerDisconnected(id) => RemovePlayer(id);
    }

    method TrackGameServer(gs: GameServer, meanwhile: seq<seq<M.Change>>)
      modifies this, gs
      ensures owner == old(owner)
      ensures (View(), gs.View()) == M.Track(old(View()), old(gs.View()), meanwhile)
    {
      ReadAttributes(gs, meanwhile);
      HookAndReadMap(gs, meanwhile);
      gs.conVarsHooked := true;
      TrackConVars(gs, meanwhile);
      gs.playersHooked := true;
    }

    method TrackConVars(gs: GameServer, meanwhile: seq<seq<M.Change>>)
      modifies this, gs
      ensures owner == old(owner)
      ensures (View(), gs.View()) == M.TrackConVars(old(View()), old(gs.View()), meanwhile)
    {
      WatchAndRead(gs, M.Hostname, meanwhile, 3);
      WatchAndRead(gs, M.Password, meanwhile, 5);
      WatchAndRead(gs, M.StvPassword, meanwhile, 7);
      WatchAndRead(gs, M.StvPort, meanwhile, 9);
    }

    method ReadAttributes(gs: GameServer, meanwhile: seq<seq<M.Change>>)
      modifies this, gs
      ensures owner == old(owner)
      ensures (View(), gs.View()) == M.ReadAttributes(old(View()), old(gs.View()), meanwhile)
    {
      gs.Pass(M.At(meanwhile, 0));
      maxPlayers := gs.maxPlayers;
      gs.Pass(M.At(meanwhile, 1));
      SetAddressFromString(gs.address);
      M.HappenAllKeepsHooks(old(gs.View()), M.At(meanwhile, 0));
      M.HappenAllKeepsHooks(M.HappenAll(old(gs.View()), M.At(meanwhile, 0)), M.At(meanwhile, 1));
    }

    method HookAndReadMap(gs: GameServer, meanwhile: seq<seq<M.Change>>)
      modifies this, gs
      ensures owner == old(owner)
      ensures (View(), gs.View()) == M.HookAndReadMap(old(View()), old(gs.View()), meanwhile)
    {
      gs.mapHooked := true;
      map_ := gs.ReadMap(M.At(meanwhile, 2));
    }

    /** Watch one conVar, read it, and store what was read. */
    method WatchAndRead(gs: GameServer, f: M.Field, meanwhile: seq<seq<M.Change>>, i: nat)
      requires f != M.Map
      modifies this, gs
      ensures owner == old(owner)
      ensures (View(), gs.View()) == M.WatchAndRead(old(View()), old(gs.View()), f, meanwhile, i)
    {
      gs.WatchConVar(M.ConVarOf(f), M.At(meanwhile, i));
      var text := gs.GetConVarValue(M.ConVarOf(f), M.At(meanwhile, i + 1));
      match f
      case Hostname => hostname := text;
      case Password => password := text;
      case StvPassword => stvPassword := text;
      case StvPort => SetStvPortFromString(text);
    }
  }

  /** Removing the first match is erasing the element a search from the front finds. */
  lemma {:induction false} RemoveFirstAt(players: seq<S.Player>, id: int, i: nat)
    requires i < |players| && players[i].id == id && forall j :: 0 <= j < i ==> players[j].id != id
    ensures S.RemoveFirst(players, id) == players[..i] + players[i + 1..]
  {
    if i > 0 {
      assert forall j :: 0 <= j < i - 1 ==> players[1..][j] == players[j + 1];
      RemoveFirstAt(players[1..], id, i - 1);
    }
  }
}
