/** A remote game server, the notifications it has under way, and how tracking
  * makes a status follow it.
  */
module Mirror {
  import opened Common
  import opened Decimal
  import opened Status

  datatype Note =
    | MapChanged(newMap: string)
    | ConVarChanged(conVar: string, newValue: string)
    | PlayerConnected(id: int)
    | PlayerDisconnected(id: int)

  /** What can happen at the remote end at any moment. */
  datatype Change =
    | NewMap(newMap: string)
    | NewConVar(conVar: string, newValue: string)
    | Join(id: int)
    | Leave(id: int)

  /** `queue` holds the signals sent and not yet delivered, oldest first. A signal
    * nobody is connected to is lost, and so is a change of an unwatched conVar.
    */
  datatype Remote = Remote(location: string, maxPlayers: int, address: string, map_: string,
                           conVars: map<string, string>, mapHooked: bool, conVarsHooked: bool, playersHooked: bool,
                           watched: set<string>, queue: seq<Note>)

  function Connected(location: string, maxPlayers: int, address: string, map_: string,
                     conVars: map<string, string>): Remote {
    Remote(location, maxPlayers, address, map_, conVars, false, false, false, {}, [])
  }

  function Post(r: Remote, heard: bool, n: Note): Remote {
    if heard then r.(queue := r.queue + [n]) else r
  }

  function Happen(r: Remote, c: Change): Remote {
    match c
    case NewMap(m) => Post(r.(map_ := m), r.mapHooked, MapChanged(m))
    case NewConVar(n, v) =>
      Post(r.(conVars := r.conVars[n := v]), r.conVarsHooked && n in r.watched, ConVarChanged(n, v))
    case Join(id) => Post(r, r.playersHooked, PlayerConnected(id))
    case Leave(id) => Post(r, r.playersHooked, PlayerDisconnected(id))
  }

  function HappenAll(r: Remote, changes: seq<Change>): Remote {
    if changes == [] then r else Happen(HappenAll(r, changes[..|changes| - 1]), changes[|changes| - 1])
  }

  // ----------------------------------------------------------- mirrored fields

  datatype Field = Map | Hostname | Password | StvPassword | StvPort

  function ConVarOf(f: Field): string {
    match f
    case Map => ""
    case Hostname => "hostname"
    case Password => "sv_password"
    case StvPassword => "tv_password"
    case StvPort => "tv_port"
  }

  function ConVar(r: Remote, name: string): string {
    if name in r.conVars then r.conVars[name] else ""
  }

  /** The remote's current text of a field. */
  function Current(r: Remote, f: Field): string {
    if f == Map then r.map_ else ConVar(r, ConVarOf(f))
  }

  predicate Heard(r: Remote, f: Field) {
    if f == Map then r.mapHooked else r.conVarsHooked && ConVarOf(f) in r.watched
  }

  /** Store a field's text; a tv_port that is no number is dropped. */
  function Put(s: Status, f: Field, text: string): Status {
    match f
    case Map => s.(map_ := text)
    case Hostname => s.(hostname := text)
    case Password => s.(password := text)
    case StvPassword => s.(stvPassword := text)
    case StvPort => s.(stvPort := PortFrom(text, s.stvPort))
  }

  predicate Shows(s: Status, f: Field, text: string) {
    match f
    case Map => s.map_ == text
    case Hostname => s.hostname == text
    case Password => s.password == text
    case StvPassword => s.stvPassword == text
    case StvPort => ToInt(text).Some? ==> ToInt(text) == Some(s.stvPort)
  }

  /** The field a notification is about. */
  function Subject(n: Note): Option<Field> {
    match n
    case MapChanged(_) => Some(Map)
    case ConVarChanged(name, _) =>
      if name == "hostname" then Some(Hostname)
      else if name == "sv_password" then Some(Password)
      else if name == "tv_port" then Some(StvPort)
      else if name == "tv_password" then Some(StvPassword)
      else None
    case _ => None
  }

  function Text(n: Note): string
    requires Subject(n).Some?
  {
    if n.MapChanged? then n.newMap else n.newValue
  }

  /** What a delivered notification does. The name and SteamID of a player who
    * joins are asked of the remote at that moment.
    */
  function Deliver(s: Status, n: Note, name: string, steamId: nat): Status {
    match n
    case PlayerConnected(id) => AddPlayer(s, Player(id, name, steamId))
    case PlayerDisconnected(id) => RemovePlayer(s, id)
    case _ => if Subject(n).Some? then Put(s, Subject(n).value, Text(n)) else s
  }

  function Drain(s: Status, queue: seq<Note>, name: string, steamId: nat): Status
    decreases |queue|
  {
    if queue == [] then s else Drain(Deliver(s, queue[0], name, steamId), queue[1..], name, steamId)
  }

  // ------------------------------------------------------------------ tracking

  /** What happens remotely before the i-th blocking call is answered. */
  function At(meanwhile: seq<seq<Change>>, i: nat): seq<Change> {
    if i < |meanwhile| then meanwhile[i] else []
  }

  function Watch(r: Remote, f: Field, before: seq<Change>): Remote {
    var q := HappenAll(r, before);
    q.(watched := q.watched + {ConVarOf(f)})
  }

  function WatchAndRead(s: Status, r: Remote, f: Field, meanwhile: seq<seq<Change>>, i: nat): (Status, Remote) {
    var q := HappenAll(Watch(r, f, At(meanwhile, i)), At(meanwhile, i + 1));
    (Put(s, f, Current(q, f)), q)
  }

  function ReadAttributes(s: Status, r: Remote, meanwhile: seq<seq<Change>>): (Status, Remote) {
    var r0 := HappenAll(r, At(meanwhile, 0));
    var r1 := HappenAll(r0, At(meanwhile, 1));
    (s.(maxPlayers := r0.maxPlayers, address := AddressFrom(r1.address, s.address)), r1)
  }

  function HookAndReadMap(s: Status, r: Remote, meanwhile: seq<seq<Change>>): (Status, Remote) {
    var q := HappenAll(r.(mapHooked := true), At(meanwhile, 2));
    (Put(s, Map, q.map_), q)
  }

  function TrackConVars(s: Status, r: Remote, meanwhile: seq<seq<Change>>): (Status, Remote) {
    var (s2, r2) := WatchAndRead(s, r, Hostname, meanwhile, 3);
    var (s3, r3) := WatchAndRead(s2, r2, Password, meanwhile, 5);
    var (s4, r4) := WatchAndRead(s3, r3, StvPassword, meanwhile, 7);
    WatchAndRead(s4, r4, StvPort, meanwhile, 9)
  }

  /** `trackGameServer`, with remote changes between any two of its calls. */
  function Track(s: Status, r: Remote, meanwhile: seq<seq<Change>>): (Status, Remote) {
    var (s0, r0) := ReadAttributes(s, r, meanwhile);
    var (s1, r1) := HookAndReadMap(s0, r0, meanwhile);
    var (s2, r2) := TrackConVars(s1, r1.(conVarsHooked := true), meanwhile);
    (s2, r2.(playersHooked := true))
  }

  // ------------------------------------------------------------------- settling

  /** The text of the last notification of a field still under way. */
  function Pending(queue: seq<Note>, f: Field): Option<string> {
    if queue == [] then None
    else
      var last := queue[|queue| - 1];
      if Subject(last) == Some(f) then Some(Text(last)) else Pending(queue[..|queue| - 1], f)
  }

  /** A field's last notification under way, if any, carries its current text. */
  predicate Announced(r: Remote, f: Field) {
    Pending(r.queue, f).Some? ==> Heard(r, f) && Pending(r.queue, f).value == Current(r, f)
  }

  /** The status shows the field's current text, or will when the queue is empty. */
  predicate Settled(s: Status, r: Remote, f: Field) {
    Heard(r, f) && Announced(r, f) && (Pending(r.queue, f).None? ==> Shows(s, f, Current(r, f)))
  }

  lemma PutShows(s: Status, f: Field, text: string)
    ensures Shows(Put(s, f, text), f, text)
    ensures forall g, t :: g != f && Shows(s, g, t) ==> Shows(Put(s, f, text), g, t)
  {
  }

  /** A change that posts the new text of the fields it changes keeps them settled. */
  lemma PostKeepsSettled(s: Status, r: Remote, q: Remote, heard: bool, n: Note, f: Field)
    requires Announced(r, f) && q.(map_ := r.map_, conVars := r.conVars) == r
    requires if Subject(n) == Some(f) then Text(n) == Current(q, f) && heard == Heard(r, f)
             else Current(q, f) == Current(r, f)
    ensures Announced(Post(q, heard, n), f)
    ensures Heard(Post(q, heard, n), f) == Heard(r, f)
    ensures Settled(s, r, f) ==> Settled(s, Post(q, heard, n), f)
  {
  }

  lemma HookingKeepsAnnounced(r: Remote, q: Remote, f: Field)
    requires Announced(r, f) && q.queue == r.queue && q.map_ == r.map_ && q.conVars == r.conVars
    requires r.mapHooked ==> q.mapHooked
    requires r.conVarsHooked ==> q.conVarsHooked
    requires r.watched <= q.watched
    ensures Announced(q, f)
  {
  }

  lemma HappenKeepsSettled(s: Status, r: Remote, c: Change, f: Field)
    requires Announced(r, f)
    ensures Announced(Happen(r, c), f)
    ensures Heard(r, f) ==> Heard(Happen(r, c), f)
    ensures Settled(s, r, f) ==> Settled(s, Happen(r, c), f)
  {
    match c
    case NewMap(m) => PostKeepsSettled(s, r, r.(map_ := m), r.mapHooked, MapChanged(m), f);
    case NewConVar(n, v) =>
      var changed := r.(conVars := r.conVars[n := v]);
      PostKeepsSettled(s, r, changed, r.conVarsHooked && n in r.watched, ConVarChanged(n, v), f);
    case Join(id) => PostKeepsSettled(s, r, r, r.playersHooked, PlayerConnected(id), f);
    case Leave(id) => PostKeepsSettled(s, r, r, r.playersHooked, PlayerDisconnected(id), f);
  }

  lemma {:induction false} HappenAllKeepsSettled(s: Status, r: Remote, changes: seq<Change>, f: Field)
    requires Announced(r, f)
    ensures Announced(HappenAll(r, changes), f)
    ensures Heard(r, f) ==> Heard(HappenAll(r, changes), f)
    ensures Settled(s, r, f) ==> Settled(s, HappenAll(r, changes), f)
  {
    if changes == [] {
    } else {
      var k := |changes| - 1;
      HappenAllKeepsSettled(s, r, changes[..k], f);
      HappenKeepsSettled(s, HappenAll(r, changes[..k]), changes[k], f);
    }
  }

  /** Reading a field that is already heard settles it. */
  lemma ReadSettles(s: Status, r: Remote, f: Field, g: Field)
    requires Heard(r, f) && Announced(r, f) && Announced(r, g)
    ensures Settled(Put(s, f, Current(r, f)), r, f)
    ensures Settled(s, r, g) ==> Settled(Put(s, f, Current(r, f)), r, g)
  {
  }

  lemma WatchAndReadSettles(s: Status, r: Remote, f: Field, meanwhile: seq<seq<Change>>, i: nat, g: Field)
    requires f != Map && r.conVarsHooked && Announced(r, f) && Announced(r, g)
    ensures var (t, q) := WatchAndRead(s, r, f, meanwhile, i);
      q.conVarsHooked && Announced(q, g) && Settled(t, q, f) && (Settled(s, r, g) ==> Settled(t, q, g))
  {
    HappenAllKeepsHooks(r, At(meanwhile, i));
    HappenAllKeepsSettled(s, r, At(meanwhile, i), f);
    HappenAllKeepsSettled(s, r, At(meanwhile, i), g);
    var w := Watch(r, f, At(meanwhile, i));
    HookingKeepsAnnounced(HappenAll(r, At(meanwhile, i)), w, f);
    HookingKeepsAnnounced(HappenAll(r, At(meanwhile, i)), w, g);
    HappenAllKeepsHooks(w, At(meanwhile, i + 1));
    HappenAllKeepsSettled(s, w, At(meanwhile, i + 1), f);
    HappenAllKeepsSettled(s, w, At(meanwhile, i + 1), g);
    ReadSettles(s, HappenAll(w, At(meanwhile, i + 1)), f, g);
  }

  lemma {:induction false} HappenAllKeepsHooks(r: Remote, changes: seq<Change>)
    ensures var q := HappenAll(r, changes);
      && q.location == r.location && q.maxPlayers == r.maxPlayers && q.address == r.address
      && q.mapHooked == r.mapHooked && q.conVarsHooked == r.conVarsHooked && q.playersHooked == r.playersHooked
      && q.watched == r.watched
  {
    if changes == [] {
    } else {
      HappenAllKeepsHooks(r, changes[..|changes| - 1]);
    }
  }

  /** Connecting and watching come before reading, so after tracking every field is
    * settled, whatever the remote did meanwhile.
    */
  lemma TrackSettles(s: Status, r: Remote, meanwhile: seq<seq<Change>>, f: Field)
    requires r.queue == []
    ensures var (t, q) := Track(s, r, meanwhile);
      && Settled(t, q, f) && Announced(q, f) && q.location == r.location
      && t.resets == s.resets && t.players == s.players && t.playerCount == s.playerCount
      && t.arrived == s.arrived && t.gone == s.gone
  {
    var (s0, r0) := ReadAttributes(s, r, meanwhile);
    var (s1, r1) := HookAndReadMap(s0, r0, meanwhile);
    forall g ensures Announced(r1.(conVarsHooked := true), g) {
      ReadAttributesKeepsAnnounced(s, r, meanwhile, g);
      HookAndReadMapKeepsAnnounced(s0, r0, meanwhile, g);
    }
    ReadAttributesKeepsAnnounced(s, r, meanwhile, Map);
    HookAndReadMapSettles(s0, r0, meanwhile);
    TrackConVarsSettles(s1, r1.(conVarsHooked := true), meanwhile, f);
    TrackKeepsTheRest(s, r, meanwhile);
  }

  lemma ReadAttributesKeepsAnnounced(s: Status, r: Remote, meanwhile: seq<seq<Change>>, f: Field)
    requires Announced(r, f)
    ensures Announced(ReadAttributes(s, r, meanwhile).1, f)
  {
    HappenAllKeepsSettled(s, r, At(meanwhile, 0), f);
    HappenAllKeepsSettled(s, HappenAll(r, At(meanwhile, 0)), At(meanwhile, 1), f);
  }

  lemma HookAndReadMapKeepsAnnounced(s: Status, r: Remote, meanwhile: seq<seq<Change>>, f: Field)
    requires Announced(r, f)
    ensures Announced(HookAndReadMap(s, r, meanwhile).1.(conVarsHooked := true), f)
  {
    var hooked := r.(mapHooked := true);
    HookingKeepsAnnounced(r, hooked, f);
    HappenAllKeepsSettled(s, hooked, At(meanwhile, 2), f);
    var q := HappenAll(hooked, At(meanwhile, 2));
    HookingKeepsAnnounced(q, q.(conVarsHooked := true), f);
  }

  lemma HookAndReadMapSettles(s: Status, r: Remote, meanwhile: seq<seq<Change>>)
    requires Announced(r, Map)
    ensures var (t, q) := HookAndReadMap(s, r, meanwhile); Settled(t, q.(conVarsHooked := true), Map)
  {
    var hooked := r.(mapHooked := true);
    HookingKeepsAnnounced(r, hooked, Map);
    HappenAllKeepsSettled(s, hooked, At(meanwhile, 2), Map);
    ReadSettles(s, HappenAll(hooked, At(meanwhile, 2)), Map, Map);
  }

  lemma TrackConVarsSettles(s: Status, r: Remote, meanwhile: seq<seq<Change>>, f: Field)
    requires r.conVarsHooked && (forall g :: Announced(r, g)) && Settled(s, r, Map)
    ensures var (t, q) := TrackConVars(s, r, meanwhile);
      Settled(t, q, f)
  {
    var (s2, r2) := WatchAndRead(s, r, Hostname, meanwhile, 3);
    forall g ensures Announced(r2, g) && (Settled(s, r, g) ==> Settled(s2, r2, g)) {
      WatchAndReadSettles(s, r, Hostname, meanwhile, 3, g);
    }
    WatchAndReadSettles(s, r, Hostname, meanwhile, 3, Hostname);
    var (s3, r3) := WatchAndRead(s2, r2, Password, meanwhile, 5);
    forall g ensures Announced(r3, g) && (Settled(s2, r2, g) ==> Settled(s3, r3, g)) {
      WatchAndReadSettles(s2, r2, Password, meanwhile, 5, g);
    }
    WatchAndReadSettles(s2, r2, Password, meanwhile, 5, Password);
    var (s4, r4) := WatchAndRead(s3, r3, StvPassword, meanwhile, 7);
    forall g ensures Announced(r4, g) && (Settled(s3, r3, g) ==> Settled(s4, r4, g)) {
      WatchAndReadSettles(s3, r3, StvPassword, meanwhile, 7, g);
    }
    WatchAndReadSettles(s3, r3, StvPassword, meanwhile, 7, StvPassword);
    WatchAndReadSettles(s4, r4, StvPort, meanwhile, 9, f);
    assert f in {Map, Hostname, Password, StvPassword, StvPort};
  }

  lemma TrackKeepsTheRest(s: Status, r: Remote, meanwhile: seq<seq<Change>>)
    ensures var (t, q) := Track(s, r, meanwhile);
      && q.location == r.location
      && t.maxPlayers == r.maxPlayers && t.address == AddressFrom(r.address, s.address)
      && t.resets == s.resets && t.players == s.players && t.playerCount == s.playerCount
      && t.arrived == s.arrived && t.gone == s.gone
  {
    forall q, changes ensures HappenAll(q, changes).location == q.location
      && HappenAll(q, changes).maxPlayers == q.maxPlayers && HappenAll(q, changes).address == q.address
    {
      HappenAllKeepsHooks(q, changes);
    }
  }

  /** Tracking reads the address of a game server as host and port, and leaves an older
    * address alone when its text is none.
    */
  lemma TrackReadsTheAddress(s: Status, r: Remote, meanwhile: seq<seq<Change>>, host: string, port: string)
    requires !Holds(host, ':') && !Holds(port, ':')
    ensures r.address == host + ":" + port ==>
      Track(s, r, meanwhile).0.address == Steam(host, if ToInt(port).Some? then ToInt(port).value else 0)
    ensures multiset(r.address)[':'] != 1 ==> Track(s, r, meanwhile).0.address == s.address
  {
    TrackKeepsTheRest(s, r, meanwhile);
    AddressReads(host, port, s.address);
    OtherTextsAreNoAddress(r.address, s.address);
  }

  lemma TrackReadsPrintedAddresses(s: Status, r: Remote, meanwhile: seq<seq<Change>>, host: string, n: nat)
    requires !Holds(host, ':') && n <= INT_MAX && r.address == host + ":" + Render(n)
    ensures Track(s, r, meanwhile).0.address == Steam(host, n)
  {
    TrackKeepsTheRest(s, r, meanwhile);
    PrintedAddressReads(host, n, s.address);
  }

  /** What a delivered signal changes, name by name; a tv_port that is no number, and
    * any other conVar, changes nothing.
    */
  lemma DeliveriesByName(s: Status, text: string, conVar: string, id: int, name: string, steamId: nat)
    ensures Deliver(s, MapChanged(text), name, steamId) == s.(map_ := text)
    ensures Deliver(s, ConVarChanged("hostname", text), name, steamId) == s.(hostname := text)
    ensures Deliver(s, ConVarChanged("sv_password", text), name, steamId) == s.(password := text)
    ensures Deliver(s, ConVarChanged("tv_password", text), name, steamId) == s.(stvPassword := text)
    ensures ToInt(text).Some? ==>
      Deliver(s, ConVarChanged("tv_port", text), name, steamId) == s.(stvPort := ToInt(text).value)
    ensures ToInt(text).None? ==> Deliver(s, ConVarChanged("tv_port", text), name, steamId) == s
    ensures conVar !in {"hostname", "sv_password", "tv_password", "tv_port"} ==>
      Deliver(s, ConVarChanged(conVar, text), name, steamId) == s
    ensures var d := Deliver(s, PlayerConnected(id), name, steamId);
      d == s.(players := s.players + [Player(id, name, steamId)], playerCount := s.playerCount + 1,
              arrived := s.arrived + [Player(id, name, steamId)])
    ensures var d := Deliver(s, PlayerDisconnected(id), name, steamId);
      d == s.(players := RemoveFirst(s.players, id), playerCount := s.playerCount - 1, gone := s.gone + multiset{id})
  {
    assert "hostname" != "sv_password" && |"tv_port"| != |"hostname"| && |"tv_port"| != |"sv_password"|;
    assert |"tv_password"| == |"sv_password"| && "tv_password"[0] != "sv_password"[0];
    assert |"tv_password"| != |"tv_port"| && |"tv_password"| != |"hostname"|;
  }

  /** What settled fields show once the queue is delivered, name by name. */
  lemma DrainedByName(s: Status, r: Remote, name: string, steamId: nat)
    requires forall f :: Settled(s, r, f)
    ensures var d := Drain(s, r.queue, name, steamId);
      && d.map_ == r.map_
      && d.hostname == ConVar(r, "hostname") && d.password == ConVar(r, "sv_password")
      && d.stvPassword == ConVar(r, "tv_password")
      && (ToInt(ConVar(r, "tv_port")).Some? ==> ToInt(ConVar(r, "tv_port")) == Some(d.stvPort))
  {
    forall f ensures Shows(Drain(s, r.queue, name, steamId), f, Current(r, f)) {
      DrainedMirrorIsCurrent(s, r, f, name, steamId);
    }
    assert Shows(Drain(s, r.queue, name, steamId), Map, Current(r, Map));
    assert Shows(Drain(s, r.queue, name, steamId), Hostname, Current(r, Hostname));
    assert Shows(Drain(s, r.queue, name, steamId), Password, Current(r, Password));
    assert Shows(Drain(s, r.queue, name, steamId), StvPassword, Current(r, StvPassword));
    assert Shows(Drain(s, r.queue, name, steamId), StvPort, Current(r, StvPort));
  }

  /** Delivering the oldest notification keeps every settled field settled. */
  lemma DeliverKeepsSettled(s: Status, r: Remote, f: Field, name: string, steamId: nat)
    requires r.queue != [] && Announced(r, f)
    ensures var (t, q) := (Deliver(s, r.queue[0], name, steamId), r.(queue := r.queue[1..]));
      && Announced(q, f)
      && (Settled(s, r, f) ==> Settled(t, q, f))
      && (Subject(r.queue[0]) == Some(f) ==> Settled(t, q, f))
  {
    PendingWithoutOldest(r.queue, f);
    if Subject(r.queue[0]).Some? {
      PutShows(s, Subject(r.queue[0]).value, Text(r.queue[0]));
    }
  }

  lemma {:induction false} PendingWithoutOldest(queue: seq<Note>, f: Field)
    requires queue != []
    ensures Pending(queue, f)
            == if Pending(queue[1..], f).None? && Subject(queue[0]) == Some(f) then Some(Text(queue[0]))
               else Pending(queue[1..], f)
  {
    if |queue| > 1 {
      var k := |queue| - 1;
      PendingWithoutOldest(queue[..k], f);
      assert queue[1..][..k - 1] == queue[..k][1..];
    }
  }

  /** A settled field ends at the remote's current text once the queue is delivered. */
  lemma {:induction false} DrainedMirrorIsCurrent(s: Status, r: Remote, f: Field, name: string, steamId: nat)
    requires Settled(s, r, f)
    ensures Shows(Drain(s, r.queue, name, steamId), f, Current(r, f))
    decreases |r.queue|
  {
    if r.queue == [] {
    } else {
      DeliverKeepsSettled(s, r, f, name, steamId);
      DrainedMirrorIsCurrent(Deliver(s, r.queue[0], name, steamId), r.(queue := r.queue[1..]), f, name, steamId);
    }
  }
}
