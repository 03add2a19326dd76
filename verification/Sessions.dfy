/**
 Server session ownership: the session map of `RemoteSessionManager`, and the raw pointers that
 `ServerConnection` and `SessionStub` hold to each other, under racing logons and teardowns.

 Objects are named by numbers; a name without an entry is a destroyed object, and following a pointer
 to one sets `crashed`. Authentication is the one point where a handler is suspended. A session that
 left the map is destroyed at once or at any later step, since unfinished service calls may keep it alive.
 */
module Sessions {
  import opened Collections

  type User = nat
  type ConnectionRef = nat
  type SessionRef = nat
  type LogonRef = nat

  datatype Session = Session(user: User, connection: Option<ConnectionRef>)

  /** `asked` is history: the connection has sent a CreateSession request. */
  datatype Connection = Connection(session: Option<SessionRef>, closed: bool, asked: bool)

  /** A CreateSession request whose authentication is in flight; it keeps its connection alive. */
  datatype Logon = Logon(connection: ConnectionRef, deleteExisting: bool)

  /** What authentication answers: `multi` accounts may log on more than once. */
  datatype Verdict = Denied | Granted(user: User, multi: bool)

  /**
   `waiting` are the logons whose authentication is in flight.
   `openings` and `closings` log the signals; `overwritten` counts entries replaced without a closed signal.
   */
  datatype World = World(
    crashed: bool,
    sessionMap: map<User, SessionRef>,
    sessions: map<SessionRef, Session>,
    connections: map<ConnectionRef, Connection>,
    listed: seq<ConnectionRef>,
    waiting: map<LogonRef, Logon>,
    nextSession: SessionRef,
    nextConnection: ConnectionRef,
    nextLogon: LogonRef,
    openings: seq<SessionRef>,
    closings: seq<SessionRef>,
    overwritten: nat)

  const START := World(false, map[], map[], map[], [], map[], 0, 0, 0, [], [], 0)

  /** `dies`: nothing keeps the session that the logon takes out of the map alive. */
  datatype Step =
    | Accept
    | AskSession(connection: ConnectionRef, deleteExisting: bool)
    | Authenticated(logon: LogonRef, verdict: Verdict, dies: bool)
    | AskDelete(connection: ConnectionRef)
    | Close(connection: ConnectionRef)
    | CloseUser(user: User)
    | Push(session: SessionRef)
    | Request(connection: ConnectionRef)
    | DestroySession(session: SessionRef)
    | DestroyConnection(connection: ConnectionRef)

  function Crash(w: World): World { w.(crashed := true) }

  // ---------- SessionStub ----------

  function SetConnection(w: World, s: SessionRef, c: Option<ConnectionRef>): World {
    if s !in w.sessions then Crash(w)
    else w.(sessions := w.sessions[s := w.sessions[s].(connection := c)])
  }

  /** `SessionStub::Send`: follows the back-pointer. */
  function SendThrough(w: World, s: SessionRef): World {
    if s !in w.sessions then Crash(w)
    else match w.sessions[s].connection
      case None => w
      case Some(c) => if c in w.connections then w else Crash(w)
  }

  /** `~SessionStub` */
  function SessionDestroyed(w: World, s: SessionRef): (r: World)
    requires s in w.sessions
    ensures r.connections.Keys == w.connections.Keys
  {
    var w1 := w.(sessions := w.sessions - {s});
    match w.sessions[s].connection
    case None => w1
    case Some(c) =>
      if c !in w.connections then Crash(w1)
      else w1.(connections := w.connections[c := w.connections[c].(session := None)])
  }

  // ---------- RemoteSessionManager ----------

  function DeleteSession(w: World, s: SessionRef): World {
    if s !in w.sessions then Crash(w)
    else
      var user := w.sessions[s].user;
      if user !in w.sessionMap || w.sessionMap[user] != s then w
      else w.(sessionMap := w.sessionMap - {user}, closings := w.closings + [s])
  }

  /** The session some connection is still serving for this user, if the logon may not displace it. */
  predicate Blocked(w: World, user: User, deleteExisting: bool) {
    && user in w.sessionMap && w.sessionMap[user] in w.sessions
    && w.sessions[w.sessionMap[user]].connection.Some? && !deleteExisting
  }

  /** The map drops its reference to a session, and that may have been the last one. */
  function Drop(w: World, s: SessionRef, dies: bool): (r: World)
    ensures r.connections.Keys == w.connections.Keys
  {
    if dies && s in w.sessions then SessionDestroyed(w, s) else w
  }

  /** `CheckExistingSession`, once the logon is not refused. */
  function Displace(w: World, user: User, dies: bool): (r: World)
    ensures r.connections.Keys == w.connections.Keys
  {
    if user !in w.sessionMap then w
    else Drop(DeleteSession(SendThrough(w, w.sessionMap[user]), w.sessionMap[user]), w.sessionMap[user], dies)
  }

  /** `insert_or_assign` drops an entry it replaces without a closed signal. */
  function Replace(w: World, user: User, dies: bool): (r: World)
    ensures r.connections.Keys == w.connections.Keys
  {
    if user !in w.sessionMap then w
    else Drop(w.(sessionMap := w.sessionMap - {user}, overwritten := w.overwritten + 1), w.sessionMap[user], dies)
  }

  function CreateNewSession(w: World, user: User, dies: bool): (r: World)
    ensures r.connections.Keys == w.connections.Keys
  {
    var w1 := Replace(w, user, dies);
    w1.(sessions := w1.sessions[w1.nextSession := Session(user, None)],
        sessionMap := w1.sessionMap[user := w1.nextSession],
        nextSession := w1.nextSession + 1,
        openings := w1.openings + [w1.nextSession])
  }

  // ---------- ServerConnection ----------

  function SetSession(w: World, c: ConnectionRef, s: Option<SessionRef>): World
    requires c in w.connections
  {
    w.(connections := w.connections[c := w.connections[c].(session := s)])
  }

  /** Both teardown paths: drop both pointers, then let the manager forget the session. */
  function Unbind(w: World, c: ConnectionRef): World
    requires c in w.connections
  {
    match w.connections[c].session
    case None => w
    case Some(s) => DeleteSession(SetConnection(SetSession(w, c, None), s, None), s)
  }

  function Without(listed: seq<ConnectionRef>, c: ConnectionRef): (r: seq<ConnectionRef>)
    ensures forall x :: x in r <==> x in listed && x != c
  {
    if listed == [] then []
    else (if listed[0] == c then [] else [listed[0]]) + Without(listed[1..], c)
  }

  lemma WithoutFrom(listed: seq<ConnectionRef>, i: nat, c: ConnectionRef, kept: seq<ConnectionRef>)
    requires i < |listed|
    ensures kept + Without(listed[i..], c) ==
            (if listed[i] == c then kept else kept + [listed[i]]) + Without(listed[i + 1..], c)
  {
    assert listed[i..][1..] == listed[i + 1..];
    if listed[i] == c {
      assert [] + Without(listed[i + 1..], c) == Without(listed[i + 1..], c);
    } else {
      Reassociate(kept, [listed[i]], Without(listed[i + 1..], c));
    }
  }

  function CloseConnection(w: World, c: ConnectionRef): World
    requires c in w.connections
  {
    var w1 := w.(connections := w.connections[c := w.connections[c].(closed := true)]);
    var w2 := Unbind(w1, c);
    w2.(listed := Without(w2.listed, c))
  }

  /** `OnCreateSessionAsync` after authentication, for a connection that may have closed meanwhile. */
  function FinishLogon(w: World, c: ConnectionRef, verdict: Verdict, deleteExisting: bool, dies: bool): World
    requires c in w.connections
  {
    match verdict
    case Denied => if w.connections[c].closed then w else SetSession(w, c, None)
    case Granted(user, multi) =>
      if !multi && Blocked(w, user, deleteExisting) then
        if w.connections[c].closed then w else SetSession(w, c, None)
      else
        var w1 := CreateNewSession(if multi then w else Displace(w, user, dies), user, dies);
        if w1.connections[c].closed then DeleteSession(w1, w.nextSession)
        else SetConnection(SetSession(w1, c, Some(w.nextSession)), w.nextSession, Some(c))
  }

  predicate Answerable(w: World, l: LogonRef) { l in w.waiting && w.waiting[l].connection in w.connections }

  /** Authentication has answered a logon. */
  function Answer(w: World, l: LogonRef, verdict: Verdict, dies: bool): World
    requires Answerable(w, l)
  {
    FinishLogon(w.(waiting := w.waiting - {l}), w.waiting[l].connection, verdict, w.waiting[l].deleteExisting, dies)
  }

  predicate Awaited(w: World, c: ConnectionRef) { exists l :: l in w.waiting && w.waiting[l].connection == c }

  // ---------- runs ----------

  function Apply(w: World, step: Step): World {
    if w.crashed then w else
    match step
    case Accept =>
      w.(connections := w.connections[w.nextConnection := Connection(None, false, false)],
         listed := w.listed + [w.nextConnection], nextConnection := w.nextConnection + 1)
    case AskSession(c, deleteExisting) =>
      if c in w.connections && !w.connections[c].closed
      then w.(connections := w.connections[c := w.connections[c].(asked := true)],
              waiting := w.waiting[w.nextLogon := Logon(c, deleteExisting)], nextLogon := w.nextLogon + 1)
      else w
    case Authenticated(l, verdict, dies) => if Answerable(w, l) then Answer(w, l, verdict, dies) else w
    case AskDelete(c) => if c in w.connections then Unbind(w, c) else w
    case Close(c) => if c in w.connections && !w.connections[c].closed then CloseConnection(w, c) else w
    case CloseUser(user) =>
      if user in w.sessionMap then DeleteSession(SendThrough(w, w.sessionMap[user]), w.sessionMap[user]) else w
    case Push(s) => if s in w.sessions then SendThrough(w, s) else w
    case Request(c) =>
      if c in w.connections && !w.connections[c].closed && w.connections[c].session.Some?
         && w.connections[c].session.value !in w.sessions then Crash(w) else w
    case DestroySession(s) =>
      if s in w.sessions && s !in w.sessionMap.Values then SessionDestroyed(w, s) else w
    case DestroyConnection(c) =>
      if c in w.connections && w.connections[c].closed && !Awaited(w, c) && c !in w.listed then
        var w1 := match w.connections[c].session case None => w case Some(s) => SetConnection(w, s, None);
        w1.(connections := w1.connections - {c})
      else w
  }

  function Run(steps: seq<Step>): World {
    if steps == [] then START else Apply(Run(steps[..|steps| - 1]), steps[|steps| - 1])
  }

  // ---------- the invariant ----------

  /** A connection's session points back to it; a closed connection has none. */
  predicate ConnectionOk(w: World, c: ConnectionRef)
    requires c in w.connections
  {
    var k := w.connections[c];
    && c < w.nextConnection
    && (k.closed <==> c !in w.listed)
    && (k.session.Some? ==>
          && !k.closed
          && k.session.value in w.sessions && w.sessions[k.session.value].connection == Some(c))
  }

  /** A session's connection points back to it. */
  predicate SessionOk(w: World, s: SessionRef)
    requires s in w.sessions
  {
    var c := w.sessions[s].connection;
    s < w.nextSession && (c.Some? ==> c.value in w.connections && w.connections[c.value].session == Some(s))
  }

  /** A logged-on user has a live session that some connection serves. */
  predicate LogonOk(w: World, user: User)
    requires user in w.sessionMap
  {
    var s := w.sessionMap[user];
    && s in w.sessions && w.sessions[s].user == user && w.sessions[s].connection.Some?
    && s !in w.closings
  }

  predicate SignalsOk(w: World) {
    && |w.openings| == w.nextSession && (forall i :: 0 <= i < |w.openings| ==> w.openings[i] == i)
    && (forall i :: 0 <= i < |w.closings| ==> w.closings[i] < w.nextSession)
    && (forall i, j :: 0 <= i < j < |w.closings| ==> w.closings[i] != w.closings[j])
    && |w.openings| == |w.closings| + |w.sessionMap| + w.overwritten
  }

  predicate Pointers(w: World) {
    && (forall c :: c in w.connections ==> ConnectionOk(w, c))
    && (forall s :: s in w.sessions ==> SessionOk(w, s))
    && (forall l :: l in w.waiting ==> l < w.nextLogon && w.waiting[l].connection in w.connections)
    && (forall i :: 0 <= i < |w.listed| ==> w.listed[i] in w.connections)
  }

  predicate Inv(w: World) {
    !w.crashed && Pointers(w) && (forall u :: u in w.sessionMap ==> LogonOk(w, u)) && SignalsOk(w)
  }

  // ---------- the parts of a teardown ----------

  /** What unbinding leaves of the map: only the entry of the session bound to this connection can go. */
  predicate MapAfter(w: World, v: World, s: SessionRef)
    requires s in w.sessions
  {
    var user := w.sessions[s].user;
    if user in w.sessionMap && w.sessionMap[user] == s
    then v.sessionMap == w.sessionMap - {user} && v.closings == w.closings + [s]
    else v.sessionMap == w.sessionMap && v.closings == w.closings
  }

  /** The two pointers between c and s are gone, and the map has let go of s. */
  predicate Unbound(w: World, v: World, c: ConnectionRef, s: SessionRef) {
    && c in w.connections && s in w.sessions && c in v.connections
    && v.crashed == w.crashed && v.waiting == w.waiting && v.openings == w.openings && v.overwritten == w.overwritten
    && v.nextSession == w.nextSession && v.nextConnection == w.nextConnection && v.nextLogon == w.nextLogon
    && v.sessions == w.sessions[s := w.sessions[s].(connection := None)]
    && v.connections.Keys == w.connections.Keys
    && (forall d :: d in w.connections && d != c ==> v.connections[d] == w.connections[d])
    && v.connections[c].session.None?
    && MapAfter(w, v, s)
  }

  lemma UnboundKeepsPointers(w: World, v: World, c: ConnectionRef, s: SessionRef)
    requires Inv(w) && c in w.connections && w.connections[c].session == Some(s) && s in w.sessions
    requires Unbound(w, v, c, s)
    requires (v.connections[c].closed <==> c !in v.listed)
    requires forall d :: d in v.listed <==> d in w.listed && (d == c ==> !v.connections[c].closed)
    ensures Pointers(v)
  {
    assert ConnectionOk(w, c);
    forall d | d in v.connections ensures ConnectionOk(v, d) { assert ConnectionOk(w, d); }
    forall t | t in v.sessions ensures SessionOk(v, t) { assert SessionOk(w, t); }
    assert forall i :: 0 <= i < |v.listed| ==> v.listed[i] in v.listed;
  }

  /** One session leaves the map with its closed signal. */
  lemma ClosingKeepsSignals(w: World, v: World, user: User)
    requires SignalsOk(w) && user in w.sessionMap && w.sessionMap[user] !in w.closings
    requires w.sessionMap[user] < w.nextSession
    requires v.openings == w.openings && v.nextSession == w.nextSession && v.overwritten == w.overwritten
    requires v.sessionMap == w.sessionMap - {user} && v.closings == w.closings + [w.sessionMap[user]]
    ensures SignalsOk(v)
  {
    assert w.sessionMap.Keys == v.sessionMap.Keys + {user};
    assert |w.sessionMap| == |w.sessionMap.Keys| && |v.sessionMap| == |v.sessionMap.Keys|;
  }

  lemma UnboundKeepsLogons(w: World, v: World, c: ConnectionRef, s: SessionRef)
    requires Unbound(w, v, c, s) && forall u :: u in w.sessionMap ==> LogonOk(w, u)
    ensures forall u :: u in v.sessionMap ==> LogonOk(v, u)
  {
    forall u | u in v.sessionMap ensures LogonOk(v, u) { assert LogonOk(w, u); }
  }

  lemma UnboundKeepsSignals(w: World, v: World, c: ConnectionRef, s: SessionRef)
    requires Unbound(w, v, c, s) && SessionOk(w, s) && SignalsOk(w)
    requires forall u :: u in w.sessionMap ==> LogonOk(w, u)
    ensures SignalsOk(v)
  {
    var user := w.sessions[s].user;
    if user in w.sessionMap && w.sessionMap[user] == s {
      assert LogonOk(w, user);
      ClosingKeepsSignals(w, v, user);
    }
  }

  lemma UnbindEffect(w: World, c: ConnectionRef, s: SessionRef)
    requires c in w.connections && w.connections[c].session == Some(s) && s in w.sessions
    ensures Unbound(w, Unbind(w, c), c, s) && Unbind(w, c).listed == w.listed
    ensures Unbind(w, c).connections[c].closed == w.connections[c].closed
  {
  }

  lemma CloseEffect(w: World, c: ConnectionRef, s: SessionRef)
    requires c in w.connections && w.connections[c].session == Some(s) && s in w.sessions
    ensures Unbound(w, CloseConnection(w, c), c, s) && CloseConnection(w, c).connections[c].closed
    ensures CloseConnection(w, c).listed == Without(w.listed, c)
  {
    var w1 := w.(connections := w.connections[c := w.connections[c].(closed := true)]);
    UnbindEffect(w1, c, s);
  }

  lemma UnboundKeeps(w: World, v: World, c: ConnectionRef, s: SessionRef)
    requires Inv(w) && c in w.connections && w.connections[c].session == Some(s) && s in w.sessions
    requires Unbound(w, v, c, s)
    requires (v.connections[c].closed <==> c !in v.listed)
    requires forall d :: d in v.listed <==> d in w.listed && (d == c ==> !v.connections[c].closed)
    ensures Inv(v)
  {
    UnboundKeepsPointers(w, v, c, s);
    UnboundKeepsLogons(w, v, c, s);
    UnboundKeepsSignals(w, v, c, s);
  }

  lemma UnbindKeeps(w: World, c: ConnectionRef)
    requires Inv(w) && c in w.connections
    ensures Inv(Unbind(w, c))
  {
    assert ConnectionOk(w, c);
    if w.connections[c].session.Some? {
      UnbindEffect(w, c, w.connections[c].session.value);
      UnboundKeeps(w, Unbind(w, c), c, w.connections[c].session.value);
    }
  }

  lemma CloseKeeps(w: World, c: ConnectionRef)
    requires Inv(w) && c in w.connections && !w.connections[c].closed
    ensures Inv(CloseConnection(w, c))
  {
    assert ConnectionOk(w, c);
    if w.connections[c].session.Some? {
      CloseEffect(w, c, w.connections[c].session.value);
      UnboundKeeps(w, CloseConnection(w, c), c, w.connections[c].session.value);
    } else {
      CloseUnboundKeeps(w, c);
    }
  }

  lemma CloseUnboundKeeps(w: World, c: ConnectionRef)
    requires Inv(w) && c in w.connections && w.connections[c].session.None?
    ensures Inv(CloseConnection(w, c))
  {
    var v := CloseConnection(w, c);
    forall d | d in v.connections ensures ConnectionOk(v, d) { assert ConnectionOk(w, d); }
    forall t | t in v.sessions ensures SessionOk(v, t) { assert SessionOk(w, t); }
    assert forall i :: 0 <= i < |v.listed| ==> v.listed[i] in v.listed;
    forall u | u in v.sessionMap ensures LogonOk(v, u) { assert LogonOk(w, u); }
  }

  /** The manager lets go of a session that may still be bound. */
  lemma DeleteKeeps(w: World, user: User)
    requires Inv(w) && user in w.sessionMap
    ensures var v := DeleteSession(SendThrough(w, w.sessionMap[user]), w.sessionMap[user]);
            && Inv(v) && v == w.(sessionMap := w.sessionMap - {user}, closings := w.closings + [w.sessionMap[user]])
  {
    var s := w.sessionMap[user];
    assert LogonOk(w, user) && SessionOk(w, s);
    var v := w.(sessionMap := w.sessionMap - {user}, closings := w.closings + [s]);
    assert v == DeleteSession(SendThrough(w, s), s);
    ClosingKeepsSignals(w, v, user);
    forall d | d in v.connections ensures ConnectionOk(v, d) { assert ConnectionOk(w, d); }
    forall t | t in v.sessions ensures SessionOk(v, t) { assert SessionOk(w, t); }
    forall u | u in v.sessionMap ensures LogonOk(v, u) { assert LogonOk(w, u); }
  }

  lemma DestroySessionKeeps(w: World, s: SessionRef)
    requires Inv(w) && s in w.sessions && s !in w.sessionMap.Values
    ensures Inv(SessionDestroyed(w, s))
  {
    var v := SessionDestroyed(w, s);
    assert SessionOk(w, s);
    DestroySessionKeepsPointers(w, s);
    forall u | u in v.sessionMap ensures LogonOk(v, u) {
      assert LogonOk(w, u);
      assert w.sessionMap[u] in w.sessionMap.Values;
    }
  }

  lemma DestroySessionKeepsPointers(w: World, s: SessionRef)
    requires Pointers(w) && s in w.sessions
    ensures Pointers(SessionDestroyed(w, s))
  {
    var v := SessionDestroyed(w, s);
    assert SessionOk(w, s);
    forall d | d in v.connections ensures ConnectionOk(v, d) { assert ConnectionOk(w, d); }
    forall t | t in v.sessions ensures SessionOk(v, t) { assert SessionOk(w, t); }
  }

  // ---------- logons ----------

  /** A new session is stored and bound to the open connection that asked for it. */
  function Bound(w: World, c: ConnectionRef, user: User): World
    requires c in w.connections
  {
    SetConnection(SetSession(CreateNewSession(w, user, false), c, Some(w.nextSession)), w.nextSession, Some(c))
  }

  lemma CreatedIs(w: World, user: User)
    ensures CreateNewSession(w, user, false) == w.(
              sessions := w.sessions[w.nextSession := Session(user, None)],
              sessionMap := w.sessionMap[user := w.nextSession], nextSession := w.nextSession + 1,
              openings := w.openings + [w.nextSession],
              overwritten := if user in w.sessionMap then w.overwritten + 1 else w.overwritten)
  {
    assert (w.sessionMap - {user})[user := w.nextSession] == w.sessionMap[user := w.nextSession];
  }

  lemma BoundIs(w: World, c: ConnectionRef, user: User)
    requires c in w.connections
    ensures Bound(w, c, user) == w.(
              sessions := w.sessions[w.nextSession := Session(user, Some(c))],
              connections := w.connections[c := w.connections[c].(session := Some(w.nextSession))],
              sessionMap := w.sessionMap[user := w.nextSession], nextSession := w.nextSession + 1,
              openings := w.openings + [w.nextSession],
              overwritten := if user in w.sessionMap then w.overwritten + 1 else w.overwritten)
  {
    CreatedIs(w, user);
    assert w.sessions[w.nextSession := Session(user, None)][w.nextSession := Session(user, Some(c))]
        == w.sessions[w.nextSession := Session(user, Some(c))];
  }

  lemma BoundKeeps(w: World, c: ConnectionRef, user: User)
    requires Inv(w) && c in w.connections && !w.connections[c].closed && w.connections[c].session.None?
    ensures Inv(Bound(w, c, user))
  {
    BoundIs(w, c, user);
    var v := Bound(w, c, user);
    forall d | d in v.connections ensures ConnectionOk(v, d) { assert ConnectionOk(w, d); }
    forall t | t in v.sessions ensures SessionOk(v, t) { if t != w.nextSession { assert SessionOk(w, t); } }
    BoundKeepsLogons(w, c, user);
  }

  /** A session enters the map with its opened signal. */
  lemma OpeningKeepsSignals(w: World, user: User)
    requires SignalsOk(w)
    ensures SignalsOk(CreateNewSession(w, user, false))
  {
    var v := CreateNewSession(w, user, false);
    CreatedIs(w, user);
    assert v.sessionMap.Keys == w.sessionMap.Keys + {user};
    assert |v.sessionMap| == |v.sessionMap.Keys| && |w.sessionMap| == |w.sessionMap.Keys|;
  }

  lemma BoundKeepsLogons(w: World, c: ConnectionRef, user: User)
    requires Inv(w) && c in w.connections && w.connections[c].session.None?
    ensures var v := Bound(w, c, user); (forall u :: u in v.sessionMap ==> LogonOk(v, u)) && SignalsOk(v)
  {
    BoundIs(w, c, user);
    OpeningKeepsSignals(w, user);
    var v := Bound(w, c, user);
    forall u | u in v.sessionMap ensures LogonOk(v, u) {
      if u != user { assert LogonOk(w, u) && SessionOk(w, w.sessionMap[u]); }
    }
  }

  /** The peer went away during authentication: the session is stored and released in one step. */
  function Released(w: World, user: User): World { DeleteSession(CreateNewSession(w, user, false), w.nextSession) }

  lemma ReleasedIs(w: World, user: User)
    ensures Released(w, user) == w.(
              sessions := w.sessions[w.nextSession := Session(user, None)],
              sessionMap := w.sessionMap - {user}, nextSession := w.nextSession + 1,
              openings := w.openings + [w.nextSession], closings := w.closings + [w.nextSession],
              overwritten := if user in w.sessionMap then w.overwritten + 1 else w.overwritten)
  {
    CreatedIs(w, user);
    assert w.sessionMap[user := w.nextSession] - {user} == w.sessionMap - {user};
  }

  lemma ReleasedKeeps(w: World, user: User)
    requires Inv(w)
    ensures Inv(Released(w, user)) && user !in Released(w, user).sessionMap
  {
    var v := Released(w, user);
    ReleasedIs(w, user);
    ReleasedKeepsSignals(w, user);
    ReleasedKeepsPointers(w, user);
    ReleasedKeepsLogons(w, user);
  }

  lemma ReleasedKeepsLogons(w: World, user: User)
    requires Pointers(w) && forall u :: u in w.sessionMap ==> LogonOk(w, u)
    ensures var v := Released(w, user); forall u :: u in v.sessionMap ==> LogonOk(v, u)
  {
    var v := Released(w, user);
    ReleasedIs(w, user);
    forall u | u in v.sessionMap ensures LogonOk(v, u) { assert LogonOk(w, u) && SessionOk(w, w.sessionMap[u]); }
  }

  lemma ReleasedKeepsPointers(w: World, user: User)
    requires Pointers(w)
    ensures Pointers(Released(w, user))
  {
    var v := Released(w, user);
    ReleasedIs(w, user);
    forall d | d in v.connections ensures ConnectionOk(v, d) {
      assert ConnectionOk(w, d);
      if w.connections[d].session.Some? { assert SessionOk(w, w.connections[d].session.value); }
    }
    forall t | t in v.sessions ensures SessionOk(v, t) { if t != w.nextSession { assert SessionOk(w, t); } }
  }

  lemma ReleasedKeepsSignals(w: World, user: User)
    requires SignalsOk(w)
    ensures SignalsOk(Released(w, user))
  {
    ReleasedIs(w, user);
    CreatedIs(w, user);
    OpeningKeepsSignals(w, user);
    ClosingKeepsSignals(CreateNewSession(w, user, false), Released(w, user), user);
  }

  // ---------- what a logon takes out of the map ----------

  /** The entry of the user's earlier session is taken out: displaced, or replaced by a multi-session logon. */
  function Vacate(w: World, user: User, multi: bool, dies: bool): (r: World)
    ensures r.connections.Keys == w.connections.Keys
  {
    if multi then Replace(w, user, dies) else Displace(w, user, dies)
  }

  /** The session is gone with the pointer to it, or nothing happened. */
  predicate Dropped(w: World, v: World, s: SessionRef, dies: bool) {
    && v.sessions == (if dies then w.sessions - {s} else w.sessions)
    && v == w.(sessions := v.sessions, connections := v.connections)
    && v.connections.Keys == w.connections.Keys
    && (forall d :: d in w.connections ==>
          v.connections[d] == if dies && w.connections[d].session == Some(s)
                              then w.connections[d].(session := None) else w.connections[d])
  }

  lemma DropKeeps(w: World, s: SessionRef, dies: bool)
    requires Inv(w) && s in w.sessions && s !in w.sessionMap.Values
    ensures Inv(Drop(w, s, dies)) && Dropped(w, Drop(w, s, dies), s, dies)
  {
    assert SessionOk(w, s);
    assert forall d :: d in w.connections ==> ConnectionOk(w, d);
    DestroySessionKeeps(w, s);
  }

  /** The user's session leaves the map with no other entry for it. */
  lemma OneEntryEach(w: World, user: User)
    requires user in w.sessionMap && forall u :: u in w.sessionMap ==> LogonOk(w, u)
    ensures w.sessionMap[user] in w.sessions && w.sessionMap[user] !in (w.sessionMap - {user}).Values
  {
    assert LogonOk(w, user);
    forall u | u in w.sessionMap && w.sessionMap[u] == w.sessionMap[user] ensures u == user {
      assert LogonOk(w, u);
    }
  }

  lemma ReplacedKeepsSignals(w: World, v: World, user: User)
    requires SignalsOk(w) && user in w.sessionMap
    requires v == w.(sessionMap := w.sessionMap - {user}, overwritten := w.overwritten + 1)
    ensures SignalsOk(v)
  {
    assert w.sessionMap.Keys == v.sessionMap.Keys + {user};
    assert |w.sessionMap| == |w.sessionMap.Keys| && |v.sessionMap| == |v.sessionMap.Keys|;
  }

  lemma ReplacedKeepsPointers(w: World, v: World)
    requires Pointers(w) && v == w.(sessionMap := v.sessionMap, overwritten := v.overwritten)
    ensures Pointers(v)
  {
    forall d | d in v.connections ensures ConnectionOk(v, d) { assert ConnectionOk(w, d); }
    forall t | t in v.sessions ensures SessionOk(v, t) { assert SessionOk(w, t); }
  }

  lemma ReplacedKeeps(w: World, v: World, user: User)
    requires Inv(w) && user in w.sessionMap
    requires v == w.(sessionMap := w.sessionMap - {user}, overwritten := w.overwritten + 1)
    ensures Inv(v)
  {
    ReplacedKeepsSignals(w, v, user);
    ReplacedKeepsPointers(w, v);
    forall u | u in v.sessionMap ensures LogonOk(v, u) { assert LogonOk(w, u); }
  }

  /** The entry is gone and, if it dies, the session with it; nothing else has changed but the signals. */
  predicate Vacated(w: World, v: World, user: User, dies: bool) {
    && v.sessionMap == w.sessionMap - {user} && v.nextSession == w.nextSession && v.openings == w.openings
    && v.listed == w.listed && v.waiting == w.waiting
    && v.connections.Keys == w.connections.Keys
    && (if user in w.sessionMap
        then Dropped(w.(sessionMap := v.sessionMap, closings := v.closings, overwritten := v.overwritten), v,
                     w.sessionMap[user], dies)
        else v == w)
  }

  /** The same for either way out of the map; u is the world once the entry is gone. */
  lemma EntryGone(w: World, u: World, v: World, user: User, dies: bool)
    requires Inv(u) && user in w.sessionMap && w.sessionMap[user] in w.sessions
    requires u == w.(sessionMap := w.sessionMap - {user}, closings := u.closings, overwritten := u.overwritten)
    requires w.sessionMap[user] !in u.sessionMap.Values && v == Drop(u, w.sessionMap[user], dies)
    ensures Inv(v) && Vacated(w, v, user, dies)
  {
    DropKeeps(u, w.sessionMap[user], dies);
  }

  lemma NothingToVacate(w: World, user: User, dies: bool)
    requires user !in w.sessionMap
    ensures Vacated(w, w, user, dies)
  {
    assert w.sessionMap - {user} == w.sessionMap;
  }

  lemma ReplaceIs(w: World, u: World, user: User, dies: bool)
    requires user in w.sessionMap
    requires u == w.(sessionMap := w.sessionMap - {user}, overwritten := w.overwritten + 1)
    ensures Replace(w, user, dies) == Drop(u, w.sessionMap[user], dies)
  {
  }

  lemma ReplaceKeeps(w: World, user: User, dies: bool)
    requires Inv(w) && user in w.sessionMap
    ensures Inv(Replace(w, user, dies)) && Vacated(w, Replace(w, user, dies), user, dies)
  {
    var u := w.(sessionMap := w.sessionMap - {user}, overwritten := w.overwritten + 1);
    OneEntryEach(w, user);
    ReplacedKeeps(w, u, user);
    ReplaceIs(w, u, user, dies);
    EntryGone(w, u, Replace(w, user, dies), user, dies);
  }

  lemma DisplaceKeeps(w: World, user: User, dies: bool)
    requires Inv(w) && user in w.sessionMap
    ensures Inv(Displace(w, user, dies)) && Vacated(w, Displace(w, user, dies), user, dies)
  {
    var u := w.(sessionMap := w.sessionMap - {user}, closings := w.closings + [w.sessionMap[user]]);
    OneEntryEach(w, user);
    DeleteKeeps(w, user);
    EntryGone(w, u, Displace(w, user, dies), user, dies);
  }

  lemma VacateKeeps(w: World, user: User, multi: bool, dies: bool)
    requires Inv(w)
    ensures Inv(Vacate(w, user, multi, dies)) && Vacated(w, Vacate(w, user, multi, dies), user, dies)
  {
    if user !in w.sessionMap {
      NothingToVacate(w, user, dies);
    } else if multi {
      ReplaceKeeps(w, user, dies);
    } else {
      DisplaceKeeps(w, user, dies);
    }
  }

  /** What this means for the connection of the logon. */
  lemma VacatedUnbinds(w: World, v: World, user: User, dies: bool, c: ConnectionRef)
    requires Vacated(w, v, user, dies) && c in w.connections
    ensures var own := dies && user in w.sessionMap && w.connections[c].session == Some(w.sessionMap[user]);
            v.connections[c] == if own then w.connections[c].(session := None) else w.connections[c]
  {
  }

  /** Once its entry is vacated, storing a session replaces nothing. */
  lemma CreatedAfter(w: World, user: User, multi: bool, dies: bool)
    requires user !in Vacate(w, user, multi, dies).sessionMap
    ensures CreateNewSession(if multi then w else Displace(w, user, dies), user, dies) ==
            CreateNewSession(Vacate(w, user, multi, dies), user, false)
  {
    var w1 := Vacate(w, user, multi, dies);
    assert Replace(w1, user, dies) == w1 == Replace(w1, user, false);
  }

  /** A logon that is not refused vacates the entry, then stores its session and binds or releases it. */
  lemma FinishIs(w: World, c: ConnectionRef, user: User, multi: bool, deleteExisting: bool, dies: bool)
    requires Inv(w) && c in w.connections && (multi || !Blocked(w, user, deleteExisting))
    ensures FinishLogon(w, c, Granted(user, multi), deleteExisting, dies) ==
            var w1 := Vacate(w, user, multi, dies);
            if w.connections[c].closed then Released(w1, user) else Bound(w1, c, user)
  {
    VacateKeeps(w, user, multi, dies);
    VacatedFields(w, Vacate(w, user, multi, dies), user, dies, c);
    CreatedAfter(w, user, multi, dies);
    CreatedIs(Vacate(w, user, multi, dies), user);
  }

  lemma VacatedFields(w: World, v: World, user: User, dies: bool, c: ConnectionRef)
    requires Vacated(w, v, user, dies) && c in w.connections
    ensures user !in v.sessionMap && v.connections[c].closed == w.connections[c].closed
    ensures v.nextSession == w.nextSession
  {
    VacatedUnbinds(w, v, user, dies, c);
  }

  /** The logon takes the session of its own connection out of the map. */
  predicate TakesOwn(w: World, c: ConnectionRef, verdict: Verdict, deleteExisting: bool)
    requires c in w.connections
  {
    && verdict.Granted? && verdict.user in w.sessionMap && (verdict.multi || deleteExisting)
    && w.connections[c].session == Some(w.sessionMap[verdict.user])
  }

  lemma FinishLogonKeeps(w: World, c: ConnectionRef, verdict: Verdict, deleteExisting: bool, dies: bool)
    requires Inv(w) && c in w.connections
    requires w.connections[c].session.None? || (dies && TakesOwn(w, c, verdict, deleteExisting))
    ensures Inv(FinishLogon(w, c, verdict, deleteExisting, dies))
  {
    if verdict.Granted? && (verdict.multi || !Blocked(w, verdict.user, deleteExisting)) {
      var w1 := Vacate(w, verdict.user, verdict.multi, dies);
      FinishIs(w, c, verdict.user, verdict.multi, deleteExisting, dies);
      VacateKeeps(w, verdict.user, verdict.multi, dies);
      VacatedUnbinds(w, w1, verdict.user, dies, c);
      if w.connections[c].closed {
        ReleasedKeeps(w1, verdict.user);
      } else {
        BoundKeeps(w1, c, verdict.user);
      }
    } else {
      assert SetSession(w, c, None) == w by {
        assert w.connections[c := w.connections[c].(session := None)] == w.connections;
      }
    }
  }

  // ---------- every run ----------

  lemma RunSnoc(steps: seq<Step>, step: Step)
    ensures Run(steps + [step]) == Apply(Run(steps), step)
  {
    assert (steps + [step])[..|steps|] == steps;
  }

  lemma AcceptKeeps(w: World)
    requires Inv(w)
    ensures Inv(Apply(w, Accept))
  {
    var v := Apply(w, Accept);
    forall d | d in v.connections ensures ConnectionOk(v, d) {
      if d in w.connections { assert ConnectionOk(w, d); }
    }
    forall t | t in v.sessions ensures SessionOk(v, t) {
      assert SessionOk(w, t);
      if w.sessions[t].connection.Some? { assert ConnectionOk(w, w.sessions[t].connection.value); }
    }
    forall u | u in v.sessionMap ensures LogonOk(v, u) { assert LogonOk(w, u); }
  }

  lemma AskSessionKeeps(w: World, c: ConnectionRef, deleteExisting: bool)
    requires Inv(w)
    ensures Inv(Apply(w, AskSession(c, deleteExisting)))
  {
    var v := Apply(w, AskSession(c, deleteExisting));
    forall d | d in v.connections ensures ConnectionOk(v, d) { assert ConnectionOk(w, d); }
    forall t | t in v.sessions ensures SessionOk(v, t) { assert SessionOk(w, t); }
    forall u | u in v.sessionMap ensures LogonOk(v, u) { assert LogonOk(w, u); }
  }

  lemma AuthenticatedKeeps(w: World, l: LogonRef, verdict: Verdict, dies: bool)
    requires Inv(w) && Answerable(w, l) && !Rebinds(w, Authenticated(l, verdict, dies))
    ensures Inv(Answer(w, l, verdict, dies))
  {
    TakenKeeps(w, l);
    FinishLogonKeeps(w.(waiting := w.waiting - {l}), w.waiting[l].connection, verdict,
                     w.waiting[l].deleteExisting, dies);
  }

  lemma TakenKeeps(w: World, l: LogonRef)
    requires Inv(w)
    ensures Inv(w.(waiting := w.waiting - {l}))
  {
    var v := w.(waiting := w.waiting - {l});
    forall d | d in v.connections ensures ConnectionOk(v, d) { assert ConnectionOk(w, d); }
    forall t | t in v.sessions ensures SessionOk(v, t) { assert SessionOk(w, t); }
    forall u | u in v.sessionMap ensures LogonOk(v, u) { assert LogonOk(w, u); }
  }

  /** The session points at a connection that has left it. */
  predicate Orphaned(w: World, c: ConnectionRef, s: SessionRef) {
    && s in w.sessions && w.sessions[s].connection == Some(c)
    && c in w.connections && w.connections[c].session != Some(s)
  }

  lemma BoundOrphans(w: World, c: ConnectionRef, s: SessionRef, user: User)
    requires c in w.connections && s in w.sessions && s < w.nextSession && w.sessions[s].connection == Some(c)
    ensures Orphaned(Bound(w, c, user), c, s)
  {
    BoundIs(w, c, user);
  }

  lemma VacatedKeepsSession(w: World, v: World, user: User, dies: bool, s: SessionRef)
    requires Vacated(w, v, user, dies) && s in w.sessions
    requires !(dies && user in w.sessionMap && w.sessionMap[user] == s)
    ensures s in v.sessions && v.sessions[s] == w.sessions[s] && v.nextSession == w.nextSession
  {
  }

  lemma VacatedOrphan(w: World, user: User, multi: bool, dies: bool, s: SessionRef)
    requires Inv(w) && s in w.sessions && !(dies && user in w.sessionMap && w.sessionMap[user] == s)
    ensures var v := Vacate(w, user, multi, dies);
            s in v.sessions && v.sessions[s] == w.sessions[s] && v.nextSession == w.nextSession
  {
    VacateKeeps(w, user, multi, dies);
    VacatedKeepsSession(w, Vacate(w, user, multi, dies), user, dies, s);
  }

  lemma GrantedOrphans(
      w: World, c: ConnectionRef, s: SessionRef, user: User, multi: bool, deleteExisting: bool, dies: bool)
    requires Inv(w) && c in w.connections && !w.connections[c].closed && (multi || !Blocked(w, user, deleteExisting))
    requires s in w.sessions && s < w.nextSession && w.sessions[s].connection == Some(c)
    requires !(dies && user in w.sessionMap && w.sessionMap[user] == s)
    ensures Orphaned(FinishLogon(w, c, Granted(user, multi), deleteExisting, dies), c, s)
  {
    FinishIs(w, c, user, multi, deleteExisting, dies);
    VacatedOrphan(w, user, multi, dies, s);
    BoundOrphans(Vacate(w, user, multi, dies), c, s, user);
  }

  lemma RefusedOrphans(
      w: World, c: ConnectionRef, s: SessionRef, verdict: Verdict, deleteExisting: bool, dies: bool)
    requires c in w.connections && !w.connections[c].closed && s in w.sessions && w.sessions[s].connection == Some(c)
    requires verdict.Denied? || (!verdict.multi && Blocked(w, verdict.user, deleteExisting))
    ensures Orphaned(FinishLogon(w, c, verdict, deleteExisting, dies), c, s)
  {
    assert FinishLogon(w, c, verdict, deleteExisting, dies) == SetSession(w, c, None);
  }

  lemma BoundPair(w: World, c: ConnectionRef, s: SessionRef)
    requires Pointers(w) && c in w.connections && w.connections[c].session == Some(s)
    ensures !w.connections[c].closed && s in w.sessions && s < w.nextSession && w.sessions[s].connection == Some(c)
  {
    assert ConnectionOk(w, c) && SessionOk(w, s);
  }

  /** A logon that ends on a connection with a session leaves that session pointing at a connection that left it. */
  lemma SecondLogonOrphans(
      w: World, c: ConnectionRef, s: SessionRef, verdict: Verdict, deleteExisting: bool, dies: bool)
    requires Inv(w) && c in w.connections && w.connections[c].session == Some(s)
    requires !(dies && TakesOwn(w, c, verdict, deleteExisting))
    ensures Orphaned(FinishLogon(w, c, verdict, deleteExisting, dies), c, s)
  {
    BoundPair(w, c, s);
    if verdict.Denied? || (!verdict.multi && Blocked(w, verdict.user, deleteExisting)) {
      RefusedOrphans(w, c, s, verdict, deleteExisting, dies);
    } else {
      GrantedOrphans(w, c, s, verdict.user, verdict.multi, deleteExisting, dies);
    }
  }

  /**
   * Ending a logon keeps the pointers right if and only if its connection has no session, or has the one that the
   * logon takes out of the map and that dies at once. Otherwise it does not matter whether the logon is granted.
   */
  lemma LogonCondition(w: World, l: LogonRef, verdict: Verdict, dies: bool)
    requires Inv(w) && Answerable(w, l)
    ensures var c := w.waiting[l].connection;
            Pointers(Answer(w, l, verdict, dies)) <==>
            w.connections[c].session.None? || (dies && TakesOwn(w, c, verdict, w.waiting[l].deleteExisting))
  {
    if Rebinds(w, Authenticated(l, verdict, dies)) {
      RebindingBreaks(w, Authenticated(l, verdict, dies));
    } else {
      AuthenticatedKeeps(w, l, verdict, dies);
    }
  }

  /** The step ends a logon on a connection that has, and keeps alive, a session already. */
  predicate Rebinds(w: World, step: Step) {
    && step.Authenticated? && Answerable(w, step.logon)
    && var logon := w.waiting[step.logon];
    && w.connections[logon.connection].session.Some?
    && !(step.dies && TakesOwn(w, logon.connection, step.verdict, logon.deleteExisting))
  }

  lemma RebindingBreaks(w: World, step: Step)
    requires Inv(w) && Rebinds(w, step)
    ensures !Pointers(Apply(w, step))
  {
    var c := w.waiting[step.logon].connection;
    var s := w.connections[c].session.value;
    TakenKeeps(w, step.logon);
    var taken := w.(waiting := w.waiting - {step.logon});
    SecondLogonOrphans(taken, c, s, step.verdict, w.waiting[step.logon].deleteExisting, step.dies);
    var v := Apply(w, step);
    assert v == Answer(w, step.logon, step.verdict, step.dies) && s in v.sessions && !SessionOk(v, s);
  }

  lemma DestroyConnectionKeeps(w: World, c: ConnectionRef)
    requires Inv(w)
    ensures Inv(Apply(w, DestroyConnection(c)))
  {
    var v := Apply(w, DestroyConnection(c));
    if v != w {
      assert ConnectionOk(w, c);
      forall d | d in v.connections ensures ConnectionOk(v, d) { assert ConnectionOk(w, d); }
      forall t | t in v.sessions ensures SessionOk(v, t) { assert SessionOk(w, t); }
      forall u | u in v.sessionMap ensures LogonOk(v, u) { assert LogonOk(w, u); }
    }
  }

  lemma StepKeeps(w: World, step: Step)
    requires Inv(w) && !Rebinds(w, step)
    ensures Inv(Apply(w, step))
  {
    match step {
      case Accept => AcceptKeeps(w);
      case AskSession(c, deleteExisting) => AskSessionKeeps(w, c, deleteExisting);
      case Authenticated(l, verdict, dies) => if Answerable(w, l) { AuthenticatedKeeps(w, l, verdict, dies); }
      case AskDelete(c) => if c in w.connections { UnbindKeeps(w, c); }
      case Close(c) => if c in w.connections && !w.connections[c].closed { CloseKeeps(w, c); }
      case CloseUser(user) => if user in w.sessionMap { DeleteKeeps(w, user); }
      case Push(s) => if s in w.sessions { assert SessionOk(w, s); }
      case Request(c) => if c in w.connections { assert ConnectionOk(w, c); }
      case DestroySession(s) =>
        if s in w.sessions && s !in w.sessionMap.Values { DestroySessionKeeps(w, s); }
      case DestroyConnection(c) => DestroyConnectionKeeps(w, c);
    }
  }

  /** No logon of the run ends on a connection that has, and keeps alive, a session. */
  predicate NeverRebinds(steps: seq<Step>) {
    forall i :: 0 <= i < |steps| ==> !Rebinds(Run(steps[..i]), steps[i])
  }

  lemma {:induction false} EveryRun(steps: seq<Step>)
    requires NeverRebinds(steps)
    ensures Inv(Run(steps))
  {
    if steps != [] {
      var before := steps[..|steps| - 1];
      forall i | 0 <= i < |before| ensures !Rebinds(Run(before[..i]), before[i]) { assert before[..i] == steps[..i]; }
      EveryRun(before);
      StepKeeps(Run(before), steps[|steps| - 1]);
    }
  }

  ghost predicate AlwaysInv(steps: seq<Step>) { forall i :: 0 <= i <= |steps| ==> Inv(Run(steps[..i])) }

  lemma PrefixNeverRebinds(steps: seq<Step>, n: nat)
    requires NeverRebinds(steps) && n <= |steps|
    ensures NeverRebinds(steps[..n])
  {
    forall j | 0 <= j < n ensures !Rebinds(Run(steps[..n][..j]), steps[..n][j]) {
      assert steps[..n][..j] == steps[..j];
    }
  }

  lemma RebindingShows(steps: seq<Step>, i: nat)
    requires i < |steps| && Rebinds(Run(steps[..i]), steps[i])
    ensures !AlwaysInv(steps)
  {
    assert steps[..i + 1] == steps[..i] + [steps[i]];
    RunSnoc(steps[..i], steps[i]);
    if Inv(Run(steps[..i])) {
      RebindingBreaks(Run(steps[..i]), steps[i]);
      assert !Inv(Run(steps[..i + 1]));
    }
  }

  /** The condition is exact: ownership holds all along a run if and only if no logon ends on a bound connection. */
  lemma OwnershipCondition(steps: seq<Step>)
    ensures AlwaysInv(steps) <==> NeverRebinds(steps)
  {
    if NeverRebinds(steps) {
      forall i | 0 <= i <= |steps| ensures Inv(Run(steps[..i])) {
        PrefixNeverRebinds(steps, i);
        EveryRun(steps[..i]);
      }
    } else {
      var i :| 0 <= i < |steps| && Rebinds(Run(steps[..i]), steps[i]);
      RebindingShows(steps, i);
    }
  }

  // ---------- what it means ----------

  /** Connection c serves the session the map holds for this user. */
  predicate Serves(w: World, c: ConnectionRef, user: User) {
    && c in w.connections && !w.connections[c].closed && c in w.listed
    && w.connections[c].session.Some?
    && user in w.sessionMap && w.connections[c].session.value == w.sessionMap[user]
  }

  /** No pointer dangles, pointers mirror each other, and every logon is served by an open connection. */
  lemma Ownership(steps: seq<Step>, c: ConnectionRef, s: SessionRef, user: User)
    requires NeverRebinds(steps)
    ensures var w := Run(steps);
            && !w.crashed
            && ((c in w.connections && w.connections[c].session == Some(s)) <==>
                (s in w.sessions && w.sessions[s].connection == Some(c)))
            && (user in w.sessionMap ==> exists d :: d in w.connections && Serves(w, d, user))
  {
    EveryRun(steps);
    var w := Run(steps);
    if c in w.connections { assert ConnectionOk(w, c); }
    if s in w.sessions { assert SessionOk(w, s); }
    if user in w.sessionMap {
      assert LogonOk(w, user) && SessionOk(w, w.sessionMap[user]);
      var d := w.sessions[w.sessionMap[user]].connection.value;
      assert ConnectionOk(w, d) && Serves(w, d, user);
    }
  }

  /** A logon is refused exactly when another open connection serves the account and must not be displaced. */
  lemma LogonRefused(steps: seq<Step>, l: LogonRef, user: User, multi: bool, dies: bool)
    requires NeverRebinds(steps) && l in Run(steps).waiting
    ensures var w := Run(steps);
            var v := Apply(w, Authenticated(l, Granted(user, multi), dies));
            v.openings == w.openings <==>
              !multi && !w.waiting[l].deleteExisting && exists d :: d in w.connections && Serves(w, d, user)
  {
    var w := Run(steps);
    EveryRun(steps);
    if user in w.sessionMap {
      Ownership(steps, w.waiting[l].connection, w.sessionMap[user], user);
      assert LogonOk(w, user);
    }
    TakenKeeps(w, l);
    LogonOpens(w.(waiting := w.waiting - {l}), w.waiting[l].connection, user, multi, w.waiting[l].deleteExisting, dies);
  }

  lemma LogonOpens(w: World, c: ConnectionRef, user: User, multi: bool, deleteExisting: bool, dies: bool)
    requires Inv(w) && c in w.connections
    ensures var v := FinishLogon(w, c, Granted(user, multi), deleteExisting, dies);
            && v.openings == (if !multi && user in w.sessionMap && !deleteExisting then w.openings
                              else w.openings + [w.nextSession])
            && (!multi ==> v.overwritten == w.overwritten)
  {
    assert user in w.sessionMap ==> LogonOk(w, user);
    if multi || !Blocked(w, user, deleteExisting) {
      FinishIs(w, c, user, multi, deleteExisting, dies);
      VacateKeeps(w, user, multi, dies);
      var w1 := Vacate(w, user, multi, dies);
      BoundIs(w1, c, user);
      ReleasedIs(w1, user);
      if !multi { DisplaceOverwritesNothing(w, user, dies); }
    }
  }

  lemma DisplaceOverwritesNothing(w: World, user: User, dies: bool)
    ensures Displace(w, user, dies).overwritten == w.overwritten
  {
  }

  /** Opened signals not yet matched by a closed one are the logons, plus what multi-session logons replaced. */
  lemma LogonConservation(steps: seq<Step>)
    requires NeverRebinds(steps)
    ensures var w := Run(steps);
            && |w.openings| - |w.closings| == |w.sessionMap| + w.overwritten
            && (forall i, j :: 0 <= i < j < |w.closings| ==> w.closings[i] != w.closings[j])
            && (forall i :: 0 <= i < |w.closings| ==> w.closings[i] in w.openings)
            && (forall user :: user in w.sessionMap ==> w.sessionMap[user] !in w.closings)
  {
    EveryRun(steps);
    var w := Run(steps);
    forall i | 0 <= i < |w.closings| ensures w.closings[i] in w.openings {
      assert w.openings[w.closings[i]] == w.closings[i];
    }
    forall user | user in w.sessionMap ensures w.sessionMap[user] !in w.closings { assert LogonOk(w, user); }
  }

  predicate SingleSession(step: Step) { step.Authenticated? && step.verdict.Granted? ==> !step.verdict.multi }

  /** With single-session accounts only, the signals count the logons exactly. */
  lemma {:induction false} SingleSessionConservation(steps: seq<Step>)
    requires NeverRebinds(steps) && forall i :: 0 <= i < |steps| ==> SingleSession(steps[i])
    ensures |Run(steps).openings| - |Run(steps).closings| == |Run(steps).sessionMap| && Run(steps).overwritten == 0
  {
    LogonConservation(steps);
    if steps != [] {
      var before := steps[..|steps| - 1];
      forall i | 0 <= i < |before| ensures !Rebinds(Run(before[..i]), before[i]) { assert before[..i] == steps[..i]; }
      SingleSessionConservation(before);
      EveryRun(before);
      SingleStepReplacesNothing(Run(before), steps[|steps| - 1]);
    }
  }

  lemma SingleStepReplacesNothing(w: World, step: Step)
    requires Inv(w) && SingleSession(step)
    ensures Apply(w, step).overwritten == w.overwritten
  {
    if step.Authenticated? && step.verdict.Granted? {
      var l, user := step.logon, step.verdict.user;
      if Answerable(w, l) {
        TakenKeeps(w, l);
        LogonOpens(w.(waiting := w.waiting - {l}), w.waiting[l].connection, user, false,
                   w.waiting[l].deleteExisting, step.dies);
      }
    }
  }

  predicate IsTeardown(step: Step, c: ConnectionRef) {
    step == AskDelete(c) || step == Close(c) || step == DestroyConnection(c)
  }

  /** A teardown of connection c removes at most the logon that c itself serves. */
  lemma LateDeleteKeepsNewerLogon(steps: seq<Step>, step: Step, c: ConnectionRef, user: User)
    requires NeverRebinds(steps)
    requires user in Run(steps).sessionMap && !Serves(Run(steps), c, user) && IsTeardown(step, c)
    ensures var v := Apply(Run(steps), step);
            user in v.sessionMap && v.sessionMap[user] == Run(steps).sessionMap[user]
  {
    EveryRun(steps);
    var w := Run(steps);
    assert LogonOk(w, user);
    if c in w.connections {
      assert ConnectionOk(w, c);
      TeardownKeepsOthers(w, c, user);
    }
  }

  lemma TeardownKeepsOthers(w: World, c: ConnectionRef, user: User)
    requires c in w.connections && user in w.sessionMap
    requires w.connections[c].session.Some? ==>
               w.connections[c].session.value in w.sessions && w.connections[c].session.value != w.sessionMap[user]
    ensures user in Unbind(w, c).sessionMap && Unbind(w, c).sessionMap[user] == w.sessionMap[user]
    ensures user in CloseConnection(w, c).sessionMap && CloseConnection(w, c).sessionMap[user] == w.sessionMap[user]
  {
    if w.connections[c].session.Some? {
      UnbindEffect(w, c, w.connections[c].session.value);
      CloseEffect(w, c, w.connections[c].session.value);
    }
  }

  /** What a teardown of connection c means for the logons: those it serves go, the others stay. */
  predicate LogonsAfter(w: World, v: World, c: ConnectionRef) {
    && v.sessionMap.Keys == (set user | user in w.sessionMap && !Serves(w, c, user))
    && (forall user :: user in v.sessionMap ==> v.sessionMap[user] == w.sessionMap[user])
  }

  lemma UnboundMeans(w: World, v: World, c: ConnectionRef, s: SessionRef)
    requires Inv(w) && c in w.connections && w.connections[c].session == Some(s) && s in w.sessions
    requires Unbound(w, v, c, s)
    ensures LogonsAfter(w, v, c)
  {
    assert ConnectionOk(w, c);
    forall user | user in w.sessionMap ensures user in v.sessionMap <==> !Serves(w, c, user) {
      assert LogonOk(w, user);
    }
  }

  /** Closing a connection, or a delete request on it, ends exactly the logon it serves. */
  lemma TeardownMeans(w: World, c: ConnectionRef)
    requires Inv(w) && c in w.connections
    ensures LogonsAfter(w, Unbind(w, c), c) && Unbind(w, c).connections[c].session.None?
    ensures LogonsAfter(w, CloseConnection(w, c), c) && CloseConnection(w, c).connections[c].session.None?
  {
    assert ConnectionOk(w, c);
    if w.connections[c].session.Some? {
      var s := w.connections[c].session.value;
      UnbindEffect(w, c, s);
      UnboundMeans(w, Unbind(w, c), c, s);
      CloseEffect(w, c, s);
      UnboundMeans(w, CloseConnection(w, c), c, s);
    }
  }

  lemma CloseMeans(w: World, c: ConnectionRef)
    requires Inv(w) && c in w.connections
    ensures var v := Apply(w, Close(c)); c in v.connections && v.connections[c].closed && LogonsAfter(w, v, c)
  {
    assert ConnectionOk(w, c);
    TeardownMeans(w, c);
    if !w.connections[c].closed && w.connections[c].session.Some? {
      CloseEffect(w, c, w.connections[c].session.value);
    }
  }

  lemma AskDeleteMeans(w: World, c: ConnectionRef)
    requires Inv(w) && c in w.connections
    ensures var v := Apply(w, AskDelete(c));
            c in v.connections && v.connections[c].session.None? && LogonsAfter(w, v, c)
  {
    TeardownMeans(w, c);
  }

  lemma FreshConnection(w: World)
    requires Inv(w)
    ensures w.nextConnection !in w.connections
  {
    assert forall c :: c in w.connections ==> ConnectionOk(w, c);
  }

  lemma FreshLogon(w: World)
    requires Inv(w)
    ensures w.nextLogon !in w.waiting
  {
  }

  /** A destroyed object leaves no pointer behind. */
  lemma DestroySessionMeans(w: World, s: SessionRef)
    requires Inv(w) && s in w.sessions && s !in w.sessionMap.Values
    ensures var v := Apply(w, DestroySession(s));
            v.sessionMap == w.sessionMap && s !in v.sessions
            && forall c :: c in v.connections ==> v.connections[c].session != Some(s)
  {
    assert SessionOk(w, s);
    forall c | c in w.connections && w.connections[c].session == Some(s) ensures w.sessions[s].connection == Some(c) {
      assert ConnectionOk(w, c);
    }
  }

  lemma DestroyIs(w: World, s: SessionRef)
    requires !w.crashed && s in w.sessions && s !in w.sessionMap.Values
    ensures Apply(w, DestroySession(s)) == SessionDestroyed(w, s)
  {
  }

  lemma DestroyConnectionMeans(w: World, c: ConnectionRef)
    requires Inv(w) && c in w.connections && w.connections[c].closed && c !in w.listed && !Awaited(w, c)
    ensures var v := Apply(w, DestroyConnection(c));
            v.sessionMap == w.sessionMap && c !in v.connections
            && forall s :: s in v.sessions ==> v.sessions[s].connection != Some(c)
  {
    assert ConnectionOk(w, c);
    forall s | s in w.sessions ensures w.sessions[s].connection != Some(c) { assert SessionOk(w, s); }
  }

  /** Authentication denies the logon, or another connection serves the account and must not be displaced. */
  predicate Refused(w: World, l: LogonRef, verdict: Verdict)
    requires l in w.waiting
  {
    verdict.Denied? || (!verdict.multi && Blocked(w, verdict.user, w.waiting[l].deleteExisting))
  }

  /** A logon that is not refused ends served by its connection or, if that has closed, not logged on at all. */
  lemma LogonMeans(w: World, l: LogonRef, user: User, multi: bool, dies: bool)
    requires Inv(w) && Answerable(w, l) && !Rebinds(w, Authenticated(l, Granted(user, multi), dies))
    requires !Refused(w, l, Granted(user, multi))
    ensures var v, c := Answer(w, l, Granted(user, multi), dies), w.waiting[l].connection;
            && v.openings == w.openings + [w.nextSession]
            && (w.connections[c].closed ==> user !in v.sessionMap)
            && (!w.connections[c].closed ==> Serves(v, c, user) && v.sessionMap[user] == w.nextSession)
  {
    var c := w.waiting[l].connection;
    var taken := w.(waiting := w.waiting - {l});
    TakenKeeps(w, l);
    assert ConnectionOk(w, c);
    FinishIs(taken, c, user, multi, w.waiting[l].deleteExisting, dies);
    VacateKeeps(taken, user, multi, dies);
    var w1 := Vacate(taken, user, multi, dies);
    if w.connections[c].closed { ReleasedIs(w1, user); } else { BoundIs(w1, c, user); }
  }

  /** A logon that is denied or refused leaves every logon and every signal as it was. */
  lemma RefusedMeans(w: World, l: LogonRef, verdict: Verdict, dies: bool)
    requires Answerable(w, l) && Refused(w, l, verdict)
    ensures var v := Answer(w, l, verdict, dies);
            v.sessionMap == w.sessionMap && v.openings == w.openings && v.closings == w.closings
  {
  }

  // ---------- a peer that asks once ----------

  /** Each connection of the run sends at most one CreateSession request, as `SessionProxy` does. */
  predicate AsksOnce(steps: seq<Step>) {
    forall i :: 0 <= i < |steps| ==> !AsksAgain(Run(steps[..i]), steps[i])
  }

  predicate AsksAgain(w: World, step: Step) {
    step.AskSession? && step.connection in w.connections && w.connections[step.connection].asked
  }

  /** A logon in flight is the only one of its connection, which has no session yet. */
  ghost predicate Once(w: World) {
    && (forall c :: c in w.connections && w.connections[c].session.Some? ==> w.connections[c].asked)
    && (forall l :: Answerable(w, l) ==>
          w.connections[w.waiting[l].connection].asked && w.connections[w.waiting[l].connection].session.None?)
    && (forall l, m :: l in w.waiting && m in w.waiting && l != m ==>
          w.waiting[l].connection != w.waiting[m].connection)
  }

  /** The connections that remain keep their history and get no session. */
  predicate NoNewSession(w: World, v: World) {
    && v.waiting == w.waiting
    && (forall c :: c in v.connections ==>
          && c in w.connections && v.connections[c].asked == w.connections[c].asked
          && (v.connections[c].session.Some? ==> w.connections[c].session.Some?))
  }

  lemma NoNewSessionKeepsOnce(w: World, v: World)
    requires Once(w) && NoNewSession(w, v)
    ensures Once(v)
  {
    forall l | Answerable(v, l)
      ensures v.connections[v.waiting[l].connection].asked && v.connections[v.waiting[l].connection].session.None?
    {
      assert Answerable(w, l);
    }
  }

  /** Only this connection can get a session. */
  predicate OnlyBinds(w: World, v: World, c: ConnectionRef) {
    && v.waiting == w.waiting && v.connections.Keys == w.connections.Keys
    && (forall d :: d in w.connections ==> v.connections[d].asked == w.connections[d].asked)
    && (forall d :: d in w.connections && d != c && v.connections[d].session.Some? ==> w.connections[d].session.Some?)
  }

  lemma SetSessionFrame(w: World, c: ConnectionRef, s: Option<SessionRef>)
    requires c in w.connections
    ensures OnlyBinds(w, SetSession(w, c, s), c)
  {
  }

  lemma CreateFrame(w: World, c: ConnectionRef, user: User)
    requires c in w.connections
    ensures OnlyBinds(w, Bound(w, c, user), c) && OnlyBinds(w, Released(w, user), c)
  {
    BoundIs(w, c, user);
    ReleasedIs(w, user);
  }

  lemma VacatedFrame(w: World, v: World, user: User, dies: bool, c: ConnectionRef)
    requires Vacated(w, v, user, dies)
    ensures OnlyBinds(w, v, c)
  {
  }

  lemma OnlyBindsTwice(w: World, u: World, v: World, c: ConnectionRef)
    requires OnlyBinds(w, u, c) && OnlyBinds(u, v, c)
    ensures OnlyBinds(w, v, c)
  {
  }

  lemma FinishLogonFrame(w: World, c: ConnectionRef, verdict: Verdict, deleteExisting: bool, dies: bool)
    requires Inv(w) && c in w.connections
    ensures OnlyBinds(w, FinishLogon(w, c, verdict, deleteExisting, dies), c)
  {
    if verdict.Granted? && (verdict.multi || !Blocked(w, verdict.user, deleteExisting)) {
      FinishIs(w, c, verdict.user, verdict.multi, deleteExisting, dies);
      VacateKeeps(w, verdict.user, verdict.multi, dies);
      var w1 := Vacate(w, verdict.user, verdict.multi, dies);
      VacatedFrame(w, w1, verdict.user, dies, c);
      CreateFrame(w1, c, verdict.user);
      OnlyBindsTwice(w, w1, FinishLogon(w, c, verdict, deleteExisting, dies), c);
    } else {
      SetSessionFrame(w, c, None);
    }
  }

  lemma AnswerKeepsOnce(w: World, l: LogonRef, verdict: Verdict, dies: bool)
    requires Inv(w) && Once(w) && Answerable(w, l)
    ensures Once(Answer(w, l, verdict, dies))
  {
    var c := w.waiting[l].connection;
    TakenKeeps(w, l);
    FinishLogonFrame(w.(waiting := w.waiting - {l}), c, verdict, w.waiting[l].deleteExisting, dies);
    var v := Answer(w, l, verdict, dies);
    forall m | Answerable(v, m)
      ensures v.connections[v.waiting[m].connection].asked && v.connections[v.waiting[m].connection].session.None?
    {
      assert Answerable(w, m) && m != l;
    }
  }

  lemma AcceptKeepsOnce(w: World)
    requires Inv(w) && Once(w)
    ensures Once(Apply(w, Accept))
  {
    var v := Apply(w, Accept);
    assert w.nextConnection !in w.connections by {
      assert forall c :: c in w.connections ==> ConnectionOk(w, c);
    }
    forall l | Answerable(v, l)
      ensures v.connections[v.waiting[l].connection].asked && v.connections[v.waiting[l].connection].session.None?
    {
      assert Answerable(w, l);
    }
  }

  lemma UnbindBindsNothing(w: World, c: ConnectionRef)
    requires c in w.connections
    ensures NoNewSession(w, Unbind(w, c)) && Unbind(w, c).connections.Keys == w.connections.Keys
  {
    var s := w.connections[c].session;
    if s.Some? {
      var v := SetConnection(SetSession(w, c, None), s.value, None);
      assert Unbind(w, c).connections == v.connections == w.connections[c := w.connections[c].(session := None)];
    }
  }

  lemma CloseBindsNothing(w: World, c: ConnectionRef)
    requires c in w.connections
    ensures NoNewSession(w, CloseConnection(w, c))
  {
    var w1 := w.(connections := w.connections[c := w.connections[c].(closed := true)]);
    UnbindBindsNothing(w1, c);
  }

  lemma DestroySessionBindsNothing(w: World, s: SessionRef)
    ensures NoNewSession(w, Apply(w, DestroySession(s)))
  {
  }

  lemma DestroyConnectionBindsNothing(w: World, c: ConnectionRef)
    ensures NoNewSession(w, Apply(w, DestroyConnection(c)))
  {
  }

  lemma SendBindsNothing(w: World, step: Step)
    requires step.CloseUser? || step.Push? || step.Request?
    ensures NoNewSession(w, Apply(w, step))
  {
  }

  lemma StepKeepsOnce(w: World, step: Step)
    requires Inv(w) && Once(w) && !AsksAgain(w, step)
    ensures !Rebinds(w, step) && Once(Apply(w, step))
  {
    match step {
      case Accept => AcceptKeepsOnce(w);
      case AskSession(c, deleteExisting) => AskKeepsOnce(w, c, deleteExisting);
      case Authenticated(l, verdict, dies) => if Answerable(w, l) { AnswerKeepsOnce(w, l, verdict, dies); }
      case AskDelete(c) =>
        if c in w.connections {
          UnbindBindsNothing(w, c);
          NoNewSessionKeepsOnce(w, Unbind(w, c));
        }
      case Close(c) =>
        if c in w.connections && !w.connections[c].closed {
          CloseBindsNothing(w, c);
          NoNewSessionKeepsOnce(w, CloseConnection(w, c));
        }
      case DestroySession(s) =>
        DestroySessionBindsNothing(w, s);
        NoNewSessionKeepsOnce(w, Apply(w, step));
      case DestroyConnection(c) =>
        DestroyConnectionBindsNothing(w, c);
        NoNewSessionKeepsOnce(w, Apply(w, step));
      case _ =>
        SendBindsNothing(w, step);
        NoNewSessionKeepsOnce(w, Apply(w, step));
    }
  }

  lemma AskKeepsOnce(w: World, c: ConnectionRef, deleteExisting: bool)
    requires Inv(w) && Once(w) && !AsksAgain(w, AskSession(c, deleteExisting))
    ensures Once(Apply(w, AskSession(c, deleteExisting)))
  {
    var v := Apply(w, AskSession(c, deleteExisting));
    if v != w {
      assert w.nextLogon !in w.waiting;
      forall l | l in w.waiting ensures w.waiting[l].connection != c { assert Answerable(w, l); }
      forall l | Answerable(v, l)
        ensures v.connections[v.waiting[l].connection].asked && v.connections[v.waiting[l].connection].session.None?
      {
        if l != w.nextLogon { assert Answerable(w, l); }
      }
    }
  }

  lemma {:induction false} OnceAlong(steps: seq<Step>)
    requires AsksOnce(steps)
    ensures Inv(Run(steps)) && Once(Run(steps))
  {
    if steps != [] {
      var before := steps[..|steps| - 1];
      forall i | 0 <= i < |before| ensures !AsksAgain(Run(before[..i]), before[i]) { assert before[..i] == steps[..i]; }
      OnceAlong(before);
      StepKeepsOnce(Run(before), steps[|steps| - 1]);
      StepKeeps(Run(before), steps[|steps| - 1]);
    }
  }

  /** One CreateSession per connection is enough for everything proved above. */
  lemma OneLogonEach(steps: seq<Step>)
    requires AsksOnce(steps)
    ensures NeverRebinds(steps)
  {
    forall i | 0 <= i < |steps| ensures !Rebinds(Run(steps[..i]), steps[i]) {
      var before := steps[..i];
      forall j | 0 <= j < |before| ensures !AsksAgain(Run(before[..j]), before[j]) { assert before[..j] == steps[..j]; }
      OnceAlong(before);
      StepKeepsOnce(Run(before), steps[i]);
    }
  }

  // ---------- a run that shows the condition is needed ----------

  const LOGGED_ON := [Accept, AskSession(0, false), Authenticated(0, Granted(1, true), false)]
  const TWICE := LOGGED_ON + [AskSession(0, false), Authenticated(1, Granted(2, true), false)]
  const GONE := TWICE + [Close(0), DestroyConnection(0)]

  lemma Asked()
    ensures Run([Accept, AskSession(0, false)]) == START.(
              connections := map[0 := Connection(None, false, true)], listed := [0], nextConnection := 1,
              waiting := map[0 := Logon(0, false)], nextLogon := 1)
  {
    assert [] + [Accept] == [Accept] && [Accept] + [AskSession(0, false)] == [Accept, AskSession(0, false)];
    RunSnoc([], Accept);
    RunSnoc([Accept], AskSession(0, false));
    assert Run([Accept]) == START.(connections := map[0 := Connection(None, false, false)], listed := [0],
                                   nextConnection := 1);
  }

  lemma OneAccount()
    ensures Run(LOGGED_ON) == START.(
              sessionMap := map[1 := 0], sessions := map[0 := Session(1, Some(0))],
              connections := map[0 := Connection(Some(0), false, true)], listed := [0],
              nextSession := 1, nextConnection := 1, nextLogon := 1, openings := [0])
  {
    var b := [Accept, AskSession(0, false)];
    assert b + [Authenticated(0, Granted(1, true), false)] == LOGGED_ON;
    Asked();
    RunSnoc(b, Authenticated(0, Granted(1, true), false));
    assert Run(b).waiting - {0} == map[];
    BoundIs(Run(b).(waiting := map[]), 0, 1);
  }

  /** The second logon takes the connection away from the first session, which still points to it. */
  lemma TwoAccounts()
    ensures var w := Run(TWICE);
            && !w.crashed && w.sessionMap == map[1 := 0, 2 := 1]
            && w.sessions == map[0 := Session(1, Some(0)), 1 := Session(2, Some(0))]
            && w.connections == map[0 := Connection(Some(1), false, true)] && w.listed == [0] && w.waiting == map[]
  {
    var a := LOGGED_ON + [AskSession(0, false)];
    assert a + [Authenticated(1, Granted(2, true), false)] == TWICE;
    OneAccount();
    RunSnoc(LOGGED_ON, AskSession(0, false));
    RunSnoc(a, Authenticated(1, Granted(2, true), false));
    var w := Run(a);
    assert w == Run(LOGGED_ON).(waiting := map[1 := Logon(0, false)], nextLogon := 2);
    BoundIs(w.(waiting := map[]), 0, 2);
    assert w.waiting - {1} == map[];
  }

  lemma ClosedAndDestroyed(w: World)
    requires !w.crashed && w.connections == map[0 := Connection(Some(1), false, true)] && w.listed == [0]
    requires w.sessions == map[0 := Session(1, Some(0)), 1 := Session(2, Some(0))] && w.waiting == map[]
    ensures var v := Apply(Apply(w, Close(0)), DestroyConnection(0));
            !v.crashed && 0 in v.sessions && v.sessions[0].connection == Some(0) && 0 !in v.connections
  {
    CloseEffect(w, 0, 1);
    assert Without([0], 0) == [];
  }

  lemma ConnectionIsGone()
    ensures var w := Run(GONE);
            !w.crashed && 0 in w.sessions && w.sessions[0].connection == Some(0) && 0 !in w.connections
  {
    var a := TWICE + [Close(0)];
    assert a + [DestroyConnection(0)] == GONE;
    TwoAccounts();
    RunSnoc(TWICE, Close(0));
    RunSnoc(a, DestroyConnection(0));
    ClosedAndDestroyed(Run(TWICE));
  }

  /** Two accounts on one connection: once it is gone, a message of the first follows a dangling pointer. */
  lemma SecondLogonCrashes()
    ensures Run(GONE + [Push(0)]).crashed && !NeverRebinds(GONE + [Push(0)])
  {
    ConnectionIsGone();
    RunSnoc(GONE, Push(0));
    if NeverRebinds(GONE + [Push(0)]) { EveryRun(GONE + [Push(0)]); }
  }
}
