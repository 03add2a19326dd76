/**
 Server session ownership in the form of its source: the handlers of `RemoteSessionManager`,
 `ServerConnection` and `SessionStub` update their fields one after the other. Every handler that an
 event reaches is a step of `Sessions`, keeps its invariant, and says what it means for the logons.
 */
module SessionServer {
  import opened Collections
  import opened Sessions

  class Server {
    var crashed: bool

    // RemoteSessionManager
    var sessionMap: map<User, SessionRef>
    var listed: seq<ConnectionRef>
    var openings: seq<SessionRef>
    var closings: seq<SessionRef>
    ghost var overwritten: nat

    // The SessionStub and ServerConnection objects that are alive, and the logons being authenticated.
    var sessions: map<SessionRef, Session>
    var connections: map<ConnectionRef, Connection>
    var waiting: map<LogonRef, Logon>
    var nextSession: SessionRef
    var nextConnection: ConnectionRef
    var nextLogon: LogonRef

    ghost function View(): World
      reads this
    {
      World(crashed, sessionMap, sessions, connections, listed, waiting, nextSession, nextConnection,
            nextLogon, openings, closings, overwritten)
    }

    /** Between two handlers: no pointer dangles, and every logon is served by an open connection. */
    ghost predicate Valid()
      reads this
    {
      Inv(View())
    }

    constructor ()
      ensures Valid() && View() == START
    {
      crashed, sessionMap, listed, openings, closings := false, map[], [], [], [];
      sessions, connections, waiting, nextSession, nextConnection := map[], map[], map[], 0, 0;
      overwritten, nextLogon := 0, 0;
    }

    // ---------- SessionStub ----------

    method SetConnection(s: SessionRef, c: Option<ConnectionRef>)
      modifies this`sessions, this`crashed
      ensures View() == Sessions.SetConnection(old(View()), s, c)
    {
      if s !in sessions { crashed := true; return; }
      sessions := sessions[s := sessions[s].(connection := c)];
    }

    /** A message through the session's connection, if it has one. */
    method Send(s: SessionRef)
      modifies this`crashed
      ensures View() == SendThrough(old(View()), s)
    {
      if s !in sessions { crashed := true; return; }
      if sessions[s].connection.Some? && sessions[s].connection.value !in connections { crashed := true; }
    }

    // ---------- RemoteSessionManager ----------

    method DeleteSession(s: SessionRef)
      modifies this`sessionMap, this`closings, this`crashed
      ensures View() == Sessions.DeleteSession(old(View()), s)
    {
      if s !in sessions { crashed := true; return; }
      var user := sessions[s].user;
      if user !in sessionMap || sessionMap[user] != s { return; }
      sessionMap := sessionMap - {user};
      closings := closings + [s];
    }

    /** Whether a logon may go on; it displaces the session it finds unless that one blocks it. */
    method CheckExistingSession(user: User, deleteExisting: bool, dies: bool) returns (ok: bool)
      modifies this`sessionMap, this`closings, this`crashed, this`sessions, this`connections
      ensures ok == !Blocked(old(View()), user, deleteExisting)
      ensures View() == if ok then Displace(old(View()), user, dies) else old(View())
    {
      if user !in sessionMap { return true; }
      var s := sessionMap[user];
      var attached := s in sessions && sessions[s].connection.Some?;
      if attached && !deleteExisting { return false; }
      Send(s);
      DeleteSession(s);
      if dies && s in sessions { RemoveSession(s); }
      return true;
    }

    /** The entry of an earlier session, if there is one, is replaced, and that session may die with it. */
    method ReplaceEntry(user: User, dies: bool)
      modifies this`sessionMap, this`overwritten, this`crashed, this`sessions, this`connections
      ensures View() == Replace(old(View()), user, dies)
    {
      if user in sessionMap {
        var s := sessionMap[user];
        sessionMap := sessionMap - {user};
        overwritten := overwritten + 1;
        if dies && s in sessions { RemoveSession(s); }
      }
    }

    method CreateNewSession(user: User, dies: bool) returns (s: SessionRef)
      modifies this
      ensures View() == Sessions.CreateNewSession(old(View()), user, dies) && s == old(nextSession)
    {
      ReplaceEntry(user, dies);
      s := nextSession;
      nextSession := nextSession + 1;
      sessions := sessions[s := Session(user, None)];
      sessionMap := sessionMap[user := s];
      openings := openings + [s];
    }

    /** `std::erase_if` on the list of connections. */
    method OnConnectionClosed(c: ConnectionRef)
      modifies this`listed
      ensures listed == Without(old(listed), c)
    {
      var kept: seq<ConnectionRef> := [];
      var i := 0;
      while i < |listed|
        invariant 0 <= i <= |listed| && listed == old(listed)
        invariant kept + Without(listed[i..], c) == Without(listed, c)
      {
        WithoutFrom(listed, i, c, kept);
        if listed[i] != c { kept := kept + [listed[i]]; }
        i := i + 1;
      }
      assert listed[|listed|..] == [] && kept + [] == kept;
      listed := kept;
    }

    // ---------- ServerConnection ----------

    /** Both pointers are dropped before the manager is told. */
    method ReleaseSession(c: ConnectionRef)
      requires c in connections
      modifies this`connections, this`sessions, this`sessionMap, this`closings, this`crashed
      ensures View() == Unbind(old(View()), c)
    {
      if connections[c].session.Some? {
        var s := connections[c].session.value;
        connections := connections[c := connections[c].(session := None)];
        SetConnection(s, None);
        DeleteSession(s);
      }
    }

    method BindSession(c: ConnectionRef, session: Option<SessionRef>)
      requires c in connections
      modifies this
      ensures var w := old(View());
              View() == if w.connections[c].closed
                        then (if session.Some? then Sessions.DeleteSession(w, session.value) else w)
                        else (var w1 := SetSession(w, c, session);
                              if session.Some? then Sessions.SetConnection(w1, session.value, Some(c)) else w1)
    {
      if connections[c].closed {
        if session.Some? { DeleteSession(session.value); }
        return;
      }
      connections := connections[c := connections[c].(session := session)];
      if session.Some? { SetConnection(session.value, Some(c)); }
    }

    method FinishLogon(c: ConnectionRef, verdict: Verdict, deleteExisting: bool, dies: bool)
      requires c in connections
      modifies this
      ensures View() == Sessions.FinishLogon(old(View()), c, verdict, deleteExisting, dies)
    {
      var session: Option<SessionRef> := None;
      if verdict.Granted? {
        var ok := true;
        if !verdict.multi { ok := CheckExistingSession(verdict.user, deleteExisting, dies); }
        if ok {
          var s := CreateNewSession(verdict.user, dies);
          session := Some(s);
        }
      }
      BindSession(c, session);
    }

    method CloseConnection(c: ConnectionRef)
      requires c in connections && !connections[c].closed
      modifies this
      ensures View() == Sessions.CloseConnection(old(View()), c)
    {
      connections := connections[c := connections[c].(closed := true)];
      ReleaseSession(c);
      OnConnectionClosed(c);
    }

    // ---------- the objects themselves ----------

    method AddConnection() returns (c: ConnectionRef)
      requires !crashed
      modifies this
      ensures View() == Apply(old(View()), Accept) && c == old(nextConnection)
    {
      c := nextConnection;
      connections := connections[c := Connection(None, false, false)];
      listed := listed + [c];
      nextConnection := nextConnection + 1;
    }

    method AddLogon(c: ConnectionRef, deleteExisting: bool) returns (l: LogonRef)
      requires !crashed && c in connections && !connections[c].closed
      modifies this
      ensures View() == Apply(old(View()), AskSession(c, deleteExisting)) && l == old(nextLogon)
    {
      l := nextLogon;
      connections := connections[c := connections[c].(asked := true)];
      waiting := waiting[l := Logon(c, deleteExisting)];
      nextLogon := nextLogon + 1;
    }

    method AnswerLogon(l: LogonRef, verdict: Verdict, dies: bool)
      requires Answerable(View(), l)
      modifies this
      ensures View() == Answer(old(View()), l, verdict, dies)
    {
      var logon := waiting[l];
      waiting := waiting - {l};
      FinishLogon(logon.connection, verdict, logon.deleteExisting, dies);
    }

    method RemoveSession(s: SessionRef)
      requires s in sessions
      modifies this`sessions, this`connections, this`crashed
      ensures View() == SessionDestroyed(old(View()), s)
    {
      var connection := sessions[s].connection;
      sessions := sessions - {s};
      if connection.Some? {
        var c := connection.value;
        if c !in connections { crashed := true; return; }
        connections := connections[c := connections[c].(session := None)];
      }
    }

    method RemoveConnection(c: ConnectionRef)
      requires !crashed && c in connections && connections[c].closed && c !in listed && !Awaited(View(), c)
      modifies this
      ensures View() == Apply(old(View()), Step.DestroyConnection(c))
    {
      if connections[c].session.Some? { SetConnection(connections[c].session.value, None); }
      connections := connections - {c};
    }

    // ---------- the handlers that events reach ----------

    method OnAccepted() returns (c: ConnectionRef)
      requires Valid()
      modifies this
      ensures Valid() && View() == Apply(old(View()), Accept)
      ensures c !in old(connections) && c in connections && !connections[c].closed && connections[c].session.None?
    {
      StepKeeps(View(), Accept);
      FreshConnection(View());
      c := AddConnection();
    }

    /** The request starts authentication; nothing else happens until that answers. */
    method OnCreateSession(c: ConnectionRef, deleteExisting: bool) returns (l: LogonRef)
      requires Valid() && c in connections && !connections[c].closed
      modifies this
      ensures Valid() && View() == Apply(old(View()), AskSession(c, deleteExisting))
      ensures l !in old(waiting) && waiting == old(waiting)[l := Logon(c, deleteExisting)]
    {
      StepKeeps(View(), AskSession(c, deleteExisting));
      FreshLogon(View());
      l := AddLogon(c, deleteExisting);
    }

    /**
     * Authentication has answered. A logon is refused exactly when it may not displace a served one; otherwise
     * the account is served by this connection or, if the peer is gone by now, not locked by anything.
     */
    method OnAuthenticated(l: LogonRef, verdict: Verdict, dies: bool)
      requires Valid() && l in waiting && !Rebinds(View(), Authenticated(l, verdict, dies))
      modifies this
      ensures Valid() && View() == Apply(old(View()), Authenticated(l, verdict, dies))
      ensures !Refused(old(View()), l, verdict) ==>
                var c := old(waiting)[l].connection;
                if old(connections)[c].closed then verdict.user !in sessionMap else Serves(View(), c, verdict.user)
      ensures Refused(old(View()), l, verdict) ==>
                sessionMap == old(sessionMap) && openings == old(openings) && closings == old(closings)
    {
      ghost var w := View();
      StepKeeps(w, Authenticated(l, verdict, dies));
      if !Refused(w, l, verdict) {
        LogonMeans(w, l, verdict.user, verdict.multi, dies);
      } else {
        RefusedMeans(w, l, verdict, dies);
      }
      AnswerLogon(l, verdict, dies);
    }

    /** The connection goes with exactly the logon it serves; closing it again changes nothing. */
    method Close(c: ConnectionRef)
      requires Valid() && c in connections
      modifies this
      ensures Valid() && View() == Apply(old(View()), Step.Close(c))
      ensures c in connections && connections[c].closed && LogonsAfter(old(View()), View(), c)
    {
      StepKeeps(View(), Step.Close(c));
      CloseMeans(View(), c);
      if !connections[c].closed { CloseConnection(c); }
    }

    /** The delete request ends exactly the logon this connection serves, and says whether it had a session. */
    method OnDeleteSession(c: ConnectionRef) returns (ok: bool)
      requires Valid() && c in connections
      modifies this
      ensures Valid() && View() == Apply(old(View()), AskDelete(c))
      ensures ok == old(connections)[c].session.Some?
      ensures c in connections && connections[c].session.None? && LogonsAfter(old(View()), View(), c)
    {
      StepKeeps(View(), AskDelete(c));
      AskDeleteMeans(View(), c);
      ok := connections[c].session.Some?;
      ReleaseSession(c);
    }

    /** The forced logoff of one user leaves every other logon alone. */
    method CloseUserSessions(user: User)
      requires Valid()
      modifies this
      ensures Valid() && View() == Apply(old(View()), CloseUser(user)) && sessionMap == old(sessionMap) - {user}
    {
      StepKeeps(View(), CloseUser(user));
      if user in sessionMap {
        DeleteKeeps(View(), user);
        var s := sessionMap[user];
        Send(s);
        DeleteSession(s);
      }
    }

    /** Any message of a live session finds its connection alive. */
    method OnPush(s: SessionRef)
      requires Valid() && s in sessions
      modifies this`crashed
      ensures Valid() && View() == old(View())
    {
      assert SessionOk(View(), s);
      Send(s);
    }

    /** The destructor of a session that is not logged on; no connection points to it afterwards. */
    method DestroySession(s: SessionRef)
      requires Valid() && s in sessions && s !in sessionMap.Values
      modifies this
      ensures Valid() && View() == Apply(old(View()), Step.DestroySession(s)) && sessionMap == old(sessionMap)
      ensures s !in sessions && forall c :: c in connections ==> connections[c].session != Some(s)
    {
      StepKeeps(View(), Step.DestroySession(s));
      DestroySessionMeans(View(), s);
      DestroyIs(View(), s);
      RemoveSession(s);
    }

    /** The destructor of a connection nothing refers to any more; no session points to it afterwards. */
    method DestroyConnection(c: ConnectionRef)
      requires Valid() && c in connections && connections[c].closed && c !in listed && !Awaited(View(), c)
      modifies this
      ensures Valid() && View() == Apply(old(View()), Step.DestroyConnection(c)) && sessionMap == old(sessionMap)
      ensures c !in connections && forall s :: s in sessions ==> sessions[s].connection != Some(c)
    {
      StepKeeps(View(), Step.DestroyConnection(c));
      DestroyConnectionMeans(View(), c);
      RemoveConnection(c);
    }
  }
}
