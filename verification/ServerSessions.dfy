/**
 Sessions and active lists in step: when every connection speaks for one user of its own, the
 sockets registered for a board, under any spelling of its id, are one to one the users of its
 active list, and the board goes with the last of them. Exactly two kinds of request break this: an
 owner who opens a session that others are in, and a quit under one spelling by a socket that is
 registered under another.
 */
module ServerSessions {
  import opened Server
  import opened ServerStores
  import opened Wrappers

  /** The user each connection speaks for. */
  type Names = map<Socket, uint32>

  /** Nobody is anonymous, and no two connections speak for the same user. */
  predicate GoodNames(who: Names) {
    && (forall t :: t in who ==> who[t] != 0)
    && (forall t, u :: t in who && u in who && who[t] == who[u] ==> t == u)
  }

  function Active(b: Board): set<int> {
    if b.active.Some? then set u | u in b.active.value else {}
  }

  function Users(ts: set<Socket>, who: Names): set<int> {
    set t | t in ts && t in who :: ToInt32(who[t])
  }

  predicate Spells(key: string, o: string) {
    ParseOid(key) == Some(o)
  }

  type Sessions = map<string, set<Socket>>

  /** The sockets registered for a board under any spelling of its id. */
  function BoardSockets(sessions: Sessions, o: string): set<Socket> {
    set k, t | k in sessions && Spells(k, o) && t in sessions[k] :: t
  }

  /** Every session is of a stored board with an active list, and has members. */
  predicate KeyOk(boards: map<string, Board>, sessions: Sessions, who: Names, k: string)
    requires k in sessions
  {
    && sessions[k] != {} && sessions[k] <= who.Keys
    && ParseOid(k).Some? && ParseOid(k).value in boards && boards[ParseOid(k).value].active.Some?
  }

  /** The session map and the documents tell the same story. */
  predicate InStep(boards: map<string, Board>, sessions: Sessions, who: Names) {
    && (forall k :: k in sessions ==> KeyOk(boards, sessions, who, k))
    && (forall o :: o in boards ==> Active(boards[o]) == Users(BoardSockets(sessions, o), who))
  }

  predicate Synced(s: State, who: Names) {
    InStep(s.boards, s.sessions, who)
  }

  /** A client that speaks for its own user. */
  predicate Disciplined(e: Event, who: Names) {
    && e.socket in who
    && match e.packet.request
       case CreateBoard(u) => u == who[e.socket]
       case OpenSession(u, _) => u == who[e.socket]
       case JoinSession(u, _) => u == who[e.socket]
       case QuitSession(u, _) => u == who[e.socket]
       case AddElement(u, _, _) => u == who[e.socket]
       case ModifyElement(u, _, _, _) => u == who[e.socket]
       case _ => true
  }

  /** The socket is registered for the board under another key than this one. */
  predicate ElsewhereToo(sessions: Sessions, o: string, key: string, t: Socket) {
    exists k :: k in sessions && k != key && Spells(k, o) && t in sessions[k]
  }

  /**
   An owner who opens a session finds nobody else in the board's sessions, and who quits a board
   under one key is not registered for it under another.
   */
  predicate Tidy(s: State, e: Event) {
    match e.packet.request
    case OpenSession(u, b) =>
      var o := ParseOid(b);
      o.Some? && o.value in s.boards && s.boards[o.value].owner == ToInt32(u)
      ==> BoardSockets(s.sessions, o.value) <= {e.socket}
    case QuitSession(_, b) =>
      var o := ParseOid(b);
      o.Some? && o.value in s.boards ==> !ElsewhereToo(s.sessions, o.value, b, e.socket)
    case _ => true
  }

  // ---------------------------------------------------------------- sets of users and sockets

  lemma SignedIsInjective(x: uint32, y: uint32)
    ensures ToInt32(x) == ToInt32(y) ==> x == y
    ensures ToInt32(x) == 0 <==> x == 0
  {
  }

  lemma SameUser(who: Names, t: Socket, u: Socket)
    requires GoodNames(who) && t in who && u in who
    ensures ToInt32(who[t]) == ToInt32(who[u]) <==> t == u
  {
    SignedIsInjective(who[t], who[u]);
  }

  lemma UserOf(ts: set<Socket>, who: Names, t: Socket)
    requires GoodNames(who) && t in who
    ensures ToInt32(who[t]) in Users(ts, who) <==> t in ts
  {
    hide GoodNames;
    forall u | u in ts && u in who
      ensures ToInt32(who[u]) == ToInt32(who[t]) <==> u == t
    {
      SameUser(who, t, u);
    }
  }

  lemma UsersAdd(ts: set<Socket>, who: Names, t: Socket)
    requires t in who
    ensures Users(ts + {t}, who) == Users(ts, who) + {ToInt32(who[t])}
  {
    hide ToInt32;
  }

  lemma UsersRemove(ts: set<Socket>, who: Names, t: Socket)
    requires t in who && GoodNames(who)
    ensures Users(ts - {t}, who) == Users(ts, who) - {ToInt32(who[t])}
  {
    hide GoodNames, ToInt32;
    UserOf(ts - {t}, who, t);
    forall x | x in Users(ts, who) && x != ToInt32(who[t])
      ensures x in Users(ts - {t}, who)
    {
      var u :| u in ts && u in who && ToInt32(who[u]) == x;
      assert u in ts - {t};
    }
  }

  lemma UsersEmpty(ts: set<Socket>, who: Names)
    requires ts <= who.Keys
    ensures Users(ts, who) == {} <==> ts == {}
  {
    if t :| t in ts {
      assert ToInt32(who[t]) in Users(ts, who);
    }
  }

  lemma OnlyMember(ts: set<Socket>, who: Names, t: Socket)
    requires t in who && GoodNames(who) && ts <= who.Keys
    ensures Users(ts, who) <= {ToInt32(who[t])} <==> ts <= {t}
  {
    hide GoodNames, ToInt32;
    forall u | u in ts
      ensures ToInt32(who[u]) in Users(ts, who) && (ToInt32(who[u]) == ToInt32(who[t]) <==> u == t)
    {
      SameUser(who, u, t);
    }
  }

  lemma SocketsAreNamed(boards: map<string, Board>, sessions: Sessions, who: Names, o: string)
    requires InStep(boards, sessions, who)
    ensures BoardSockets(sessions, o) <= who.Keys
  {
    hide ParseOid;
  }

  /** Sockets under one key more. */
  lemma SocketsEnter(sessions: Sessions, key: string, o: string, t: Socket)
    requires Spells(key, o)
    ensures var after := sessions[key := Members(sessions, key) + {t}];
            && BoardSockets(after, o) == BoardSockets(sessions, o) + {t}
            && forall p :: p != o ==> BoardSockets(after, p) == BoardSockets(sessions, p)
  {
    hide ParseOid;
    var after := sessions[key := Members(sessions, key) + {t}];
    forall u
      ensures u in BoardSockets(after, o) <==> u in BoardSockets(sessions, o) || u == t
    {
      if u in BoardSockets(after, o) && u != t {
        var k :| k in after && Spells(k, o) && u in after[k];
        assert k in sessions && u in sessions[k];
      }
      if u == t {
        assert t in after[key];
      }
      if u in BoardSockets(sessions, o) {
        var k :| k in sessions && Spells(k, o) && u in sessions[k];
        assert u in after[k];
      }
    }
    forall p | p != o
      ensures BoardSockets(after, p) == BoardSockets(sessions, p)
    {
      SameKeysOf(sessions, after, p);
    }
  }

  lemma SameKeysOf(sessions: Sessions, after: Sessions, p: string)
    requires forall k :: Spells(k, p) ==> (k in sessions <==> k in after)
    requires forall k :: Spells(k, p) && k in sessions ==> sessions[k] == after[k]
    ensures BoardSockets(after, p) == BoardSockets(sessions, p)
  {
    hide Spells;
  }

  /** Sockets under one key less: the sender is gone from the board unless it is elsewhere too. */
  lemma SocketsLeave(sessions: Sessions, key: string, o: string, t: Socket)
    requires Spells(key, o)
    ensures var after := ChangeSessions(sessions, Leave(key), t);
            && BoardSockets(after, o)
               == (if ElsewhereToo(sessions, o, key, t) then BoardSockets(sessions, o)
                   else BoardSockets(sessions, o) - {t})
            && forall p :: p != o ==> BoardSockets(after, p) == BoardSockets(sessions, p)
  {
    hide ParseOid;
    var after := ChangeSessions(sessions, Leave(key), t);
    forall u
      ensures u in BoardSockets(after, o) <==>
                u in BoardSockets(sessions, o) && (u == t ==> ElsewhereToo(sessions, o, key, t))
    {
      LeftAt(sessions, key, o, t, u);
    }
    forall p | p != o
      ensures BoardSockets(after, p) == BoardSockets(sessions, p)
    {
      SameKeysOf(sessions, after, p);
    }
    if ElsewhereToo(sessions, o, key, t) {
      assert BoardSockets(after, o) == BoardSockets(sessions, o);
    } else {
      assert BoardSockets(after, o) == BoardSockets(sessions, o) - {t};
    }
  }

  lemma LeftAt(sessions: Sessions, key: string, o: string, t: Socket, u: Socket)
    requires Spells(key, o)
    ensures var after := ChangeSessions(sessions, Leave(key), t);
            u in BoardSockets(after, o) <==>
              u in BoardSockets(sessions, o) && (u == t ==> ElsewhereToo(sessions, o, key, t))
  {
    hide Spells;
    var after := ChangeSessions(sessions, Leave(key), t);
    assert forall k :: k in after ==>
      k in sessions && after[k] == (if k == key then sessions[k] - {t} else sessions[k]);
    assert forall k :: k in sessions && k != key ==> k in after;
    if u in BoardSockets(after, o) {
      var k :| k in after && Spells(k, o) && u in after[k];
      assert u in sessions[k];
    }
    if u in BoardSockets(sessions, o) && (u == t ==> ElsewhereToo(sessions, o, key, t)) {
      if u == t {
        var k :| k in sessions && k != key && Spells(k, o) && t in sessions[k];
        assert u in after[k];
      } else {
        var k :| k in sessions && Spells(k, o) && u in sessions[k];
        assert k == key ==> u in sessions[key] - {t};
        assert k in after && u in after[k];
      }
    }
  }

  // ---------------------------------------------------------------- active lists

  lemma ActiveAdd(b: Board, x: int)
    requires b.active.Some?
    ensures Active(b.(active := Some(AddToSet(b.active.value, x)))) == Active(b) + {x}
  {
    var l := AddToSet(b.active.value, x);
    assert forall y :: y in l <==> y in b.active.value || y == x;
  }

  lemma ActiveOnly(b: Board, x: int)
    ensures Active(b.(active := Some([x]))) == {x}
  {
  }

  lemma PullMembers(b: Board, x: int)
    ensures Active(PullActive(b, x)) == Active(b) - {x}
    ensures PullActive(b, x).active == Some([]) <==> b.active.Some? && Active(b) - {x} == {}
    ensures PullActive(b, x).active.None? <==> b.active.None?
  {
    if b.active.Some? {
      var l := Pull(b.active.value, x);
      if l != [] {
        assert l[0] in Active(b) - {x};
      }
    }
  }

  // ---------------------------------------------------------------- documents and sessions

  /** A change of one board and of its sockets keeps the other boards in step. */
  lemma OthersInStep(boards: map<string, Board>, sessions: Sessions, after: Sessions, who: Names, o: string, b: Board)
    requires InStep(boards, sessions, who)
    requires forall p :: p != o ==> BoardSockets(after, p) == BoardSockets(sessions, p)
    requires forall k :: k in after && !Spells(k, o) ==> k in sessions && after[k] == sessions[k]
    requires forall k :: k in after && Spells(k, o) ==> after[k] != {} && after[k] <= who.Keys
    requires forall k :: k in after && Spells(k, o) ==> b.active.Some?
    ensures InStep(boards[o := b], after, who) <==> Active(b) == Users(BoardSockets(after, o), who)
  {
    hide ParseOid, Active, Users, BoardSockets;
    var boards' := boards[o := b];
    forall k | k in after
      ensures KeyOk(boards', after, who, k)
    {
      if !Spells(k, o) {
        assert KeyOk(boards, sessions, who, k);
      }
    }
    assert boards'[o] == b;
  }

  lemma NoSessionsOf(boards: map<string, Board>, sessions: Sessions, who: Names, o: string)
    requires InStep(boards, sessions, who) && (o !in boards || boards[o].active.None?)
    ensures forall k :: k in sessions ==> !Spells(k, o)
    ensures BoardSockets(sessions, o) == {}
  {
    hide ParseOid;
  }

  lemma CreateInStep(boards: map<string, Board>, sessions: Sessions, who: Names, o: string, b: Board)
    requires InStep(boards, sessions, who) && o !in boards && b.active.None?
    ensures InStep(boards[o := b], sessions, who)
  {
    hide Spells, BoardSockets;
    NoSessionsOf(boards, sessions, who, o);
    OthersInStep(boards, sessions, sessions, who, o, b);
    assert Users({}, who) == {};
  }

  lemma KeysOfBoard(boards: map<string, Board>, sessions: Sessions, who: Names, o: string)
    requires InStep(boards, sessions, who)
    ensures forall k :: k in sessions && Spells(k, o) ==>
              sessions[k] != {} && sessions[k] <= who.Keys && o in boards && boards[o].active.Some?
  {
    hide ParseOid;
    assert forall k :: k in sessions ==> KeyOk(boards, sessions, who, k);
  }

  lemma EditInStep(boards: map<string, Board>, sessions: Sessions, who: Names, o: string, b: Board)
    requires InStep(boards, sessions, who) && o in boards && b.active == boards[o].active
    ensures InStep(boards[o := b], sessions, who)
  {
    hide InStep, Spells, BoardSockets;
    KeysOfBoard(boards, sessions, who, o);
    OthersInStep(boards, sessions, sessions, who, o, b);
    SameActive(boards, sessions, who, o, b);
  }

  lemma SameActive(boards: map<string, Board>, sessions: Sessions, who: Names, o: string, b: Board)
    requires InStep(boards, sessions, who) && o in boards && b.active == boards[o].active
    ensures Active(b) == Users(BoardSockets(sessions, o), who)
  {
  }

  lemma EnterKeys(boards: map<string, Board>, sessions: Sessions, who: Names, key: string, o: string, t: Socket)
    requires InStep(boards, sessions, who) && t in who && Spells(key, o)
    ensures var after := sessions[key := Members(sessions, key) + {t}];
            && (forall k :: k in after && !Spells(k, o) ==> k in sessions && after[k] == sessions[k])
            && (forall k :: k in after && Spells(k, o) ==> after[k] != {} && after[k] <= who.Keys)
  {
    hide InStep, Spells;
    KeysOfBoard(boards, sessions, who, o);
    assert Members(sessions, key) + {t} != {} by {
      assert t in Members(sessions, key) + {t};
    }
  }

  lemma JoinInStep(boards: map<string, Board>, sessions: Sessions, who: Names, key: string, o: string, t: Socket)
    requires InStep(boards, sessions, who) && t in who && Spells(key, o) && o in boards && boards[o].active.Some?
    ensures var b := boards[o].(active := Some(AddToSet(boards[o].active.value, ToInt32(who[t]))));
            InStep(boards[o := b], sessions[key := Members(sessions, key) + {t}], who)
  {
    hide InStep, Spells, BoardSockets, AddToSet, Active, Users, ToInt32;
    var b := boards[o].(active := Some(AddToSet(boards[o].active.value, ToInt32(who[t]))));
    ActiveAdd(boards[o], ToInt32(who[t]));
    UsersAdd(BoardSockets(sessions, o), who, t);
    SocketsEnter(sessions, key, o, t);
    EnterKeys(boards, sessions, who, key, o, t);
    SameActive(boards, sessions, who, o, boards[o]);
    OthersInStep(boards, sessions, sessions[key := Members(sessions, key) + {t}], who, o, b);
  }

  /** Opening resets the list to the owner, which is right exactly when no one else is there. */
  lemma OpenInStep(boards: map<string, Board>, sessions: Sessions, who: Names, key: string, o: string, t: Socket)
    requires InStep(boards, sessions, who) && GoodNames(who) && t in who && Spells(key, o) && o in boards
    ensures var b := boards[o].(active := Some([ToInt32(who[t])]));
            InStep(boards[o := b], sessions[key := Members(sessions, key) + {t}], who)
            <==> BoardSockets(sessions, o) <= {t}
  {
    hide InStep, Spells, BoardSockets, GoodNames, Active, Users, ToInt32;
    var b := boards[o].(active := Some([ToInt32(who[t])]));
    var m := BoardSockets(sessions, o);
    ActiveOnly(boards[o], ToInt32(who[t]));
    UsersAdd(m, who, t);
    SocketsAreNamed(boards, sessions, who, o);
    OnlyMember(m, who, t);
    SocketsEnter(sessions, key, o, t);
    EnterKeys(boards, sessions, who, key, o, t);
    OthersInStep(boards, sessions, sessions[key := Members(sessions, key) + {t}], who, o, b);
  }

  lemma LeaveKeys(boards: map<string, Board>, sessions: Sessions, who: Names, key: string, o: string, t: Socket)
    requires InStep(boards, sessions, who) && Spells(key, o)
    ensures var after := ChangeSessions(sessions, Leave(key), t);
            && (forall k :: k in after && !Spells(k, o) ==> k in sessions && after[k] == sessions[k])
            && (forall k :: k in after && Spells(k, o) ==>
                  after[k] != {} && after[k] <= who.Keys && o in boards && boards[o].active.Some?)
  {
    hide InStep, Spells;
    KeysOfBoard(boards, sessions, who, o);
  }

  /** The board goes exactly when the sender is its only socket. */
  lemma QuitEmpties(boards: map<string, Board>, sessions: Sessions, who: Names, o: string, t: Socket)
    requires InStep(boards, sessions, who) && GoodNames(who) && t in who && o in boards
    requires boards[o].active.Some? ==> boards[o].active.value != []
    ensures PullActive(boards[o], ToInt32(who[t])).active == Some([]) <==> BoardSockets(sessions, o) == {t}
  {
    hide InStep, GoodNames, PullActive, Users, BoardSockets, ToInt32;
    var m := BoardSockets(sessions, o);
    PullMembers(boards[o], ToInt32(who[t]));
    SocketsAreNamed(boards, sessions, who, o);
    SameActive(boards, sessions, who, o, boards[o]);
    OnlyMember(m, who, t);
    UsersEmpty(m, who);
    if boards[o].active.Some? {
      assert boards[o].active.value[0] in Active(boards[o]);
    }
  }

  /** Leaving a board that is gone is right exactly when no session of it is left. */
  lemma DropInStep(boards: map<string, Board>, sessions: Sessions, after: Sessions, who: Names, o: string)
    requires InStep(boards, sessions, who)
    requires forall p :: p != o ==> BoardSockets(after, p) == BoardSockets(sessions, p)
    requires forall k :: k in after && !Spells(k, o) ==> k in sessions && after[k] == sessions[k]
    requires forall k :: k in after && Spells(k, o) ==> after[k] != {}
    ensures InStep(boards - {o}, after, who) <==> BoardSockets(after, o) == {}
  {
    hide ParseOid, Active, Users;
    if BoardSockets(after, o) == {} {
      forall k | k in after
        ensures KeyOk(boards - {o}, after, who, k)
      {
        NotOfGone(after, k, o);
        assert KeyOk(boards, sessions, who, k);
      }
    } else {
      var t :| t in BoardSockets(after, o);
      var k :| k in after && Spells(k, o) && t in after[k];
      assert !KeyOk(boards - {o}, after, who, k);
    }
  }

  lemma NotOfGone(after: Sessions, k: string, o: string)
    requires k in after && BoardSockets(after, o) == {} && (Spells(k, o) ==> after[k] != {})
    ensures !Spells(k, o)
  {
    hide Spells;
    forall t | t in after[k]
      ensures Spells(k, o) ==> t in BoardSockets(after, o)
    {
    }
  }

  /** Quitting under one key keeps step exactly when the socket is not in the board under another. */
  lemma QuitInStep(boards: map<string, Board>, sessions: Sessions, who: Names, key: string, o: string, t: Socket)
    requires InStep(boards, sessions, who) && GoodNames(who) && t in who && Spells(key, o) && o in boards
    requires boards[o].active.Some? ==> boards[o].active.value != []
    ensures var b := PullActive(boards[o], ToInt32(who[t]));
            var after := ChangeSessions(sessions, Leave(key), t);
            InStep(if b.active == Some([]) then boards - {o} else boards[o := b], after, who)
            <==> !ElsewhereToo(sessions, o, key, t)
  {
    hide InStep, Spells, BoardSockets, GoodNames, PullActive, Active, Users, ChangeSessions, ToInt32, ElsewhereToo;
    var b := PullActive(boards[o], ToInt32(who[t]));
    var after := ChangeSessions(sessions, Leave(key), t);
    SocketsLeave(sessions, key, o, t);
    LeaveKeys(boards, sessions, who, key, o, t);
    QuitEmpties(boards, sessions, who, o, t);
    ElsewhereIsThere(sessions, o, key, t);
    if b.active == Some([]) {
      DropInStep(boards, sessions, after, who, o);
    } else {
      PullMembers(boards[o], ToInt32(who[t]));
      OthersInStep(boards, sessions, after, who, o, b);
      QuitUsers(boards, sessions, who, o, t);
    }
  }

  lemma ElsewhereIsThere(sessions: Sessions, o: string, key: string, t: Socket)
    ensures ElsewhereToo(sessions, o, key, t) ==> t in BoardSockets(sessions, o)
  {
    hide Spells;
  }

  /** Pulling a user is removing its socket, and nothing else. */
  lemma QuitUsers(boards: map<string, Board>, sessions: Sessions, who: Names, o: string, t: Socket)
    requires InStep(boards, sessions, who) && GoodNames(who) && t in who && o in boards
    ensures var b := PullActive(boards[o], ToInt32(who[t]));
            var m := BoardSockets(sessions, o);
            && Active(b) == Users(m - {t}, who)
            && (t in m ==> Active(b) != Users(m, who))
  {
    hide InStep, GoodNames, PullActive, Active, Users, BoardSockets, ToInt32;
    var m := BoardSockets(sessions, o);
    PullMembers(boards[o], ToInt32(who[t]));
    SameActive(boards, sessions, who, o, boards[o]);
    UsersRemove(m, who, t);
    UserOf(m, who, t);
  }

  // ---------------------------------------------------------------- one request

  lemma OpenSynced(s: State, e: Event, who: Names)
    requires Synced(s, who) && GoodNames(who) && Disciplined(e, who) && e.packet.request.OpenSession?
    ensures Synced(Step(s, e), who) <==> Tidy(s, e)
  {
    hide ParseOid, DeliverAll, ChangeMarks, InStep, GoodNames, BoardSockets, ToInt32;
    var key := e.packet.request.board;
    var oid := ParseOid(key);
    if oid.Some? && oid.value in s.boards {
      OpenInStep(s.boards, s.sessions, who, key, oid.value, e.socket);
    }
  }

  lemma JoinSynced(s: State, e: Event, who: Names)
    requires Synced(s, who) && GoodNames(who) && Disciplined(e, who) && e.packet.request.JoinSession?
    ensures Synced(Step(s, e), who)
  {
    hide ParseOid, DeliverAll, ChangeMarks, InStep, AddToSet, ToInt32;
    var key := e.packet.request.board;
    var oid := ParseOid(key);
    if oid.Some? && oid.value in s.boards && s.boards[oid.value].active.Some? {
      JoinInStep(s.boards, s.sessions, who, key, oid.value, e.socket);
    }
  }

  /** What a quit leaves of documents and sessions. */
  lemma QuitStores(s: State, e: Event, who: Names)
    requires Disciplined(e, who) && e.packet.request.QuitSession?
    ensures var key := e.packet.request.board;
            var oid := ParseOid(key);
            && Step(s, e).sessions == ChangeSessions(s.sessions, Leave(key), e.socket)
            && Step(s, e).boards
               == (if oid.None? || oid.value !in s.boards then s.boards
                   else
                     var b := PullActive(s.boards[oid.value], ToInt32(who[e.socket]));
                     if b.active == Some([]) then s.boards - {oid.value} else s.boards[oid.value := b])
  {
    hide ParseOid, DeliverAll, ChangeMarks, ChangeSessions, PullActive, ToInt32;
  }

  lemma LeaveNothing(boards: map<string, Board>, sessions: Sessions, who: Names, key: string, t: Socket)
    requires InStep(boards, sessions, who) && (ParseOid(key).Some? ==> ParseOid(key).value !in boards)
    ensures ChangeSessions(sessions, Leave(key), t) == sessions
  {
    hide ParseOid;
    assert forall k :: k in sessions ==> KeyOk(boards, sessions, who, k);
  }

  lemma QuitSynced(s: State, e: Event, who: Names)
    requires Synced(s, who) && GoodNames(who) && Disciplined(e, who) && e.packet.request.QuitSession?
    requires BoardsOk(s)
    ensures Synced(Step(s, e), who) <==> Tidy(s, e)
  {
    hide ParseOid, Step, InStep, GoodNames, PullActive, ChangeSessions, Canonical, ToInt32, ElsewhereToo;
    var key := e.packet.request.board;
    var oid := ParseOid(key);
    QuitStores(s, e, who);
    if oid.Some? && oid.value in s.boards {
      QuitInStep(s.boards, s.sessions, who, key, oid.value, e.socket);
    } else {
      LeaveNothing(s.boards, s.sessions, who, key, e.socket);
    }
  }

  lemma CreateSynced(s: State, e: Event, who: Names)
    requires Synced(s, who) && BoardsOk(s) && Possible(s, e) && e.packet.request.CreateBoard?
    ensures Synced(Step(s, e), who)
  {
    hide DeliverAll, ChangeMarks, InStep, Canonical, ActiveOk;
    var x := EffectOf(s, e).board;
    if x.CreateDoc? {
      CreateInStep(s.boards, s.sessions, who, x.oid, x.board);
    }
  }

  lemma EditSynced(s: State, e: Event, who: Names)
    requires Synced(s, who) && (e.packet.request.AddElement? || e.packet.request.ModifyElement?)
    ensures Synced(Step(s, e), who)
  {
    hide EffectOf, DeliverAll, ChangeMarks, InStep;
    EditChange(s, e);
    var x := EffectOf(s, e).board;
    if x.Put? {
      EditInStep(s.boards, s.sessions, who, x.oid, x.board);
    }
  }

  /** What an edit can do to the documents: nothing that touches an active list. */
  predicate EditsOnly(s: State, x: Effect) {
    && x.session == SameSessions
    && (x.board == SameBoards
        || (x.board.Put? && x.board.oid in s.boards && x.board.board.active == s.boards[x.board.oid].active))
  }

  lemma AddEditsOnly(s: State, e: Event)
    requires e.packet.request.AddElement?
    ensures EditsOnly(s, EffectOf(s, e))
  {
    hide ParseOid, MayAdd;
  }

  lemma ModifyEditsOnly(s: State, e: Event)
    requires e.packet.request.ModifyElement?
    ensures EditsOnly(s, EffectOf(s, e))
  {
    hide ParseOid, Replace;
  }

  lemma EditChange(s: State, e: Event)
    requires e.packet.request.AddElement? || e.packet.request.ModifyElement?
    ensures EditsOnly(s, EffectOf(s, e))
  {
    hide EffectOf;
    match e.packet.request {
      case AddElement(_, _, _) => AddEditsOnly(s, e);
      case ModifyElement(_, _, _, _) => ModifyEditsOnly(s, e);
    }
  }

  /** Accounts, ignored requests and the end of a stream leave boards and sessions alone. */
  lemma OtherSynced(s: State, e: Event)
    requires var r := e.packet.request;
             r.Register? || r.Login? || r.DeleteElement? || r.SaveBoard? || r.EndOfStream?
    ensures Step(s, e).boards == s.boards && Step(s, e).sessions == s.sessions
  {
    hide DeliverAll, ChangeMarks, FindUser, SaltedHash;
  }

  /**
   A request of a client that speaks for its own user keeps sockets and active users in step exactly
   when it is tidy.
   */
  lemma SyncedStepExactly(s: State, e: Event, who: Names)
    requires Synced(s, who) && BoardsOk(s) && GoodNames(who) && Disciplined(e, who) && Possible(s, e)
    ensures Synced(Step(s, e), who) <==> Tidy(s, e)
  {
    hide Synced, BoardsOk, GoodNames, Step, Possible, ParseOid, BoardSockets, ElsewhereToo;
    match e.packet.request {
      case CreateBoard(_) => CreateSynced(s, e, who);
      case OpenSession(_, _) => OpenSynced(s, e, who);
      case JoinSession(_, _) => JoinSynced(s, e, who);
      case QuitSession(_, _) => QuitSynced(s, e, who);
      case AddElement(_, _, _) => EditSynced(s, e, who);
      case ModifyElement(_, _, _, _) => EditSynced(s, e, who);
      case _ =>
        OtherSynced(s, e);
        SameStores(s, Step(s, e), who);
    }
  }

  lemma SameStores(s: State, s': State, who: Names)
    requires s.boards == s'.boards && s.sessions == s'.sessions
    ensures Synced(s, who) <==> Synced(s', who)
  {
    hide InStep;
  }

  // ---------------------------------------------------------------- runs

  /** A run of clients that speak for their own users, tidily. */
  predicate DisciplinedRun(s: State, es: seq<Event>, who: Names)
    decreases |es|
  {
    es == [] || (&& Possible(s, es[0]) && Disciplined(es[0], who) && Tidy(s, es[0])
                 && DisciplinedRun(Step(s, es[0]), es[1..], who))
  }

  lemma {:induction false} SyncedRun(s: State, es: seq<Event>, who: Names)
    requires Synced(s, who) && BoardsOk(s) && GoodNames(who) && DisciplinedRun(s, es, who)
    ensures Synced(After(s, es), who) && BoardsOk(After(s, es))
    decreases |es|
  {
    hide Synced, BoardsOk, GoodNames, Step, Possible, Disciplined, Tidy;
    if es != [] {
      SyncedStepExactly(s, es[0], who);
      BoardsStep(s, es[0]);
      SyncedRun(Step(s, es[0]), es[1..], who);
    }
  }

  lemma StartSynced(who: Names)
    ensures Synced(START, who) && BoardsOk(START)
  {
  }

  lemma {:induction false} CountList(l: seq<int>)
    requires NoDuplicates(l)
    ensures |set u | u in l| == |l|
  {
    if l != [] {
      var front := l[..|l| - 1];
      CountList(front);
      assert (set u | u in l) == (set u | u in front) + {l[|l| - 1]};
    }
  }

  lemma {:induction false} CountUsers(ts: set<Socket>, who: Names)
    requires GoodNames(who) && ts <= who.Keys
    ensures |Users(ts, who)| == |ts|
  {
    hide GoodNames, ToInt32;
    if t :| t in ts {
      CountUsers(ts - {t}, who);
      UsersRemove(ts, who, t);
      assert ToInt32(who[t]) in Users(ts, who);
      assert Users(ts, who) == Users(ts - {t}, who) + {ToInt32(who[t])};
    } else {
      assert Users(ts, who) == {};
    }
  }

  lemma SyncedCounts(s: State, who: Names, oid: string)
    requires Synced(s, who) && BoardsOk(s) && GoodNames(who) && oid in s.boards
    ensures var b := s.boards[oid];
            var m := BoardSockets(s.sessions, oid);
            && m <= who.Keys && Active(b) == Users(m, who)
            && |m| == (if b.active.Some? then |b.active.value| else 0)
  {
    hide GoodNames, Canonical, InStep, BoardSockets, Users, NoDuplicates;
    SocketsAreNamed(s.boards, s.sessions, who, oid);
    SameActive(s.boards, s.sessions, who, oid, s.boards[oid]);
    CountUsers(BoardSockets(s.sessions, oid), who);
    if s.boards[oid].active.Some? {
      CountList(s.boards[oid].active.value);
    }
  }

  /**
   In every such run, the sockets registered for a board under any spelling and its active users
   correspond one to one, and a board without an active list has no session.
   */
  lemma SocketsAreActiveUsers(es: seq<Event>, who: Names, oid: string)
    requires GoodNames(who) && DisciplinedRun(START, es, who) && oid in After(START, es).boards
    ensures var s := After(START, es);
            var b := s.boards[oid];
            var m := BoardSockets(s.sessions, oid);
            && m <= who.Keys && Active(b) == Users(m, who)
            && |m| == (if b.active.Some? then |b.active.value| else 0)
  {
    hide Synced, BoardsOk, DisciplinedRun, GoodNames, After, Active, Users, BoardSockets;
    StartSynced(who);
    SyncedRun(START, es, who);
    SyncedCounts(After(START, es), who, oid);
  }

  /** A board goes exactly by a quit of its only socket, under any spelling of its id. */
  predicate LastQuits(s: State, e: Event, oid: string) {
    && e.packet.request.QuitSession? && Spells(e.packet.request.board, oid)
    && BoardSockets(s.sessions, oid) == {e.socket}
  }

  lemma DropsExactly(s: State, who: Names, e: Event, oid: string)
    requires Synced(s, who) && BoardsOk(s) && GoodNames(who) && Disciplined(e, who)
    requires oid in s.boards
    ensures oid !in Step(s, e).boards <==> LastQuits(s, e, oid)
    ensures LastQuits(s, e, oid) ==>
              (BoardSockets(Step(s, e).sessions, oid) == {}
               <==> !ElsewhereToo(s.sessions, oid, e.packet.request.board, e.socket))
  {
    hide Step, InStep, GoodNames, PullActive, BoardSockets, ChangeSessions, Canonical, ToInt32, ElsewhereToo,
      NoDuplicates, ParseOid;
    if e.packet.request.QuitSession? {
      var key := e.packet.request.board;
      QuitStores(s, e, who);
      if Spells(key, oid) {
        QuitEmpties(s.boards, s.sessions, who, oid, e.socket);
        SocketsLeave(s.sessions, key, oid, e.socket);
        ElsewhereIsThere(s.sessions, oid, key, e.socket);
      }
    } else {
      OnlyQuitDrops(s, e, oid);
    }
  }

  /**
   In every such run, a request deletes a board exactly when its sender quits it, under any spelling,
   and is its only socket; and no session of the board is left exactly when the sender was not
   registered under another spelling too.
   */
  lemma DeletedWithLastSocket(es: seq<Event>, who: Names, e: Event, oid: string)
    requires GoodNames(who) && DisciplinedRun(START, es, who) && oid in After(START, es).boards
    requires Disciplined(e, who)
    ensures var s := After(START, es);
            && (oid !in Step(s, e).boards <==> LastQuits(s, e, oid))
            && (LastQuits(s, e, oid) ==>
                  (BoardSockets(Step(s, e).sessions, oid) == {}
                   <==> !ElsewhereToo(s.sessions, oid, e.packet.request.board, e.socket)))
  {
    hide Step, After, Disciplined, DisciplinedRun, GoodNames, Synced, BoardsOk, LastQuits, BoardSockets, ElsewhereToo;
    StartSynced(who);
    SyncedRun(START, es, who);
    DropsExactly(After(START, es), who, e, oid);
  }

  lemma OnlyQuitDrops(s: State, e: Event, oid: string)
    requires oid in s.boards && !e.packet.request.QuitSession?
    ensures oid in Step(s, e).boards
  {
    hide EffectOf, DeliverAll, ChangeMarks;
    NoDrop(s, e);
  }

  lemma NoDrop(s: State, e: Event)
    requires !e.packet.request.QuitSession?
    ensures !EffectOf(s, e).board.Drop?
  {
    hide ParseOid, FindUser, SaltedHash, HandleAdd, HandleModify, AddToSet;
    match e.packet.request {
      case AddElement(_, _, _) => EditChange(s, e);
      case ModifyElement(_, _, _, _) => EditChange(s, e);
      case _ =>
    }
  }
}
