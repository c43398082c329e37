/**
 What each request achieves, told from the stores and the packets alone: who is registered and active
 afterwards, what boards hold, what the sender and everybody else receive.
 */
module ServerLaws {
  import opened Server
  import opened ServerStores
  import opened ServerConnections
  import opened Wrappers

  /** What a socket receives from a request. */
  function Got(s: State, e: Event, u: Socket): seq<Message> {
    Received(EffectOf(s, e).sends, u)
  }

  // ---------------------------------------------------------------- reading effects

  lemma StepParts(s: State, e: Event)
    ensures Step(s, e).boards == ChangeBoards(s.boards, EffectOf(s, e).board)
    ensures Step(s, e).sessions == ChangeSessions(s.sessions, EffectOf(s, e).session, e.socket)
    ensures Step(s, e).users == if EffectOf(s, e).user.Some? then s.users + [EffectOf(s, e).user.value] else s.users
  {
    hide EffectOf, ChangeBoards, ChangeSessions, ChangeMarks, DeliverAll;
  }

  lemma GotThen(x: Effect, ts: set<Socket>, m: Message, u: Socket)
    ensures Received(Then(x, ts, m).sends, u) == Received(x.sends, u) + (if u in ts then [m] else [])
  {
    assert (x.sends + [Delivery(ts, m)])[..|x.sends|] == x.sends;
  }

  lemma GotNothing(x: Effect, u: Socket)
    requires x.sends == []
    ensures Received(x.sends, u) == []
  {
  }

  lemma GotOne(x: Effect, t: Socket, m: Message, u: Socket)
    requires x.sends == []
    ensures Received(Then(x, {t}, m).sends, u) == if u == t then [m] else []
  {
    hide Then;
    GotNothing(x, u);
    GotThen(x, {t}, m, u);
  }

  // ---------------------------------------------------------------- what a request leaves alone

  /** A request touches no other board than the one it names or creates. */
  lemma OtherBoardsStay(s: State, e: Event, o: string)
    requires match e.packet.request
             case CreateBoard(_) => o != e.choice.newBoard
             case OpenSession(_, b) => ParseOid(b) != Some(o)
             case JoinSession(_, b) => ParseOid(b) != Some(o)
             case QuitSession(_, b) => ParseOid(b) != Some(o)
             case AddElement(_, b, _) => ParseOid(b) != Some(o)
             case ModifyElement(_, b, _, _) => ParseOid(b) != Some(o)
             case _ => true
    ensures o in Step(s, e).boards <==> o in s.boards
    ensures o in s.boards ==> Step(s, e).boards[o] == s.boards[o]
  {
    StepParts(s, e);
    hide Step, ParseOid, HandleCreate, HandleOpen, HandleJoin, HandleQuit, HandleAdd, HandleModify, HandleRegister,
      HandleLogin;
    match e.packet.request {
      case CreateBoard(u) =>
        CreateTouches(s, e, u);
        assert !Touches(HandleCreate(s, e.socket, e.packet.id, u, e.choice).board, o);
      case OpenSession(u, b) => OpenTouches(s, e, u, b);
      case JoinSession(u, b) => JoinTouches(s, e, u, b);
      case QuitSession(u, b) => QuitTouches(s, e, u, b);
      case AddElement(u, b, x) => AddTouches(s, e, u, b, x);
      case ModifyElement(u, b, x, y) => ModifyTouches(s, e, u, b, x, y);
      case Register(n, h) => AccountsTouch(s, e);
      case Login(n, h) => AccountsTouch(s, e);
      case _ =>
    }
  }

  /** The board a change is of, if any. */
  predicate Touches(x: BoardChange, o: string) {
    match x
    case SameBoards => false
    case CreateDoc(p, _) => p == o
    case Put(p, _) => p == o
    case Drop(p) => p == o
  }

  lemma CreateTouches(s: State, e: Event, u: uint32)
    ensures forall o :: Touches(HandleCreate(s, e.socket, e.packet.id, u, e.choice).board, o) ==> o == e.choice.newBoard
  {
  }

  lemma OpenTouches(s: State, e: Event, u: uint32, b: string)
    ensures forall o :: Touches(HandleOpen(s, e.socket, e.packet.id, u, b).board, o) ==> ParseOid(b) == Some(o)
  {
    hide ParseOid;
  }

  lemma JoinTouches(s: State, e: Event, u: uint32, b: string)
    ensures forall o :: Touches(HandleJoin(s, e.socket, e.packet.id, u, b, e.choice).board, o)
              ==> ParseOid(b) == Some(o)
  {
    hide ParseOid, AddToSet;
  }

  lemma QuitTouches(s: State, e: Event, u: uint32, b: string)
    ensures forall o :: Touches(HandleQuit(s, e.socket, e.packet.id, u, b).board, o) ==> ParseOid(b) == Some(o)
  {
    hide ParseOid, PullActive;
  }

  lemma AddTouches(s: State, e: Event, u: uint32, b: string, x: string)
    ensures forall o :: Touches(HandleAdd(s, e.socket, e.packet.id, u, b, x).board, o) ==> ParseOid(b) == Some(o)
  {
    hide ParseOid;
  }

  lemma ModifyTouches(s: State, e: Event, u: uint32, b: string, x: string, y: string)
    ensures forall o :: Touches(HandleModify(s, e.socket, e.packet.id, u, b, x, y, e.choice).board, o)
              ==> ParseOid(b) == Some(o)
  {
    hide ParseOid, Replace;
  }

  lemma AccountsTouch(s: State, e: Event)
    requires e.packet.request.Register? || e.packet.request.Login?
    ensures EffectOf(s, e).board == SameBoards && EffectOf(s, e).session == SameSessions
  {
    hide FindUser, SaltedHash;
  }

  /** The key a request registers or removes its sender under, if any. */
  predicate Moves(x: SessionChange, k: string) {
    match x
    case SameSessions => false
    case Enter(j, _) => j == k
    case Leave(j) => j == k
  }

  lemma MovesNamed(s: State, e: Event, k: string)
    ensures Moves(EffectOf(s, e).session, k) ==>
              match e.packet.request
              case OpenSession(_, b) => b == k
              case JoinSession(_, b) => b == k
              case QuitSession(_, b) => b == k
              case _ => false
  {
    hide HandleRegister, HandleLogin, HandleAdd, HandleModify, ParseOid, AddToSet, PullActive;
    match e.packet.request {
      case AddElement(_, _, _) => AddSession(s, e);
      case ModifyElement(_, _, _, _) => ModifySession(s, e);
      case Register(_, _) => AccountsTouch(s, e);
      case Login(_, _) => AccountsTouch(s, e);
      case _ =>
    }
  }

  /** A request moves nobody but its sender, and only in the session it opens, joins or quits. */
  lemma OtherMembersStay(s: State, e: Event, k: string, u: Socket)
    requires u != e.socket
             || match e.packet.request
                case OpenSession(_, b) => b != k
                case JoinSession(_, b) => b != k
                case QuitSession(_, b) => b != k
                case _ => true
    ensures u in Members(Step(s, e).sessions, k) <==> u in Members(s.sessions, k)
  {
    StepParts(s, e);
    MovesNamed(s, e, k);
    hide Step, EffectOf;
  }

  // ---------------------------------------------------------------- who an anonymous sender becomes

  /** The user a sender is, by its request and the packets it is sent: its own, or the one it is given. */
  function UserAfter(user: uint32, ms: seq<Message>): int {
    if user != 0 then ToInt32(user) else if ms != [] && ms[0].TempId? then ms[0].user else 0
  }

  /** What a request by an anonymous user is sent before anything else. */
  function Introduction(s: State, user: uint32, c: Choice): seq<Message> {
    if user == 0 then [TempId(c.random, c.user.Stored?, NextId(s), false)] else []
  }

  lemma Introduced(s: State, t: Socket, user: uint32, c: Choice, u: Socket)
    requires !AssignmentThrows(user, c)
    ensures var x := Identify(s, t, user, c);
            && Received(x.sends, u) == (if u == t then Introduction(s, user, c) else [])
            && x.board == SameBoards && x.session == SameSessions && !x.close
  {
    if user == 0 {
      var y := NOTHING.(takesId := true,
                        user := if c.user.Stored? then Some(User(NextId(s), "", None, "")) else None);
      GotOne(y, t, TempId(c.random, c.user.Stored?, NextId(s), false), u);
    } else {
      GotNothing(NOTHING, u);
    }
  }

  // ---------------------------------------------------------------- create

  /**
   A create that is stored makes a board with no elements and no active list, owned by the sender: by
   the user it is, or by the one the packet before the answer gives it. The answer carries its id.
   */
  lemma CreateAchieves(s: State, e: Event, u: Socket)
    requires e.packet.request.CreateBoard? && e.choice.board.Stored?
    requires !AssignmentThrows(e.packet.request.user, e.choice)
    ensures var user, o := e.packet.request.user, e.choice.newBoard;
            && o in Step(s, e).boards
            && Step(s, e).boards[o] == Board(UserAfter(user, Got(s, e, e.socket)), [], None)
            && Step(s, e).sessions == s.sessions
            && Got(s, e, u) == (if u == e.socket
                                then Introduction(s, user, e.choice) + [ActionResponse(e.packet.id, true, o)] else [])
  {
    StepParts(s, e);
    CreateGets(s, e, u);
    CreateGets(s, e, e.socket);
    hide Step, Received;
  }

  lemma CreateGets(s: State, e: Event, u: Socket)
    requires e.packet.request.CreateBoard? && e.choice.board.Stored?
    requires !AssignmentThrows(e.packet.request.user, e.choice)
    ensures Got(s, e, u) == if u == e.socket
                            then Introduction(s, e.packet.request.user, e.choice)
                                 + [ActionResponse(e.packet.id, true, e.choice.newBoard)]
                            else []
  {
    hide Identify, Identity, Received, Then;
    var t, user, c := e.socket, e.packet.request.user, e.choice;
    Introduced(s, t, user, c, u);
    var y := Identify(s, t, user, c).(board := CreateDoc(c.newBoard, Board(Identity(s, user), [], None)));
    GotThen(y, {t}, ActionResponse(e.packet.id, true, c.newBoard), u);
  }

  /** A create that is not stored makes nothing and is not a success. */
  lemma CreateRefused(s: State, e: Event, u: Socket)
    requires e.packet.request.CreateBoard?
    requires AssignmentThrows(e.packet.request.user, e.choice) || !e.choice.board.Stored?
    ensures Step(s, e).boards == s.boards && Step(s, e).sessions == s.sessions
    ensures NoSuccess(Got(s, e, u))
  {
    StepParts(s, e);
    hide Step, Received, Then, Identity;
    var t, user, c := e.socket, e.packet.request.user, e.choice;
    IdentifyGets(s, t, user, c, u);
    GotThen(Identify(s, t, user, c), {t}, ActionResponse(e.packet.id, false, "Fail to create whiteboard document"), u);
    ThenKeeps(Identify(s, t, user, c), {t},
              ActionResponse(e.packet.id, false, "Fail to create whiteboard document"));
  }

  /** No response tells of a success. */
  predicate NoSuccess(ms: seq<Message>) {
    forall i :: 0 <= i < |ms| && ms[i].ActionResponse? ==> !ms[i].success
  }

  lemma IdentifyGets(s: State, t: Socket, user: uint32, c: Choice, u: Socket)
    ensures var x := Identify(s, t, user, c);
            && (forall i :: 0 <= i < |Received(x.sends, u)| ==> Received(x.sends, u)[i].TempId?)
            && x.board == SameBoards && x.session == SameSessions
  {
    if AssignmentThrows(user, c) {
      GotNothing(Identify(s, t, user, c), u);
    } else {
      Introduced(s, t, user, c, u);
    }
  }

  // ---------------------------------------------------------------- open

  /** An owner's open registers the socket and makes the owner the only active user; nothing else does. */
  lemma OpenAchieves(s: State, e: Event, u: Socket)
    requires e.packet.request.OpenSession?
    ensures var user, key := e.packet.request.user, e.packet.request.board;
            var oid := ParseOid(key);
            var s' := Step(s, e);
            if oid.Some? && oid.value in s.boards && s.boards[oid.value].owner == ToInt32(user) then
              var b := s.boards[oid.value];
              && oid.value in s'.boards && s'.boards[oid.value] == Board(b.owner, b.elements, Some([ToInt32(user)]))
              && Members(s'.sessions, key) == Members(s.sessions, key) + {e.socket}
              && Got(s, e, u) == (if u == e.socket
                                  then [ActionResponse(e.packet.id, true, "Session created successfully")] else [])
            else
              && s'.boards == s.boards && s'.sessions == s.sessions
              && (Got(s, e, u) == [] || (u == e.socket && |Got(s, e, u)| == 1 && Got(s, e, u)[0].ActionResponse?
                                         && !Got(s, e, u)[0].success))
  {
    StepParts(s, e);
    hide Step, ParseOid, Received, Then;
    var t, id, user, key := e.socket, e.packet.id, e.packet.request.user, e.packet.request.board;
    var oid := ParseOid(key);
    GotNothing(Closing(NOTHING), u);
    GotOne(NOTHING, t, ActionResponse(id, false, "Whiteboard not found"), u);
    GotOne(NOTHING, t, ActionResponse(id, false, "User ID does not match"), u);
    if oid.Some? && oid.value in s.boards {
      GotOne(NOTHING.(session := Enter(key, true),
                      board := Put(oid.value, s.boards[oid.value].(active := Some([ToInt32(user)])))),
             t, ActionResponse(id, true, "Session created successfully"), u);
    }
    ThenKeeps(NOTHING, {t}, ActionResponse(id, false, "Whiteboard not found"));
    ThenKeeps(NOTHING, {t}, ActionResponse(id, false, "User ID does not match"));
    OpenEffect(s, e);
  }

  lemma ThenKeeps(x: Effect, ts: set<Socket>, m: Message)
    ensures Then(x, ts, m).board == x.board && Then(x, ts, m).session == x.session
  {
  }

  lemma OpenEffect(s: State, e: Event)
    requires e.packet.request.OpenSession?
    ensures var user, key := e.packet.request.user, e.packet.request.board;
            var oid := ParseOid(key);
            var x := EffectOf(s, e);
            if oid.Some? && oid.value in s.boards && s.boards[oid.value].owner == ToInt32(user) then
              && x.board == Put(oid.value, s.boards[oid.value].(active := Some([ToInt32(user)])))
              && x.session == Enter(key, true)
            else x.board == SameBoards && x.session == SameSessions
  {
    hide ParseOid;
  }

  // ---------------------------------------------------------------- join

  /** Whether a join is let in. */
  predicate LetIn(s: State, e: Event) {
    && e.packet.request.JoinSession? && !AssignmentThrows(e.packet.request.user, e.choice)
    && var oid := ParseOid(e.packet.request.board);
    && oid.Some? && oid.value in s.boards && s.boards[oid.value].active.Some?
  }

  function Actives(b: Board): set<int> {
    if b.active.Some? then set x | x in b.active.value else {}
  }

  /**
   A join that is let in registers the socket and makes active exactly one user more: the one the
   sender is, or the one the first packet it is sent gives it. The board's elements come before the
   answer, which carries the board's spelling; nobody else receives anything.
   */
  lemma JoinAchieves(s: State, e: Event, u: Socket)
    requires LetIn(s, e)
    ensures var user, key := e.packet.request.user, e.packet.request.board;
            var o := ParseOid(key).value;
            var s' := Step(s, e);
            && o in s'.boards
            && s'.boards[o].owner == s.boards[o].owner && s'.boards[o].elements == s.boards[o].elements
            && s'.boards[o].active.Some?
            && Actives(s'.boards[o]) == Actives(s.boards[o]) + {UserAfter(user, Got(s, e, e.socket))}
            && Members(s'.sessions, key) == Members(s.sessions, key) + {e.socket}
            && Got(s, e, u) == (if u == e.socket
                                then Introduction(s, user, e.choice)
                                     + [ElementList(o, s.boards[o].elements), ActionResponse(e.packet.id, true, key)]
                                else [])
  {
    JoinGets(s, e, u);
    JoinGets(s, e, e.socket);
    JoinUser(s, e);
    JoinStores(s, e);
    hide Step, EffectOf, ParseOid, Received, UserAfter, Identity, Introduction;
  }

  /** The user the packets tell of is the one the handler uses. */
  lemma JoinUser(s: State, e: Event)
    requires LetIn(s, e)
    ensures UserAfter(e.packet.request.user, Got(s, e, e.socket)) == Identity(s, e.packet.request.user)
  {
    JoinGets(s, e, e.socket);
    hide Got, ParseOid;
  }

  lemma JoinStores(s: State, e: Event)
    requires LetIn(s, e)
    ensures var user, key := e.packet.request.user, e.packet.request.board;
            var o := ParseOid(key).value;
            var s' := Step(s, e);
            && o in s'.boards
            && s'.boards[o].owner == s.boards[o].owner && s'.boards[o].elements == s.boards[o].elements
            && s'.boards[o].active.Some?
            && Actives(s'.boards[o]) == Actives(s.boards[o]) + {Identity(s, user)}
            && Members(s'.sessions, key) == Members(s.sessions, key) + {e.socket}
  {
    StepParts(s, e);
    JoinEffect(s, e);
    hide Step, EffectOf, ParseOid, AddToSet, Identity;
    var b := s.boards[ParseOid(e.packet.request.board).value];
    AddedToSet(b.active.value, Identity(s, e.packet.request.user));
  }

  lemma AddedToSet(l: seq<int>, x: int)
    ensures forall y :: y in AddToSet(l, x) <==> y in l || y == x
  {
  }

  lemma JoinEffect(s: State, e: Event)
    requires LetIn(s, e)
    ensures var user, key := e.packet.request.user, e.packet.request.board;
            var o := ParseOid(key).value;
            var b := s.boards[o];
            && EffectOf(s, e).board == Put(o, b.(active := Some(AddToSet(b.active.value, Identity(s, user)))))
            && EffectOf(s, e).session == Enter(key, false)
  {
    hide ParseOid, AddToSet;
  }

  lemma JoinGets(s: State, e: Event, u: Socket)
    requires LetIn(s, e)
    ensures var key := e.packet.request.board;
            var o := ParseOid(key).value;
            Got(s, e, u) == if u == e.socket
                            then Introduction(s, e.packet.request.user, e.choice)
                                 + [ElementList(o, s.boards[o].elements), ActionResponse(e.packet.id, true, key)]
                            else []
  {
    hide ParseOid, AddToSet, Identify, Identity, Received, Then;
    var t, id, user, key, c := e.socket, e.packet.id, e.packet.request.user, e.packet.request.board, e.choice;
    var o := ParseOid(key).value;
    var b := s.boards[o];
    Introduced(s, t, user, c, u);
    var y := Identify(s, t, user, c).(session := Enter(key, false),
                                      board := Put(o, b.(active := Some(AddToSet(b.active.value, Identity(s, user))))));
    GotThen(y, {t}, ElementList(o, b.elements), u);
    GotThen(Then(y, {t}, ElementList(o, b.elements)), {t}, ActionResponse(id, true, key), u);
  }

  /** Whoever was let in may add: an addition to the board by the user it then is is accepted. */
  lemma JoinedMayAdd(s: State, e: Event, next: Event)
    requires LetIn(s, e) && next.packet.request.AddElement?
    requires ParseOid(next.packet.request.board) == ParseOid(e.packet.request.board)
    requires ToInt32(next.packet.request.user) == UserAfter(e.packet.request.user, Got(s, e, e.socket))
    ensures Accepted(Step(s, e), next, ParseOid(e.packet.request.board).value) == Added(next.packet.request.element)
  {
    hide Step, Got, ParseOid, ToInt32, UserAfter;
    JoinAchieves(s, e, e.socket);
    var o := ParseOid(e.packet.request.board).value;
    assert UserAfter(e.packet.request.user, Got(s, e, e.socket)) in Actives(Step(s, e).boards[o]);
  }

  /** A join that is not let in leaves boards and sessions as they are, and is not a success. */
  lemma JoinRefused(s: State, e: Event, u: Socket)
    requires e.packet.request.JoinSession? && !LetIn(s, e)
    ensures Step(s, e).boards == s.boards && Step(s, e).sessions == s.sessions
    ensures NoSuccess(Got(s, e, u))
  {
    StepParts(s, e);
    hide Step, ParseOid, AddToSet, Received, Then, Identity;
    var t, id, user, c := e.socket, e.packet.id, e.packet.request.user, e.choice;
    var x := Identify(s, t, user, c);
    IdentifyGets(s, t, user, c, u);
    var missing := ActionResponse(id, false, "Whiteboard not found");
    var unshared := ActionResponse(id, false, "Whiteboard is not in shared status");
    GotThen(x, {t}, missing, u);
    GotThen(x, {t}, unshared, u);
    ThenKeeps(x, {t}, missing);
    ThenKeeps(x, {t}, unshared);
  }

  // ---------------------------------------------------------------- quit

  /** A quit takes the socket out of the session and the user out of the board; the board goes with the last. */
  lemma QuitAchieves(s: State, e: Event, u: Socket)
    requires e.packet.request.QuitSession?
    ensures var user, key := e.packet.request.user, e.packet.request.board;
            var oid := ParseOid(key);
            var s' := Step(s, e);
            && Members(s'.sessions, key) == Members(s.sessions, key) - {e.socket}
            && (oid.Some? && oid.value in s.boards ==>
                  var b := s.boards[oid.value];
                  && (oid.value !in s'.boards <==> b.active.Some? && Actives(b) <= {ToInt32(user)})
                  && (oid.value in s'.boards ==>
                        && s'.boards[oid.value].owner == b.owner && s'.boards[oid.value].elements == b.elements
                        && (s'.boards[oid.value].active.Some? <==> b.active.Some?)
                        && Actives(s'.boards[oid.value]) == Actives(b) - {ToInt32(user)}))
            && Got(s, e, u) == (if u == e.socket && oid.Some?
                                then [ActionResponse(e.packet.id, true, "Quit session successfully")] else [])
  {
    StepParts(s, e);
    hide Step, ParseOid, Received, Then, PullActive, ToInt32;
    var t, id, user, key := e.socket, e.packet.id, e.packet.request.user, e.packet.request.board;
    var oid := ParseOid(key);
    QuitGets(s, e, u);
    QuitEffect(s, e);
    if oid.Some? && oid.value in s.boards {
      ActivesPulled(s.boards[oid.value], ToInt32(user));
    }
  }

  lemma QuitEffect(s: State, e: Event)
    requires e.packet.request.QuitSession?
    ensures var key := e.packet.request.board;
            var oid := ParseOid(key);
            var x := EffectOf(s, e);
            && x.session == Leave(key)
            && x.board == (if oid.None? || oid.value !in s.boards then SameBoards
                           else
                             var b := PullActive(s.boards[oid.value], ToInt32(e.packet.request.user));
                             if b.active == Some([]) then Drop(oid.value) else Put(oid.value, b))
  {
    hide ParseOid, PullActive;
  }

  lemma QuitGets(s: State, e: Event, u: Socket)
    requires e.packet.request.QuitSession?
    ensures Got(s, e, u) == if u == e.socket && ParseOid(e.packet.request.board).Some?
                            then [ActionResponse(e.packet.id, true, "Quit session successfully")] else []
  {
    hide ParseOid, Received, Then, PullActive;
    var key := e.packet.request.board;
    var x := NOTHING.(session := Leave(key));
    var oid := ParseOid(key);
    GotNothing(Closing(x), u);
    if oid.Some? {
      var y := if oid.value !in s.boards then x
               else
                 var b := PullActive(s.boards[oid.value], ToInt32(e.packet.request.user));
                 x.(board := if b.active == Some([]) then Drop(oid.value) else Put(oid.value, b));
      GotOne(y, e.socket, ActionResponse(e.packet.id, true, "Quit session successfully"), u);
    }
  }

  lemma ActivesPulled(b: Board, x: int)
    ensures var p := PullActive(b, x);
            && p.owner == b.owner && p.elements == b.elements && (p.active.Some? <==> b.active.Some?)
            && Actives(p) == Actives(b) - {x}
            && (p.active == Some([]) <==> b.active.Some? && Actives(b) <= {x})
  {
    if b.active.Some? {
      var l := Pull(b.active.value, x);
      if l != [] {
        assert l[0] in Actives(b) && l[0] != x;
      }
    }
  }

  // ---------------------------------------------------------------- add and modify

  lemma GotBroadcast(x: Effect, s: State, key: string, o: string, elements: seq<string>, u: Socket)
    ensures var y := ThenBroadcast(x, s, key, o, elements);
            && Received(y.sends, u)
               == Received(x.sends, u) + (if u in Members(s.sessions, key) then [ElementList(o, elements)] else [])
            && y.board == x.board && y.session == x.session
  {
    hide Then, Received;
    if key in s.sessions {
      GotThen(x, s.sessions[key], ElementList(o, elements), u);
      ThenKeeps(x, s.sessions[key], ElementList(o, elements));
    }
  }

  /** Who may add: the owner and the active users. */
  predicate Entitled(b: Board, user: int) {
    b.owner == user || user in Actives(b)
  }

  /**
   An addition by somebody entitled puts the element last on the board and sends the board to the
   session's sockets, after the answer; one by somebody else sends the board as it is, unanswered.
   */
  lemma AddAchieves(s: State, e: Event, u: Socket)
    requires e.packet.request.AddElement?
    ensures var user, key, x := e.packet.request.user, e.packet.request.board, e.packet.request.element;
            var oid := ParseOid(key);
            var s' := Step(s, e);
            && s'.sessions == s.sessions
            && if oid.Some? && oid.value in s.boards then
                 var b := s.boards[oid.value];
                 var may := Entitled(b, ToInt32(user));
                 var after := if may then b.elements + [x] else b.elements;
                 && oid.value in s'.boards && s'.boards[oid.value] == Board(b.owner, after, b.active)
                 && Got(s, e, u)
                    == (if may && u == e.socket
                        then [ActionResponse(e.packet.id, true, "Element added successfully")] else [])
                     + (if u in Members(s.sessions, key) then [ElementList(oid.value, after)] else [])
               else
                 && s'.boards == s.boards
                 && NoSuccess(Got(s, e, u)) && |Got(s, e, u)| == (if u == e.socket && oid.Some? then 1 else 0)
  {
    StepParts(s, e);
    hide Step, ParseOid, Received, Then, ThenBroadcast, ToInt32;
    var t, id, r := e.socket, e.packet.id, e.packet.request;
    var key := r.board;
    var oid := ParseOid(key);
    if oid.None? {
      GotNothing(Closing(NOTHING), u);
    } else if oid.value !in s.boards {
      var m := ActionResponse(id, false, "User is not authorized to add element or whiteboard not found");
      GotOne(NOTHING, t, m, u);
      ThenKeeps(NOTHING, {t}, m);
    } else {
      AddFound(s, e, oid.value, u);
    }
  }

  lemma AddFound(s: State, e: Event, o: string, u: Socket)
    requires e.packet.request.AddElement? && ParseOid(e.packet.request.board) == Some(o) && o in s.boards
    ensures var user, key, x := e.packet.request.user, e.packet.request.board, e.packet.request.element;
            var b := s.boards[o];
            var may := Entitled(b, ToInt32(user));
            var after := if may then b.elements + [x] else b.elements;
            && EffectOf(s, e).session == SameSessions
            && EffectOf(s, e).board == (if may then Put(o, Board(b.owner, after, b.active)) else SameBoards)
            && Got(s, e, u) == (if may && u == e.socket
                                then [ActionResponse(e.packet.id, true, "Element added successfully")] else [])
                             + (if u in Members(s.sessions, key) then [ElementList(o, after)] else [])
  {
    hide ParseOid, Received, Then, ThenBroadcast, ToInt32;
    var t, r := e.socket, e.packet.request;
    var b := s.boards[o];
    if Entitled(b, ToInt32(r.user)) {
      var x := NOTHING.(board := Put(o, b.(elements := b.elements + [r.element])));
      var m := ActionResponse(e.packet.id, true, "Element added successfully");
      GotOne(x, t, m, u);
      ThenKeeps(x, {t}, m);
      GotBroadcast(Then(x, {t}, m), s, r.board, o, b.elements + [r.element], u);
    } else {
      GotNothing(NOTHING, u);
      GotBroadcast(NOTHING, s, r.board, o, b.elements, u);
    }
  }

  /** The list is part of the other, in its order. */
  ghost predicate InOrder<T(!new)>(part: seq<T>, whole: seq<T>) {
    exists at: seq<nat> :: IsReading(part, whole, at)
  }

  predicate IsReading<T(==)>(part: seq<T>, whole: seq<T>, at: seq<nat>) {
    && |at| == |part| && Ascending(at)
    && forall i :: 0 <= i < |at| ==> at[i] < |whole| && part[i] == whole[at[i]]
  }

  /** Every copy of x is gone, y is last, and the rest is as it was, in its order. */
  ghost predicate Replaced(before: seq<string>, x: string, y: string, after: seq<string>) {
    && after != [] && after[|after| - 1] == y
    && multiset(after[..|after| - 1]) == multiset(before)[x := 0]
    && InOrder(after[..|after| - 1], before)
  }

  lemma ReplaceReplaces(before: seq<string>, x: string, y: string)
    ensures Replaced(before, x, y, Replace(before, x, y))
  {
    hide Pull;
    var kept := Pull(before, x);
    PullKeepsCounts(before, x);
    var at := PullKeepsOrder(before, x);
    assert IsReading(kept, before, at);
    assert Replace(before, x, y)[..|kept|] == kept;
  }

  /** Whether a modification is carried out. */
  predicate CarriedOut(s: State, e: Event) {
    && e.packet.request.ModifyElement? && !e.choice.updateThrows
    && var oid := ParseOid(e.packet.request.board);
    && oid.Some? && oid.value in s.boards
    && ToInt32(e.packet.request.user) in Actives(s.boards[oid.value])
    && e.packet.request.original in s.boards[oid.value].elements
  }

  /** One that is carried out replaces the element and sends the board to the session's sockets. */
  lemma ModifyAchieves(s: State, e: Event, u: Socket)
    requires CarriedOut(s, e)
    ensures var key := e.packet.request.board;
            var o := ParseOid(key).value;
            var b := s.boards[o];
            var s' := Step(s, e);
            && s'.sessions == s.sessions && o in s'.boards
            && s'.boards[o].owner == b.owner && s'.boards[o].active == b.active
            && Replaced(b.elements, e.packet.request.original, e.packet.request.element, s'.boards[o].elements)
            && Got(s, e, u) == (if u == e.socket
                                then [ActionResponse(e.packet.id, true, "Element modified successfully")] else [])
                             + (if u in Members(s.sessions, key) then [ElementList(o, s'.boards[o].elements)] else [])
  {
    StepParts(s, e);
    hide Step, ParseOid, Received, Then, ThenBroadcast, ToInt32, Replace, Replaced;
    var t, r := e.socket, e.packet.request;
    var o := ParseOid(r.board).value;
    var b := s.boards[o];
    var elements := Replace(b.elements, r.original, r.element);
    ReplaceReplaces(b.elements, r.original, r.element);
    var x := NOTHING.(board := Put(o, b.(elements := elements)));
    var m := ActionResponse(e.packet.id, true, "Element modified successfully");
    GotOne(x, t, m, u);
    ThenKeeps(x, {t}, m);
    GotBroadcast(Then(x, {t}, m), s, r.board, o, elements, u);
  }

  /** Any other changes nothing and is no success. */
  lemma ModifyRefused(s: State, e: Event, u: Socket)
    requires e.packet.request.ModifyElement? && !CarriedOut(s, e)
    ensures Step(s, e).boards == s.boards && Step(s, e).sessions == s.sessions
    ensures NoSuccess(Got(s, e, u))
  {
    StepParts(s, e);
    hide Step, ParseOid, Received, Then, ThenBroadcast, ToInt32, Replace;
    var t, id := e.socket, e.packet.id;
    var missing := ActionResponse(id, false, "User is not authorized to modify element or whiteboard not found");
    var unknown := ActionResponse(id, false, "Original element is not in the database");
    GotNothing(NOTHING, u);
    GotNothing(Closing(NOTHING), u);
    GotOne(NOTHING, t, missing, u);
    GotOne(NOTHING, t, unknown, u);
    ThenKeeps(NOTHING, {t}, missing);
    ThenKeeps(NOTHING, {t}, unknown);
  }
}
