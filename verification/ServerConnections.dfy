/**
 Connections and answers: exactly which requests end their connection, which are answered, and
 when the session map is left with a socket whose connection has ended.
 */
module ServerConnections {
  import opened Server
  import opened ServerStores
  import opened ServerReplicas
  import opened Wrappers

  // ---------------------------------------------------------------- the end of a connection

  predicate Malformed(board: string) {
    ParseOid(board).None?
  }

  predicate IsActive(b: Board, user: int) {
    b.active.Some? && user in b.active.value
  }

  /** An anonymous user whose document the database driver throws on. */
  predicate AssignmentThrows(user: uint32, c: Choice) {
    user == 0 && c.user.Thrown?
  }

  /** What ends a connection: the end of its stream, a malformed id, or an exception of the database. */
  predicate EndsConnection(s: State, e: Event) {
    match e.packet.request
    case CreateBoard(u) => AssignmentThrows(u, e.choice) || e.choice.board.Thrown?
    case OpenSession(_, b) => Malformed(b)
    case JoinSession(u, b) => AssignmentThrows(u, e.choice) || Malformed(b)
    case QuitSession(_, b) => Malformed(b)
    case AddElement(_, b, _) => Malformed(b)
    case ModifyElement(u, b, x, _) =>
      Malformed(b)
      || (var o := ParseOid(b).value;
          && o in s.boards && IsActive(s.boards[o], ToInt32(u)) && x in s.boards[o].elements
          && e.choice.updateThrows)
    case EndOfStream => true
    case _ => false
  }

  /** What the server leaves unanswered and goes on. */
  predicate Ignored(s: State, e: Event) {
    match e.packet.request
    case AddElement(u, b, _) =>
      var o := ParseOid(b);
      && o.Some? && o.value in s.boards
      && s.boards[o.value].owner != ToInt32(u) && !IsActive(s.boards[o.value], ToInt32(u))
    case ModifyElement(u, b, _, _) =>
      var o := ParseOid(b);
      o.Some? && o.value in s.boards && !IsActive(s.boards[o.value], ToInt32(u))
    case Login(n, _) =>
      var i := FindUser(s.users, n);
      i.Some? && s.users[i.value].salt.None?
    case DeleteElement(_, _, _) => true
    case SaveBoard(_) => true
    case _ => false
  }

  predicate Unanswered(s: State, e: Event) {
    EndsConnection(s, e) || Ignored(s, e)
  }

  // ---------------------------------------------------------------- answers

  /** What answers a request: a response, or the user id a registration or a login asked for. */
  predicate IsAnswer(m: Message) {
    m.ActionResponse? || (m.TempId? && m.asked)
  }

  function AnswerId(m: Message): uint32
    requires IsAnswer(m)
  {
    m.id
  }

  /** All answers among the deliveries go to t alone and carry the id. */
  predicate AnswersOnly(ds: seq<Delivery>, t: Socket, id: uint32) {
    forall i :: 0 <= i < |ds| && IsAnswer(ds[i].message) ==> ds[i].to == {t} && AnswerId(ds[i].message) == id
  }

  function CountAnswers(ds: seq<Delivery>): nat {
    if ds == [] then 0
    else CountAnswers(ds[..|ds| - 1]) + (if IsAnswer(ds[|ds| - 1].message) then 1 else 0)
  }

  /** Deliveries that answer the request as it should be, and an effect that ends what it should. */
  predicate AsTold(x: Effect, t: Socket, id: uint32, ends: bool, answered: bool) {
    && AnswersOnly(x.sends, t, id)
    && CountAnswers(x.sends) == (if answered then 1 else 0)
    && x.close == ends
  }

  lemma CountLast(ds: seq<Delivery>, d: Delivery)
    ensures CountAnswers(ds + [d]) == CountAnswers(ds) + (if IsAnswer(d.message) then 1 else 0)
  {
    assert (ds + [d])[..|ds|] == ds;
  }

  lemma ThenTold(x: Effect, ts: set<Socket>, m: Message, t: Socket, id: uint32, ends: bool)
    requires AsTold(x, t, id, ends, false)
    requires IsAnswer(m) ==> ts == {t} && AnswerId(m) == id
    ensures AsTold(Then(x, ts, m), t, id, ends, IsAnswer(m))
  {
    CountLast(x.sends, Delivery(ts, m));
  }

  lemma ListTold(x: Effect, ts: set<Socket>, m: Message, t: Socket, id: uint32, ends: bool, answered: bool)
    requires AsTold(x, t, id, ends, answered) && !IsAnswer(m)
    ensures AsTold(Then(x, ts, m), t, id, ends, answered)
  {
    CountLast(x.sends, Delivery(ts, m));
  }

  lemma QuietTold(x: Effect, t: Socket, id: uint32)
    requires x.sends == []
    ensures AsTold(x, t, id, x.close, false)
  {
  }

  lemma IdentifyTold(s: State, t: Socket, user: uint32, c: Choice, id: uint32)
    ensures AsTold(Identify(s, t, user, c), t, id, AssignmentThrows(user, c), false)
  {
    hide AsTold, Then;
    QuietTold(NOTHING, t, id);
    var x := NOTHING.(takesId := true,
                      user := if c.user.Stored? then Some(User(NextId(s), "", None, "")) else None);
    QuietTold(Closing(x), t, id);
    QuietTold(x, t, id);
    ThenTold(x, {t}, TempId(c.random, c.user.Stored?, NextId(s), false), t, id, false);
  }

  lemma CreateTold(s: State, t: Socket, id: uint32, user: uint32, c: Choice)
    ensures AsTold(HandleCreate(s, t, id, user, c), t, id, AssignmentThrows(user, c) || c.board.Thrown?,
                   !AssignmentThrows(user, c) && !c.board.Thrown?)
  {
    hide Identify, CountAnswers, AnswersOnly, Then;
    var x := Identify(s, t, user, c);
    IdentifyTold(s, t, user, c, id);
    if !x.close && !c.board.Thrown? {
      var y := if c.board.Stored? then x.(board := CreateDoc(c.newBoard, Board(Identity(s, user), [], None))) else x;
      ThenTold(y, {t}, ActionResponse(id, c.board.Stored?, if c.board.Stored? then c.newBoard
                                      else "Fail to create whiteboard document"), t, id, false);
    }
  }

  lemma JoinTold(s: State, t: Socket, id: uint32, user: uint32, board: string, c: Choice)
    ensures var ends := AssignmentThrows(user, c) || Malformed(board);
            AsTold(HandleJoin(s, t, id, user, board, c), t, id, ends, !ends)
  {
    hide Identify, Identity, CountAnswers, AnswersOnly, Then, ParseOid, AddToSet;
    var x := Identify(s, t, user, c);
    IdentifyTold(s, t, user, c, id);
    var oid := ParseOid(board);
    if !x.close && oid.Some? {
      var o := oid.value;
      if o !in s.boards {
        ThenTold(x, {t}, ActionResponse(id, false, "Whiteboard not found"), t, id, false);
      } else if s.boards[o].active.None? {
        ThenTold(x, {t}, ActionResponse(id, false, "Whiteboard is not in shared status"), t, id, false);
      } else {
        var b := s.boards[o];
        var y := x.(session := Enter(board, false),
                    board := Put(o, b.(active := Some(AddToSet(b.active.value, Identity(s, user))))));
        ListTold(y, {t}, ElementList(o, b.elements), t, id, false, false);
        ThenTold(Then(y, {t}, ElementList(o, b.elements)), {t}, ActionResponse(id, true, board), t, id, false);
      }
    }
  }

  /** One answer and nothing before it. */
  lemma OneTold(x: Effect, t: Socket, id: uint32, m: Message)
    requires x.sends == [] && !x.close && IsAnswer(m) && AnswerId(m) == id
    ensures AsTold(Then(x, {t}, m), t, id, false, true)
  {
    QuietTold(x, t, id);
    ThenTold(x, {t}, m, t, id, false);
  }

  lemma OpenTold(s: State, t: Socket, id: uint32, user: uint32, board: string)
    ensures AsTold(HandleOpen(s, t, id, user, board), t, id, Malformed(board), !Malformed(board))
  {
    hide CountAnswers, AnswersOnly, Then, ParseOid;
    var oid := ParseOid(board);
    if oid.None? {
      QuietTold(Closing(NOTHING), t, id);
    } else if oid.value !in s.boards {
      OneTold(NOTHING, t, id, ActionResponse(id, false, "Whiteboard not found"));
    } else if s.boards[oid.value].owner != ToInt32(user) {
      OneTold(NOTHING, t, id, ActionResponse(id, false, "User ID does not match"));
    } else {
      OneTold(NOTHING.(session := Enter(board, true),
                       board := Put(oid.value, s.boards[oid.value].(active := Some([ToInt32(user)])))),
              t, id, ActionResponse(id, true, "Session created successfully"));
    }
  }

  lemma QuitTold(s: State, t: Socket, id: uint32, user: uint32, board: string)
    ensures AsTold(HandleQuit(s, t, id, user, board), t, id, Malformed(board), !Malformed(board))
  {
    hide CountAnswers, AnswersOnly, Then, ParseOid, PullActive;
    var x := NOTHING.(session := Leave(board));
    var oid := ParseOid(board);
    if oid.None? {
      QuietTold(Closing(x), t, id);
    } else {
      var y := if oid.value !in s.boards then x
               else
                 var b := PullActive(s.boards[oid.value], ToInt32(user));
                 x.(board := if b.active == Some([]) then Drop(oid.value) else Put(oid.value, b));
      OneTold(y, t, id, ActionResponse(id, true, "Quit session successfully"));
    }
  }

  lemma BroadcastTold(x: Effect, s: State, key: string, o: string, elements: seq<string>,
                      t: Socket, id: uint32, ends: bool, answered: bool)
    requires AsTold(x, t, id, ends, answered)
    ensures AsTold(ThenBroadcast(x, s, key, o, elements), t, id, ends, answered)
  {
    hide AsTold, Then;
    if key in s.sessions {
      ListTold(x, s.sessions[key], ElementList(o, elements), t, id, ends, answered);
    }
  }

  lemma AddTold(s: State, e: Event)
    requires e.packet.request.AddElement?
    ensures AsTold(EffectOf(s, e), e.socket, e.packet.id, EndsConnection(s, e), !Unanswered(s, e))
  {
    hide AsTold, Then, ParseOid, ThenBroadcast;
    var t, id, r := e.socket, e.packet.id, e.packet.request;
    var oid := ParseOid(r.board);
    if oid.None? {
      QuietTold(Closing(NOTHING), t, id);
    } else if oid.value !in s.boards {
      OneTold(NOTHING, t, id, ActionResponse(id, false,
        "User is not authorized to add element or whiteboard not found"));
    } else {
      var o, b := oid.value, s.boards[oid.value];
      if MayAdd(b, ToInt32(r.user)) {
        var x := NOTHING.(board := Put(o, b.(elements := b.elements + [r.element])));
        OneTold(x, t, id, ActionResponse(id, true, "Element added successfully"));
        BroadcastTold(Then(x, {t}, ActionResponse(id, true, "Element added successfully")), s, r.board, o,
                      b.elements + [r.element], t, id, false, true);
      } else {
        QuietTold(NOTHING, t, id);
        BroadcastTold(NOTHING, s, r.board, o, b.elements, t, id, false, false);
      }
    }
  }

  lemma ModifyTold(s: State, e: Event)
    requires e.packet.request.ModifyElement?
    ensures AsTold(EffectOf(s, e), e.socket, e.packet.id, EndsConnection(s, e), !Unanswered(s, e))
  {
    hide AsTold, Then, ParseOid, ThenBroadcast, Replace;
    var t, id, r := e.socket, e.packet.id, e.packet.request;
    var oid := ParseOid(r.board);
    if oid.None? {
      QuietTold(Closing(NOTHING), t, id);
    } else {
      if oid.value !in s.boards {
        OneTold(NOTHING, t, id, ActionResponse(id, false,
          "User is not authorized to modify element or whiteboard not found"));
      } else {
        ModifyFoundTold(s, e, oid.value);
      }
    }
  }

  lemma ModifyFoundTold(s: State, e: Event, o: string)
    requires e.packet.request.ModifyElement? && ParseOid(e.packet.request.board) == Some(o) && o in s.boards
    ensures AsTold(EffectOf(s, e), e.socket, e.packet.id, EndsConnection(s, e), !Unanswered(s, e))
  {
    hide AsTold, Then, ParseOid, ThenBroadcast, Replace;
    var t, id, r := e.socket, e.packet.id, e.packet.request;
    var b := s.boards[o];
    if b.active.None? || ToInt32(r.user) !in b.active.value {
      QuietTold(NOTHING, t, id);
    } else if r.original !in b.elements {
      OneTold(NOTHING, t, id, ActionResponse(id, false, "Original element is not in the database"));
    } else if e.choice.updateThrows {
      QuietTold(Closing(NOTHING), t, id);
    } else {
      var elements := Replace(b.elements, r.original, r.element);
      var x := NOTHING.(board := Put(o, b.(elements := elements)));
      OneTold(x, t, id, ActionResponse(id, true, "Element modified successfully"));
      BroadcastTold(Then(x, {t}, ActionResponse(id, true, "Element modified successfully")), s, r.board, o,
                    elements, t, id, false, true);
    }
  }

  lemma RegisterTold(s: State, t: Socket, id: uint32, name: string, hash: string, c: Choice)
    ensures AsTold(HandleRegister(s, t, id, name, hash, c), t, id, false, true)
  {
    hide AsTold, Then, FindUser, SaltedHash;
    var x := NOTHING.(takesId := true);
    OneTold(NOTHING, t, id, ActionResponse(id, false, "Username already exists"));
    OneTold(x.(user := Some(User(NextId(s), name, Some(c.salt), SaltedHash(c.salt, hash)))),
            t, id, TempId(id, true, NextId(s), true));
    OneTold(x, t, id, ActionResponse(id, false, "Failed to register user"));
    OneTold(x, t, id, ActionResponse(id, false, "Exception occurred while registering user"));
  }

  lemma LoginTold(s: State, t: Socket, id: uint32, name: string, hash: string)
    ensures var i := FindUser(s.users, name);
            AsTold(HandleLogin(s, t, id, name, hash), t, id, false, !(i.Some? && s.users[i.value].salt.None?))
  {
    hide AsTold, Then, FindUser, SaltedHash;
    QuietTold(NOTHING, t, id);
    var i := FindUser(s.users, name);
    if i.Some? {
      OneTold(NOTHING, t, id, TempId(id, true, s.users[i.value].id, true));
      OneTold(NOTHING, t, id, ActionResponse(id, false, "Invalid username or password"));
    } else {
      OneTold(NOTHING, t, id, ActionResponse(id, false, "User not exist"));
    }
  }

  /**
   Every request gets exactly one answer, to its sender and under its number, unless it is one of
   the unanswered; and the connection ends with exactly the requests named above.
   */
  lemma AnsweredExactly(s: State, e: Event)
    ensures AsTold(EffectOf(s, e), e.socket, e.packet.id, EndsConnection(s, e), !Unanswered(s, e))
  {
    hide AsTold, ParseOid, FindUser, HandleCreate, HandleOpen, HandleJoin, HandleQuit, HandleAdd, HandleModify,
      HandleRegister, HandleLogin;
    var t, id := e.socket, e.packet.id;
    QuietTold(NOTHING, t, id);
    QuietTold(Closing(NOTHING), t, id);
    match e.packet.request {
      case CreateBoard(u) => CreateTold(s, t, id, u, e.choice);
      case OpenSession(u, b) => OpenTold(s, t, id, u, b);
      case JoinSession(u, b) => JoinTold(s, t, id, u, b, e.choice);
      case QuitSession(u, b) => QuitTold(s, t, id, u, b);
      case AddElement(_, _, _) => AddTold(s, e);
      case ModifyElement(_, _, _, _) => ModifyTold(s, e);
      case Register(n, h) => RegisterTold(s, t, id, n, h, e.choice);
      case Login(n, h) => LoginTold(s, t, id, n, h);
      case DeleteElement(_, _, _) =>
      case SaveBoard(_) =>
      case EndOfStream =>
    }
  }

  // ---------------------------------------------------------------- sockets whose connection has ended

  /** Every registered socket is connected. */
  predicate AllConnected(s: State) {
    forall k :: k in s.sessions ==> s.sessions[k] * s.closed == {}
  }

  predicate Registered(s: State, t: Socket) {
    exists k :: k in s.sessions && t in s.sessions[k]
  }

  /** The sender's connection ends while it is registered under some key. */
  predicate Dangles(s: State, e: Event) {
    EndsConnection(s, e) && Registered(s, e.socket)
  }

  lemma EndsWithoutSession(s: State, e: Event)
    requires EffectOf(s, e).close
    ensures var x := EffectOf(s, e).session; x == SameSessions || (x.Leave? && ParseOid(x.key).None?)
  {
    hide ParseOid, FindUser, SaltedHash, Pull, AddToSet, Replace, MayAdd, HandleAdd, HandleModify;
    match e.packet.request {
      case AddElement(_, _, _) => AddSession(s, e);
      case ModifyElement(_, _, _, _) => ModifySession(s, e);
      case _ =>
    }
  }

  lemma AddSession(s: State, e: Event)
    requires e.packet.request.AddElement?
    ensures EffectOf(s, e).session == SameSessions
  {
    hide ParseOid, MayAdd;
  }

  lemma ModifySession(s: State, e: Event)
    requires e.packet.request.ModifyElement?
    ensures EffectOf(s, e).session == SameSessions
  {
    hide ParseOid, Replace;
  }

  /**
   A request leaves every registered socket connected exactly when it does not end the connection
   of a registered one.
   */
  lemma AllConnectedExactly(s: State, e: Event)
    requires AllConnected(s) && KeysOk(s) && Possible(s, e)
    ensures AllConnected(Step(s, e)) <==> !Dangles(s, e)
  {
    hide EffectOf, EndsConnection, ParseOid, ChangeBoards, ChangeMarks, DeliverAll, AsTold;
    AnsweredExactly(s, e);
    EndsAsTold(s, e);
    var s' := Step(s, e);
    if EndsConnection(s, e) {
      EndsWithoutSession(s, e);
      assert s'.sessions == s.sessions;
      if Registered(s, e.socket) {
        var k :| k in s.sessions && e.socket in s.sessions[k];
        assert e.socket in s'.sessions[k] * s'.closed;
      }
    }
  }

  lemma EndsAsTold(s: State, e: Event)
    requires AsTold(EffectOf(s, e), e.socket, e.packet.id, EndsConnection(s, e), !Unanswered(s, e))
    ensures EffectOf(s, e).close <==> EndsConnection(s, e)
  {
  }

  /** Nobody else can take a socket out of a session, and its own connection is gone. */
  lemma {:induction false} DanglesForGood(s: State, es: seq<Event>, k: string, t: Socket)
    requires Run(s, es) && t in Members(s.sessions, k) && t in s.closed
    ensures t in Members(After(s, es).sessions, k) && t in After(s, es).closed
    decreases |es|
  {
    hide EffectOf, ChangeBoards, ChangeMarks, DeliverAll, Canonical;
    if es != [] {
      DanglesForGood(Step(s, es[0]), es[1..], k, t);
    }
  }

  /** No request of the run ends the connection of a registered socket. */
  predicate QuitsFirst(s: State, es: seq<Event>)
    decreases |es|
  {
    es == [] || (!Dangles(s, es[0]) && QuitsFirst(Step(s, es[0]), es[1..]))
  }

  lemma {:induction false} ConnectedRun(s: State, es: seq<Event>)
    requires AllConnected(s) && KeysOk(s) && BoardsOk(s) && Run(s, es)
    ensures AllConnected(After(s, es)) <==> QuitsFirst(s, es)
    decreases |es|
  {
    hide KeysOk, BoardsOk, Step, Possible, Dangles, AllConnected;
    if es != [] {
      var s1 := Step(s, es[0]);
      AllConnectedExactly(s, es[0]);
      if Dangles(s, es[0]) {
        var k, t := Dangling(s1);
        DanglesForGood(s1, es[1..], k, t);
        StillDangling(After(s1, es[1..]), k, t);
      } else {
        KeysStep(s, es[0]);
        BoardsStep(s, es[0]);
        ConnectedRun(s1, es[1..]);
      }
    }
  }

  lemma Dangling(s: State) returns (k: string, t: Socket)
    requires !AllConnected(s)
    ensures t in Members(s.sessions, k) && t in s.closed
  {
    k :| k in s.sessions && s.sessions[k] * s.closed != {};
    t :| t in s.sessions[k] * s.closed;
  }

  lemma StillDangling(s: State, k: string, t: Socket)
    requires t in Members(s.sessions, k) && t in s.closed
    ensures !AllConnected(s)
  {
    assert t in s.sessions[k] * s.closed;
  }

  /**
   After any run, every socket the server would broadcast to is connected, if and only if every
   connection that ended had quit its sessions first.
   */
  lemma ConnectedExactly(es: seq<Event>)
    requires Run(START, es)
    ensures AllConnected(After(START, es)) <==> QuitsFirst(START, es)
  {
    StartAgrees(o => o);
    ConnectedRun(START, es);
  }
}
