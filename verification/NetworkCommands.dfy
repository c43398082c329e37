/**
 What each command of a client achieves: the client sends the request, the server handles it, and the
 client reads everything it was sent for it.
 */
module NetworkCommands {
  import opened HexText
  import opened Server
  import opened ServerAccounts
  import opened ServerConnections
  import opened ServerLaws
  import opened ServerReplicas
  import opened ServerStores
  import opened Client
  import opened Network
  import opened NetworkReplicas
  import opened Wrappers
  import Sha256Spec

  // ---------------------------------------------------------------- one turn of a client

  /** The client is connected, the server has handled all it sent, and it has read all it was sent. */
  predicate Idle(n: Net, t: Socket) {
    && WellFormed(n) && NetOk(n) && t in n.clients && t !in n.left && t !in n.server.closed
    && n.pending[t] == [] && n.read[t] == |Sent(n.server.outbox, t)|
    && |n.issued[t]| + 1 < 0x1_0000_0000
  }

  /** The request of a command, as the server finds it. */
  function Asked(n: Net, t: Socket, command: Command, c: Choice): Event
    requires t in n.clients
  {
    Event(t, PacketFor(n.clients[t], command), c)
  }

  /** The client reads what it has been sent. */
  function ReadAll(n: Net, t: Socket, garbage: uint32): (r: Net)
    requires WellFormed(n) && t in n.clients && t !in n.left && n.read[t] <= |Sent(n.server.outbox, t)|
    ensures WellFormed(r) && r.clients.Keys == n.clients.Keys && r.server == n.server
    decreases |Sent(n.server.outbox, t)| - n.read[t]
  {
    if n.read[t] == |Sent(n.server.outbox, t)| then n else ReadAll(Moved(n, ClientReads(t, garbage)), t, garbage)
  }

  function Fold(c: ClientState, ms: seq<Message>, garbage: uint32): ClientState
    decreases |ms|
  {
    if ms == [] then c else Fold(Read(c, ms[0], garbage), ms[1..], garbage)
  }

  lemma {:induction false} ReadAllFolds(n: Net, t: Socket, garbage: uint32)
    requires WellFormed(n) && t in n.clients && t !in n.left && n.read[t] <= |Sent(n.server.outbox, t)|
    ensures ReadAll(n, t, garbage).clients[t]
         == Fold(n.clients[t], Sent(n.server.outbox, t)[n.read[t]..], garbage)
    decreases |Sent(n.server.outbox, t)| - n.read[t]
  {
    hide Read, Sent;
    var sent := Sent(n.server.outbox, t);
    if n.read[t] < |sent| {
      ReadAllFolds(Moved(n, ClientReads(t, garbage)), t, garbage);
      assert sent[n.read[t]..][0] == sent[n.read[t]] && sent[n.read[t]..][1..] == sent[n.read[t] + 1..];
    }
  }

  lemma SentByStep(s: State, e: Event, t: Socket)
    ensures Sent(Step(s, e).outbox, t) == Sent(s.outbox, t) + Got(s, e, t)
  {
    hide EffectOf, ChangeBoards, ChangeSessions, ChangeMarks, DeliverAll, Sent, Received;
    SentAfter(s.outbox, EffectOf(s, e).sends, t);
  }

  lemma Queueing(n: Net, t: Socket, command: Command, c: Choice)
    requires Idle(n, t) && Possible(n.server, Asked(n, t, command, c))
    ensures CanMove(n, ClientSends(t, command))
    ensures var r := Moved(n, ClientSends(t, command));
            CanMove(r, ServerHandles(t, c)) && r.pending[t] == [PacketFor(n.clients[t], command)]
  {
    hide NetOk, Possible, Step, Sent, SendCommand, PacketFor, RequestOf;
  }

  /** The net after the request is sent and handled. */
  function Served(n: Net, t: Socket, command: Command, c: Choice): Net
    requires Idle(n, t) && Possible(n.server, Asked(n, t, command, c))
  {
    hide NetOk, Possible, Step, Sent, SendCommand, PacketFor, RequestOf, Unanswered, Idle, CanMove, Asked;
    Queueing(n, t, command, c);
    Moved(Moved(n, ClientSends(t, command)), ServerHandles(t, c))
  }

  lemma ServedIs(n: Net, t: Socket, command: Command, c: Choice)
    requires Idle(n, t) && Possible(n.server, Asked(n, t, command, c))
    ensures var r := Served(n, t, command, c);
            && WellFormed(r) && t in r.clients && t !in r.left
            && r.read[t] == n.read[t] && r.server == Step(n.server, Asked(n, t, command, c))
            && r.clients[t] == SendCommand(n.clients[t], command)
  {
    hide NetOk, Possible, Step, Sent, SendCommand, PacketFor, RequestOf, Unanswered, CanMove;
    Queueing(n, t, command, c);
  }

  /** The net after a turn. */
  function Turn(n: Net, t: Socket, command: Command, c: Choice, garbage: uint32): (r: Net)
    requires Idle(n, t) && Possible(n.server, Asked(n, t, command, c))
    ensures WellFormed(r) && t in r.clients
  {
    hide NetOk, Possible, Step, Sent, Served;
    SentByStep(n.server, Asked(n, t, command, c), t);
    ServedIs(n, t, command, c);
    ReadAll(Served(n, t, command, c), t, garbage)
  }

  /** A turn is the server's step on the client's request and the client's reading of what that sent it. */
  lemma TurnIs(n: Net, t: Socket, command: Command, c: Choice, garbage: uint32)
    requires Idle(n, t) && Possible(n.server, Asked(n, t, command, c))
    ensures var r := Turn(n, t, command, c, garbage);
            var e := Asked(n, t, command, c);
            && r.server == Step(n.server, e)
            && r.clients[t] == Fold(SendCommand(n.clients[t], command), Got(n.server, e, t), garbage)
  {
    hide NetOk, Possible, Step, EffectOf, Sent, Received, Served, SendCommand, Fold;
    var e := Asked(n, t, command, c);
    SentByStep(n.server, e, t);
    ServedIs(n, t, command, c);
    var sent, got := Sent(n.server.outbox, t), Got(n.server, e, t);
    assert (sent + got)[|sent|..] == got;
    ReadAllFolds(Served(n, t, command, c), t, garbage);
  }

  // ---------------------------------------------------------------- reading

  lemma {:induction false} FoldAppend(c: ClientState, a: seq<Message>, b: seq<Message>, garbage: uint32)
    ensures Fold(c, a + b, garbage) == Fold(Fold(c, a, garbage), b, garbage)
    decreases |a|
  {
    hide Read;
    if a == [] {
      assert a + b == b;
    } else {
      assert (a + b)[0] == a[0] && (a + b)[1..] == a[1..] + b;
      FoldAppend(Read(c, a[0], garbage), a[1..], b, garbage);
    }
  }

  lemma FoldOne(c: ClientState, m: Message, garbage: uint32)
    ensures Fold(c, [m], garbage) == Read(c, m, garbage)
  {
    hide Read;
    assert [m][1..] == [];
  }

  lemma FoldTwo(c: ClientState, m1: Message, m2: Message, garbage: uint32)
    ensures Fold(c, [m1, m2], garbage) == Read(Read(c, m1, garbage), m2, garbage)
  {
    hide Read;
    assert [m1, m2][1..] == [m2];
    FoldOne(Read(c, m1, garbage), m2, garbage);
  }

  /** The client's user after the packet that gives an anonymous one an id. */
  predicate Given(before: ClientState, after: ClientState, s: State, c: Choice) {
    && after.sendQueue == before.sendQueue && after.board == before.board
    && after.user == (if before.user == 0 && c.user.Stored? then NextId(s) % 0x1_0000_0000 else before.user)
  }

  lemma ReadIntroduction(k: ClientState, s: State, c: Choice, garbage: uint32)
    ensures Given(k, Fold(k, Introduction(s, k.user, c), garbage), s, c)
  {
    if k.user == 0 {
      FoldOne(k, TempId(c.random, c.user.Stored?, NextId(s), false), garbage);
    }
  }

  /** A response is read by the type remembered under its number. */
  lemma ReadResponse(k: ClientState, id: uint32, success: bool, text: string, garbage: uint32)
    ensures var r := Read(k, ActionResponse(id, success, text), garbage);
            var kind := LookUp(k, id);
            && r.user == k.user
            && r.board == (if success && (kind == CreateKind || kind == JoinKind) then text else k.board)
  {
  }

  lemma ReadList(k: ClientState, o: string, elements: seq<string>, garbage: uint32)
    ensures var r := Read(k, ElementList(o, elements), garbage);
            && r.user == k.user && r.board == k.board && r.sendQueue == k.sendQueue
            && r.received == k.received + [ElementList(o, elements)]
  {
  }

  lemma LastListRead(k: ClientState, o: string, elements: seq<string>, id: uint32, text: string, garbage: uint32)
    ensures var k1 := Read(k, ElementList(o, elements), garbage);
            LastList(Read(k1, ActionResponse(id, true, text), garbage).received, o) == Some(elements)
  {
    hide LookUp;
    ReadList(k, o, elements, garbage);
    OneList(k.received, ElementList(o, elements), o);
    var k1 := Read(k, ElementList(o, elements), garbage);
    OneList(k1.received, ActionResponse(garbage, true, text), o);
  }

  /** What a command remembers. */
  lemma Remembered(k: ClientState, command: Command)
    ensures var r := SendCommand(k, command);
            && LookUp(r, NextNumber(k.counter)) == KindOf(RequestOf(k, command))
            && r.user == k.user && r.board == k.board && r.received == k.received
  {
    hide RequestOf, KindOf;
  }

  lemma SameLookUp(k: ClientState, r: ClientState, id: uint32)
    requires r.sendQueue == k.sendQueue
    ensures LookUp(r, id) == LookUp(k, id)
  {
  }

  // ---------------------------------------------------------------- the commands

  /** The id a request by an anonymous client is given is stored, and fits the wire and an int. */
  predicate Identified(n: Net, t: Socket, c: Choice)
    requires t in n.clients
  {
    n.clients[t].user == 0 ==> c.user.Stored? && 0 <= NextId(n.server) < 0x8000_0000
  }

  lemma GivenUser(k: ClientState, after: ClientState, s: State, c: Choice)
    requires Given(k, after, s, c)
    requires k.user == 0 ==> c.user.Stored? && 0 <= NextId(s) < 0x8000_0000
    ensures ToInt32(after.user) == UserAfter(k.user, Introduction(s, k.user, c))
  {
  }

  lemma UserIsIntroduced(user: uint32, s: State, c: Choice, rest: seq<Message>)
    ensures user == 0 ==> UserAfter(user, Introduction(s, user, c) + rest) == UserAfter(user, Introduction(s, user, c))
    ensures user != 0 ==> UserAfter(user, Introduction(s, user, c) + rest) == ToInt32(user)
  {
  }

  lemma GivenParts(k: ClientState, after: ClientState, s: State, c: Choice)
    requires Given(k, after, s, c)
    ensures after.sendQueue == k.sendQueue && after.board == k.board && (k.user != 0 ==> after.user == k.user)
    ensures k.user != 0 ==> ToInt32(after.user) == ToInt32(k.user)
  {
    hide ToInt32;
  }

  lemma NewIsNew(n: Net, e: Event)
    requires WellFormed(n) && NetOk(n) && Possible(n.server, e)
    ensures e.choice.newBoard !in n.server.boards
  {
    hide Canonical, ActiveOk;
  }

  /** The client after the first packets of an answer: the user it then is, and all else as it was. */
  lemma AfterIntroduction(n: Net, t: Socket, command: Command, c: Choice, rest: seq<Message>, garbage: uint32)
    returns (k: ClientState)
    requires t in n.clients && Identified(n, t, c)
    ensures var was := n.clients[t];
            var ms := Introduction(n.server, was.user, c) + rest;
            && Fold(SendCommand(was, command), ms, garbage) == Fold(k, rest, garbage)
            && ToInt32(k.user) == UserAfter(was.user, ms) && (was.user != 0 ==> k.user == was.user)
            && k.board == was.board
            && LookUp(k, NextNumber(was.counter)) == KindOf(RequestOf(was, command))
  {
    hide Fold, Read, Given, SendCommand, UserAfter, Introduction, ToInt32, LookUp, KindOf, RequestOf;
    var was, s := n.clients[t], n.server;
    var k1 := SendCommand(was, command);
    Remembered(was, command);
    k := Fold(k1, Introduction(s, was.user, c), garbage);
    ReadIntroduction(k1, s, c, garbage);
    GivenUser(k1, k, s, c);
    UserIsIntroduced(was.user, s, c, rest);
    FoldAppend(k1, Introduction(s, was.user, c), rest, garbage);
    GivenParts(k1, k, s, c);
    SameLookUp(k1, k, NextNumber(was.counter));
  }

  /** After a create, the client is on a new board, empty and owned by the user the client then is. */
  lemma CreateCommand(n: Net, t: Socket, c: Choice, garbage: uint32)
    requires Idle(n, t) && Possible(n.server, Asked(n, t, Create, c))
    requires c.board.Stored? && Identified(n, t, c)
    ensures var r := Turn(n, t, Create, c, garbage);
            var k := r.clients[t];
            && k.board == c.newBoard && k.board !in n.server.boards && k.board in r.server.boards
            && r.server.boards[k.board] == Board(ToInt32(k.user), [], None)
            && (n.clients[t].user != 0 ==> k.user == n.clients[t].user)
  {
    hide Turn, NetOk, Possible, Step, Got, Fold, Read, SendCommand, UserAfter, Introduction, ToInt32, LookUp;
    var s, e := n.server, Asked(n, t, Create, c);
    TurnIs(n, t, Create, c, garbage);
    CreateAchieves(s, e, t);
    var m := ActionResponse(e.packet.id, true, c.newBoard);
    var k := AfterIntroduction(n, t, Create, c, [m], garbage);
    FoldOne(k, m, garbage);
    ReadResponse(k, e.packet.id, true, c.newBoard, garbage);
    NewIsNew(n, e);
  }

  /** After an open by the owner, the socket is in the session and the owner is the only active user. */
  lemma OpenCommand(n: Net, t: Socket, c: Choice, o: string, garbage: uint32)
    requires Idle(n, t) && Possible(n.server, Asked(n, t, Open, c))
    requires ParseOid(n.clients[t].board) == Some(o) && o in n.server.boards
    requires n.server.boards[o].owner == ToInt32(n.clients[t].user)
    ensures var r := Turn(n, t, Open, c, garbage);
            var k := r.clients[t];
            && k.board == n.clients[t].board && k.user == n.clients[t].user
            && t in Members(r.server.sessions, k.board)
            && o in r.server.boards && r.server.boards[o].active == Some([ToInt32(k.user)])
            && r.server.boards[o].elements == n.server.boards[o].elements
  {
    hide Turn, NetOk, Possible, Step, Got, Fold, Read, SendCommand, ToInt32, LookUp, ParseOid;
    var was, e := n.clients[t], Asked(n, t, Open, c);
    TurnIs(n, t, Open, c, garbage);
    OpenAchieves(n.server, e, t);
    Remembered(was, Open);
    var k := SendCommand(was, Open);
    FoldOne(k, ActionResponse(e.packet.id, true, "Session created successfully"), garbage);
    ReadResponse(k, e.packet.id, true, "Session created successfully", garbage);
  }

  /**
   After a join of a board with an active list, the client is on that board, its socket in the session
   under the text it gave, the user it then is active, and the last list it has read the board.
   */
  lemma JoinCommand(n: Net, t: Socket, b: string, c: Choice, o: string, garbage: uint32)
    requires Idle(n, t) && Possible(n.server, Asked(n, t, Join(b), c)) && Identified(n, t, c)
    requires ParseOid(b) == Some(o) && o in n.server.boards && n.server.boards[o].active.Some?
    ensures var r := Turn(n, t, Join(b), c, garbage);
            var k := r.clients[t];
            && k.board == b && (n.clients[t].user != 0 ==> k.user == n.clients[t].user)
            && t in Members(r.server.sessions, b)
            && o in r.server.boards && r.server.boards[o].elements == n.server.boards[o].elements
            && Actives(r.server.boards[o]) == Actives(n.server.boards[o]) + {ToInt32(k.user)}
            && LastList(k.received, o) == Some(r.server.boards[o].elements)
  {
    hide Turn, NetOk, Possible, Step, Got, Fold, Read, SendCommand, UserAfter, Introduction, ToInt32, LookUp,
      ParseOid, LastList;
    var s, e := n.server, Asked(n, t, Join(b), c);
    TurnIs(n, t, Join(b), c, garbage);
    JoinAchieves(s, e, t);
    var l, m := ElementList(o, s.boards[o].elements), ActionResponse(e.packet.id, true, b);
    var k := AfterIntroduction(n, t, Join(b), c, [l, m], garbage);
    FoldTwo(k, l, m, garbage);
    ReadList(k, o, s.boards[o].elements, garbage);
    SameLookUp(k, Read(k, l, garbage), e.packet.id);
    ReadResponse(Read(k, l, garbage), e.packet.id, true, b, garbage);
    LastListRead(k, o, s.boards[o].elements, e.packet.id, b, garbage);
  }

  /**
   After an addition by a client entitled to it, the element is the last on the board it is on, the
   others are as they were, and a client in the session has read that.
   */
  lemma AddCommand(n: Net, t: Socket, x: string, c: Choice, o: string, garbage: uint32)
    requires Idle(n, t) && Possible(n.server, Asked(n, t, Add(x), c))
    requires ParseOid(n.clients[t].board) == Some(o) && o in n.server.boards
    requires Entitled(n.server.boards[o], ToInt32(n.clients[t].user))
    ensures var r := Turn(n, t, Add(x), c, garbage);
            var k := r.clients[t];
            && k.board == n.clients[t].board && k.user == n.clients[t].user
            && o in r.server.boards && r.server.boards[o].elements == n.server.boards[o].elements + [x]
            && (t in Members(n.server.sessions, k.board) ==>
                  LastList(k.received, o) == Some(r.server.boards[o].elements))
  {
    hide Turn, NetOk, Possible, Step, Got, Fold, Read, SendCommand, ToInt32, LookUp, ParseOid, LastList, Entitled;
    var was, e := n.clients[t], Asked(n, t, Add(x), c);
    TurnIs(n, t, Add(x), c, garbage);
    AddAchieves(n.server, e, t);
    Remembered(was, Add(x));
    var k := SendCommand(was, Add(x));
    var elements := n.server.boards[o].elements + [x];
    var m, l := ActionResponse(e.packet.id, true, "Element added successfully"), ElementList(o, elements);
    var k1 := Read(k, m, garbage);
    ReadResponse(k, e.packet.id, true, "Element added successfully", garbage);
    if t in Members(n.server.sessions, was.board) {
      assert [m] + [l] == [m, l];
      FoldTwo(k, m, l, garbage);
      ReadList(k1, o, elements, garbage);
      OneList(k1.received, l, o);
    } else {
      assert [m] + [] == [m];
      FoldOne(k, m, garbage);
    }
  }

  /** After a quit, the socket is not in the session of the client's board, nor its user active there. */
  lemma QuitCommand(n: Net, t: Socket, c: Choice, o: string, garbage: uint32)
    requires Idle(n, t) && Possible(n.server, Asked(n, t, Quit, c))
    requires ParseOid(n.clients[t].board) == Some(o)
    ensures var r := Turn(n, t, Quit, c, garbage);
            var k := r.clients[t];
            && k.board == n.clients[t].board && k.user == n.clients[t].user
            && Members(r.server.sessions, k.board) == Members(n.server.sessions, k.board) - {t}
            && (o in n.server.boards ==>
                  if o in r.server.boards
                  then Actives(r.server.boards[o]) == Actives(n.server.boards[o]) - {ToInt32(k.user)}
                  else Actives(n.server.boards[o]) <= {ToInt32(k.user)})
  {
    hide Turn, NetOk, Possible, Step, Got, Fold, Read, SendCommand, ToInt32, LookUp, ParseOid, Actives;
    var was, e := n.clients[t], Asked(n, t, Quit, c);
    TurnIs(n, t, Quit, c, garbage);
    QuitAchieves(n.server, e, t);
    Remembered(was, Quit);
    var k := SendCommand(was, Quit);
    FoldOne(k, ActionResponse(e.packet.id, true, "Quit session successfully"), garbage);
    ReadResponse(k, e.packet.id, true, "Quit session successfully", garbage);
  }

  // ---------------------------------------------------------------- accounts

  /** What is sent for a password is 64 characters, which read as the SHA-256 of the password's bytes. */
  lemma PasswordIsHashed(p: string) returns (text: string)
    ensures |text| == 64 && Parse(text) == Sha256Spec.Sha256LowLength(BytesOf(p))
    ensures text == PasswordText(p)
  {
    hide Text, Parse, Sha256Spec.Sha256LowLength, BytesOf;
    text := PasswordText(p);
    TextRoundTrip(Sha256Spec.Sha256LowLength(BytesOf(p)));
  }

  /** A successful answer that gives an id makes the client that user. */
  lemma ReadId(k: ClientState, id: uint32, user: int, garbage: uint32)
    requires 0 <= user < 0x1_0000_0000
    ensures var r := Read(k, TempId(id, true, user, true), garbage); r.user == user && r.board == k.board
  {
  }

  /** After a sign-up under a free name, the client is the user whose document was stored. */
  lemma SignUpCommand(n: Net, t: Socket, name: string, p: string, c: Choice, garbage: uint32)
    requires Idle(n, t) && Possible(n.server, Asked(n, t, SignUp(name, p), c))
    requires FindUser(n.server.users, name).None? && c.user.Stored? && 0 <= NextId(n.server) < 0x1_0000_0000
    ensures var r := Turn(n, t, SignUp(name, p), c, garbage);
            && r.clients[t].user == NextId(n.server)
            && |r.server.users| == |n.server.users| + 1
            && var v := r.server.users[|n.server.users|];
            && v.id == NextId(n.server) && v.username == name && v.salt == Some(c.salt)
            && v.passwordHash == Text(Salted(c.salt, PasswordText(p)))
  {
    hide Turn, NetOk, Possible, Step, EffectOf, Received, Fold, Read, SendCommand, FindUser, Parse, Text, Salted,
      PasswordText, NextId;
    var was, e := n.clients[t], Asked(n, t, SignUp(name, p), c);
    TurnIs(n, t, SignUp(name, p), c, garbage);
    RegisterAchieves(n.server, e, t);
    var k := SendCommand(was, SignUp(name, p));
    FoldOne(k, TempId(e.packet.id, true, NextId(n.server), true), garbage);
    ReadId(k, e.packet.id, NextId(n.server), garbage);
  }

  /**
   After a sign-up and whatever else clients and server do, a log-in under the same name, by any client,
   makes it the same user if the SHA-256 of the salt and the hash text of its password is that of the
   salt and the hash text of the password signed up with, as for the same password it is; and leaves it
   the user it was otherwise.
   */
  lemma SignUpThenLogIn(n: Net, t: Socket, name: string, p: string, c: Choice, garbage: uint32,
                        ms: seq<Move>, t2: Socket, p2: string, c2: Choice)
    requires Idle(n, t) && Possible(n.server, Asked(n, t, SignUp(name, p), c))
    requires FindUser(n.server.users, name).None? && c.user.Stored? && 0 <= NextId(n.server) < 0x1_0000_0000
    requires NetRun(Turn(n, t, SignUp(name, p), c, garbage), ms)
    requires var r := NetAfter(Turn(n, t, SignUp(name, p), c, garbage), ms);
             Idle(r, t2) && Possible(r.server, Asked(r, t2, LogIn(name, p2), c2))
    ensures var n1 := Turn(n, t, SignUp(name, p), c, garbage);
            var r := NetAfter(n1, ms);
            var user := Turn(r, t2, LogIn(name, p2), c2, garbage).clients[t2].user;
            && (p2 == p ==> user == n1.clients[t].user)
            && user == (if Sha256Spec.Sha256LowLength(BytesOf(c.salt) + BytesOf(PasswordText(p2)))
                           == Sha256Spec.Sha256LowLength(BytesOf(c.salt) + BytesOf(PasswordText(p)))
                        then n1.clients[t].user else r.clients[t2].user)
  {
    hide Turn, NetOk, NetRun, NetAfter, Possible, Step, EffectOf, Received, Fold, Read, SendCommand, FindUser, Parse,
      Text, Salted, PasswordText, NextId, Run, After, ServerEvents, BytesOf, Sha256Spec.Sha256LowLength;
    var n1 := Turn(n, t, SignUp(name, p), c, garbage);
    var r := NetAfter(n1, ms);
    var e1, e2 := Asked(n, t, SignUp(name, p), c), Asked(r, t2, LogIn(name, p2), c2);
    SignUpCommand(n, t, name, p, c, garbage);
    TurnIs(n, t, SignUp(name, p), c, garbage);
    ServerRuns(n1, ms);
    LoginAfterRegister(n.server, e1, ServerEvents(n1, ms), e2);
    TurnIs(r, t2, LogIn(name, p2), c2, garbage);
    var k := SendCommand(r.clients[t2], LogIn(name, p2));
    Remembered(r.clients[t2], LogIn(name, p2));
    var yes := TempId(e2.packet.id, true, NextId(n.server), true);
    var no := ActionResponse(e2.packet.id, false, "Invalid username or password");
    FoldOne(k, yes, garbage);
    FoldOne(k, no, garbage);
    ReadId(k, e2.packet.id, NextId(n.server), garbage);
    ReadResponse(k, e2.packet.id, false, "Invalid username or password", garbage);
  }
}
