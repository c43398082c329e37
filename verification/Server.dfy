/**
 The whiteboard server's handlers: the effect of each request on the board documents, the session
 map, the user documents and the packets sent. One handler is one step. ServerObject.dfy proves
 that the handlers, written as the program writes them, have these effects.
 */
module Server {
  import HexText
  import Sha256Spec
  import opened Wrappers

  type Socket = nat
  type uint32 = n: nat | n < 0x1_0000_0000

  // ---------------------------------------------------------------- documents and packets

  /** A user document. Anonymous users have an empty name and hash, and no salt. */
  datatype User = User(id: int, username: string, salt: Option<string>, passwordHash: string)

  /** A board document; elements are serialized elements, active is its active_user_ids field. */
  datatype Board = Board(owner: int, elements: seq<string>, active: Option<seq<int>>)

  /** What the connection loop finds next: a request, or the end of the stream. */
  datatype Request =
    | CreateBoard(user: uint32)
    | OpenSession(user: uint32, board: string)
    | JoinSession(user: uint32, board: string)
    | QuitSession(user: uint32, board: string)
    | AddElement(user: uint32, board: string, element: string)
    | ModifyElement(user: uint32, board: string, original: string, element: string)
    | Register(username: string, passwordHash: string)
    | Login(username: string, passwordHash: string)
    | DeleteElement(user: uint32, board: string, element: string)
    | SaveBoard(session: uint32)
    | EndOfStream

  datatype Packet = Packet(id: uint32, request: Request)

  /**
   What the server sends. Two tags are of the model and not on the wire: the board of an element
   list, and whether a user id was asked for by a registration or a login.
   */
  datatype Message =
    | ActionResponse(id: uint32, success: bool, text: string)
    | TempId(id: uint32, success: bool, user: int, asked: bool)
    | ElementList(board: string, elements: seq<string>)

  /** What the database driver makes of an insert: a result, none, or an exception. */
  datatype Insert = Stored | Refused | Thrown

  /**
   What one step draws from outside: a new document id, what becomes of inserts and of the update
   of an element, randomness.
   */
  datatype Choice = Choice(
    newBoard: string, board: Insert, user: Insert, updateThrows: bool, random: uint32, salt: string)

  /** How a socket got into a session, and how many packets it had been sent before that request. */
  datatype Mark = Mark(sentBefore: nat, byOpening: bool)

  /**
   The server's stores. created and issued record every board id and user id ever given out, and
   marks when each member of a session entered it; the program does not keep them.
   */
  datatype State = State(
    boards: map<string, Board>, sessions: map<string, set<Socket>>,
    users: seq<User>, sequence: Option<int>,
    outbox: map<Socket, seq<Message>>, closed: set<Socket>,
    created: set<string>, issued: seq<int>, marks: map<(string, Socket), Mark>)

  const START := State(map[], map[], [], None, map[], {}, {}, [], map[])

  // ---------------------------------------------------------------- identifiers

  /** The C++ conversion from uint32_t to int. */
  function ToInt32(n: uint32): int {
    if n < 0x8000_0000 then n else n - 0x1_0000_0000
  }

  predicate IsHex(c: char) {
    '0' <= c <= '9' || 'a' <= c <= 'f' || 'A' <= c <= 'F'
  }

  function Lower(c: char): char {
    if 'A' <= c <= 'F' then c - 'A' + 'a' else c
  }

  /**
   The object id a string spells: 24 hexadecimal digits in either case, here in lower case. The
   driver throws on any other string.
   */
  function ParseOid(s: string): Option<string> {
    if |s| == 24 && forall i :: 0 <= i < 24 ==> IsHex(s[i]) then
      Some(seq(24, i requires 0 <= i < 24 => Lower(s[i])))
    else None
  }

  /** Spelt as the server spells ids. The session map is keyed by spelling, the documents by id. */
  predicate Canonical(s: string) {
    ParseOid(s) == Some(s)
  }

  lemma ParsedIsCanonical(s: string)
    requires ParseOid(s).Some?
    ensures Canonical(ParseOid(s).value)
  {
    var o := ParseOid(s).value;
    assert forall i :: 0 <= i < 24 ==> IsHex(o[i]) && Lower(o[i]) == o[i];
    assert seq(24, i requires 0 <= i < 24 => Lower(o[i])) == o;
  }

  /** The value of a hexadecimal digit in either case. */
  function HexDigit(c: char): nat
    requires IsHex(c)
  {
    if c <= '9' then (c - '0') as nat else if c <= 'F' then (c - 'A') as nat + 10 else (c - 'a') as nat + 10
  }

  predicate IsOid(s: string) {
    |s| == 24 && forall i :: 0 <= i < 24 ==> IsHex(s[i])
  }

  /** Exactly the strings of 24 digits spell ids, and two spell the same one exactly when their digits agree. */
  lemma SameIdExactly(a: string, b: string)
    ensures ParseOid(a).Some? <==> IsOid(a)
    ensures IsOid(a) && IsOid(b) ==>
              (ParseOid(a) == ParseOid(b) <==> forall i :: 0 <= i < 24 ==> HexDigit(a[i]) == HexDigit(b[i]))
  {
    if IsOid(a) && IsOid(b) {
      forall i | 0 <= i < 24
        ensures HexDigit(a[i]) == HexDigit(b[i]) <==> Lower(a[i]) == Lower(b[i])
      {
      }
      var x, y := ParseOid(a).value, ParseOid(b).value;
      assert x == y <==> forall i :: 0 <= i < 24 ==> x[i] == y[i];
      assert forall i :: 0 <= i < 24 ==> x[i] == Lower(a[i]) && y[i] == Lower(b[i]);
    }
  }

  /** A user id keeps its 32 bits as a C++ int. */
  lemma SignedInRange(n: uint32)
    ensures -0x8000_0000 <= ToInt32(n) < 0x8000_0000 && (ToInt32(n) == n || ToInt32(n) == n - 0x1_0000_0000)
  {
  }

  // ---------------------------------------------------------------- update operators

  /** $addToSet */
  function AddToSet(l: seq<int>, x: int): seq<int> {
    if x in l then l else l + [x]
  }

  /** $pull */
  function Pull<T(==, !new)>(l: seq<T>, x: T): (r: seq<T>)
    ensures forall y :: y in r <==> y in l && y != x
  {
    if l == [] then []
    else if l[|l| - 1] == x then Pull(l[..|l| - 1], x)
    else Pull(l[..|l| - 1], x) + [l[|l| - 1]]
  }

  /** Every other value stays as often as it was. */
  lemma {:induction false} PullKeepsCounts<T(!new)>(l: seq<T>, x: T)
    ensures multiset(Pull(l, x)) == multiset(l)[x := 0]
  {
    if l != [] {
      PullKeepsCounts(l[..|l| - 1], x);
      assert l == l[..|l| - 1] + [l[|l| - 1]];
    }
  }

  predicate Ascending(at: seq<nat>) {
    forall i, j :: 0 <= i < j < |at| ==> at[i] < at[j]
  }

  /** What stays keeps its order: the result is the list read at ascending places. */
  lemma {:induction false} PullKeepsOrder<T(!new)>(l: seq<T>, x: T) returns (at: seq<nat>)
    ensures |at| == |Pull(l, x)| && Ascending(at)
    ensures forall i :: 0 <= i < |at| ==> at[i] < |l| && Pull(l, x)[i] == l[at[i]]
  {
    at := [];
    if l != [] {
      at := PullKeepsOrder(l[..|l| - 1], x);
      if l[|l| - 1] != x {
        at := at + [|l| - 1];
      }
    }
  }

  // ---------------------------------------------------------------- effects

  datatype BoardChange =
    | SameBoards
    | CreateDoc(oid: string, board: Board)
    | Put(oid: string, board: Board)
    | Drop(oid: string)

  datatype SessionChange = SameSessions | Enter(key: string, byOpening: bool) | Leave(key: string)

  datatype Delivery = Delivery(to: set<Socket>, message: Message)

  /** What a request does: at most one document and one session change, and packets in order. */
  datatype Effect = Effect(
    board: BoardChange, session: SessionChange, takesId: bool, user: Option<User>,
    sends: seq<Delivery>, close: bool)

  const NOTHING := Effect(SameBoards, SameSessions, false, None, [], false)

  function ChangeBoards(boards: map<string, Board>, x: BoardChange): map<string, Board> {
    match x
    case SameBoards => boards
    case CreateDoc(o, b) => boards[o := b]
    case Put(o, b) => boards[o := b]
    case Drop(o) => boards - {o}
  }

  function Members(sessions: map<string, set<Socket>>, key: string): set<Socket> {
    if key in sessions then sessions[key] else {}
  }

  /** add_socket_to_whiteboard and remove_socket_from_whiteboard; an emptied session loses its entry. */
  function ChangeSessions(sessions: map<string, set<Socket>>, x: SessionChange, t: Socket): map<string, set<Socket>> {
    match x
    case SameSessions => sessions
    case Enter(k, _) => sessions[k := Members(sessions, k) + {t}]
    case Leave(k) =>
      if k !in sessions then sessions
      else if sessions[k] - {t} == {} then sessions - {k}
      else sessions[k := sessions[k] - {t}]
  }

  function ChangeMarks(s: State, x: SessionChange, t: Socket): map<(string, Socket), Mark> {
    match x
    case Enter(k, byOpening) =>
      if t in Members(s.sessions, k) then s.marks
      else s.marks[(k, t) := Mark(|Sent(s.outbox, t)|, byOpening)]
    case _ => s.marks
  }

  function Sent(outbox: map<Socket, seq<Message>>, t: Socket): seq<Message> {
    if t in outbox then outbox[t] else []
  }

  function Deliver(outbox: map<Socket, seq<Message>>, ts: set<Socket>, m: Message): map<Socket, seq<Message>> {
    outbox + map t | t in ts :: Sent(outbox, t) + [m]
  }

  lemma DeliverOneMore(outbox: map<Socket, seq<Message>>, ts: set<Socket>, t: Socket, m: Message)
    requires t !in ts
    ensures var before := Deliver(outbox, ts, m);
            before[t := Sent(before, t) + [m]] == Deliver(outbox, ts + {t}, m)
  {
  }

  function DeliverAll(outbox: map<Socket, seq<Message>>, ds: seq<Delivery>): map<Socket, seq<Message>> {
    if ds == [] then outbox
    else Deliver(DeliverAll(outbox, ds[..|ds| - 1]), ds[|ds| - 1].to, ds[|ds| - 1].message)
  }

  lemma DeliverNone(outbox: map<Socket, seq<Message>>)
    ensures DeliverAll(outbox, []) == outbox
  {
  }

  lemma DeliverLast(outbox: map<Socket, seq<Message>>, ds: seq<Delivery>, d: Delivery)
    ensures DeliverAll(outbox, ds + [d]) == Deliver(DeliverAll(outbox, ds), d.to, d.message)
  {
    assert (ds + [d])[..|ds|] == ds;
  }

  /** What a socket receives from a request's packets. */
  function Received(ds: seq<Delivery>, t: Socket): seq<Message> {
    if ds == [] then []
    else Received(ds[..|ds| - 1], t) + (if t in ds[|ds| - 1].to then [ds[|ds| - 1].message] else [])
  }

  lemma SentDeliver(outbox: map<Socket, seq<Message>>, d: Delivery, t: Socket)
    ensures Sent(Deliver(outbox, d.to, d.message), t) == Sent(outbox, t) + (if t in d.to then [d.message] else [])
  {
  }

  /** Every packet of a request goes to the end of what its receivers have been sent. */
  lemma {:induction false} SentAfter(outbox: map<Socket, seq<Message>>, ds: seq<Delivery>, t: Socket)
    ensures Sent(DeliverAll(outbox, ds), t) == Sent(outbox, t) + Received(ds, t)
  {
    hide Sent, Deliver;
    if ds != [] {
      SentAfter(outbox, ds[..|ds| - 1], t);
      SentDeliver(DeliverAll(outbox, ds[..|ds| - 1]), ds[|ds| - 1], t);
    }
  }

  /** The state after an effect caused by socket t. */
  function Perform(s: State, t: Socket, x: Effect): State {
    State(ChangeBoards(s.boards, x.board), ChangeSessions(s.sessions, x.session, t),
          if x.user.Some? then s.users + [x.user.value] else s.users,
          if x.takesId then Some(NextId(s) + 1) else s.sequence,
          DeliverAll(s.outbox, x.sends),
          if x.close then s.closed + {t} else s.closed,
          if x.board.CreateDoc? then s.created + {x.board.oid} else s.created,
          if x.takesId then s.issued + [NextId(s)] else s.issued,
          ChangeMarks(s, x.session, t))
  }

  lemma NothingHappens(s: State, t: Socket)
    ensures Perform(s, t, NOTHING) == s
  {
  }

  lemma OnlyCloses(s: State, t: Socket)
    ensures Perform(s, t, Closing(NOTHING)) == s.(closed := s.closed + {t})
  {
  }

  /** The effect with one more packet sent at the end. */
  function Then(x: Effect, ts: set<Socket>, m: Message): Effect {
    x.(sends := x.sends + [Delivery(ts, m)])
  }

  /** An exception that leaves a handler ends the connection. */
  function Closing(x: Effect): Effect {
    x.(close := true)
  }

  // ---------------------------------------------------------------- accounts

  /** getNextSequence: the counter before the increment; the first call finds no counter. */
  function NextId(s: State): int {
    if s.sequence.Some? then s.sequence.value else 0
  }

  /** handle_assign_user_id: a new anonymous user. An exception of the insert is not caught. */
  function AssignUser(s: State, t: Socket, c: Choice): Effect {
    var x := NOTHING.(takesId := true,
                      user := if c.user.Stored? then Some(User(NextId(s), "", None, "")) else None);
    if c.user.Thrown? then Closing(x)
    else Then(x, {t}, TempId(c.random, c.user.Stored?, NextId(s), false))
  }

  /** The index of the first document with the name, which is the one find_one returns. */
  function FindUser(users: seq<User>, name: string): (r: Option<nat>)
    ensures r.Some? ==> r.value < |users| && users[r.value].username == name
    ensures r.Some? ==> forall j :: 0 <= j < r.value ==> users[j].username != name
    ensures r.None? ==> forall j :: 0 <= j < |users| ==> users[j].username != name
  {
    if users == [] then None
    else
      var front := FindUser(users[..|users| - 1], name);
      if front.Some? then front
      else if users[|users| - 1].username == name then Some(|users| - 1) else None
  }

  function ByteOfChar(c: char): bv8 {
    HexText.ByteOf((c as int) % 256)
  }

  function BytesOf(s: string): seq<bv8> {
    seq(|s|, i requires 0 <= i < |s| => ByteOfChar(s[i]))
  }

  /** The text of the SHA-256 of the salted password hash. */
  function SaltedHash(salt: string, passwordHash: string): string {
    HexText.Text(Sha256Spec.Sha256LowLength(BytesOf(salt + passwordHash)))
  }

  // ---------------------------------------------------------------- handlers

  /** A request by the user 0 assigns an id first, which other users have. */
  function Identify(s: State, t: Socket, user: uint32, c: Choice): Effect {
    if user == 0 then AssignUser(s, t, c) else NOTHING
  }

  function Identity(s: State, user: uint32): int {
    if user == 0 then NextId(s) else ToInt32(user)
  }

  function HandleCreate(s: State, t: Socket, id: uint32, user: uint32, c: Choice): Effect {
    var x := Identify(s, t, user, c);
    if x.close then x
    else
      match c.board
      case Stored =>
        Then(x.(board := CreateDoc(c.newBoard, Board(Identity(s, user), [], None))),
             {t}, ActionResponse(id, true, c.newBoard))
      case Refused => Then(x, {t}, ActionResponse(id, false, "Fail to create whiteboard document"))
      case Thrown => Closing(x)
  }

  function HandleOpen(s: State, t: Socket, id: uint32, user: uint32, board: string): Effect {
    match ParseOid(board)
    case None => Closing(NOTHING)
    case Some(oid) =>
      if oid !in s.boards then Then(NOTHING, {t}, ActionResponse(id, false, "Whiteboard not found"))
      else if s.boards[oid].owner != ToInt32(user) then
        Then(NOTHING, {t}, ActionResponse(id, false, "User ID does not match"))
      else
        Then(NOTHING.(session := Enter(board, true),
                      board := Put(oid, s.boards[oid].(active := Some([ToInt32(user)])))),
             {t}, ActionResponse(id, true, "Session created successfully"))
  }

  function HandleJoin(s: State, t: Socket, id: uint32, user: uint32, board: string, c: Choice): Effect {
    var x := Identify(s, t, user, c);
    if x.close then x
    else
      match ParseOid(board)
      case None => Closing(x)
      case Some(oid) =>
        if oid !in s.boards then Then(x, {t}, ActionResponse(id, false, "Whiteboard not found"))
        else if s.boards[oid].active.None? then
          Then(x, {t}, ActionResponse(id, false, "Whiteboard is not in shared status"))
        else
          var b := s.boards[oid];
          Then(Then(x.(session := Enter(board, false),
                       board := Put(oid, b.(active := Some(AddToSet(b.active.value, Identity(s, user)))))),
                    {t}, ElementList(oid, b.elements)),
               {t}, ActionResponse(id, true, board))
  }

  function PullActive(b: Board, uid: int): Board {
    if b.active.None? then b else b.(active := Some(Pull(b.active.value, uid)))
  }

  function HandleQuit(s: State, t: Socket, id: uint32, user: uint32, board: string): Effect {
    var x := NOTHING.(session := Leave(board));
    match ParseOid(board)
    case None => Closing(x)
    case Some(oid) =>
      Then(if oid !in s.boards then x
           else
             var b := PullActive(s.boards[oid], ToInt32(user));
             x.(board := if b.active == Some([]) then Drop(oid) else Put(oid, b)),
           {t}, ActionResponse(id, true, "Quit session successfully"))
  }

  /** Who may add to a board. */
  predicate MayAdd(b: Board, uid: int) {
    (b.active.Some? && uid in b.active.value) || b.owner == uid
  }

  /** handle_broadcast after is_whiteboard_shared: the elements to every socket of the session. */
  function ThenBroadcast(x: Effect, s: State, key: string, oid: string, elements: seq<string>): Effect {
    if key !in s.sessions then x else Then(x, s.sessions[key], ElementList(oid, elements))
  }

  function HandleAdd(s: State, t: Socket, id: uint32, user: uint32, board: string, element: string): Effect {
    match ParseOid(board)
    case None => Closing(NOTHING)
    case Some(oid) =>
      if oid !in s.boards then
        Then(NOTHING, {t},
             ActionResponse(id, false, "User is not authorized to add element or whiteboard not found"))
      else
        var b := s.boards[oid];
        if MayAdd(b, ToInt32(user)) then
          ThenBroadcast(Then(NOTHING.(board := Put(oid, b.(elements := b.elements + [element]))),
                             {t}, ActionResponse(id, true, "Element added successfully")),
                        s, board, oid, b.elements + [element])
        else
          ThenBroadcast(NOTHING, s, board, oid, b.elements)
  }

  /**
   The intent of the update: every copy of the original goes, the new element comes last. A database
   that refuses to pull from and push to one field in one update throws instead.
   */
  function Replace(elements: seq<string>, original: string, element: string): seq<string> {
    Pull(elements, original) + [element]
  }

  function HandleModify(s: State, t: Socket, id: uint32, user: uint32, board: string,
                        original: string, element: string, c: Choice): Effect {
    match ParseOid(board)
    case None => Closing(NOTHING)
    case Some(oid) =>
      if oid !in s.boards then
        Then(NOTHING, {t},
             ActionResponse(id, false, "User is not authorized to modify element or whiteboard not found"))
      else
        var b := s.boards[oid];
        if b.active.None? || ToInt32(user) !in b.active.value then NOTHING
        else if original !in b.elements then
          Then(NOTHING, {t}, ActionResponse(id, false, "Original element is not in the database"))
        else if c.updateThrows then Closing(NOTHING)
        else
          var elements := Replace(b.elements, original, element);
          ThenBroadcast(Then(NOTHING.(board := Put(oid, b.(elements := elements))),
                             {t}, ActionResponse(id, true, "Element modified successfully")),
                        s, board, oid, elements)
  }

  function HandleRegister(s: State, t: Socket, id: uint32, name: string, hash: string, c: Choice): Effect {
    if FindUser(s.users, name).Some? then
      Then(NOTHING, {t}, ActionResponse(id, false, "Username already exists"))
    else
      var x := NOTHING.(takesId := true);
      match c.user
      case Stored =>
        Then(x.(user := Some(User(NextId(s), name, Some(c.salt), SaltedHash(c.salt, hash)))),
             {t}, TempId(id, true, NextId(s), true))
      case Refused => Then(x, {t}, ActionResponse(id, false, "Failed to register user"))
      case Thrown => Then(x, {t}, ActionResponse(id, false, "Exception occurred while registering user"))
  }

  function HandleLogin(s: State, t: Socket, id: uint32, name: string, hash: string): Effect {
    match FindUser(s.users, name)
    case None => Then(NOTHING, {t}, ActionResponse(id, false, "User not exist"))
    case Some(i) =>
      var u := s.users[i];
      if u.salt.None? then NOTHING
      else if SaltedHash(u.salt.value, hash) == u.passwordHash then Then(NOTHING, {t}, TempId(id, true, u.id, true))
      else Then(NOTHING, {t}, ActionResponse(id, false, "Invalid username or password"))
  }

  // ---------------------------------------------------------------- steps and runs

  datatype Event = Event(socket: Socket, packet: Packet, choice: Choice)

  /** The database never reuses a document id, and a closed connection sends no more. */
  predicate Possible(s: State, e: Event) {
    && e.socket !in s.closed
    && Canonical(e.choice.newBoard) && e.choice.newBoard !in s.created
  }

  /** One round of the connection loop. Requests without a handler are ignored. */
  function EffectOf(s: State, e: Event): Effect {
    var t, id := e.socket, e.packet.id;
    match e.packet.request
    case CreateBoard(u) => HandleCreate(s, t, id, u, e.choice)
    case OpenSession(u, b) => HandleOpen(s, t, id, u, b)
    case JoinSession(u, b) => HandleJoin(s, t, id, u, b, e.choice)
    case QuitSession(u, b) => HandleQuit(s, t, id, u, b)
    case AddElement(u, b, x) => HandleAdd(s, t, id, u, b, x)
    case ModifyElement(u, b, x, y) => HandleModify(s, t, id, u, b, x, y, e.choice)
    case Register(n, h) => HandleRegister(s, t, id, n, h, e.choice)
    case Login(n, h) => HandleLogin(s, t, id, n, h)
    case DeleteElement(_, _, _) => NOTHING
    case SaveBoard(_) => NOTHING
    case EndOfStream => Closing(NOTHING)
  }

  function Step(s: State, e: Event): State {
    Perform(s, e.socket, EffectOf(s, e))
  }

  predicate Run(s: State, es: seq<Event>)
    decreases |es|
  {
    es == [] || (Possible(s, es[0]) && Run(Step(s, es[0]), es[1..]))
  }

  function After(s: State, es: seq<Event>): State
    decreases |es|
  {
    if es == [] then s else After(Step(s, es[0]), es[1..])
  }
}
