/**
 The server object and its handlers as the program runs them: fields that are reassigned, loops
 over the active ids, the elements and the sockets of a session, early returns. Every handler is
 proved to do exactly what its function in Server says.
 */
module ServerObject {
  import opened Server
  import opened HexText
  import opened Sha256
  import Sha256Spec
  import opened Wrappers

  class WhiteboardServer {
    var boards: map<string, Board>
    var sessions: map<string, set<Socket>>
    var users: seq<User>
    var sequence: Option<int>
    var outbox: map<Socket, seq<Message>>
    var closed: set<Socket>
    ghost var created: set<string>
    ghost var issued: seq<int>
    ghost var marks: map<(string, Socket), Mark>

    ghost function View(): State
      reads this
    {
      State(boards, sessions, users, sequence, outbox, closed, created, issued, marks)
    }

    constructor ()
      ensures View() == START
    {
      boards, sessions, users, sequence := map[], map[], [], None;
      outbox, closed := map[], {};
      created, issued, marks := {}, [], map[];
    }

    // -------------------------------------------------------------- sending and the session map

    /** send_packet; before and ds say what the request has sent so far. */
    method SendPacket(t: Socket, m: Message, ghost before: map<Socket, seq<Message>>, ghost ds: seq<Delivery>)
      requires outbox == DeliverAll(before, ds)
      modifies this`outbox
      ensures outbox == DeliverAll(before, ds + [Delivery({t}, m)])
    {
      DeliverLast(before, ds, Delivery({t}, m));
      outbox := outbox[t := Sent(outbox, t) + [m]];
    }

    method AddSocketToWhiteboard(key: string, t: Socket)
      modifies this`sessions
      ensures sessions == ChangeSessions(old(sessions), Enter(key, false), t)
      ensures key in sessions
    {
      if key !in sessions {
        sessions := sessions[key := {}];
      }
      sessions := sessions[key := sessions[key] + {t}];
    }

    method RemoveSocketFromWhiteboard(key: string, t: Socket)
      modifies this`sessions
      ensures sessions == ChangeSessions(old(sessions), Leave(key), t)
    {
      if key in sessions {
        sessions := sessions[key := sessions[key] - {t}];
        if sessions[key] == {} {
          sessions := sessions - {key};
          assert sessions == old(sessions) - {key};
        }
      }
    }

    method IsWhiteboardShared(key: string) returns (shared: bool)
      ensures shared <==> key in sessions
    {
      shared := key in sessions;
    }

    method UserInActiveUserIds(b: Board, user: int) returns (found: bool)
      ensures found <==> b.active.Some? && user in b.active.value
    {
      found := false;
      if b.active.Some? {
        var ids := b.active.value;
        for i := 0 to |ids|
          invariant user !in ids[..i]
        {
          if ids[i] == user {
            return true;
          }
        }
        assert ids[..|ids|] == ids;
      }
    }

    method HasElement(elements: seq<string>, wanted: string) returns (found: bool)
      ensures found <==> wanted in elements
    {
      found := false;
      for i := 0 to |elements|
        invariant wanted !in elements[..i]
      {
        if elements[i] == wanted {
          return true;
        }
      }
      assert elements[..|elements|] == elements;
    }

    /**
     Sends the elements to the session. The board is looked up again, by its id, and what is not
     found is sent to nobody; the result tells whether the id is malformed.
     */
    method HandleBroadcast(key: string, ghost before: map<Socket, seq<Message>>, ghost ds: seq<Delivery>)
      returns (thrown: bool)
      requires outbox == DeliverAll(before, ds)
      modifies this`outbox
      ensures thrown <==> key in sessions && ParseOid(key).None?
      ensures var oid := ParseOid(key);
              outbox == DeliverAll(before,
                if key in sessions && oid.Some? && oid.value in boards
                then ds + [Delivery(sessions[key], ElementList(oid.value, boards[oid.value].elements))] else ds)
    {
      hide ParseOid, Deliver;
      thrown := false;
      var shared := IsWhiteboardShared(key);
      if !shared {
        return;
      }
      var oid := ParseOid(key);
      if oid.None? {
        return true;
      }
      if oid.value in boards {
        var response := ElementList(oid.value, boards[oid.value].elements);
        DeliverLast(before, ds, Delivery(sessions[key], response));
        SendToAll(sessions[key], response);
      }
    }

    /** The loop over the sockets of a session. */
    method SendToAll(ts: set<Socket>, m: Message)
      modifies this`outbox
      ensures outbox == Deliver(old(outbox), ts, m)
    {
      var rest := ts;
      while rest != {}
        invariant rest <= ts
        invariant outbox == Deliver(old(outbox), ts - rest, m)
        decreases rest
      {
        var t :| t in rest;
        DeliverOneMore(old(outbox), ts - rest, t, m);
        outbox := outbox[t := Sent(outbox, t) + [m]];
        assert ts - (rest - {t}) == ts - rest + {t};
        rest := rest - {t};
      }
      assert ts - rest == ts;
    }

    method HandleUnicast(key: string, t: Socket, ghost before: map<Socket, seq<Message>>, ghost ds: seq<Delivery>)
      returns (thrown: bool)
      requires outbox == DeliverAll(before, ds)
      modifies this`outbox
      ensures thrown <==> key in sessions && ParseOid(key).None?
      ensures var oid := ParseOid(key);
              outbox == DeliverAll(before,
                if key in sessions && oid.Some? && oid.value in boards
                then ds + [Delivery({t}, ElementList(oid.value, boards[oid.value].elements))] else ds)
    {
      hide ParseOid, Deliver, DeliverAll;
      thrown := false;
      var shared := IsWhiteboardShared(key);
      if !shared {
        return;
      }
      var oid := ParseOid(key);
      if oid.None? {
        return true;
      }
      if oid.value in boards {
        SendPacket(t, ElementList(oid.value, boards[oid.value].elements), before, ds);
      }
    }

    // -------------------------------------------------------------- accounts

    method GetNextSequence() returns (id: int)
      modifies this`sequence, this`issued
      ensures id == NextId(old(View())) && sequence == Some(id + 1) && issued == old(issued) + [id]
    {
      id := if sequence.Some? then sequence.value else 0;
      sequence := if sequence.Some? then Some(sequence.value + 1) else Some(1);
      issued := issued + [id];
    }

    /** The result tells, beside the id, whether the insert throws. */
    method HandleAssignUserId(t: Socket, c: Choice) returns (id: int, thrown: bool)
      modifies this`sequence, this`issued, this`users, this`outbox
      ensures id == NextId(old(View())) && (thrown <==> c.user.Thrown?)
      ensures View() == Perform(old(View()), t, AssignUser(old(View()), t, c).(close := false))
    {
      hide DeliverAll;
      DeliverNone(outbox);
      ghost var o := outbox;
      id := GetNextSequence();
      thrown := c.user.Thrown?;
      if thrown {
        return;
      }
      if c.user.Stored? {
        users := users + [User(id, "", None, "")];
      }
      SendPacket(t, TempId(c.random, c.user.Stored?, id, false), o, []);
    }

    /** The hash of a salted password, computed with a SHA-256 object. */
    static method HashSalted(salt: string, passwordHash: string) returns (text: string)
      ensures text == SaltedHash(salt, passwordHash)
    {
      hide Sha256Spec.Sha256LowLength, BytesOf, Text;
      text := HashToText(BytesOf(salt + passwordHash));
    }

    method HandleRegisterRequest(t: Socket, id: uint32, name: string, hash: string, c: Choice)
      modifies this`sequence, this`issued, this`users, this`outbox
      ensures View() == Perform(old(View()), t, HandleRegister(old(View()), t, id, name, hash, c))
    {
      hide DeliverAll;
      DeliverNone(outbox);
      hide SaltedHash;
      ghost var o := outbox;
      if FindUser(users, name).Some? {
        SendPacket(t, ActionResponse(id, false, "Username already exists"), o, []);
        return;
      }
      var hashed := HashSalted(c.salt, hash);
      var uid := GetNextSequence();
      match c.user {
        case Stored =>
          users := users + [User(uid, name, Some(c.salt), hashed)];
          SendPacket(t, TempId(id, true, uid, true), o, []);
        case Refused => SendPacket(t, ActionResponse(id, false, "Failed to register user"), o, []);
        case Thrown =>
          SendPacket(t, ActionResponse(id, false, "Exception occurred while registering user"), o, []);
      }
    }

    method HandleLoginRequest(t: Socket, id: uint32, name: string, hash: string)
      modifies this`outbox
      ensures View() == Perform(old(View()), t, HandleLogin(old(View()), t, id, name, hash))
    {
      hide DeliverAll;
      DeliverNone(outbox);
      hide SaltedHash;
      ghost var o := outbox;
      var found := FindUser(users, name);
      if found.Some? {
        var u := users[found.value];
        if u.salt.Some? {
          var calculated := HashSalted(u.salt.value, hash);
          if calculated == u.passwordHash {
            SendPacket(t, TempId(id, true, u.id, true), o, []);
          } else {
            SendPacket(t, ActionResponse(id, false, "Invalid username or password"), o, []);
          }
        }
      } else {
        SendPacket(t, ActionResponse(id, false, "User not exist"), o, []);
      }
    }

    // -------------------------------------------------------------- boards and sessions

    /** The part of a create after the owner is known; the result tells whether the insert throws. */
    method StoreBoard(t: Socket, id: uint32, owner: int, c: Choice,
                      ghost o: map<Socket, seq<Message>>, ghost ds: seq<Delivery>)
      returns (thrown: bool)
      requires outbox == DeliverAll(o, ds)
      modifies this`boards, this`created, this`outbox
      ensures thrown <==> c.board.Thrown?
      ensures c.board.Stored? ==>
                && boards == old(boards)[c.newBoard := Board(owner, [], None)]
                && created == old(created) + {c.newBoard}
                && outbox == DeliverAll(o, ds + [Delivery({t}, ActionResponse(id, true, c.newBoard))])
      ensures !c.board.Stored? ==> boards == old(boards) && created == old(created)
      ensures c.board.Thrown? ==> outbox == old(outbox)
      ensures c.board.Refused? ==>
                outbox == DeliverAll(o,
                  ds + [Delivery({t}, ActionResponse(id, false, "Fail to create whiteboard document"))])
    {
      hide DeliverAll;
      thrown := false;
      match c.board {
        case Stored =>
          boards := boards[c.newBoard := Board(owner, [], None)];
          created := created + {c.newBoard};
          SendPacket(t, ActionResponse(id, true, c.newBoard), o, ds);
        case Refused =>
          SendPacket(t, ActionResponse(id, false, "Fail to create whiteboard document"), o, ds);
        case Thrown => thrown := true;
      }
    }

    method HandleCreateWhiteboardRequest(t: Socket, id: uint32, user: uint32, c: Choice)
      modifies this
      ensures View() == Perform(old(View()), t, HandleCreate(old(View()), t, id, user, c))
    {
      hide DeliverAll, Deliver, Sent, Members, ParseOid, Pull, AddToSet;
      DeliverNone(outbox);
      ghost var o := outbox;
      ghost var ds := Identify(View(), t, user, c).sends;
      var owner := ToInt32(user);
      if user == 0 {
        var thrown;
        owner, thrown := HandleAssignUserId(t, c);
        if thrown {
          closed := closed + {t};
          return;
        }
      }
      var failed := StoreBoard(t, id, owner, c, o, ds);
      if failed {
        closed := closed + {t};
      }
    }

    method HandleCreateSessionRequest(t: Socket, id: uint32, user: uint32, board: string)
      modifies this
      ensures View() == Perform(old(View()), t, HandleOpen(old(View()), t, id, user, board))
    {
      hide DeliverAll, ParseOid, Pull, AddToSet;
      DeliverNone(outbox);
      ghost var o := outbox;
      var oid := ParseOid(board);
      if oid.None? {
        closed := closed + {t};
        return;
      }
      if oid.value in boards {
        var doc := boards[oid.value];
        if doc.owner == ToInt32(user) {
          marks := ChangeMarks(View(), Enter(board, true), t);
          AddSocketToWhiteboard(board, t);
          boards := boards[oid.value := doc.(active := Some([ToInt32(user)]))];
          SendPacket(t, ActionResponse(id, true, "Session created successfully"), o, []);
        } else {
          SendPacket(t, ActionResponse(id, false, "User ID does not match"), o, []);
        }
      } else {
        SendPacket(t, ActionResponse(id, false, "Whiteboard not found"), o, []);
      }
    }

    /** A join that finds the board shared. */
    method Admit(t: Socket, id: uint32, uid: int, board: string, oid: string,
                 ghost o: map<Socket, seq<Message>>, ghost ds: seq<Delivery>)
      requires ParseOid(board) == Some(oid) && oid in boards && boards[oid].active.Some?
      requires outbox == DeliverAll(o, ds)
      modifies this`boards, this`sessions, this`outbox
      ensures sessions == ChangeSessions(old(sessions), Enter(board, false), t)
      ensures var doc := old(boards)[oid];
              && boards == old(boards)[oid := doc.(active := Some(AddToSet(doc.active.value, uid)))]
              && outbox == DeliverAll(o, ds + [Delivery({t}, ElementList(oid, doc.elements))]
                                            + [Delivery({t}, ActionResponse(id, true, board))])
    {
      hide DeliverAll, AddToSet, ParseOid;
      var doc := boards[oid];
      AddSocketToWhiteboard(board, t);
      boards := boards[oid := doc.(active := Some(AddToSet(doc.active.value, uid)))];
      var shared := IsWhiteboardShared(board);
      if shared {
        var _ := HandleUnicast(board, t, o, ds);
      }
      SendPacket(t, ActionResponse(id, true, board), o,
                 ds + [Delivery({t}, ElementList(oid, doc.elements))]);
    }

    method HandleJoinSessionRequest(t: Socket, id: uint32, user: uint32, board: string, c: Choice)
      modifies this
      ensures View() == Perform(old(View()), t, HandleJoin(old(View()), t, id, user, board, c))
    {
      hide DeliverAll, Deliver, Sent, Members, ParseOid, Pull, AddToSet;
      DeliverNone(outbox);
      ghost var start := View();
      ghost var o := outbox;
      ghost var ds := Identify(View(), t, user, c).sends;
      var uid := ToInt32(user);
      if uid == 0 {
        var thrown;
        uid, thrown := HandleAssignUserId(t, c);
        if thrown {
          closed := closed + {t};
          return;
        }
      }
      var oid := ParseOid(board);
      if oid.None? {
        closed := closed + {t};
        return;
      }
      if oid.value in boards {
        var doc := boards[oid.value];
        if doc.active.Some? {
          marks := ChangeMarks(start, Enter(board, false), t);
          Admit(t, id, uid, board, oid.value, o, ds);
        } else {
          SendPacket(t, ActionResponse(id, false, "Whiteboard is not in shared status"), o, ds);
        }
      } else {
        SendPacket(t, ActionResponse(id, false, "Whiteboard not found"), o, ds);
      }
    }

    method HandleQuitSessionRequest(t: Socket, id: uint32, user: uint32, board: string)
      modifies this
      ensures View() == Perform(old(View()), t, HandleQuit(old(View()), t, id, user, board))
    {
      hide DeliverAll, ParseOid, Pull;
      DeliverNone(outbox);
      ghost var o := outbox;
      RemoveSocketFromWhiteboard(board, t);
      var oid := ParseOid(board);
      if oid.None? {
        closed := closed + {t};
        return;
      }
      if oid.value in boards {
        boards := boards[oid.value := PullActive(boards[oid.value], ToInt32(user))];
      }
      if oid.value in boards {
        var active := boards[oid.value].active;
        if active.Some? {
          var shouldDelete := true;
          if |active.value| > 0 {
            shouldDelete := false;
          }
          if shouldDelete {
            boards := boards - {oid.value};
            assert boards == old(boards) - {oid.value};
          }
        }
      }
      SendPacket(t, ActionResponse(id, true, "Quit session successfully"), o, []);
    }

    method HandleAddElementRequest(t: Socket, id: uint32, user: uint32, board: string, element: string)
      modifies this
      ensures View() == Perform(old(View()), t, HandleAdd(old(View()), t, id, user, board, element))
    {
      hide DeliverAll, ParseOid, Pull, AddToSet;
      DeliverNone(outbox);
      ghost var o := outbox;
      ghost var ds: seq<Delivery> := [];
      var oid := ParseOid(board);
      if oid.None? {
        closed := closed + {t};
        return;
      }
      if oid.value in boards {
        var doc := boards[oid.value];
        var active := UserInActiveUserIds(doc, ToInt32(user));
        if (doc.active.Some? && active) || doc.owner == ToInt32(user) {
          boards := boards[oid.value := doc.(elements := doc.elements + [element])];
          SendPacket(t, ActionResponse(id, true, "Element added successfully"), o, []);
          ds := ds + [Delivery({t}, ActionResponse(id, true, "Element added successfully"))];
        }
        var shared := IsWhiteboardShared(board);
        if shared {
          var _ := HandleBroadcast(board, o, ds);
        }
      } else {
        SendPacket(t, ActionResponse(id, false,
          "User is not authorized to add element or whiteboard not found"), o, []);
      }
    }

    method HandleModifyElementRequest(t: Socket, id: uint32, user: uint32, board: string,
                                      original: string, element: string, c: Choice)
      modifies this
      ensures View() == Perform(old(View()), t, HandleModify(old(View()), t, id, user, board, original, element, c))
    {
      hide DeliverAll, ParseOid, Pull, AddToSet;
      DeliverNone(outbox);
      ghost var o := outbox;
      var oid := ParseOid(board);
      if oid.None? {
        closed := closed + {t};
        return;
      }
      if oid.value in boards {
        var doc := boards[oid.value];
        var userFound := UserInActiveUserIds(doc, ToInt32(user));
        if userFound {
          var found := HasElement(doc.elements, original);
          if found {
            if c.updateThrows {
              closed := closed + {t};
              return;
            }
            boards := boards[oid.value := doc.(elements := Pull(doc.elements, original) + [element])];
            ghost var d := Delivery({t}, ActionResponse(id, true, "Element modified successfully"));
            SendPacket(t, ActionResponse(id, true, "Element modified successfully"), o, []);
            var shared := IsWhiteboardShared(board);
            if shared {
              var _ := HandleBroadcast(board, o, [] + [d]);
            }
          } else {
            SendPacket(t, ActionResponse(id, false, "Original element is not in the database"), o, []);
          }
        }
      } else {
        SendPacket(t, ActionResponse(id, false,
          "User is not authorized to modify element or whiteboard not found"), o, []);
      }
    }

    /** One round of the connection loop, from what it read on. */
    method Dispatch(t: Socket, packet: Packet, c: Choice)
      modifies this
      ensures View() == Step(old(View()), Event(t, packet, c))
    {
      hide Perform, HandleCreate, HandleOpen, HandleJoin, HandleQuit, HandleAdd, HandleModify, HandleRegister,
        HandleLogin;
      NothingHappens(View(), t);
      OnlyCloses(View(), t);
      match packet.request {
        case CreateBoard(u) => HandleCreateWhiteboardRequest(t, packet.id, u, c);
        case OpenSession(u, b) => HandleCreateSessionRequest(t, packet.id, u, b);
        case JoinSession(u, b) => HandleJoinSessionRequest(t, packet.id, u, b, c);
        case QuitSession(u, b) => HandleQuitSessionRequest(t, packet.id, u, b);
        case AddElement(u, b, x) => HandleAddElementRequest(t, packet.id, u, b, x);
        case ModifyElement(u, b, x, y) => HandleModifyElementRequest(t, packet.id, u, b, x, y, c);
        case Register(n, h) => HandleRegisterRequest(t, packet.id, n, h, c);
        case Login(n, h) => HandleLoginRequest(t, packet.id, n, h);
        case DeleteElement(_, _, _) =>
        case SaveBoard(_) =>
        case EndOfStream => closed := closed + {t};
      }
    }
  }
}
