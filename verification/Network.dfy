/**
 Clients and the server joined by first-in-first-out channels, each step one client sending, the
 server handling the oldest packet of a connection, or one client reading the oldest packet it has
 been sent. The result: every answer is read as the type of the request that caused it.
 */
module Network {
  import opened Server
  import opened ServerStores
  import opened ServerConnections
  import opened Client
  import opened Wrappers

  /**
   Every socket has a client. pending holds the packets the server has not handled, read how many
   of the server's packets the client has read, issued every request it has ever made, silent the
   numbers of those the server handled in a state in which they are not to be answered, and left the
   clients that have closed their connection.
   */
  datatype Net = Net(
    server: State, clients: map<Socket, ClientState>, pending: map<Socket, seq<Packet>>,
    read: map<Socket, nat>, issued: map<Socket, seq<Request>>, silent: map<Socket, set<uint32>>,
    left: set<Socket>)

  datatype Move =
    | ClientSends(socket: Socket, command: Command)
    | ServerHandles(socket: Socket, choice: Choice)
    | ClientReads(socket: Socket, garbage: uint32)
    | ClientLeaves(socket: Socket)
    | ServerSeesEnd(socket: Socket, choice: Choice)

  predicate WellFormed(n: Net) {
    n.clients.Keys == n.pending.Keys == n.read.Keys == n.issued.Keys == n.silent.Keys
  }

  /** Fresh clients, whatever their uninitialised user ids. */
  predicate Initial(n: Net) {
    && WellFormed(n) && n.server == START && n.left == {}
    && forall t :: t in n.clients ==>
         && n.clients[t].counter == 0 && n.clients[t].board == "" && n.clients[t].sendQueue == map[]
         && n.clients[t].received == []
         && n.pending[t] == [] && n.read[t] == 0 && n.issued[t] == [] && n.silent[t] == {}
  }

  /** What the connection loop finds after the last packet of a client that has left. */
  function Ending(t: Socket, c: Choice): Event {
    Event(t, Packet(0, EndOfStream), c)
  }

  predicate CanMove(n: Net, m: Move)
    requires WellFormed(n)
  {
    && m.socket in n.clients
    && match m
       case ClientSends(t, _) => t !in n.left
       case ServerHandles(t, c) => n.pending[t] != [] && Possible(n.server, Event(t, n.pending[t][0], c))
       case ClientReads(t, _) => t !in n.left && n.read[t] < |Sent(n.server.outbox, t)|
       case ClientLeaves(t) => t !in n.left
       case ServerSeesEnd(t, c) => t in n.left && n.pending[t] == [] && Possible(n.server, Ending(t, c))
  }

  function Moved(n: Net, m: Move): (r: Net)
    requires WellFormed(n) && CanMove(n, m)
    ensures WellFormed(r) && r.clients.Keys == n.clients.Keys
  {
    var t := m.socket;
    var c := n.clients[t];
    match m
    case ClientSends(_, command) =>
      n.(clients := n.clients[t := SendCommand(c, command)],
         pending := n.pending[t := n.pending[t] + [PacketFor(c, command)]],
         issued := n.issued[t := n.issued[t] + [RequestOf(c, command)]])
    case ServerHandles(_, choice) =>
      var e := Event(t, n.pending[t][0], choice);
      n.(server := Step(n.server, e),
         pending := n.pending[t := n.pending[t][1..]],
         silent := n.silent[t := n.silent[t] + (if Unanswered(n.server, e) then {e.packet.id} else {})])
    case ClientReads(_, garbage) =>
      n.(clients := n.clients[t := Read(c, Sent(n.server.outbox, t)[n.read[t]], garbage)],
         read := n.read[t := n.read[t] + 1])
    case ClientLeaves(_) => n.(left := n.left + {t})
    case ServerSeesEnd(_, choice) => n.(server := Step(n.server, Ending(t, choice)))
  }

  // ---------------------------------------------------------------- the answers of one request

  /** The text spells the id of a board that was created. */
  predicate Known(text: string, created: set<string>) {
    ParseOid(text).Some? && ParseOid(text).value in created
  }

  /** A successful answer to a create or a join carries the id of a board that was created. */
  predicate NamesBoard(m: Message, r: Request, created: set<string>) {
    m.ActionResponse? && m.success && (r.CreateBoard? || r.JoinSession?) ==>
      (r.JoinSession? ==> m.text == r.board) && Known(m.text, created)
  }

  lemma BoardAnswers(s: State, e: Event)
    requires BoardsOk(s) && Possible(s, e)
    ensures forall i :: 0 <= i < |EffectOf(s, e).sends|
              ==> NamesBoard(EffectOf(s, e).sends[i].message, e.packet.request, Step(s, e).created)
  {
    hide ParseOid, DeliverAll, ChangeBoards, ChangeSessions, ChangeMarks, AddToSet,
      HandleOpen, HandleQuit, HandleAdd, HandleModify, HandleRegister, HandleLogin, ActiveOk;
    assert ParseOid(e.choice.newBoard) == Some(e.choice.newBoard);
  }

  // ---------------------------------------------------------------- what a connection keeps

  /** The numbers of the answers among some messages, in order. */
  function AnswerIds(ms: seq<Message>): seq<uint32> {
    if ms == [] then []
    else
      var m := ms[|ms| - 1];
      AnswerIds(ms[..|ms| - 1]) + (if IsAnswer(m) then [AnswerId(m)] else [])
  }

  lemma {:induction false} AnswerIdsAppend(a: seq<Message>, b: seq<Message>)
    ensures AnswerIds(a + b) == AnswerIds(a) + AnswerIds(b)
  {
    if b == [] {
      assert a + b == a;
    } else {
      AnswerIdsAppend(a, b[..|b| - 1]);
      assert (a + b)[..|a + b| - 1] == a + b[..|b| - 1];
    }
  }

  /** A socket receives the answers addressed to it, as many as there are, and nobody else any. */
  lemma {:induction false} AnswersReceived(ds: seq<Delivery>, t: Socket, id: uint32, u: Socket)
    requires AnswersOnly(ds, t, id)
    ensures var ids := AnswerIds(Received(ds, u));
            && |ids| == (if u == t then CountAnswers(ds) else 0)
            && forall x :: x in ids ==> x == id
  {
    if ds != [] {
      var front, last := ds[..|ds| - 1], ds[|ds| - 1];
      AnswersReceived(front, t, id, u);
      var added := if u in last.to then [last.message] else [];
      AnswerIdsAppend(Received(front, u), added);
      assert AnswerIds(added) == if u in last.to && IsAnswer(last.message) then [AnswerId(last.message)] else [] by {
        assert added != [] ==> added[..0] == [];
      }
    }
  }

  predicate Increasing(l: seq<uint32>) {
    forall i, j :: 0 <= i < j < |l| ==> l[i] < l[j]
  }

  /** The number of requests of a socket that the server has handled. */
  function Handled(n: Net, t: Socket): int
    requires WellFormed(n) && t in n.clients
  {
    |n.issued[t]| - |n.pending[t]|
  }

  /** The client remembers the type of each of its requests under its number, counted from 1. */
  predicate Remembers(c: ClientState, issued: seq<Request>) {
    && c.counter == |issued|
    && forall k :: 0 <= k < |issued| && k + 1 < 0x1_0000_0000 ==> LookUp(c, k + 1) == KindOf(issued[k])
  }

  /** The pending packets are the last requests, with their numbers. */
  predicate Waiting(pending: seq<Packet>, issued: seq<Request>) {
    && |pending| <= |issued| < 0x1_0000_0000
    && forall j :: 0 <= j < |pending| ==>
         var k := |issued| - |pending| + j;
         pending[j].id == k + 1 && pending[j].request == issued[k]
  }

  /**
   The answers sent have increasing numbers, which are those of the handled requests but the silent
   ones, and name created boards.
   */
  predicate Answered(sent: seq<Message>, issued: seq<Request>, handled: int, silent: set<uint32>, created: set<string>)
  {
    && Increasing(AnswerIds(sent))
    && (forall id: uint32 :: id in AnswerIds(sent) <==> 1 <= id <= handled && id !in silent)
    && (forall id :: id in silent ==> 1 <= id <= handled)
    && handled <= |issued|
    && (forall i :: 0 <= i < |sent| && sent[i].ActionResponse? ==>
          1 <= sent[i].id <= |issued| && NamesBoard(sent[i], issued[sent[i].id - 1], created))
  }

  /** A connection, by what the client, the channel and the server hold of it. */
  predicate Consistent(c: ClientState, pending: seq<Packet>, read: nat, issued: seq<Request>, silent: set<uint32>,
                       sent: seq<Message>, created: set<string>)
  {
    && Remembers(c, issued)
    && Waiting(pending, issued)
    && Answered(sent, issued, |issued| - |pending|, silent, created)
    && read <= |sent|
    && (c.board == "" || Known(c.board, created))
  }

  predicate ConnectionOk(n: Net, t: Socket)
    requires WellFormed(n) && t in n.clients
  {
    Consistent(n.clients[t], n.pending[t], n.read[t], n.issued[t], n.silent[t], Sent(n.server.outbox, t),
               n.server.created)
  }

  predicate NetOk(n: Net) {
    && WellFormed(n) && BoardsOk(n.server)
    && forall t :: t in n.clients ==> ConnectionOk(n, t)
  }

  // ---------------------------------------------------------------- one move

  lemma RemembersSent(c: ClientState, issued: seq<Request>, command: Command)
    requires Remembers(c, issued) && |issued| + 1 < 0x1_0000_0000
    ensures Remembers(SendCommand(c, command), issued + [RequestOf(c, command)])
  {
    hide RequestOf, KindOf;
  }

  lemma WaitingSent(c: ClientState, pending: seq<Packet>, issued: seq<Request>, command: Command)
    requires Waiting(pending, issued) && c.counter == |issued| && |issued| + 1 < 0x1_0000_0000
    ensures Waiting(pending + [PacketFor(c, command)], issued + [RequestOf(c, command)])
  {
    hide RequestOf;
  }

  lemma AnsweredIssued(sent: seq<Message>, issued: seq<Request>, handled: int, silent: set<uint32>,
                       created: set<string>, r: Request)
    requires Answered(sent, issued, handled, silent, created)
    ensures Answered(sent, issued + [r], handled, silent, created)
  {
    hide NamesBoard, AnswerIds;
  }

  lemma ConsistentSent(c: ClientState, pending: seq<Packet>, read: nat, issued: seq<Request>, silent: set<uint32>,
                       sent: seq<Message>, created: set<string>, command: Command)
    requires Consistent(c, pending, read, issued, silent, sent, created) && |issued| + 1 < 0x1_0000_0000
    ensures Consistent(SendCommand(c, command), pending + [PacketFor(c, command)], read,
                       issued + [RequestOf(c, command)], silent, sent, created)
  {
    hide Remembers, Waiting, Answered, SendCommand, PacketFor, RequestOf, Known;
    CounterCounts(c, issued);
    RemembersSent(c, issued, command);
    WaitingSent(c, pending, issued, command);
    AnsweredIssued(sent, issued, |issued| - |pending|, silent, created, RequestOf(c, command));
    SendKeepsBoard(c, command);
  }

  lemma SendKeeps(n: Net, t: Socket, command: Command)
    requires NetOk(n) && CanMove(n, ClientSends(t, command)) && |n.issued[t]| + 1 < 0x1_0000_0000
    ensures NetOk(Moved(n, ClientSends(t, command)))
  {
    hide Consistent, BoardsOk, SendCommand, PacketFor, RequestOf, Sent;
    var n' := Moved(n, ClientSends(t, command));
    forall u | u in n'.clients
      ensures ConnectionOk(n', u)
    {
      assert ConnectionOk(n, u);
      if u == t {
        ConsistentSent(n.clients[t], n.pending[t], n.read[t], n.issued[t], n.silent[t], Sent(n.server.outbox, t),
                       n.server.created, command);
      }
    }
  }

  lemma CounterCounts(c: ClientState, issued: seq<Request>)
    requires Remembers(c, issued)
    ensures c.counter == |issued|
  {
  }

  lemma SendKeepsBoard(c: ClientState, command: Command)
    ensures SendCommand(c, command).board == c.board
  {
  }

  lemma {:induction false} ReceivedFrom(ds: seq<Delivery>, u: Socket, i: nat) returns (j: nat)
    requires i < |Received(ds, u)|
    ensures j < |ds| && ds[j].message == Received(ds, u)[i] && u in ds[j].to
  {
    var front := ds[..|ds| - 1];
    if i < |Received(front, u)| {
      j := ReceivedFrom(front, u, i);
    } else {
      j := |ds| - 1;
    }
  }

  lemma ToldParts(s: State, e: Event)
    ensures var ds := EffectOf(s, e).sends;
            && AnswersOnly(ds, e.socket, e.packet.id)
            && CountAnswers(ds) == (if Unanswered(s, e) then 0 else 1)
  {
    hide EffectOf, Unanswered, EndsConnection, AnswersOnly, CountAnswers;
    AnsweredExactly(s, e);
  }

  /** The responses a request adds are to its sender, under its number. */
  lemma NewAnswers(s: State, e: Event, u: Socket)
    requires BoardsOk(s) && Possible(s, e)
    ensures var ms := Received(EffectOf(s, e).sends, u);
            forall i :: 0 <= i < |ms| && ms[i].ActionResponse? ==>
              u == e.socket && ms[i].id == e.packet.id && NamesBoard(ms[i], e.packet.request, Step(s, e).created)
  {
    hide EffectOf, Step, BoardsOk, Possible, Received, NamesBoard, Unanswered, CountAnswers;
    ToldParts(s, e);
    BoardAnswers(s, e);
    var ms := Received(EffectOf(s, e).sends, u);
    forall i | 0 <= i < |ms| && ms[i].ActionResponse?
      ensures u == e.socket && ms[i].id == e.packet.id && NamesBoard(ms[i], e.packet.request, Step(s, e).created)
    {
      var j := ReceivedFrom(EffectOf(s, e).sends, u, i);
    }
  }

  lemma IncreasingAppend(ids: seq<uint32>, id: uint32, handled: int)
    requires Increasing(ids) && (forall k :: k in ids ==> 1 <= k <= handled) && id == handled + 1
    ensures Increasing(ids + [id])
  {
    assert forall i :: 0 <= i < |ids| ==> ids[i] in ids;
  }

  lemma NamesBoardGrows(m: Message, r: Request, created: set<string>, more: set<string>)
    requires NamesBoard(m, r, created) && created <= more
    ensures NamesBoard(m, r, more)
  {
  }

  /** The numbers answered after a request of a connection is handled. */
  lemma IdsHandled(ids: seq<uint32>, more: seq<uint32>, handled: int, silent: set<uint32>, id: uint32, quiet: bool)
    requires Increasing(ids) && forall k: uint32 :: k in ids <==> 1 <= k <= handled && k !in silent
    requires 0 <= handled && id == handled + 1 && id !in silent
    requires |more| == (if quiet then 0 else 1) && forall k :: k in more ==> k == id
    ensures Increasing(ids + more)
    ensures forall k: uint32 ::
              k in ids + more <==> 1 <= k <= handled + 1 && k !in silent + (if quiet then {id} else {})
  {
    if quiet {
      assert ids + more == ids;
    } else {
      assert more == [id] by {
        assert more == [more[0]] && more[0] in more;
      }
      IncreasingAppend(ids, id, handled);
    }
  }

  /** The silent numbers of a connection after a packet of one is handled. */
  function SilentAfter(s: State, e: Event, u: Socket, silent: set<uint32>): set<uint32> {
    if u == e.socket then silent + (if Unanswered(s, e) then {e.packet.id} else {}) else silent
  }

  lemma AnswerIdsHandled(s: State, e: Event, u: Socket, sent: seq<Message>, handled: int, silent: set<uint32>)
    requires Increasing(AnswerIds(sent))
    requires forall k: uint32 :: k in AnswerIds(sent) <==> 1 <= k <= handled && k !in silent
    requires u == e.socket ==> 0 <= handled && e.packet.id == handled + 1 && e.packet.id !in silent
    ensures var ids := AnswerIds(sent + Received(EffectOf(s, e).sends, u));
            && Increasing(ids)
            && forall k: uint32 :: k in ids <==>
                 1 <= k <= (if u == e.socket then handled + 1 else handled) && k !in SilentAfter(s, e, u, silent)
  {
    hide EffectOf, Received, AnswerIds, AnswersOnly, CountAnswers, Unanswered, Increasing;
    var ds := EffectOf(s, e).sends;
    var received := Received(ds, u);
    ToldParts(s, e);
    AnswersReceived(ds, e.socket, e.packet.id, u);
    AnswerIdsAppend(sent, received);
    if u == e.socket {
      IdsHandled(AnswerIds(sent), AnswerIds(received), handled, silent, e.packet.id, Unanswered(s, e));
    } else {
      assert AnswerIds(sent) + AnswerIds(received) == AnswerIds(sent);
    }
  }

  /** What any connection keeps while the server handles a packet of one. */
  lemma AnsweredHandled(s: State, e: Event, u: Socket, issued: seq<Request>, handled: int, silent: set<uint32>)
    requires BoardsOk(s) && Possible(s, e)
    requires Answered(Sent(s.outbox, u), issued, handled, silent, s.created)
    requires u == e.socket ==>
               0 <= handled < |issued| && e.packet.id == handled + 1 && e.packet.request == issued[handled]
    ensures Answered(Sent(Step(s, e).outbox, u), issued, if u == e.socket then handled + 1 else handled,
                     SilentAfter(s, e, u, silent), Step(s, e).created)
  {
    hide EffectOf, BoardsOk, Possible, ChangeBoards, ChangeSessions, ChangeMarks, DeliverAll, Sent, Received,
      NamesBoard, AnswerIds, Increasing, Unanswered;
    var ds := EffectOf(s, e).sends;
    var sent, received := Sent(s.outbox, u), Received(ds, u);
    SentAfter(s.outbox, ds, u);
    AnswerIdsHandled(s, e, u, sent, handled, silent);
    BoardsStep(s, e);
    NewAnswers(s, e, u);
    forall i | 0 <= i < |sent| && sent[i].ActionResponse?
      ensures NamesBoard(sent[i], issued[sent[i].id - 1], Step(s, e).created)
    {
      NamesBoardGrows(sent[i], issued[sent[i].id - 1], s.created, Step(s, e).created);
    }
  }

  lemma WaitingTail(pending: seq<Packet>, issued: seq<Request>)
    requires Waiting(pending, issued) && pending != []
    ensures Waiting(pending[1..], issued)
    ensures var k := |issued| - |pending|; pending[0].id == k + 1 && pending[0].request == issued[k]
  {
  }

  /** A connection while the server handles a packet of any. */
  lemma ConsistentHandled(c: ClientState, pending: seq<Packet>, read: nat, issued: seq<Request>, silent: set<uint32>,
                          s: State, e: Event, u: Socket)
    requires BoardsOk(s) && Possible(s, e)
    requires Consistent(c, pending, read, issued, silent, Sent(s.outbox, u), s.created)
    requires u == e.socket ==> pending != [] && pending[0] == e.packet
    ensures Consistent(c, if u == e.socket then pending[1..] else pending, read, issued,
                       SilentAfter(s, e, u, silent), Sent(Step(s, e).outbox, u), Step(s, e).created)
  {
    hide Remembers, Waiting, Answered, BoardsOk, Possible, Step, Sent, SilentAfter;
    BoardsStep(s, e);
    WaitingLength(pending, issued);
    if u == e.socket {
      WaitingTail(pending, issued);
    }
    AnsweredHandled(s, e, u, issued, |issued| - |pending|, silent);
    SentGrows(s, e, u);
  }

  lemma HandleKeeps(n: Net, t: Socket, choice: Choice)
    requires NetOk(n) && CanMove(n, ServerHandles(t, choice))
    ensures NetOk(Moved(n, ServerHandles(t, choice)))
  {
    hide Consistent, BoardsOk, Possible, Step, Sent, Unanswered;
    var s, e := n.server, Event(t, n.pending[t][0], choice);
    var n' := Moved(n, ServerHandles(t, choice));
    BoardsStep(s, e);
    forall u | u in n'.clients
      ensures ConnectionOk(n', u)
    {
      assert ConnectionOk(n, u);
      ConsistentHandled(n.clients[u], n.pending[u], n.read[u], n.issued[u], n.silent[u], s, e, u);
    }
  }

  lemma WaitingLength(pending: seq<Packet>, issued: seq<Request>)
    requires Waiting(pending, issued)
    ensures |pending| <= |issued|
  {
  }

  lemma SentGrows(s: State, e: Event, u: Socket)
    ensures |Sent(s.outbox, u)| <= |Sent(Step(s, e).outbox, u)|
  {
    hide EffectOf, ChangeBoards, ChangeSessions, ChangeMarks, DeliverAll, Sent, Received;
    SentAfter(s.outbox, EffectOf(s, e).sends, u);
  }

  /** Reading a message does not change the type under any number. */
  lemma ReadKeepsLookUp(c: ClientState, m: Message, garbage: uint32, issued: seq<Request>)
    requires Remembers(c, issued)
    ensures Remembers(Read(c, m, garbage), issued)
  {
    hide KindOf;
  }

  lemma {:induction false} AnswerHasId(ms: seq<Message>, i: nat)
    requires i < |ms| && IsAnswer(ms[i])
    ensures AnswerId(ms[i]) in AnswerIds(ms)
  {
    if i < |ms| - 1 {
      AnswerHasId(ms[..|ms| - 1], i);
    }
  }

  /** Increasing numbers are distinct: no two answers share one. */
  lemma {:induction false} AnswersDistinct(ms: seq<Message>, i: nat, j: nat)
    requires Increasing(AnswerIds(ms)) && i < j < |ms| && IsAnswer(ms[i]) && IsAnswer(ms[j])
    ensures AnswerId(ms[i]) != AnswerId(ms[j])
  {
    var front := ms[..|ms| - 1];
    assert forall k :: 0 <= k < |AnswerIds(front)| ==> AnswerIds(ms)[k] == AnswerIds(front)[k];
    if j < |front| {
      AnswersDistinct(front, i, j);
    } else {
      AnswerHasId(front, i);
      var ids := AnswerIds(front);
      var k :| 0 <= k < |ids| && ids[k] == AnswerId(ms[i]);
      assert AnswerIds(ms) == ids + [AnswerId(ms[j])];
      assert AnswerIds(ms)[k] < AnswerIds(ms)[|ids|];
    }
  }

  /** An answer to a handled request is read as that request's type. */
  lemma ReadAsItsRequest(n: Net, t: Socket, garbage: uint32)
    requires NetOk(n) && CanMove(n, ClientReads(t, garbage))
    ensures var sent := Sent(n.server.outbox, t);
            var m := sent[n.read[t]];
            m.ActionResponse? ==>
              && 1 <= m.id <= Handled(n, t) && m.id <= |n.issued[t]|
              && LookUp(n.clients[t], m.id) == KindOf(n.issued[t][m.id - 1])
              && NamesBoard(m, n.issued[t][m.id - 1], n.server.created)
              && forall j :: 0 <= j < |sent| && j != n.read[t] && IsAnswer(sent[j]) ==> AnswerId(sent[j]) != m.id
  {
    hide KindOf, LookUp, NamesBoard, BoardsOk, AnswerIds;
    var sent := Sent(n.server.outbox, t);
    var i := n.read[t];
    if sent[i].ActionResponse? {
      AnswerHasId(sent, i);
      forall j | 0 <= j < |sent| && j != i && IsAnswer(sent[j])
        ensures AnswerId(sent[j]) != sent[i].id
      {
        if j < i {
          AnswersDistinct(sent, j, i);
        } else {
          AnswersDistinct(sent, i, j);
        }
      }
      assert LookUp(n.clients[t], (sent[i].id - 1) + 1) == KindOf(n.issued[t][sent[i].id - 1]);
    }
  }

  lemma KindTellsRequest(r: Request)
    ensures KindOf(r) != Unset
    ensures KindOf(r) == CreateKind <==> r.CreateBoard?
    ensures KindOf(r) == JoinKind <==> r.JoinSession?
  {
  }

  /** Requests have the same type exactly when they are of the same sort; the end of a stream is none. */
  lemma KindsDiffer(r: Request, q: Request)
    requires !r.EndOfStream? && !q.EndOfStream?
    ensures KindOf(r) == KindOf(q) <==>
              && (r.CreateBoard? <==> q.CreateBoard?) && (r.OpenSession? <==> q.OpenSession?)
              && (r.JoinSession? <==> q.JoinSession?) && (r.QuitSession? <==> q.QuitSession?)
              && (r.AddElement? <==> q.AddElement?) && (r.ModifyElement? <==> q.ModifyElement?)
              && (r.Register? <==> q.Register?) && (r.Login? <==> q.Login?)
              && (r.DeleteElement? <==> q.DeleteElement?) && (r.SaveBoard? <==> q.SaveBoard?)
  {
  }

  /** The board id changes only to one the server returned for a successful create or join. */
  lemma BoardChange(n: Net, t: Socket, garbage: uint32)
    requires NetOk(n) && CanMove(n, ClientReads(t, garbage))
    ensures var c := n.clients[t];
            var m := Sent(n.server.outbox, t)[n.read[t]];
            Read(c, m, garbage).board != c.board ==>
              && m.ActionResponse? && m.success && Read(c, m, garbage).board == m.text
              && 1 <= m.id <= |n.issued[t]|
              && (n.issued[t][m.id - 1].CreateBoard? || n.issued[t][m.id - 1].JoinSession?)
              && Known(m.text, n.server.created)
  {
    hide KindOf, LookUp, Known, ConnectionOk, BoardsOk, Sent;
    ReadAsItsRequest(n, t, garbage);
    var m := Sent(n.server.outbox, t)[n.read[t]];
    if m.ActionResponse? {
      KindTellsRequest(n.issued[t][m.id - 1]);
    }
  }

  lemma ReadKeeps(n: Net, t: Socket, garbage: uint32)
    requires NetOk(n) && CanMove(n, ClientReads(t, garbage))
    ensures NetOk(Moved(n, ClientReads(t, garbage)))
  {
    hide Consistent, BoardsOk, Sent, Read, Known;
    var n' := Moved(n, ClientReads(t, garbage));
    var sent := Sent(n.server.outbox, t);
    BoardChange(n, t, garbage);
    forall u | u in n'.clients
      ensures ConnectionOk(n', u)
    {
      assert ConnectionOk(n, u);
      if u == t {
        ConsistentRead(n.clients[t], n.pending[t], n.read[t], n.issued[t], n.silent[t], sent, n.server.created,
                       sent[n.read[t]], garbage);
      }
    }
  }

  lemma ConsistentRead(c: ClientState, pending: seq<Packet>, read: nat, issued: seq<Request>, silent: set<uint32>,
                       sent: seq<Message>, created: set<string>, m: Message, garbage: uint32)
    requires Consistent(c, pending, read, issued, silent, sent, created) && read < |sent|
    requires Read(c, m, garbage).board == c.board || Known(Read(c, m, garbage).board, created)
    ensures Consistent(Read(c, m, garbage), pending, read + 1, issued, silent, sent, created)
  {
    hide Remembers, Waiting, Answered, Read, Known;
    ReadKeepsLookUp(c, m, garbage, issued);
  }

  lemma LeaveKeeps(n: Net, t: Socket)
    requires NetOk(n) && CanMove(n, ClientLeaves(t))
    ensures NetOk(Moved(n, ClientLeaves(t)))
  {
    hide Consistent, BoardsOk, Sent;
    var n' := Moved(n, ClientLeaves(t));
    forall u | u in n'.clients
      ensures ConnectionOk(n', u)
    {
      assert ConnectionOk(n, u);
    }
  }

  /** The end of a stream touches nothing but the connection. */
  lemma EndOnlyCloses(s: State, t: Socket, c: Choice)
    ensures Step(s, Ending(t, c)) == s.(closed := s.closed + {t})
  {
    hide Perform;
    OnlyCloses(s, t);
  }

  lemma EndKeeps(n: Net, t: Socket, choice: Choice)
    requires NetOk(n) && CanMove(n, ServerSeesEnd(t, choice))
    ensures NetOk(Moved(n, ServerSeesEnd(t, choice)))
  {
    hide Consistent, Possible, Step, Sent, ActiveOk, Canonical;
    var n' := Moved(n, ServerSeesEnd(t, choice));
    EndOnlyCloses(n.server, t, choice);
    forall u | u in n'.clients
      ensures ConnectionOk(n', u)
    {
      assert ConnectionOk(n, u);
    }
  }

  // ---------------------------------------------------------------- runs

  /** Moves one after the other, during which no client makes 2^32 requests. */
  predicate NetRun(n: Net, ms: seq<Move>)
    requires WellFormed(n)
    decreases |ms|
  {
    ms == [] ||
    (&& CanMove(n, ms[0])
     && (ms[0].ClientSends? ==> |n.issued[ms[0].socket]| + 1 < 0x1_0000_0000)
     && NetRun(Moved(n, ms[0]), ms[1..]))
  }

  function NetAfter(n: Net, ms: seq<Move>): (r: Net)
    requires WellFormed(n) && NetRun(n, ms)
    ensures WellFormed(r)
    decreases |ms|
  {
    if ms == [] then n else NetAfter(Moved(n, ms[0]), ms[1..])
  }

  lemma {:induction false} NetOkRun(n: Net, ms: seq<Move>)
    requires NetOk(n) && NetRun(n, ms)
    ensures NetOk(NetAfter(n, ms))
    decreases |ms|
  {
    hide ConnectionOk, BoardsOk, Step, Sent, Possible, SendCommand, Read;
    if ms != [] {
      match ms[0] {
        case ClientSends(t, command) => SendKeeps(n, t, command);
        case ServerHandles(t, choice) => HandleKeeps(n, t, choice);
        case ClientReads(t, garbage) => ReadKeeps(n, t, garbage);
        case ClientLeaves(t) => LeaveKeeps(n, t);
        case ServerSeesEnd(t, choice) => EndKeeps(n, t, choice);
      }
      NetOkRun(Moved(n, ms[0]), ms[1..]);
    }
  }

  lemma InitialOk(n: Net)
    requires Initial(n)
    ensures NetOk(n)
  {
  }

  /** What reading the next packet does to a client, when that is as it should be. */
  predicate ReadsRight(n: Net, t: Socket, garbage: uint32)
    requires WellFormed(n) && CanMove(n, ClientReads(t, garbage))
  {
    var c := n.clients[t];
    var sent := Sent(n.server.outbox, t);
    var m := sent[n.read[t]];
    && (m.ActionResponse? ==>
          && 1 <= m.id <= Handled(n, t) && m.id <= |n.issued[t]|
          && LookUp(c, m.id) == KindOf(n.issued[t][m.id - 1]) != Unset
          && forall j :: 0 <= j < |sent| && j != n.read[t] && IsAnswer(sent[j]) ==> AnswerId(sent[j]) != m.id)
    && (Read(c, m, garbage).board != c.board ==>
          && m.ActionResponse? && m.success && Read(c, m, garbage).board == m.text
          && 1 <= m.id <= |n.issued[t]|
          && (n.issued[t][m.id - 1].CreateBoard? || n.issued[t][m.id - 1].JoinSession?)
          && Known(m.text, n.server.created))
    && ReadsExactly(n, t, m, garbage)
  }

  /**
   A successful response to a create or a join changes the board to its text, a successful user id the
   user, and nothing else either; failures throw, and everything that does not throw is queued.
   */
  predicate ReadsExactly(n: Net, t: Socket, m: Message, garbage: uint32)
    requires WellFormed(n) && t in n.clients
  {
    var c := n.clients[t];
    var r := Read(c, m, garbage);
    && r.board == (if && m.ActionResponse? && m.success && 1 <= m.id <= |n.issued[t]|
                      && (n.issued[t][m.id - 1].CreateBoard? || n.issued[t][m.id - 1].JoinSession?)
                   then m.text else c.board)
    && r.user == (if m.TempId? && m.success then m.user % 0x1_0000_0000 else c.user)
    && r.counter == c.counter
    && (Throws(c, m) <==> !m.ElementList? && !m.success)
    && (Throws(c, m) ==> r.received == c.received)
    && (!Throws(c, m) ==>
          && r.received != [] && r.received[..|r.received| - 1] == c.received
          && SameButNumber(r.received[|r.received| - 1], m))
  }

  /** What reading a message queues is the message itself, but for a number that is overwritten. */
  predicate SameButNumber(q: Message, m: Message) {
    || q == m
    || (q.ActionResponse? && m.ActionResponse? && q.success == m.success && q.text == m.text)
    || (q.TempId? && m.TempId? && q.success == m.success && q.user == m.user && q.asked == m.asked)
  }

  lemma ReadExactly(n: Net, t: Socket, m: Message, garbage: uint32)
    requires WellFormed(n) && t in n.clients
    requires m.ActionResponse? ==>
               && 1 <= m.id <= |n.issued[t]|
               && LookUp(n.clients[t], m.id) == KindOf(n.issued[t][m.id - 1]) != Unset
    ensures ReadsExactly(n, t, m, garbage)
  {
    hide KindOf;
    if m.ActionResponse? {
      KindTellsRequest(n.issued[t][m.id - 1]);
    }
  }

  lemma OkReadsRight(n: Net, t: Socket, garbage: uint32)
    requires WellFormed(n) && NetOk(n) && CanMove(n, ClientReads(t, garbage))
    ensures ReadsRight(n, t, garbage)
  {
    hide Sent, NetOk, ConnectionOk, KindOf, LookUp, Known, Read, ReadsExactly;
    ReadAsItsRequest(n, t, garbage);
    BoardChange(n, t, garbage);
    var m := Sent(n.server.outbox, t)[n.read[t]];
    if m.ActionResponse? {
      KindTellsRequest(n.issued[t][m.id - 1]);
    }
    ReadExactly(n, t, m, garbage);
  }

  /**
   End to end: in every run with any clients, whenever a client reads a response, the response is to
   one of its own requests that the server has handled, it is the only answer to that request, and
   it is read as the request's own type; and if it changes the board id, it is a successful response
   to a create or a join, carrying the id of a board the server created.
   */
  lemma Correlation(n: Net, ms: seq<Move>, t: Socket, garbage: uint32)
    requires Initial(n) && NetRun(n, ms) && CanMove(NetAfter(n, ms), ClientReads(t, garbage))
    ensures ReadsRight(NetAfter(n, ms), t, garbage)
  {
    hide Sent, NetOk, Initial, ReadsRight, CanMove, Moved;
    InitialOk(n);
    NetOkRun(n, ms);
    OkReadsRight(NetAfter(n, ms), t, garbage);
  }

  /** Message i is the answer with the number, and no other message is. */
  predicate OnlyAnswer(sent: seq<Message>, id: uint32, i: nat) {
    && i < |sent| && IsAnswer(sent[i]) && AnswerId(sent[i]) == id
    && forall j :: 0 <= j < |sent| && IsAnswer(sent[j]) && AnswerId(sent[j]) == id ==> j == i
  }

  predicate NoAnswer(sent: seq<Message>, id: uint32) {
    forall j :: 0 <= j < |sent| && IsAnswer(sent[j]) ==> AnswerId(sent[j]) != id
  }

  lemma {:induction false} IdHasAnswer(ms: seq<Message>, id: uint32) returns (i: nat)
    requires id in AnswerIds(ms)
    ensures i < |ms| && IsAnswer(ms[i]) && AnswerId(ms[i]) == id
  {
    var front, last := ms[..|ms| - 1], ms[|ms| - 1];
    if IsAnswer(last) && AnswerId(last) == id {
      i := |ms| - 1;
    } else {
      i := IdHasAnswer(front, id);
    }
  }

  lemma AnswerIsOnly(sent: seq<Message>, id: uint32)
    requires Increasing(AnswerIds(sent)) && id in AnswerIds(sent)
    ensures exists i :: OnlyAnswer(sent, id, i)
  {
    hide AnswerIds, Increasing;
    var i := IdHasAnswer(sent, id);
    forall j | 0 <= j < |sent| && IsAnswer(sent[j]) && AnswerId(sent[j]) == id
      ensures j == i
    {
      if j < i {
        AnswersDistinct(sent, j, i);
      } else if i < j {
        AnswersDistinct(sent, i, j);
      }
    }
    assert OnlyAnswer(sent, id, i);
  }

  /**
   In every run, every request the server has handled has exactly one answer among what its client
   was sent, unless the server handled it in a state in which it is one of the unanswered: those
   have none. No answer is to anything else.
   */
  lemma EveryRequestAnswered(n: Net, ms: seq<Move>, t: Socket, id: uint32)
    requires Initial(n) && NetRun(n, ms) && t in NetAfter(n, ms).clients
    ensures var r := NetAfter(n, ms);
            var sent := Sent(r.server.outbox, t);
            if 1 <= id <= Handled(r, t) && id !in r.silent[t]
            then exists i :: OnlyAnswer(sent, id, i)
            else NoAnswer(sent, id)
  {
    hide Sent, Initial, AnswerIds, Remembers, Waiting, Known, BoardsOk;
    InitialOk(n);
    NetOkRun(n, ms);
    var r := NetAfter(n, ms);
    var sent := Sent(r.server.outbox, t);
    assert ConnectionOk(r, t);
    if id in AnswerIds(sent) {
      AnswerIsOnly(sent, id);
    }
    forall j | 0 <= j < |sent| && IsAnswer(sent[j])
      ensures AnswerId(sent[j]) in AnswerIds(sent)
    {
      AnswerHasId(sent, j);
    }
  }

  /** A client's board id is either still empty or spells a board that the server created. */
  lemma BoardIsKnown(n: Net, ms: seq<Move>, t: Socket)
    requires Initial(n) && NetRun(n, ms) && t in NetAfter(n, ms).clients
    ensures var r := NetAfter(n, ms);
            r.clients[t].board == "" || Known(r.clients[t].board, r.server.created)
  {
    hide Known, Initial;
    InitialOk(n);
    NetOkRun(n, ms);
  }
}
