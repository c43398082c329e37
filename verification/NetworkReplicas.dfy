/**
 Replica agreement at the clients: what a client that has read everything holds of a board is the
 board as stored.
 */
module NetworkReplicas {
  import opened Server
  import opened ServerStores
  import opened ServerReplicas
  import opened Client
  import opened Network
  import opened Wrappers

  // ---------------------------------------------------------------- the server's run

  /** What a move makes the server do. */
  function EventOf(n: Net, m: Move): seq<Event>
    requires WellFormed(n) && CanMove(n, m)
  {
    match m
    case ServerHandles(t, c) => [Event(t, n.pending[t][0], c)]
    case ServerSeesEnd(t, c) => [Ending(t, c)]
    case _ => []
  }

  function ServerEvents(n: Net, ms: seq<Move>): seq<Event>
    requires WellFormed(n) && NetRun(n, ms)
    decreases |ms|
  {
    if ms == [] then [] else EventOf(n, ms[0]) + ServerEvents(Moved(n, ms[0]), ms[1..])
  }

  lemma OneEvent(n: Net, m: Move, rest: seq<Event>)
    requires WellFormed(n) && CanMove(n, m) && Run(Moved(n, m).server, rest)
    ensures Run(n.server, EventOf(n, m) + rest)
    ensures After(n.server, EventOf(n, m) + rest) == After(Moved(n, m).server, rest)
  {
    hide Step, Possible, SendCommand, Read, Sent;
    var es := EventOf(n, m);
    if es == [] {
      assert es + rest == rest;
    } else {
      assert (es + rest)[0] == es[0] && (es + rest)[1..] == rest;
    }
  }

  /** The server of a net runs as the server alone does on the packets it handles. */
  lemma {:induction false} ServerRuns(n: Net, ms: seq<Move>)
    requires WellFormed(n) && NetRun(n, ms)
    ensures Run(n.server, ServerEvents(n, ms))
    ensures NetAfter(n, ms).server == After(n.server, ServerEvents(n, ms))
    decreases |ms|
  {
    hide Moved, CanMove, EventOf, Step, Possible;
    if ms != [] {
      ServerRuns(Moved(n, ms[0]), ms[1..]);
      OneEvent(n, ms[0], ServerEvents(Moved(n, ms[0]), ms[1..]));
    }
  }

  // ---------------------------------------------------------------- what clients have received

  /** The last list of each board among what a client has queued is the last among what it has read. */
  ghost predicate ListsAsSent(received: seq<Message>, sent: seq<Message>, read: nat) {
    read <= |sent| && forall o :: LastList(received, o) == LastList(sent[..read], o)
  }

  ghost predicate ListsOk(n: Net)
    requires WellFormed(n)
  {
    forall t :: t in n.clients ==>
      ListsAsSent(n.clients[t].received, Sent(n.server.outbox, t), n.read[t])
  }

  lemma ListsRead(c: ClientState, sent: seq<Message>, read: nat, garbage: uint32)
    requires ListsAsSent(c.received, sent, read) && read < |sent|
    ensures ListsAsSent(Read(c, sent[read], garbage).received, sent, read + 1)
  {
    hide LookUp, Throws, LastList;
    var m := sent[read];
    assert sent[..read + 1] == sent[..read] + [m];
    forall o
      ensures LastList(Read(c, m, garbage).received, o) == LastList(sent[..read + 1], o)
    {
      OneList(sent[..read], m, o);
      OneList(c.received, Queued(m, garbage), o);
      ListsDoNotThrow(c, m);
    }
  }

  lemma OneList(ms: seq<Message>, m: Message, o: string)
    ensures LastList(ms + [m], o) == if m.ElementList? && m.board == o then Some(m.elements) else LastList(ms, o)
  {
    assert (ms + [m])[..|ms|] == ms;
  }

  lemma ListsDoNotThrow(c: ClientState, m: Message)
    ensures m.ElementList? ==> !Throws(c, m)
  {
  }

  lemma ListsSent(received: seq<Message>, sent: seq<Message>, more: seq<Message>, read: nat)
    requires ListsAsSent(received, sent, read)
    ensures ListsAsSent(received, sent + more, read)
  {
    hide LastList;
    assert (sent + more)[..read] == sent[..read];
  }

  lemma ListsStepped(s: State, e: Event, t: Socket, received: seq<Message>, read: nat)
    requires ListsAsSent(received, Sent(s.outbox, t), read)
    ensures ListsAsSent(received, Sent(Step(s, e).outbox, t), read)
  {
    hide EffectOf, ChangeBoards, ChangeSessions, ChangeMarks, DeliverAll, Sent, Received, ListsAsSent;
    SentAfter(s.outbox, EffectOf(s, e).sends, t);
    ListsSent(received, Sent(s.outbox, t), Received(EffectOf(s, e).sends, t), read);
  }

  lemma SendKeepsReceived(c: ClientState, command: Command)
    ensures SendCommand(c, command).received == c.received
  {
  }

  /** A step of the server. */
  lemma ListsServed(n: Net, after: Net, e: Event)
    requires WellFormed(n) && ListsOk(n) && WellFormed(after)
    requires after.clients == n.clients && after.read == n.read && after.server == Step(n.server, e)
    ensures ListsOk(after)
  {
    hide ListsAsSent, Step, Sent;
    forall t | t in after.clients
      ensures ListsAsSent(after.clients[t].received, Sent(after.server.outbox, t), after.read[t])
    {
      ListsStepped(n.server, e, t, n.clients[t].received, n.read[t]);
    }
  }

  /** A step of one client. */
  lemma ListsOfClient(n: Net, t: Socket, c: ClientState, read: nat)
    requires WellFormed(n) && ListsOk(n) && t in n.clients
    requires ListsAsSent(c.received, Sent(n.server.outbox, t), read)
    ensures ListsOk(n.(clients := n.clients[t := c], read := n.read[t := read]))
  {
    hide ListsAsSent, Sent;
  }

  /** Whether lists are as sent is told by these parts alone. */
  lemma SameLists(n: Net, after: Net)
    requires WellFormed(n) && ListsOk(n) && WellFormed(after)
    requires after.clients == n.clients && after.read == n.read && after.server == n.server
    ensures ListsOk(after)
  {
    hide ListsAsSent, Sent;
  }

  lemma ListsMoved(n: Net, m: Move)
    requires WellFormed(n) && ListsOk(n) && CanMove(n, m)
    ensures ListsOk(Moved(n, m))
  {
    hide ListsAsSent, ListsOk, Step, Sent, Read, SendCommand, PacketFor, RequestOf, Possible;
    var after := Moved(n, m);
    match m {
      case ClientSends(t, command) =>
        var c := SendCommand(n.clients[t], command);
        SendKeepsReceived(n.clients[t], command);
        ListsAt(n, t);
        ListsOfClient(n, t, c, n.read[t]);
        assert n.read[t := n.read[t]] == n.read;
        SameLists(n.(clients := n.clients[t := c], read := n.read[t := n.read[t]]), after);
      case ServerHandles(u, choice) => ListsServed(n, after, Event(u, n.pending[u][0], choice));
      case ClientReads(t, garbage) =>
        ListsAt(n, t);
        ListsRead(n.clients[t], Sent(n.server.outbox, t), n.read[t], garbage);
        ListsOfClient(n, t, after.clients[t], n.read[t] + 1);
      case ClientLeaves(_) => SameLists(n, after);
      case ServerSeesEnd(u, choice) => ListsServed(n, after, Ending(u, choice));
    }
  }

  lemma ListsAt(n: Net, t: Socket)
    requires WellFormed(n) && ListsOk(n) && t in n.clients
    ensures ListsAsSent(n.clients[t].received, Sent(n.server.outbox, t), n.read[t])
  {
  }

  lemma {:induction false} ListsRun(n: Net, ms: seq<Move>)
    requires WellFormed(n) && ListsOk(n) && NetRun(n, ms)
    ensures ListsOk(NetAfter(n, ms))
    decreases |ms|
  {
    hide Moved, CanMove, ListsOk;
    if ms != [] {
      ListsMoved(n, ms[0]);
      ListsRun(Moved(n, ms[0]), ms[1..]);
    }
  }

  lemma InitialLists(n: Net)
    requires Initial(n)
    ensures ListsOk(n)
  {
  }

  // ---------------------------------------------------------------- the clients' replicas

  /** The client holds the board as stored, unless it opened the session and was sent nothing since. */
  predicate Holds(n: Net, oid: string, key: string, t: Socket)
    requires WellFormed(n) && t in n.clients && oid in n.server.boards
  {
    || LastList(n.clients[t].received, oid) == Some(n.server.boards[oid].elements)
    || (&& (key, t) in n.server.marks && n.server.marks[(key, t)].byOpening
        && LastList(Since(n.server, key, t), oid).None?)
  }

  lemma AgreeingHolds(n: Net, oid: string, key: string, t: Socket)
    requires WellFormed(n) && t in n.clients && oid in n.server.boards && ListsOk(n)
    requires Agrees(n.server, oid, key, t) && n.read[t] == |Sent(n.server.outbox, t)|
    ensures Holds(n, oid, key, t)
  {
    hide LastList, Sent;
    var all := Sent(n.server.outbox, t);
    var before := n.server.marks[(key, t)].sentBefore;
    assert all[..n.read[t]] == all == all[..before] + all[before..];
    assert ListsAsSent(n.clients[t].received, all, n.read[t]);
    LastListAppend(all[..before], all[before..], oid);
  }

  /**
   In every run of clients and server in which each board is opened, joined and edited under one
   spelling, a connected client registered for a board, when it has read everything it was sent,
   holds the board's stored elements, in order.
   */
  lemma ClientsHoldBoards(n: Net, ms: seq<Move>, spelling: Spelling, oid: string, key: string, t: Socket)
    requires Initial(n) && NetRun(n, ms) && t in NetAfter(n, ms).clients
    requires forall i :: 0 <= i < |ServerEvents(n, ms)| ==> WellSpelt(ServerEvents(n, ms)[i], spelling)
    requires var r := NetAfter(n, ms);
             && oid in r.server.boards && Member(r.server, oid, key, t)
             && r.read[t] == |Sent(r.server.outbox, t)|
    ensures Holds(NetAfter(n, ms), oid, key, t)
  {
    hide NetRun, NetAfter, ServerEvents, Run, After, Agrees, Member, ListsOk, Holds, Sent, WellSpelt;
    ServerRuns(n, ms);
    ReplicaAgreement(ServerEvents(n, ms), spelling, oid, key, t);
    InitialLists(n);
    ListsRun(n, ms);
    AgreeingHolds(NetAfter(n, ms), oid, key, t);
  }
}
