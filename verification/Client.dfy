/**
 The client: it numbers its requests, remembers the type of each, and reads every answer as the
 type remembered under the answer's number.
 */
module Client {
  import opened Server
  import opened HexText
  import opened Sha256
  import Sha256Spec

  /** Packet types. Unset is the zero a lookup of an unknown number stores. */
  datatype Kind =
    | Unset | CreateKind | OpenKind | JoinKind | QuitKind | AddKind | ModifyKind | DeleteKind | SaveKind
    | RegisterKind | LoginKind

  /** new_packet: the type written on the wire is told from the request carried. */
  function KindOf(r: Request): Kind {
    if r.CreateBoard? then CreateKind
    else if r.OpenSession? then OpenKind
    else if r.JoinSession? then JoinKind
    else if r.QuitSession? then QuitKind
    else if r.AddElement? then AddKind
    else if r.ModifyElement? then ModifyKind
    else if r.DeleteElement? then DeleteKind
    else if r.SaveBoard? then SaveKind
    else if r.Login? then LoginKind
    else RegisterKind
  }

  /** What the user of the client asks for. */
  datatype Command =
    | Create
    | Open
    | Join(board: string)
    | Quit
    | Add(element: string)
    | LogIn(username: string, password: string)
    | SignUp(username: string, password: string)

  datatype ClientState = ClientState(
    user: uint32, board: string, counter: uint32, sendQueue: map<uint32, Kind>, received: seq<Message>)

  function PasswordText(password: string): string {
    Text(Sha256Spec.Sha256LowLength(BytesOf(password)))
  }

  function RequestOf(c: ClientState, command: Command): Request {
    match command
    case Create => CreateBoard(c.user)
    case Open => OpenSession(c.user, c.board)
    case Join(b) => JoinSession(c.user, b)
    case Quit => QuitSession(c.user, c.board)
    case Add(x) => AddElement(c.user, c.board, x)
    case LogIn(n, p) => Request.Login(n, PasswordText(p))
    case SignUp(n, p) => Request.Register(n, PasswordText(p))
  }

  /** ++packet_counter on a uint32_t */
  function NextNumber(n: uint32): uint32 {
    (n + 1) % 0x1_0000_0000
  }

  function SendCommand(c: ClientState, command: Command): ClientState {
    var n := NextNumber(c.counter);
    c.(counter := n, sendQueue := c.sendQueue[n := KindOf(RequestOf(c, command))])
  }

  function PacketFor(c: ClientState, command: Command): Packet {
    Packet(NextNumber(c.counter), RequestOf(c, command))
  }

  /** The type an answer is read as. */
  function LookUp(c: ClientState, id: uint32): Kind {
    if id in c.sendQueue then c.sendQueue[id] else Unset
  }

  /** Whether reading a message throws. */
  predicate Throws(c: ClientState, m: Message) {
    match m
    case ActionResponse(id, success, _) => !success && LookUp(c, id) != Unset
    case TempId(_, success, _, _) => !success
    case ElementList(_, _) => false
  }

  /** The packet made from a received message: its number is overwritten by one that was never set. */
  function Queued(m: Message, garbage: uint32): Message {
    match m
    case ActionResponse(_, success, text) => ActionResponse(garbage, success, text)
    case TempId(_, success, user, asked) => TempId(garbage, success, user, asked)
    case ElementList(_, _) => m
  }

  /** The client after a message; one that throws is not queued. */
  function Read(c: ClientState, m: Message, garbage: uint32): ClientState {
    var c1 := match m
      case ActionResponse(id, success, text) =>
        var kind := LookUp(c, id);
        c.(sendQueue := c.sendQueue[id := kind],
           board := if success && (kind == CreateKind || kind == JoinKind) then text else c.board)
      case TempId(_, success, user, _) => if success then c.(user := user % 0x1_0000_0000) else c
      case ElementList(_, _) => c;
    if Throws(c, m) then c1 else c1.(received := c1.received + [Queued(m, garbage)])
  }

  /**
   A response under a number the client never sent changes neither its board nor its user and never
   throws; the number is remembered from then on, without a type.
   */
  lemma UnknownNumber(c: ClientState, m: Message, garbage: uint32)
    requires m.ActionResponse? && m.id !in c.sendQueue
    ensures var r := Read(c, m, garbage);
            && !Throws(c, m) && r.board == c.board && r.user == c.user && r.counter == c.counter
            && r.sendQueue.Keys == c.sendQueue.Keys + {m.id} && LookUp(r, m.id) == Unset
            && (forall k :: k in c.sendQueue ==> LookUp(r, k) == LookUp(c, k))
  {
  }

  class WhiteboardClient {
    var user: uint32
    var board: string
    var counter: uint32
    var sendQueue: map<uint32, Kind>
    var received: seq<Message>
    var wire: seq<Packet>     // what has been written to the socket

    ghost function View(): ClientState
      reads this
    {
      ClientState(user, board, counter, sendQueue, received)
    }

    /** user_id starts uninitialised. */
    constructor (garbage: uint32)
      ensures View() == ClientState(garbage, "", 0, map[], []) && wire == []
    {
      user, board, counter, sendQueue, received, wire := garbage, "", 0, map[], [], [];
    }

    /** Remembers the type the packet was made with, and writes the packet. */
    method SendPacket(kind: Kind, packet: Packet)
      modifies this`sendQueue, this`wire
      ensures sendQueue == old(sendQueue)[packet.id := kind] && wire == old(wire) + [packet]
    {
      sendQueue := sendQueue[packet.id := kind];
      wire := wire + [packet];
    }

    /** send_login_request and send_register_request hash the password first. */
    static method HashPassword(password: string) returns (text: string)
      ensures text == PasswordText(password)
    {
      hide Sha256Spec.Sha256LowLength, BytesOf, Text;
      text := HashToText(BytesOf(password));
    }

    /** The send_*_request methods, each making its packet with its own type. */
    method SendRequest(command: Command)
      modifies this
      ensures View() == SendCommand(old(View()), command)
      ensures wire == old(wire) + [PacketFor(old(View()), command)]
    {
      hide PasswordText;
      counter := (counter + 1) % 0x1_0000_0000;
      match command {
        case Create => SendPacket(CreateKind, Packet(counter, CreateBoard(user)));
        case Open => SendPacket(OpenKind, Packet(counter, OpenSession(user, board)));
        case Join(b) => SendPacket(JoinKind, Packet(counter, JoinSession(user, b)));
        case Quit => SendPacket(QuitKind, Packet(counter, QuitSession(user, board)));
        case Add(x) => SendPacket(AddKind, Packet(counter, AddElement(user, board, x)));
        case LogIn(n, p) =>
          var hash := HashPassword(p);
          SendPacket(LoginKind, Packet(counter, Request.Login(n, hash)));
        case SignUp(n, p) =>
          var hash := HashPassword(p);
          SendPacket(RegisterKind, Packet(counter, Request.Register(n, hash)));
      }
    }

    /** handle_action_response; the result tells whether it throws. */
    method HandleActionResponse(id: uint32, success: bool, text: string) returns (thrown: bool)
      modifies this`sendQueue, this`board
      ensures thrown == Throws(old(View()), ActionResponse(id, success, text))
      ensures sendQueue == Read(old(View()), ActionResponse(id, success, text), 0).sendQueue
      ensures board == Read(old(View()), ActionResponse(id, success, text), 0).board
    {
      thrown := false;
      if id !in sendQueue {
        sendQueue := sendQueue[id := Unset];
      }
      assert sendQueue == old(sendQueue)[id := LookUp(old(View()), id)];
      match sendQueue[id] {
        case CreateKind => if success { board := text; } else { thrown := true; }
        case JoinKind => if success { board := text; } else { thrown := true; }
        case Unset =>
        case _ => thrown := !success;
      }
    }

    /** handle_receive after parsing. */
    method HandleReceive(m: Message, garbage: uint32) returns (thrown: bool)
      modifies this
      ensures View() == Read(old(View()), m, garbage) && thrown == Throws(old(View()), m)
      ensures wire == old(wire)
    {
      thrown := false;
      match m {
        case ActionResponse(id, success, text) => thrown := HandleActionResponse(id, success, text);
        case TempId(_, success, id, _) =>
          if success { user := id % 0x1_0000_0000; } else { thrown := true; }
        case ElementList(_, _) =>
      }
      if thrown {
        return;
      }
      received := received + [Queued(m, garbage)];
    }
  }
}
