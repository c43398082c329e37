/**
 What every run of the server keeps, whatever its clients send: well-formed documents, no empty
 session, and element lists that are the replay of the requests the server accepted.
 */
module ServerStores {
  import opened Server
  import opened Wrappers

  // ---------------------------------------------------------------- boards and sessions

  predicate NoDuplicates(l: seq<int>) {
    forall i, j :: 0 <= i < j < |l| ==> l[i] != l[j]
  }

  /** An active list is never empty and names nobody twice. */
  predicate ActiveOk(b: Board) {
    b.active.Some? ==> b.active.value != [] && NoDuplicates(b.active.value)
  }

  predicate BoardsOk(s: State) {
    && (forall o :: o in s.created ==> Canonical(o))
    && (forall o :: o in s.boards ==> o in s.created && ActiveOk(s.boards[o]))
  }

  predicate SessionsOk(s: State) {
    forall k :: k in s.sessions ==> s.sessions[k] != {}
  }

  predicate StoresOk(s: State) {
    BoardsOk(s) && SessionsOk(s)
  }

  lemma {:induction false} PullKeepsNoDuplicates(l: seq<int>, x: int)
    requires NoDuplicates(l)
    ensures NoDuplicates(Pull(l, x))
  {
    if l != [] {
      var front := l[..|l| - 1];
      PullKeepsNoDuplicates(front, x);
      assert l[|l| - 1] !in front;
    }
  }

  /** A document change that keeps the documents of s well formed. */
  predicate GoodChange(s: State, x: BoardChange, newBoard: string) {
    match x
    case SameBoards => true
    case CreateDoc(o, b) => o == newBoard && b.elements == [] && b.active.None?
    case Put(o, b) => o in s.boards && b.owner == s.boards[o].owner && ActiveOk(b)
    case Drop(o) => o in s.boards
  }

  lemma JoinChangeOk(s: State, t: Socket, id: uint32, user: uint32, board: string, c: Choice)
    requires BoardsOk(s)
    ensures GoodChange(s, HandleJoin(s, t, id, user, board, c).board, c.newBoard)
  {
    hide ParseOid, Canonical;
  }

  lemma QuitChangeOk(s: State, t: Socket, id: uint32, user: uint32, board: string, newBoard: string)
    requires BoardsOk(s)
    ensures GoodChange(s, HandleQuit(s, t, id, user, board).board, newBoard)
  {
    hide ParseOid, Canonical, NoDuplicates, Pull;
    var oid := ParseOid(board);
    if oid.Some? && oid.value in s.boards && s.boards[oid.value].active.Some? {
      PullKeepsNoDuplicates(s.boards[oid.value].active.value, ToInt32(user));
    }
  }

  lemma AddChangeOk(s: State, t: Socket, id: uint32, user: uint32, board: string, x: string, newBoard: string)
    requires BoardsOk(s)
    ensures GoodChange(s, HandleAdd(s, t, id, user, board, x).board, newBoard)
  {
    hide ParseOid, Canonical, NoDuplicates;
  }

  lemma ModifyChangeOk(s: State, t: Socket, id: uint32, user: uint32, board: string, x: string, y: string, c: Choice)
    requires BoardsOk(s)
    ensures GoodChange(s, HandleModify(s, t, id, user, board, x, y, c).board, c.newBoard)
  {
    hide ParseOid, Canonical, NoDuplicates, Replace;
  }

  lemma OpenChangeOk(s: State, t: Socket, id: uint32, user: uint32, board: string, newBoard: string)
    requires BoardsOk(s)
    ensures GoodChange(s, HandleOpen(s, t, id, user, board).board, newBoard)
  {
    hide ParseOid, Canonical;
  }

  lemma BoardChangeOk(s: State, e: Event)
    requires BoardsOk(s)
    ensures GoodChange(s, EffectOf(s, e).board, e.choice.newBoard)
  {
    hide BoardsOk, HandleOpen, HandleJoin, HandleQuit, HandleAdd, HandleModify, SaltedHash, FindUser;
    var t, id, n := e.socket, e.packet.id, e.choice.newBoard;
    match e.packet.request {
      case CreateBoard(_) =>
      case OpenSession(u, b) => OpenChangeOk(s, t, id, u, b, n);
      case JoinSession(u, b) => JoinChangeOk(s, t, id, u, b, e.choice);
      case QuitSession(u, b) => QuitChangeOk(s, t, id, u, b, n);
      case AddElement(u, b, x) => AddChangeOk(s, t, id, u, b, x, n);
      case ModifyElement(u, b, x, y) => ModifyChangeOk(s, t, id, u, b, x, y, e.choice);
      case Register(_, _) =>
      case Login(_, _) =>
      case DeleteElement(_, _, _) =>
      case SaveBoard(_) =>
      case EndOfStream =>
    }
  }

  lemma BoardsStep(s: State, e: Event)
    requires BoardsOk(s) && Possible(s, e)
    ensures BoardsOk(Step(s, e)) && s.created <= Step(s, e).created
  {
    hide EffectOf, Canonical, NoDuplicates, DeliverAll;
    BoardChangeOk(s, e);
  }

  lemma SessionsStep(s: State, e: Event)
    requires SessionsOk(s)
    ensures SessionsOk(Step(s, e))
  {
    hide EffectOf, DeliverAll;
  }

  /** Between requests of any run, the stores are well formed. */
  lemma {:induction false} StoresRun(s: State, es: seq<Event>)
    requires StoresOk(s) && Run(s, es)
    ensures StoresOk(After(s, es)) && s.created <= After(s, es).created
    decreases |es|
  {
    hide BoardsOk, SessionsOk, Step, Possible;
    if es != [] {
      BoardsStep(s, es[0]);
      SessionsStep(s, es[0]);
      StoresRun(Step(s, es[0]), es[1..]);
    }
  }

  lemma StoresReachable(es: seq<Event>)
    requires Run(START, es)
    ensures StoresOk(After(START, es))
  {
    StoresRun(START, es);
  }

  /** Whatever clients send, no active list is ever empty or names a user twice. */
  lemma ActiveListsWellFormed(es: seq<Event>, oid: string)
    requires Run(START, es) && oid in After(START, es).boards
    requires After(START, es).boards[oid].active.Some?
    ensures var l := After(START, es).boards[oid].active.value; l != [] && NoDuplicates(l)
  {
    StoresReachable(es);
  }

  /** is_whiteboard_shared, a lookup, tells exactly whether some socket is registered. */
  lemma SharedMeansRegistered(es: seq<Event>, key: string)
    requires Run(START, es)
    ensures var m := After(START, es).sessions; key in m <==> exists t :: t in Members(m, key)
  {
    StoresReachable(es);
    var m := After(START, es).sessions;
    if key in m {
      var t :| t in m[key];
      assert t in Members(m, key);
    }
  }

  // ---------------------------------------------------------------- elements

  datatype Edit = NoEdit | Added(element: string) | Modified(original: string, element: string)

  /** The edit of a board that a request makes when the server accepts it. */
  function Accepted(s: State, e: Event, oid: string): Edit {
    match e.packet.request
    case AddElement(u, b, x) =>
      if && ParseOid(b) == Some(oid) && oid in s.boards
         && (s.boards[oid].owner == ToInt32(u)
             || (s.boards[oid].active.Some? && ToInt32(u) in s.boards[oid].active.value))
      then Added(x) else NoEdit
    case ModifyElement(u, b, x, y) =>
      if && ParseOid(b) == Some(oid) && oid in s.boards
         && s.boards[oid].active.Some? && ToInt32(u) in s.boards[oid].active.value
         && x in s.boards[oid].elements && !e.choice.updateThrows
      then Modified(x, y) else NoEdit
    case _ => NoEdit
  }

  function Edited(elements: seq<string>, e: Edit): seq<string> {
    match e
    case NoEdit => elements
    case Added(x) => elements + [x]
    case Modified(x, y) => Replace(elements, x, y)
  }

  /** The accepted edits of a board along a run, in order. */
  function Edits(s: State, es: seq<Event>, oid: string): seq<Edit>
    decreases |es|
  {
    if es == [] then [] else [Accepted(s, es[0], oid)] + Edits(Step(s, es[0]), es[1..], oid)
  }

  function Replay(elements: seq<string>, edits: seq<Edit>): seq<string>
    decreases |edits|
  {
    if edits == [] then elements else Replay(Edited(elements, edits[0]), edits[1..])
  }

  /** Whether a document change leaves the board with these elements. */
  predicate Leaves(x: BoardChange, oid: string, before: seq<string>, after: seq<string>) {
    if x.Put? && x.oid == oid then x.board.elements == after else before == after
  }

  lemma AddEdit(s: State, e: Event, oid: string)
    requires oid in s.boards && e.packet.request.AddElement?
    ensures Leaves(EffectOf(s, e).board, oid, s.boards[oid].elements,
                   Edited(s.boards[oid].elements, Accepted(s, e, oid)))
  {
    hide ParseOid;
  }

  lemma ModifyEdit(s: State, e: Event, oid: string)
    requires oid in s.boards && e.packet.request.ModifyElement?
    ensures Leaves(EffectOf(s, e).board, oid, s.boards[oid].elements,
                   Edited(s.boards[oid].elements, Accepted(s, e, oid)))
  {
    hide ParseOid, Replace;
  }

  lemma OtherEdit(s: State, e: Event, oid: string)
    requires oid in s.boards && !e.packet.request.AddElement? && !e.packet.request.ModifyElement?
    ensures Leaves(EffectOf(s, e).board, oid, s.boards[oid].elements, s.boards[oid].elements)
  {
    hide ParseOid, SaltedHash, FindUser, Pull, AddToSet, HandleAdd, HandleModify;
  }

  /** The document change a request makes is the edit it is accepted for, on that board only. */
  lemma EditOfEffect(s: State, e: Event, oid: string)
    requires oid in s.boards
    ensures Leaves(EffectOf(s, e).board, oid, s.boards[oid].elements,
                   Edited(s.boards[oid].elements, Accepted(s, e, oid)))
  {
    hide EffectOf;
    match e.packet.request {
      case AddElement(_, _, _) => AddEdit(s, e, oid);
      case ModifyElement(_, _, _, _) => ModifyEdit(s, e, oid);
      case _ => OtherEdit(s, e, oid);
    }
  }

  /** Every request leaves every board's elements as they are, except the one it edits. */
  lemma ElementsStep(s: State, e: Event, oid: string)
    requires BoardsOk(s) && Possible(s, e)
    requires oid in Step(s, e).boards
    ensures oid in s.boards ==> Step(s, e).boards[oid].elements == Edited(s.boards[oid].elements, Accepted(s, e, oid))
    ensures oid !in s.boards ==> oid !in s.created && Step(s, e).boards[oid].elements == []
    ensures oid !in s.boards ==> Accepted(s, e, oid) == NoEdit
  {
    hide EffectOf, Canonical, ActiveOk, DeliverAll, Edited;
    BoardChangeOk(s, e);
    if oid in s.boards {
      EditOfEffect(s, e, oid);
    }
  }

  /** A deleted board does not come back. */
  lemma {:induction false} GoneForGood(s: State, es: seq<Event>, oid: string)
    requires BoardsOk(s) && Run(s, es) && oid in s.created && oid !in s.boards
    ensures oid !in After(s, es).boards
    decreases |es|
  {
    hide BoardsOk, Step, Possible, Accepted;
    if es != [] {
      BoardsStep(s, es[0]);
      if oid in Step(s, es[0]).boards {
        ElementsStep(s, es[0], oid);
      }
      GoneForGood(Step(s, es[0]), es[1..], oid);
    }
  }

  lemma NotYetThere(s: State, es: seq<Event>, oid: string)
    requires BoardsOk(s) && Run(s, es) && es != []
    requires oid in After(s, es).boards && oid !in Step(s, es[0]).boards
    ensures oid !in s.boards && Accepted(s, es[0], oid) == NoEdit
  {
    hide Step, Possible, Canonical, ActiveOk;
    BoardsStep(s, es[0]);
    if oid in Step(s, es[0]).created {
      GoneForGood(Step(s, es[0]), es[1..], oid);
    }
  }

  lemma {:induction false} ElementsRun(s: State, es: seq<Event>, oid: string)
    requires BoardsOk(s) && Run(s, es) && oid in After(s, es).boards
    ensures After(s, es).boards[oid].elements
         == Replay(if oid in s.boards then s.boards[oid].elements else [], Edits(s, es, oid))
    decreases |es|
  {
    hide BoardsOk, Step, Accepted, Possible;
    if es != [] {
      var s1 := Step(s, es[0]);
      BoardsStep(s, es[0]);
      ElementsRun(s1, es[1..], oid);
      var edits := Edits(s, es, oid);
      assert edits[1..] == Edits(s1, es[1..], oid);
      if oid in s1.boards {
        ElementsStep(s, es[0], oid);
      } else {
        NotYetThere(s, es, oid);
      }
    }
  }

  /**
   In every run, a board's elements are the replay, from none, of the requests the server accepted
   for that board: additions by the owner or an active user, and modifications by an active user
   of an element that is there.
   */
  lemma ElementsAreReplay(es: seq<Event>, oid: string)
    requires Run(START, es) && oid in After(START, es).boards
    ensures After(START, es).boards[oid].elements == Replay([], Edits(START, es, oid))
  {
    ElementsRun(START, es, oid);
  }
}
