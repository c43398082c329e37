/**
 Replica agreement: the last element list a member of a session was sent is the board as stored.
 */
module ServerReplicas {
  import opened Server
  import opened ServerStores
  import opened Wrappers

  /** The last element list of a board among some messages. */
  function LastList(ms: seq<Message>, oid: string): Option<seq<string>> {
    if ms == [] then None
    else
      var m := ms[|ms| - 1];
      if m.ElementList? && m.board == oid then Some(m.elements) else LastList(ms[..|ms| - 1], oid)
  }

  lemma {:induction false} LastListAppend(a: seq<Message>, b: seq<Message>, oid: string)
    ensures LastList(a + b, oid) == if LastList(b, oid).Some? then LastList(b, oid) else LastList(a, oid)
  {
    if b == [] {
      assert a + b == a;
    } else {
      LastListAppend(a, b[..|b| - 1], oid);
      assert (a + b)[..|a + b| - 1] == a + b[..|b| - 1];
    }
  }

  /** What a member of a session has been sent since the request that let it in. */
  function Since(s: State, key: string, t: Socket): seq<Message>
    requires (key, t) in s.marks
  {
    var all := Sent(s.outbox, t);
    var n := s.marks[(key, t)].sentBefore;
    if n <= |all| then all[n..] else []
  }

  /**
   A socket that is connected and registered for a board, under any spelling of its id. The session
   map is keyed by spelling, so one board can have several sessions and one socket be in several.
   */
  predicate Member(s: State, oid: string, key: string, t: Socket) {
    ParseOid(key) == Some(oid) && t in Members(s.sessions, key) && t !in s.closed
  }

  /** The member holds the stored elements; only one that opened the session may hold none. */
  predicate Agrees(s: State, oid: string, key: string, t: Socket)
    requires oid in s.boards
  {
    && (key, t) in s.marks && s.marks[(key, t)].sentBefore <= |Sent(s.outbox, t)|
    && match LastList(Since(s, key, t), oid)
       case None => s.marks[(key, t)].byOpening
       case Some(l) => l == s.boards[oid].elements
  }

  ghost predicate Replicas(s: State) {
    forall o, k, t :: o in s.boards && Member(s, o, k, t) ==> Agrees(s, o, k, t)
  }

  /** Sessions only exist under spellings of ids that were created. */
  predicate KeysOk(s: State) {
    forall k :: k in s.sessions ==> ParseOid(k).Some? && ParseOid(k).value in s.created
  }

  // ---------------------------------------------------------------- the lists a request sends

  /** Every list among the deliveries is of board oid, holds these elements and goes to ts. */
  predicate OnlyLists(ds: seq<Delivery>, oid: string, elements: seq<string>, ts: set<Socket>) {
    forall i :: 0 <= i < |ds| && ds[i].message.ElementList?
      ==> ds[i].message.board == oid && ds[i].message.elements == elements && ds[i].to == ts
  }

  /** There is such a list, and no other. */
  predicate Lists(ds: seq<Delivery>, oid: string, elements: seq<string>, ts: set<Socket>) {
    OnlyLists(ds, oid, elements, ts) && !NoLists(ds)
  }

  predicate NoLists(ds: seq<Delivery>) {
    forall i :: 0 <= i < |ds| ==> !ds[i].message.ElementList?
  }

  lemma {:induction false} NoListsReceived(ds: seq<Delivery>, t: Socket, o: string)
    requires NoLists(ds)
    ensures LastList(Received(ds, t), o).None?
  {
    if ds != [] {
      NoListsReceived(ds[..|ds| - 1], t, o);
      LastListAppend(Received(ds[..|ds| - 1], t), if t in ds[|ds| - 1].to then [ds[|ds| - 1].message] else [], o);
    }
  }

  lemma {:induction false} ListsReceived(ds: seq<Delivery>, t: Socket, oid: string, elements: seq<string>,
                                         ts: set<Socket>, o: string)
    requires Lists(ds, oid, elements, ts)
    ensures LastList(Received(ds, t), o) == if o == oid && t in ts then Some(elements) else None
  {
    var front, last := ds[..|ds| - 1], ds[|ds| - 1];
    LastListAppend(Received(front, t), if t in last.to then [last.message] else [], o);
    if NoLists(front) {
      NoListsReceived(front, t, o);
    } else {
      ListsReceived(front, t, oid, elements, ts, o);
    }
  }

  /** The elements of a board after a request, by the request alone. */
  function NewElements(s: State, e: Event, oid: string): seq<string>
    requires oid in s.boards
  {
    Edited(s.boards[oid].elements, Accepted(s, e, oid))
  }

  /** The board a request names, if any. */
  function Named(r: Request): string {
    match r
    case OpenSession(_, b) => b
    case JoinSession(_, b) => b
    case QuitSession(_, b) => b
    case AddElement(_, b, _) => b
    case ModifyElement(_, b, _, _) => b
    case _ => ""
  }

  predicate Admitted(s: State, e: Event) {
    && e.packet.request.JoinSession? && !(e.packet.request.user == 0 && e.choice.user.Thrown?)
    && var o := ParseOid(e.packet.request.board);
    && o.Some? && o.value in s.boards && s.boards[o.value].active.Some?
  }

  lemma JoinLists(s: State, e: Event)
    requires e.packet.request.JoinSession?
    ensures var ds := EffectOf(s, e).sends;
            if Admitted(s, e) then
              var o := ParseOid(e.packet.request.board).value;
              Lists(ds, o, s.boards[o].elements, {e.socket})
            else NoLists(ds)
  {
    hide ParseOid, AddToSet;
    if Admitted(s, e) {
      var ds := EffectOf(s, e).sends;
      assert ds[|ds| - 2].message.ElementList?;
    }
  }

  lemma AddLists(s: State, e: Event)
    requires e.packet.request.AddElement?
    ensures var key := e.packet.request.board;
            var o := ParseOid(key);
            var ds := EffectOf(s, e).sends;
            if o.Some? && o.value in s.boards && key in s.sessions
            then Lists(ds, o.value, NewElements(s, e, o.value), s.sessions[key])
            else NoLists(ds)
  {
    hide ParseOid;
    var key := e.packet.request.board;
    var ds := EffectOf(s, e).sends;
    if ParseOid(key).Some? && ParseOid(key).value in s.boards && key in s.sessions {
      assert ds[|ds| - 1].message.ElementList?;
    }
  }

  lemma ModifyLists(s: State, e: Event)
    requires e.packet.request.ModifyElement?
    ensures var key := e.packet.request.board;
            var o := ParseOid(key);
            var ds := EffectOf(s, e).sends;
            if o.Some? && o.value in s.boards && key in s.sessions && Accepted(s, e, o.value) != NoEdit
            then Lists(ds, o.value, NewElements(s, e, o.value), s.sessions[key])
            else NoLists(ds)
  {
    hide ParseOid, Replace;
    var key := e.packet.request.board;
    var o := ParseOid(key);
    var ds := EffectOf(s, e).sends;
    if o.Some? && o.value in s.boards && key in s.sessions && Accepted(s, e, o.value) != NoEdit {
      assert ds[|ds| - 1].message.ElementList?;
    }
  }

  lemma BoardLists(s: State, e: Event)
    requires e.packet.request.OpenSession? || e.packet.request.QuitSession?
    ensures NoLists(EffectOf(s, e).sends)
  {
    hide ParseOid, PullActive;
  }

  lemma UserLists(s: State, e: Event)
    requires e.packet.request.Register? || e.packet.request.Login?
    ensures NoLists(EffectOf(s, e).sends)
  {
    hide SaltedHash, FindUser;
  }

  lemma OtherLists(s: State, e: Event)
    requires !e.packet.request.JoinSession? && !e.packet.request.AddElement? && !e.packet.request.ModifyElement?
    ensures NoLists(EffectOf(s, e).sends)
  {
    hide HandleOpen, HandleJoin, HandleQuit, HandleAdd, HandleModify, HandleRegister, HandleLogin;
    match e.packet.request {
      case OpenSession(_, _) => BoardLists(s, e);
      case QuitSession(_, _) => BoardLists(s, e);
      case Register(_, _) => UserLists(s, e);
      case Login(_, _) => UserLists(s, e);
      case _ =>
    }
  }

  /** The elements a list received by t must show, and when t receives one. */
  lemma ReceivedLists(s: State, e: Event, t: Socket, o: string)
    requires o in s.boards
    ensures var l := LastList(Received(EffectOf(s, e).sends, t), o);
            && (l.Some? ==> l.value == NewElements(s, e, o))
            && (Accepted(s, e, o) != NoEdit ==> (l.Some? <==> t in Members(s.sessions, Named(e.packet.request))))
            && (Admitted(s, e) && ParseOid(e.packet.request.board).value == o && t == e.socket ==> l.Some?)
  {
    hide ParseOid, EffectOf, LastList, Received, Edited, Lists, NoLists;
    var ds := EffectOf(s, e).sends;
    var key := Named(e.packet.request);
    var oid := ParseOid(key);
    match e.packet.request {
      case JoinSession(_, _) =>
        JoinLists(s, e);
        KeepsElements(s, e, o);
        if Admitted(s, e) {
          ListsReceived(ds, t, oid.value, s.boards[oid.value].elements, {e.socket}, o);
        } else {
          NoListsReceived(ds, t, o);
        }
      case AddElement(_, _, _) =>
        AddLists(s, e);
        if oid.Some? && oid.value in s.boards && key in s.sessions {
          ListsReceived(ds, t, oid.value, NewElements(s, e, oid.value), s.sessions[key], o);
        } else {
          NoListsReceived(ds, t, o);
        }
      case ModifyElement(_, _, _, _) =>
        ModifyLists(s, e);
        if oid.Some? && oid.value in s.boards && key in s.sessions && Accepted(s, e, oid.value) != NoEdit {
          ListsReceived(ds, t, oid.value, NewElements(s, e, oid.value), s.sessions[key], o);
        } else {
          NoListsReceived(ds, t, o);
        }
      case _ =>
        OtherLists(s, e);
        NoListsReceived(ds, t, o);
    }
  }

  lemma KeepsElements(s: State, e: Event, o: string)
    requires o in s.boards && Accepted(s, e, o) == NoEdit
    ensures NewElements(s, e, o) == s.boards[o].elements
  {
  }

  /** Who can enter a session, and how. */
  lemma Entrances(s: State, e: Event)
    ensures var x := EffectOf(s, e).session;
            x.Enter? ==>
              && x.key == Named(e.packet.request) && ParseOid(x.key).Some? && ParseOid(x.key).value in s.boards
              && (x.byOpening <==> e.packet.request.OpenSession?)
              && (!x.byOpening ==> Admitted(s, e))
  {
    hide ParseOid, SaltedHash, FindUser, Pull, HandleAdd, HandleModify, HandleQuit;
    match e.packet.request {
      case AddElement(_, _, _) => NoEntrance(s, e);
      case ModifyElement(_, _, _, _) => NoEntrance(s, e);
      case QuitSession(_, _) => NoEntrance(s, e);
      case _ =>
    }
  }

  lemma NoEntrance(s: State, e: Event)
    requires var r := e.packet.request; r.AddElement? || r.ModifyElement? || r.QuitSession?
    ensures !EffectOf(s, e).session.Enter?
  {
    hide ParseOid, Pull, Replace, MayAdd, PullActive;
  }

  // ---------------------------------------------------------------- one request

  lemma KeysStep(s: State, e: Event)
    requires KeysOk(s) && BoardsOk(s) && Possible(s, e)
    ensures KeysOk(Step(s, e))
  {
    hide EffectOf, ParseOid, DeliverAll, ChangeMarks, ActiveOk, Canonical;
    Entrances(s, e);
  }

  /** A member that stays has received what the request sent; one that enters starts with it. */
  lemma SinceStep(s: State, e: Event, o: string, t: Socket)
    requires t in Members(Step(s, e).sessions, o)
    requires t in Members(s.sessions, o) ==>
               (o, t) in s.marks && s.marks[(o, t)].sentBefore <= |Sent(s.outbox, t)|
    ensures var s' := Step(s, e);
            var received := Received(EffectOf(s, e).sends, t);
            && (o, t) in s'.marks && s'.marks[(o, t)].sentBefore <= |Sent(s'.outbox, t)|
            && (if t in Members(s.sessions, o)
                then s'.marks[(o, t)] == s.marks[(o, t)] && Since(s', o, t) == Since(s, o, t) + received
                else
                  && EffectOf(s, e).session == Enter(o, s'.marks[(o, t)].byOpening)
                  && t == e.socket && Since(s', o, t) == received)
  {
    hide EffectOf, DeliverAll, ChangeBoards, Received, Sent;
    SentAfter(s.outbox, EffectOf(s, e).sends, t);
  }

  /** An accepted edit that changes a board passes by a member that already holds a list of it. */
  predicate MissesAt(s: State, e: Event, o: string, k: string, t: Socket) {
    && o in s.boards && Member(s, o, k, t) && (k, t) in s.marks
    && t !in Members(s.sessions, Named(e.packet.request))
    && LastList(Since(s, k, t), o).Some?
    && NewElements(s, e, o) != s.boards[o].elements
  }

  ghost predicate Misses(s: State, e: Event) {
    exists o, k, t :: MissesAt(s, e, o, k, t)
  }

  /** A member that stays agrees afterwards unless it was missed; one that enters agrees. */
  lemma AgreesAfter(s: State, e: Event, o: string, k: string, t: Socket)
    requires Replicas(s) && BoardsOk(s) && Possible(s, e)
    requires o in s.boards && o in Step(s, e).boards && Member(Step(s, e), o, k, t)
    ensures Agrees(Step(s, e), o, k, t) <==> !MissesAt(s, e, o, k, t)
  {
    hide EffectOf, Step, LastList, Received, Possible, BoardsOk, Since, Edited, ParseOid;
    var received := Received(EffectOf(s, e).sends, t);
    ClosedGrows(s, e);
    assert t in Members(s.sessions, k) ==> Member(s, o, k, t) && Agrees(s, o, k, t);
    SinceStep(s, e, k, t);
    ReceivedLists(s, e, t, o);
    ElementsStep(s, e, o);
    if Accepted(s, e, o) == NoEdit {
      KeepsElements(s, e, o);
    }
    if t in Members(s.sessions, k) {
      LastListAppend(Since(s, k, t), received, o);
    } else {
      Entrances(s, e);
    }
  }

  lemma ClosedGrows(s: State, e: Event)
    ensures s.closed <= Step(s, e).closed
  {
    hide EffectOf, ChangeBoards, ChangeSessions, ChangeMarks, DeliverAll;
  }

  /** A board that has just been created has no members under any spelling. */
  lemma NewBoardHasNoMembers(s: State, e: Event, o: string, k: string)
    requires KeysOk(s) && BoardsOk(s) && Possible(s, e)
    requires o !in s.boards && o in Step(s, e).boards && ParseOid(k) == Some(o)
    ensures Members(Step(s, e).sessions, k) == {}
  {
    hide EffectOf, ParseOid, DeliverAll, ChangeMarks, ActiveOk;
    BoardChangeOk(s, e);
    Entrances(s, e);
    assert Canonical(o) && o !in s.created;
  }

  /** Edits touch neither the session map, nor the set of boards, nor connections. */
  lemma EditsKeepMembers(s: State, e: Event, o: string)
    requires o in s.boards && Accepted(s, e, o) != NoEdit
    ensures o in Step(s, e).boards && Step(s, e).sessions == s.sessions && Step(s, e).closed == s.closed
  {
    hide ParseOid, DeliverAll, ChangeMarks, Replace;
  }

  /** One request keeps replicas in agreement exactly when it misses nobody. */
  lemma ReplicasStepExactly(s: State, e: Event)
    requires Replicas(s) && KeysOk(s) && BoardsOk(s) && Possible(s, e)
    ensures Replicas(Step(s, e)) <==> !Misses(s, e)
  {
    hide EffectOf, Step, LastList, Possible, BoardsOk, KeysOk, Agrees, Since, Edited, NewElements, Accepted, ParseOid;
    var s' := Step(s, e);
    if Misses(s, e) {
      var o, k, t :| MissesAt(s, e, o, k, t);
      MissedStays(s, e, o, k, t);
      AgreesAfter(s, e, o, k, t);
    } else {
      forall o, k, t | o in s'.boards && Member(s', o, k, t)
        ensures Agrees(s', o, k, t)
      {
        if o in s.boards {
          AgreesAfter(s, e, o, k, t);
        } else {
          NewBoardHasNoMembers(s, e, o, k);
        }
      }
    }
  }

  lemma MissedStays(s: State, e: Event, o: string, k: string, t: Socket)
    requires MissesAt(s, e, o, k, t)
    ensures o in s.boards && o in Step(s, e).boards && Member(Step(s, e), o, k, t)
  {
    hide EffectOf, Step, LastList, Agrees, Since, Accepted, ParseOid;
    if Accepted(s, e, o) == NoEdit {
      KeepsElements(s, e, o);
    }
    EditsKeepMembers(s, e, o);
  }

  // ---------------------------------------------------------------- runs

  /** The way a client spells each board's id. */
  type Spelling = string -> string

  /** Requests that enter a session or edit name each board by one spelling. */
  predicate WellSpelt(e: Event, spelling: Spelling) {
    var r := e.packet.request;
    var o := ParseOid(Named(r));
    !r.QuitSession? && o.Some? ==> Named(r) == spelling(o.value)
  }

  /** All sessions are under that spelling. */
  predicate KeysSpelt(s: State, spelling: Spelling) {
    forall k :: k in s.sessions && ParseOid(k).Some? ==> k == spelling(ParseOid(k).value)
  }

  lemma SpeltStep(s: State, e: Event, spelling: Spelling)
    requires KeysSpelt(s, spelling) && WellSpelt(e, spelling)
    ensures KeysSpelt(Step(s, e), spelling)
  {
    hide EffectOf, ParseOid, DeliverAll, ChangeBoards, ChangeMarks;
    Entrances(s, e);
    assert EffectOf(s, e).session.Enter? ==> !e.packet.request.QuitSession? by {
      NoEntranceByQuitting(s, e);
    }
  }

  lemma NoEntranceByQuitting(s: State, e: Event)
    ensures e.packet.request.QuitSession? ==> !EffectOf(s, e).session.Enter?
  {
    if e.packet.request.QuitSession? {
      NoEntrance(s, e);
    }
  }

  lemma WellSpeltMissesNobody(s: State, e: Event, spelling: Spelling)
    requires KeysSpelt(s, spelling) && WellSpelt(e, spelling)
    ensures !Misses(s, e)
  {
    hide ParseOid, LastList, Since;
    forall o, k, t
      ensures !MissesAt(s, e, o, k, t)
    {
      if MissesAt(s, e, o, k, t) {
        if Accepted(s, e, o) == NoEdit {
          KeepsElements(s, e, o);
        }
      }
    }
  }

  /** No request of the run misses anybody. */
  ghost predicate NobodyMissed(s: State, es: seq<Event>)
    decreases |es|
  {
    es == [] || (!Misses(s, es[0]) && NobodyMissed(Step(s, es[0]), es[1..]))
  }

  lemma {:induction false} ReplicasRun(s: State, es: seq<Event>)
    requires Replicas(s) && KeysOk(s) && BoardsOk(s) && Run(s, es) && NobodyMissed(s, es)
    ensures Replicas(After(s, es))
    decreases |es|
  {
    hide Replicas, KeysOk, BoardsOk, Step, Possible, Misses;
    if es != [] {
      ReplicasStepExactly(s, es[0]);
      KeysStep(s, es[0]);
      BoardsStep(s, es[0]);
      ReplicasRun(Step(s, es[0]), es[1..]);
    }
  }

  lemma {:induction false} SpeltRun(s: State, es: seq<Event>, spelling: Spelling)
    requires KeysSpelt(s, spelling) && forall i :: 0 <= i < |es| ==> WellSpelt(es[i], spelling)
    ensures NobodyMissed(s, es)
    decreases |es|
  {
    hide KeysSpelt, Step, WellSpelt, Misses;
    if es != [] {
      WellSpeltMissesNobody(s, es[0], spelling);
      SpeltStep(s, es[0], spelling);
      SpeltRun(Step(s, es[0]), es[1..], spelling);
    }
  }

  lemma {:induction false} KeysRun(s: State, es: seq<Event>)
    requires KeysOk(s) && BoardsOk(s) && Run(s, es)
    ensures KeysOk(After(s, es)) && BoardsOk(After(s, es))
    decreases |es|
  {
    hide KeysOk, BoardsOk, Step, Possible;
    if es != [] {
      KeysStep(s, es[0]);
      BoardsStep(s, es[0]);
      KeysRun(Step(s, es[0]), es[1..]);
    }
  }

  /**
   In every run in which each board is opened, joined and edited under one spelling of its id, for
   every existing board and every connected socket registered for it under any spelling, the last
   list sent since the socket entered is the stored one, in order; a socket that has been sent none
   entered by opening the session.
   */
  lemma ReplicaAgreement(es: seq<Event>, spelling: Spelling, oid: string, key: string, t: Socket)
    requires Run(START, es) && forall i :: 0 <= i < |es| ==> WellSpelt(es[i], spelling)
    requires oid in After(START, es).boards && Member(After(START, es), oid, key, t)
    ensures Agrees(After(START, es), oid, key, t)
  {
    hide Since, LastList, Agrees, KeysOk, BoardsOk, Step, Possible, WellSpelt, Member;
    StartAgrees(spelling);
    SpeltRun(START, es, spelling);
    ReplicasRun(START, es);
  }

  lemma StartAgrees(spelling: Spelling)
    ensures Replicas(START) && KeysOk(START) && BoardsOk(START) && KeysSpelt(START, spelling)
  {
  }
}
