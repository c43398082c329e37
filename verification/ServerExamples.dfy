/**
 Runs that show the conditions of the server's theorems are needed: each is possible, and breaks
 what the theorem without its condition would promise.
 */
module ServerExamples {
  import opened Server
  import opened ServerStores
  import opened ServerReplicas
  import opened ServerSessions
  import opened ServerConnections
  import opened Wrappers

  type Sessions = map<string, set<Socket>>

  /** The board with this id is the only one; user 1 owns it and everybody is connected. */
  predicate Shows(s: State, oid: string, active: Option<seq<int>>, sessions: Sessions) {
    && s.created == {oid} && s.closed == {}
    && s.boards == map[oid := Board(1, [], active)]
    && s.sessions == sessions
  }

  /** What the steps of the examples draw from outside. */
  function Draw(newBoard: string): Choice {
    Choice(newBoard, Stored, Stored, false, 0, "")
  }

  function Creating(oid: string): Event {
    Event(0, Packet(1, CreateBoard(1)), Draw(oid))
  }

  function Opening(oid: string, spare: string): Event {
    Event(0, Packet(2, OpenSession(1, oid)), Draw(spare))
  }

  function Joining(key: string, spare: string): Event {
    Event(1, Packet(1, JoinSession(2, key)), Draw(spare))
  }

  function Adding(key: string, element: string, spare: string): Event {
    Event(0, Packet(3, AddElement(1, key, element)), Draw(spare))
  }

  function HangingUp(spare: string): Event {
    Event(1, Packet(0, EndOfStream), Draw(spare))
  }

  lemma AfterCreating(oid: string)
    ensures Shows(Step(START, Creating(oid)), oid, None, map[])
  {
    hide DeliverAll, ChangeMarks, AssignUser;
    var x := EffectOf(START, Creating(oid));
    assert x.board == CreateDoc(oid, Board(1, [], None)) && x.session == SameSessions && !x.close;
  }

  lemma AfterOpening(s: State, oid: string, spare: string, active: Option<seq<int>>, sessions: Sessions)
    requires ParseOid(oid) == Some(oid) && Shows(s, oid, active, sessions)
    ensures Shows(Step(s, Opening(oid, spare)), oid, Some([1]), sessions[oid := Members(sessions, oid) + {0}])
  {
    hide ParseOid, DeliverAll, ChangeMarks;
  }

  lemma AfterJoining(s: State, oid: string, key: string, spare: string)
    requires ParseOid(key) == Some(oid) && Shows(s, oid, Some([1]), map[oid := {0}])
    ensures var s' := Step(s, Joining(key, spare));
            && Shows(s', oid, Some([1, 2]), MeetingSessions(oid, key))
            && (key, 1) in s'.marks && !s'.marks[(key, 1)].byOpening
  {
    hide DeliverAll, ChangeMarks, EffectOf, ParseOid, Sent;
    JoiningDoes(s, oid, key, spare);
    MarkedJoining(s, key);
    assert Members(s.sessions, oid) + {1} == {0, 1};
    assert key != oid ==> Members(s.sessions, key) + {1} == {1};
  }

  lemma JoiningDoes(s: State, oid: string, key: string, spare: string)
    requires ParseOid(key) == Some(oid) && Shows(s, oid, Some([1]), map[oid := {0}])
    ensures var x := EffectOf(s, Joining(key, spare));
            && x.board == Put(oid, Board(1, [], Some([1, 2]))) && x.session == Enter(key, false) && !x.close
  {
    hide ParseOid;
    assert AddToSet([1], 2) == [1, 2];
  }

  lemma MarkedJoining(s: State, key: string)
    requires 1 !in Members(s.sessions, key)
    ensures var marks := ChangeMarks(s, Enter(key, false), 1); (key, 1) in marks && !marks[(key, 1)].byOpening
  {
    hide Sent;
  }

  /** Two users of one board: the owner on socket 0 opens a session, the other on socket 1 joins. */
  function Meeting(oid: string, key: string, spare: string): seq<Event> {
    [Creating(oid), Opening(oid, spare), Joining(key, spare)]
  }

  function MeetingSessions(oid: string, key: string): Sessions {
    if key == oid then map[oid := {0, 1}] else map[oid := {0}, key := {1}]
  }

  lemma Met(oid: string, key: string, spare: string)
    requires Canonical(oid) && Canonical(spare) && oid != spare && ParseOid(key) == Some(oid)
    ensures Run(START, Meeting(oid, key, spare))
    ensures var s := After(START, Meeting(oid, key, spare));
            && Shows(s, oid, Some([1, 2]), MeetingSessions(oid, key))
            && (key, 1) in s.marks && !s.marks[(key, 1)].byOpening
            && NobodyMissed(START, Meeting(oid, key, spare))
  {
    hide Step, ParseOid, Shows, NobodyMissed;
    var es := Meeting(oid, key, spare);
    var s1 := Step(START, es[0]);
    var s2 := Step(s1, es[1]);
    AfterCreating(oid);
    Drawn(s1, oid, None, map[]);
    AfterOpening(s1, oid, spare, None, map[]);
    OnlyOwner(oid);
    Drawn(s2, oid, Some([1]), map[oid := {0}]);
    AfterJoining(s2, oid, key, spare);
    RunOfThree(es[0], es[1], es[2]);
    NoEditsMissNobody(START, es);
  }

  lemma OnlyOwner(oid: string)
    ensures var none: Sessions := map[]; none[oid := Members(none, oid) + {0}] == map[oid := {0}]
  {
    var none: Sessions := map[];
    assert Members(none, oid) + {0} == {0};
  }

  lemma Drawn(s: State, oid: string, active: Option<seq<int>>, sessions: Sessions)
    requires Shows(s, oid, active, sessions)
    ensures s.created == {oid} && s.closed == {}
  {
  }

  lemma {:induction false} NoEditsMissNobody(s: State, es: seq<Event>)
    requires forall i :: 0 <= i < |es| ==> !es[i].packet.request.AddElement? && !es[i].packet.request.ModifyElement?
    ensures NobodyMissed(s, es)
    decreases |es|
  {
    hide Step, LastList, Since, Member;
    if es != [] {
      forall o, k, t
        ensures !MissesAt(s, es[0], o, k, t)
      {
        if o in s.boards {
          KeepsElements(s, es[0], o);
        }
      }
      NoEditsMissNobody(Step(s, es[0]), es[1..]);
    }
  }

  lemma RunOfThree(a: Event, b: Event, c: Event)
    requires var s1 := Step(START, a); Possible(START, a) && Possible(s1, b) && Possible(Step(s1, b), c)
    ensures Run(START, [a, b, c])
    ensures After(START, [a, b, c]) == Step(Step(Step(START, a), b), c)
  {
    hide Step, Possible;
    var s1 := Step(START, a);
    var s2 := Step(s1, b);
    assert [a, b, c][1..] == [b, c] && [b, c][1..] == [c];
    assert Run(s2, [c]) && After(s2, [c]) == Step(s2, c);
  }

  /** An owner who opens a session again while others are in it drops them from the active list. */
  lemma ReopeningBreaksStep(oid: string, spare: string)
    requires Canonical(oid) && Canonical(spare) && oid != spare
    ensures var who: Names := map[0 := 1, 1 := 2];
            var s := After(START, Meeting(oid, oid, spare));
            var e := Opening(oid, spare);
            && GoodNames(who) && Synced(s, who) && Possible(s, e) && Disciplined(e, who)
            && !Synced(Step(s, e), who)
  {
    hide Step, ParseOid, Run, After, Shows, Synced;
    var who: Names := map[0 := 1, 1 := 2];
    var s := After(START, Meeting(oid, oid, spare));
    CanonicalParses(oid);
    Met(oid, oid, spare);
    Drawn(s, oid, Some([1, 2]), map[oid := {0, 1}]);
    AfterOpening(s, oid, spare, Some([1, 2]), map[oid := {0, 1}]);
    assert map[oid := {0, 1}][oid := {0, 1} + {0}] == map[oid := {0, 1}] by {
      assert {0, 1} + {0} == {0, 1};
    }
    InStepExactly(s, oid, [1, 2], who);
    InStepExactly(Step(s, Opening(oid, spare)), oid, [1], who);
  }

  /** Two sockets are in step with two active users, not with one. */
  lemma InStepExactly(s: State, oid: string, active: seq<int>, who: Names)
    requires Shows(s, oid, Some(active), map[oid := {0, 1}]) && who == map[0 := 1, 1 := 2] && Spells(oid, oid)
    requires active == [1, 2] || active == [1]
    ensures Synced(s, who) <==> active == [1, 2]
  {
    hide ParseOid;
    assert Users({0, 1}, who) == {1, 2} && 2 in Users({0, 1}, who);
    assert BoardSockets(s.sessions, oid) == {0, 1} by {
      assert 0 in s.sessions[oid] && 1 in s.sessions[oid];
    }
    assert Active(s.boards[oid]) == if active == [1, 2] then {1, 2} else {1};
  }

  lemma CanonicalParses(o: string)
    requires Canonical(o)
    ensures ParseOid(o) == Some(o)
  {
  }

  /** The owner opens a session under the id, and joins and quits under another spelling of it. */
  function Rejoining(key: string, spare: string): Event {
    Event(0, Packet(3, JoinSession(1, key)), Draw(spare))
  }

  function Quitting(key: string, spare: string): Event {
    Event(0, Packet(4, QuitSession(1, key)), Draw(spare))
  }

  function Detour(oid: string, key: string, spare: string): seq<Event> {
    [Creating(oid), Opening(oid, spare), Rejoining(key, spare)]
  }

  lemma AfterRejoining(s: State, oid: string, key: string, spare: string)
    requires ParseOid(key) == Some(oid) && key != oid && Shows(s, oid, Some([1]), map[oid := {0}])
    ensures Shows(Step(s, Rejoining(key, spare)), oid, Some([1]), map[oid := {0}, key := {0}])
  {
    hide ParseOid, DeliverAll, ChangeMarks;
    assert AddToSet([1], 1) == [1];
    assert Members(s.sessions, key) + {0} == {0};
  }

  lemma AfterQuitting(s: State, oid: string, key: string, spare: string)
    requires ParseOid(key) == Some(oid) && key != oid
    requires Shows(s, oid, Some([1]), map[oid := {0}, key := {0}])
    ensures var s' := Step(s, Quitting(key, spare));
            s'.boards == map[] && s'.sessions == map[oid := {0}] && s'.closed == {}
  {
    hide ParseOid, DeliverAll, ChangeMarks;
    assert [1][..0] == [] && Pull([1], 1) == [];
    assert s.sessions[key] - {0} == {};
    assert s.sessions - {key} == map[oid := {0}];
    assert s.boards - {oid} == map[];
  }

  /**
   Quitting under one spelling while registered under another deletes the board and leaves a session
   entry: all of it one user on one connection, alone on the board.
   */
  lemma QuittingElsewhereLeavesSession(oid: string, key: string, spare: string)
    requires Canonical(oid) && Canonical(spare) && oid != spare && ParseOid(key) == Some(oid) && key != oid
    ensures var who: Names := map[0 := 1];
            var s := After(START, Detour(oid, key, spare));
            var e := Quitting(key, spare);
            && GoodNames(who) && Run(START, Detour(oid, key, spare)) && Possible(s, e)
            && (forall i :: 0 <= i < 3 ==> Disciplined(Detour(oid, key, spare)[i], who)) && Disciplined(e, who)
            && oid in s.boards && Synced(s, who) && !Tidy(s, e)
            && oid !in Step(s, e).boards && Step(s, e).sessions == map[oid := {0}] && Step(s, e).closed == {}
  {
    hide Step, ParseOid, Shows, Synced, Tidy, Run, After;
    var es := Detour(oid, key, spare);
    var s1 := Step(START, es[0]);
    var s2 := Step(s1, es[1]);
    var s3 := Step(s2, es[2]);
    CanonicalParses(oid);
    AfterCreating(oid);
    Drawn(s1, oid, None, map[]);
    AfterOpening(s1, oid, spare, None, map[]);
    OnlyOwner(oid);
    Drawn(s2, oid, Some([1]), map[oid := {0}]);
    AfterRejoining(s2, oid, key, spare);
    Drawn(s3, oid, Some([1]), map[oid := {0}, key := {0}]);
    RunOfThree(es[0], es[1], es[2]);
    DetourInStep(s3, oid, key, spare);
    AfterQuitting(s3, oid, key, spare);
  }

  lemma DetourInStep(s: State, oid: string, key: string, spare: string)
    requires Shows(s, oid, Some([1]), map[oid := {0}, key := {0}]) && Spells(oid, oid) && Spells(key, oid) && key != oid
    ensures oid in s.boards && Synced(s, map[0 := 1]) && !Tidy(s, Quitting(key, spare))
  {
    hide ParseOid;
    var who: Names := map[0 := 1];
    assert 0 in s.sessions[oid] && 0 in s.sessions[key];
    assert BoardSockets(s.sessions, oid) == {0};
    assert Users({0}, who) == {1};
    assert Active(s.boards[oid]) == {1};
    assert ElsewhereToo(s.sessions, oid, key, 0);
  }

  /** After a meeting, all replicas agree. */
  lemma MeetingAgrees(oid: string, key: string, spare: string)
    requires Canonical(oid) && Canonical(spare) && oid != spare && ParseOid(key) == Some(oid)
    ensures var s := After(START, Meeting(oid, key, spare)); Replicas(s) && KeysOk(s) && BoardsOk(s)
  {
    hide Step, ParseOid, Run, After, NobodyMissed, Replicas, KeysOk, BoardsOk;
    var es := Meeting(oid, key, spare);
    Met(oid, key, spare);
    StartAgrees(o => o);
    ReplicasRun(START, es);
    KeysRun(START, es);
  }

  /**
   When the other user joined under one spelling of the id and the owner adds under another, the
   element is stored and passes by the other user.
   */
  lemma OtherSpellingMisses(oid: string, key: string, spelling: string, element: string, spare: string)
    requires Canonical(oid) && Canonical(spare) && oid != spare
    requires ParseOid(key) == Some(oid) == ParseOid(spelling) && key != spelling
    ensures var s := After(START, Meeting(oid, key, spare));
            var e := Adding(spelling, element, spare);
            && Replicas(s) && Possible(s, e) && !Replicas(Step(s, e))
            && oid in Step(s, e).boards && Step(s, e).boards[oid].elements == [element]
  {
    hide Step, ParseOid, Run, After, LastList, Since, Possible, KeysOk, BoardsOk;
    var s := After(START, Meeting(oid, key, spare));
    var e := Adding(spelling, element, spare);
    Met(oid, key, spare);
    MeetingAgrees(oid, key, spare);
    AddingPossible(s, oid, spelling, element, spare);
    assert Member(s, oid, key, 1);
    assert Agrees(s, oid, key, 1);
    assert Accepted(s, e, oid) == Added(element);
    assert 1 !in Members(s.sessions, spelling);
    assert MissesAt(s, e, oid, key, 1);
    ReplicasStepExactly(s, e);
    EditsKeepMembers(s, e, oid);
    ElementsStep(s, e, oid);
  }

  lemma AddingPossible(s: State, oid: string, spelling: string, element: string, spare: string)
    requires s.created == {oid} && s.closed == {} && Canonical(spare) && spare != oid
    ensures Possible(s, Adding(spelling, element, spare)) && Possible(s, HangingUp(spare))
  {
  }

  /** The joiner spells the id in another way and the owner as the server does. */
  lemma JoinerUnderOtherSpellingIsMissed(oid: string, key: string, element: string, spare: string)
    requires Canonical(oid) && Canonical(spare) && oid != spare && ParseOid(key) == Some(oid) && key != oid
    ensures !Replicas(After(START, Meeting(oid, key, spare) + [Adding(oid, element, spare)]))
  {
    hide Step, Run, After, ParseOid, Replicas;
    OtherSpellingMisses(oid, key, oid, element, spare);
    AfterAppend(START, Meeting(oid, key, spare), Adding(oid, element, spare));
  }

  /** The joiner spells it as the server does and the owner in another way. */
  lemma AdditionUnderOtherSpellingMisses(oid: string, spelling: string, element: string, spare: string)
    requires Canonical(oid) && Canonical(spare) && oid != spare && ParseOid(spelling) == Some(oid) && spelling != oid
    ensures !Replicas(After(START, Meeting(oid, oid, spare) + [Adding(spelling, element, spare)]))
  {
    hide Step, Run, After, ParseOid, Replicas;
    CanonicalParses(oid);
    OtherSpellingMisses(oid, oid, spelling, element, spare);
    AfterAppend(START, Meeting(oid, oid, spare), Adding(spelling, element, spare));
  }

  lemma {:induction false} AfterAppend(s: State, es: seq<Event>, e: Event)
    ensures After(s, es + [e]) == Step(After(s, es), e)
    decreases |es|
  {
    hide Step;
    if es == [] {
      assert es + [e] == [e];
    } else {
      assert (es + [e])[0] == es[0] && (es + [e])[1..] == es[1..] + [e];
      AfterAppend(Step(s, es[0]), es[1..], e);
    }
  }

  /** A user who hangs up without quitting stays in the session map. */
  lemma HangingUpDangles(oid: string, spare: string)
    requires Canonical(oid) && Canonical(spare) && oid != spare
    ensures var s := After(START, Meeting(oid, oid, spare));
            var e := HangingUp(spare);
            && AllConnected(s) && Possible(s, e) && !AllConnected(Step(s, e))
            && 1 in Members(Step(s, e).sessions, oid) && 1 in Step(s, e).closed
  {
    hide Step, Run, After, ParseOid, KeysOk, BoardsOk, Possible;
    var s := After(START, Meeting(oid, oid, spare));
    CanonicalParses(oid);
    Met(oid, oid, spare);
    MeetingAgrees(oid, oid, spare);
    AddingPossible(s, oid, oid, "", spare);
    OnlyCloses(s, 1);
    HangUp(s, spare);
    assert 1 in s.sessions[oid];
    AllConnectedExactly(s, HangingUp(spare));
  }

  lemma HangUp(s: State, spare: string)
    ensures Step(s, HangingUp(spare)) == Perform(s, 1, Closing(NOTHING))
  {
    hide Perform;
  }

  /** Such a spelling: one digit in upper case. */
  lemma OtherSpelling()
    ensures ParseOid("00000000000000000000000A") == Some("00000000000000000000000a")
    ensures Canonical("00000000000000000000000a")
  {
    var upper, lower := "00000000000000000000000A", "00000000000000000000000a";
    assert seq(24, i requires 0 <= i < 24 => Lower(upper[i])) == lower;
    assert seq(24, i requires 0 <= i < 24 => Lower(lower[i])) == lower;
  }

  /** The first user to register is taken for an anonymous one: the board is somebody else's. */
  lemma FirstUserIsTakenForAnonymous(name: string, hash: string, oid: string, t: Socket)
    requires Canonical(oid) && name != ""
    ensures var e := Event(t, Packet(1, Register(name, hash)), Draw(oid));
            var s := Step(START, e);
            && Possible(START, e)
            && |s.users| == 1 && s.users[0].username == name && s.users[0].id == 0
            && HandleCreate(s, t, 2, 0, Draw(oid)).board == CreateDoc(oid, Board(1, [], None))
  {
    hide SaltedHash, DeliverAll;
  }
}
