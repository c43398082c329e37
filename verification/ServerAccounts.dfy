/**
 User ids, names and logins over every run: ids count up from 0, names are unique, and a
 registered name and hash always log in to the id given at registration.
 */
module ServerAccounts {
  import opened HexText
  import opened Server
  import opened Wrappers
  import Sha256Facts
  import Sha256Spec

  /** Ids are handed out as 0, 1, 2, ... */
  predicate IssuedOk(s: State) {
    && |s.issued| == NextId(s)
    && forall i :: 0 <= i < |s.issued| ==> s.issued[i] == i
  }

  /** Documents have increasing ids that were issued, and no two share a non-empty name. */
  predicate UsersOk(s: State) {
    && (forall i :: 0 <= i < |s.users| ==> 0 <= s.users[i].id < NextId(s))
    && (forall i, j :: 0 <= i < j < |s.users| ==> s.users[i].id < s.users[j].id)
    && (forall i, j :: 0 <= i < j < |s.users| && s.users[i].username == s.users[j].username
          ==> s.users[i].username == "")
  }

  /** The only new documents are anonymous ones and ones with a name not taken yet. */
  lemma NewUser(s: State, e: Event)
    ensures var x := EffectOf(s, e);
            x.user.Some? ==>
              && x.takesId && x.user.value.id == NextId(s)
              && (x.user.value.username == "" || FindUser(s.users, x.user.value.username).None?)
  {
    hide ParseOid, SaltedHash, FindUser, Pull, AddToSet, HandleAdd, HandleModify, HandleQuit, HandleOpen, HandleLogin;
    match e.packet.request {
      case OpenSession(u, b) => QuietHandlers(s, e);
      case QuitSession(u, b) => QuietHandlers(s, e);
      case AddElement(_, _, _) => QuietHandlers(s, e);
      case ModifyElement(_, _, _, _) => QuietHandlers(s, e);
      case Login(_, _) => QuietHandlers(s, e);
      case _ =>
    }
  }

  /** The requests about existing boards and logins make no user documents. */
  predicate MakesNoUser(r: Request) {
    r.OpenSession? || r.QuitSession? || r.AddElement? || r.ModifyElement? || r.Login?
  }

  lemma QuietHandlers(s: State, e: Event)
    requires MakesNoUser(e.packet.request)
    ensures EffectOf(s, e).user.None? && !EffectOf(s, e).takesId
  {
    hide ParseOid, SaltedHash, FindUser, Pull, Replace, MayAdd, PullActive, HandleAdd, HandleModify;
    match e.packet.request {
      case AddElement(_, _, _) => QuietAdd(s, e);
      case ModifyElement(_, _, _, _) => QuietModify(s, e);
      case _ =>
    }
  }

  lemma QuietAdd(s: State, e: Event)
    requires e.packet.request.AddElement?
    ensures EffectOf(s, e).user.None? && !EffectOf(s, e).takesId
  {
    hide ParseOid, MayAdd;
  }

  lemma QuietModify(s: State, e: Event)
    requires e.packet.request.ModifyElement?
    ensures EffectOf(s, e).user.None? && !EffectOf(s, e).takesId
  {
    hide ParseOid, Replace;
  }

  lemma AccountsStep(s: State, e: Event)
    requires IssuedOk(s) && UsersOk(s)
    ensures IssuedOk(Step(s, e)) && UsersOk(Step(s, e))
  {
    hide EffectOf, DeliverAll, ChangeBoards, ChangeSessions, ChangeMarks, FindUser;
    NewUser(s, e);
    var x := EffectOf(s, e);
    if x.user.Some? {
      assert Step(s, e).users == s.users + [x.user.value];
    }
  }

  lemma {:induction false} AccountsRun(s: State, es: seq<Event>)
    requires IssuedOk(s) && UsersOk(s) && Run(s, es)
    ensures IssuedOk(After(s, es)) && UsersOk(After(s, es))
    decreases |es|
  {
    hide IssuedOk, UsersOk, Step, Possible;
    if es != [] {
      AccountsStep(s, es[0]);
      AccountsRun(Step(s, es[0]), es[1..]);
    }
  }

  /** In every run, ids are issued once each in increasing order, and non-empty names are unique. */
  lemma AccountsReachable(es: seq<Event>)
    requires Run(START, es)
    ensures var s := After(START, es);
            && (forall i, j :: 0 <= i < j < |s.issued| ==> s.issued[i] < s.issued[j])
            && (forall i :: 0 <= i < |s.users| ==> s.users[i].id in s.issued)
            && (forall i, j :: 0 <= i < j < |s.users| ==> s.users[i].id < s.users[j].id)
            && (forall i, j :: 0 <= i < j < |s.users| && s.users[i].username != ""
                  ==> s.users[i].username != s.users[j].username)
  {
    AccountsRun(START, es);
    var s := After(START, es);
    forall i | 0 <= i < |s.users|
      ensures s.users[i].id in s.issued
    {
      assert s.issued[s.users[i].id] == s.users[i].id;
    }
  }

  // ---------------------------------------------------------------- login

  lemma {:induction false} FindAppend(users: seq<User>, u: User, name: string)
    ensures FindUser(users, name).Some? ==> FindUser(users + [u], name) == FindUser(users, name)
    ensures FindUser(users, name).None? && u.username == name ==> FindUser(users + [u], name) == Some(|users|)
  {
    assert (users + [u])[..|users|] == users;
  }

  /** The requests that take a number: anonymous creates and joins, and registrations under a free name. */
  predicate TakesNumber(s: State, r: Request) {
    match r
    case CreateBoard(u) => u == 0
    case JoinSession(u, _) => u == 0
    case Register(n, _) => forall i :: 0 <= i < |s.users| ==> s.users[i].username != n
    case _ => false
  }

  lemma TakesExactly(s: State, e: Event)
    ensures EffectOf(s, e).takesId <==> TakesNumber(s, e.packet.request)
  {
    hide ParseOid, SaltedHash, Pull, AddToSet, HandleAdd, HandleModify, HandleQuit, HandleOpen, HandleLogin;
    var r := e.packet.request;
    if MakesNoUser(r) {
      QuietHandlers(s, e);
    } else if r.Register? {
      var found := FindUser(s.users, r.username);
      assert found.Some? ==> s.users[found.value].username == r.username;
    }
  }

  /** A request takes the next number or none, whether or not its insert succeeds. */
  lemma NumbersTaken(s: State, e: Event)
    ensures Step(s, e).issued == s.issued + (if TakesNumber(s, e.packet.request) then [NextId(s)] else [])
    ensures NextId(Step(s, e)) == if TakesNumber(s, e.packet.request) then NextId(s) + 1 else NextId(s)
  {
    hide EffectOf, DeliverAll, ChangeBoards, ChangeSessions, ChangeMarks, TakesNumber;
    TakesExactly(s, e);
  }

  /**
   The document of an anonymous user has the number the user is told, and no name and no salt, so
   that a login which finds it is not answered.
   */
  lemma AnonymousDocument(s: State, e: Event, login: Event)
    requires match e.packet.request
             case CreateBoard(u) => u == 0
             case JoinSession(u, _) => u == 0
             case _ => false
    requires login.packet.request.Login? && login.packet.request.username == ""
    ensures var users := Step(s, e).users;
            if e.choice.user.Stored? then
              && |users| == |s.users| + 1 && users[..|s.users|] == s.users
              && users[|s.users|].id == NextId(s) && users[|s.users|].username == ""
              && (FindUser(s.users, "").None? ==> EffectOf(Step(s, e), login) == NOTHING)
            else users == s.users
  {
    var s1 := Step(s, e);
    AnonymousEffect(s, e);
    if e.choice.user.Stored? {
      var v := EffectOf(s, e).user.value;
      assert s1.users == s.users + [v] by {
        hide EffectOf, DeliverAll, ChangeBoards, ChangeSessions, ChangeMarks;
      }
      FindAppend(s.users, v, "");
      SaltlessLogin(s1, login);
    } else {
      hide EffectOf, DeliverAll, ChangeBoards, ChangeSessions, ChangeMarks;
    }
  }

  lemma AnonymousEffect(s: State, e: Event)
    requires e.packet.request.CreateBoard? || e.packet.request.JoinSession?
    requires e.packet.request.user == 0
    ensures var x := EffectOf(s, e);
            if e.choice.user.Stored? then x.user == Some(User(NextId(s), "", None, "")) else x.user.None?
  {
    hide ParseOid, AddToSet;
  }

  lemma SaltlessLogin(s: State, login: Event)
    requires login.packet.request.Login?
    ensures var i := FindUser(s.users, login.packet.request.username);
            i.Some? && s.users[i.value].salt.None? ==> EffectOf(s, login) == NOTHING
  {
    hide SaltedHash;
  }

  /** Documents are only added, so the document a name finds never changes. */
  lemma {:induction false} FoundForGood(s: State, es: seq<Event>, name: string)
    requires Run(s, es) && FindUser(s.users, name).Some?
    ensures var i := FindUser(s.users, name).value;
            && FindUser(After(s, es).users, name) == Some(i)
            && i < |After(s, es).users| && After(s, es).users[i] == s.users[i]
    decreases |es|
  {
    hide EffectOf, DeliverAll, ChangeBoards, ChangeSessions, ChangeMarks, FindUser, Possible;
    if es != [] {
      var x := EffectOf(s, es[0]);
      if x.user.Some? {
        FindAppend(s.users, x.user.value, name);
      }
      FoundForGood(Step(s, es[0]), es[1..], name);
    }
  }

  // ---------------------------------------------------------------- passwords

  /** A text is hashed as one byte a character: the character's number modulo 256. */
  lemma BytesOfText(s: string)
    ensures |BytesOf(s)| == |s|
    ensures forall i :: 0 <= i < |s| ==> Value(BytesOf(s)[i]) == s[i] as int % 256
  {
    hide Value, HexText.ByteOf;
    forall i | 0 <= i < |s|
      ensures Value(BytesOf(s)[i]) == s[i] as int % 256
    {
      Sha256Facts.ByteValue(s[i] as int % 256);
    }
  }

  lemma BytesOfJoin(a: string, b: string)
    ensures BytesOf(a + b) == BytesOf(a) + BytesOf(b)
  {
    hide ByteOfChar;
  }

  /** The hash of a salt and a password hash: SHA-256 of the bytes of the one before those of the other. */
  function Salted(salt: string, passwordHash: string): seq<bv8> {
    Sha256Spec.Sha256LowLength(BytesOf(salt) + BytesOf(passwordHash))
  }

  lemma SaltedHashIsText(salt: string, passwordHash: string)
    ensures SaltedHash(salt, passwordHash) == Text(Salted(salt, passwordHash))
  {
    hide Text, Sha256Spec.Sha256LowLength, BytesOf;
    BytesOfJoin(salt, passwordHash);
  }

  lemma ReceivedOne(x: Effect, t: Socket, m: Message, u: Socket)
    requires x.sends == []
    ensures Received(Then(x, {t}, m).sends, u) == if u == t then [m] else []
  {
    assert [Delivery({t}, m)][..0] == [];
    assert Received([], u) == [];
  }

  /**
   A registration under a free name, when its document is stored, stores one that holds the name, the
   next id, the salt and the text of the salted hash, from which the hash can be read; and tells the
   sender the id.
   */
  lemma RegisterAchieves(s: State, e: Event, u: Socket)
    requires e.packet.request.Register? && e.choice.user.Stored?
    requires FindUser(s.users, e.packet.request.username).None?
    ensures var name, hash, salt := e.packet.request.username, e.packet.request.passwordHash, e.choice.salt;
            var users := Step(s, e).users;
            && |users| == |s.users| + 1 && users[..|s.users|] == s.users
            && var v := users[|s.users|];
            && v.id == NextId(s) && v.username == name && v.salt == Some(salt)
            && v.passwordHash == Text(Salted(salt, hash))
            && |v.passwordHash| == 64 && Parse(v.passwordHash) == Salted(salt, hash)
            && Received(EffectOf(s, e).sends, u)
               == (if u == e.socket then [TempId(e.packet.id, true, NextId(s), true)] else [])
  {
    hide DeliverAll, ChangeBoards, ChangeSessions, ChangeMarks, FindUser, SaltedHash, Received, Text, Parse, Salted,
      Then;
    var name, hash, salt := e.packet.request.username, e.packet.request.passwordHash, e.choice.salt;
    SaltedHashIsText(salt, hash);
    SaltedLength(salt, hash);
    TextRoundTrip(Salted(salt, hash));
    var v := User(NextId(s), name, Some(salt), SaltedHash(salt, hash));
    var x := NOTHING.(takesId := true, user := Some(v));
    ReceivedOne(x, e.socket, TempId(e.packet.id, true, NextId(s), true), u);
    StoresUser(s, e, x, TempId(e.packet.id, true, NextId(s), true));
  }

  lemma StoresUser(s: State, e: Event, x: Effect, m: Message)
    requires x.user.Some? && EffectOf(s, e) == Then(x, {e.socket}, m)
    ensures Step(s, e).users == s.users + [x.user.value]
  {
    hide EffectOf, DeliverAll, ChangeBoards, ChangeSessions, ChangeMarks;
  }

  lemma SaltedLength(salt: string, hash: string)
    ensures |Salted(salt, hash)| == 32
  {
    hide Sha256Spec.Sha256LowLength;
  }

  /** Any other stores no document, and tells the sender of its failure alone. */
  lemma RegisterRefused(s: State, e: Event, u: Socket)
    requires e.packet.request.Register?
    requires FindUser(s.users, e.packet.request.username).Some? || !e.choice.user.Stored?
    ensures Step(s, e).users == s.users
    ensures var ms := Received(EffectOf(s, e).sends, u);
            if u == e.socket then |ms| == 1 && ms[0].ActionResponse? && !ms[0].success && ms[0].id == e.packet.id
            else ms == []
  {
    hide DeliverAll, ChangeBoards, ChangeSessions, ChangeMarks, FindUser, SaltedHash, Received;
    var t, id := e.socket, e.packet.id;
    var x := NOTHING.(takesId := true);
    ReceivedOne(NOTHING, t, ActionResponse(id, false, "Username already exists"), u);
    ReceivedOne(x, t, ActionResponse(id, false, "Failed to register user"), u);
    ReceivedOne(x, t, ActionResponse(id, false, "Exception occurred while registering user"), u);
  }

  /** A login to a document with a salt tells the sender its id exactly when the salted hash fits. */
  lemma LoginAchieves(s: State, e: Event, i: nat, salt: string, u: Socket)
    requires e.packet.request.Login? && FindUser(s.users, e.packet.request.username) == Some(i)
    requires s.users[i].salt == Some(salt)
    ensures var v := s.users[i];
            Received(EffectOf(s, e).sends, u)
            == if u != e.socket then []
               else if Text(Salted(salt, e.packet.request.passwordHash)) == v.passwordHash
               then [TempId(e.packet.id, true, v.id, true)]
               else [ActionResponse(e.packet.id, false, "Invalid username or password")]
  {
    hide FindUser, SaltedHash, Received, Text, Salted;
    SaltedHashIsText(salt, e.packet.request.passwordHash);
    ReceivedOne(NOTHING, e.socket, TempId(e.packet.id, true, s.users[i].id, true), u);
    ReceivedOne(NOTHING, e.socket, ActionResponse(e.packet.id, false, "Invalid username or password"), u);
  }

  /**
   After a registration that stored its document, whatever happens next, a login under its name tells
   the sender the id issued at registration if and only if the SHA-256 of the salt and what was tried
   is that of the salt and what was registered; otherwise it is refused.
   */
  lemma LoginAfterRegister(s: State, e: Event, es: seq<Event>, next: Event)
    requires e.packet.request.Register? && Possible(s, e) && e.choice.user.Stored?
    requires FindUser(s.users, e.packet.request.username).None?
    requires Run(Step(s, e), es)
    requires next.packet.request.Login? && next.packet.request.username == e.packet.request.username
    ensures var salt, id := e.choice.salt, next.packet.id;
            Received(EffectOf(After(Step(s, e), es), next).sends, next.socket)
            == if Sha256Spec.Sha256LowLength(BytesOf(salt) + BytesOf(next.packet.request.passwordHash))
                  == Sha256Spec.Sha256LowLength(BytesOf(salt) + BytesOf(e.packet.request.passwordHash))
               then [TempId(id, true, NextId(s), true)]
               else [ActionResponse(id, false, "Invalid username or password")]
  {
    hide Step, EffectOf, Received, FindUser, Run, After, Parse, Text, Sha256Spec.Sha256LowLength, BytesOf, Possible;
    var name, salt := e.packet.request.username, e.choice.salt;
    var s1 := Step(s, e);
    RegisterAchieves(s, e, e.socket);
    var v := s1.users[|s.users|];
    assert s1.users == s.users + [v];
    FindAppend(s.users, v, name);
    FoundForGood(s1, es, name);
    var s2 := After(s1, es);
    LoginAchieves(s2, next, |s.users|, salt, next.socket);
    TextFits(Salted(salt, next.packet.request.passwordHash), Salted(salt, e.packet.request.passwordHash));
  }

  lemma TextFits(tried: seq<bv8>, stored: seq<bv8>)
    ensures Text(tried) == Text(stored) <==> tried == stored
  {
    hide Text;
    if Text(tried) == Text(stored) {
      TextInjective(tried, stored);
    }
  }

  // ---------------------------------------------------------------- the id zero

  /**
   The first id issued is 0, which the handlers take for an anonymous user: of the users who have
   been given an id, all own the boards they create except the one whose id is 0.
   */
  lemma CreatorOwnsExactlyWhenNotZero(es: seq<Event>, t: Socket, id: uint32, user: uint32, c: Choice)
    requires Run(START, es) && user in After(START, es).issued && user < 0x8000_0000
    requires c.board.Stored?
    ensures var x := HandleCreate(After(START, es), t, id, user, c).board;
            && (x.CreateDoc? <==> user != 0 || !c.user.Thrown?)
            && (x.CreateDoc? && x.board.owner == user <==> user != 0)
  {
    AccountsRun(START, es);
  }
}
