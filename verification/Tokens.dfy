/** Refresh tokens as `AuthService` keeps them: every call as a function on the rows, the class that performs the
    calls, and what any sequence of calls does to a token. */
module Tokens {
  import opened Store

  /** A refresh JWT: its subject and its own uuid.  Rows are found by the token's hash, which stands for the token. */
  datatype Token = Token(sub: Id, jti: Id)

  datatype Row = Row(revoked: bool, expiresAt: nat)

  datatype User = User(email: string, active: bool)

  datatype Auth = Auth(users: map<Id, User>, tokens: map<Token, Row>, now: nat, ttl: nat)

  /** `jti`, `uid` are the uuids a call would use; `verified` is whether signature and expiry of the JWT check out;
      `password` whether it matches. */
  datatype Call =
    | Register(uid: Id, email: string, jti: Id)
    | Login(email: string, password: bool, jti: Id)
    | Refresh(token: Token, verified: bool, jti: Id)
    | Logout(uid: Id, token: Token)
    | LogoutAll(uid: Id)
    | SetActive(uid: Id, active: bool)
    | Wait(seconds: nat)

  datatype Reply = Pair(token: Token) | Refused | Done

  predicate Live(a: Auth, t: Token) {
    t in a.tokens && !a.tokens[t].revoked && a.now <= a.tokens[t].expiresAt
  }

  predicate Refreshes(a: Auth, t: Token, verified: bool) {
    verified && Live(a, t) && t.sub in a.users && a.users[t.sub].active
  }

  function Issue(a: Auth, uid: Id, jti: Id): Auth {
    a.(tokens := a.tokens[Token(uid, jti) := Row(false, a.now + a.ttl)])
  }

  function Revoke(a: Auth, t: Token): Auth
    requires t in a.tokens
  {
    a.(tokens := a.tokens[t := a.tokens[t].(revoked := true)])
  }

  function RevokeAll(a: Auth, uid: Id): Auth {
    a.(tokens := map t | t in a.tokens :: if t.sub == uid then a.tokens[t].(revoked := true) else a.tokens[t])
  }

  /** The account with this address: addresses are unique. */
  function Account(a: Auth, email: string): set<Id> {
    set u | u in a.users && a.users[u].email == email
  }

  predicate Named(a: Auth, email: string, u: Id) {
    u in a.users && a.users[u].email == email
  }

  ghost predicate UniqueEmails(a: Auth) {
    forall u, v :: u in a.users && v in a.users && a.users[u].email == a.users[v].email ==> u == v
  }

  ghost predicate After(a: Auth, c: Call, b: Auth, r: Reply) {
    match c
    case Register(uid, email, jti) =>
      if Account(a, email) != {} then b == a && r == Refused
      else b == Issue(a.(users := a.users[uid := User(email, true)]), uid, jti) && r == Pair(Token(uid, jti))
    case Login(email, password, jti) =>
      if password && exists u :: Named(a, email, u) && a.users[u].active then
        exists u :: Named(a, email, u) && b == Issue(a, u, jti) && r == Pair(Token(u, jti))
      else b == a && r == Refused
    case Refresh(t, verified, jti) =>
      if Refreshes(a, t, verified) then b == Issue(Revoke(a, t), t.sub, jti) && r == Pair(Token(t.sub, jti))
      else b == a && r == Refused
    case Logout(uid, t) => b == (if t.sub == uid && t in a.tokens then Revoke(a, t) else a) && r == Done
    case LogoutAll(uid) => b == RevokeAll(a, uid) && r == Done
    case SetActive(uid, active) =>
      b == (if uid in a.users then a.(users := a.users[uid := a.users[uid].(active := active)]) else a) && r == Done
    case Wait(n) => b == a.(now := a.now + n) && r == Done
  }

  predicate NewId(a: Auth, jti: Id) {
    forall t :: t in a.tokens ==> t.jti != jti
  }

  /** The call's uuids are new. */
  predicate Allowed(a: Auth, c: Call) {
    match c
    case Register(uid, _, jti) => uid !in a.users && NewId(a, jti)
    case Login(_, _, jti) => NewId(a, jti)
    case Refresh(_, _, jti) => NewId(a, jti)
    case _ => true
  }

  // ---- the service -----------------------------------------------------------------------

  class AuthService {
    var users: map<Id, User>
    var tokens: map<Token, Row>
    var now: nat
    const ttl: nat

    constructor (ttl: nat)
      ensures View() == Auth(map[], map[], 0, ttl)
    {
      users, tokens, now := map[], map[], 0;
      this.ttl := ttl;
    }

    ghost function View(): Auth
      reads this
    {
      Auth(users, tokens, now, ttl)
    }

    method DoRegister(uid: Id, email: string, jti: Id) returns (r: Reply)
      modifies this
      ensures After(old(View()), Register(uid, email, jti), View(), r)
    {
      var existing := set u | u in users && users[u].email == email;
      if existing != {} { return Refused; }
      users := users[uid := User(email, true)];
      r := IssueTokenPair(uid, jti);
    }

    method DoLogin(email: string, password: bool, jti: Id) returns (r: Reply)
      requires UniqueEmails(View())
      modifies this
      ensures After(old(View()), Login(email, password, jti), View(), r)
      ensures r.Pair? <==> password && exists u :: Named(old(View()), email, u) && old(users[u].active)
    {
      var found := set u | u in users && users[u].email == email;
      if found == {} || !password {
        assert forall u :: Named(View(), email, u) ==> u in found;
        return Refused;
      }
      var u :| u in found;
      assert Named(View(), email, u);
      if !users[u].active { return Refused; }
      r := IssueTokenPair(u, jti);
    }

    method DoRefresh(t: Token, verified: bool, jti: Id) returns (r: Reply)
      modifies this
      ensures After(old(View()), Refresh(t, verified, jti), View(), r)
    {
      if !verified { return Refused; }
      if t !in tokens || tokens[t].revoked || tokens[t].expiresAt < now { return Refused; }
      if t.sub !in users || !users[t.sub].active { return Refused; }
      tokens := tokens[t := tokens[t].(revoked := true)];
      r := IssueTokenPair(t.sub, jti);
    }

    method DoLogout(uid: Id, t: Token)
      modifies this
      ensures After(old(View()), Logout(uid, t), View(), Done)
    {
      if t.sub == uid && t in tokens { tokens := tokens[t := tokens[t].(revoked := true)]; }
    }

    method DoLogoutAll(uid: Id)
      modifies this
      ensures After(old(View()), LogoutAll(uid), View(), Done)
    {
      tokens := map t | t in tokens :: if t.sub == uid then tokens[t].(revoked := true) else tokens[t];
    }

    method IssueTokenPair(uid: Id, jti: Id) returns (r: Reply)
      modifies this`tokens
      ensures View() == Issue(old(View()), uid, jti) && r == Pair(Token(uid, jti))
    {
      tokens := tokens[Token(uid, jti) := Row(false, now + ttl)];
      r := Pair(Token(uid, jti));
    }
  }

  lemma EmailsStayUnique(a: Auth, c: Call, b: Auth, r: Reply)
    requires UniqueEmails(a) && Allowed(a, c) && After(a, c, b, r)
    ensures UniqueEmails(b)
  {
    forall u, v | u in b.users && v in b.users && b.users[u].email == b.users[v].email ensures u == v {
      if c.Register? && r.Pair? {
        assert forall w :: w in a.users && a.users[w].email == c.email ==> w in Account(a, c.email);
      } else {
        assert u in a.users && a.users[u].email == b.users[u].email;
        assert v in a.users && a.users[v].email == b.users[v].email;
      }
    }
  }

  // ---- any sequence of calls -------------------------------------------------------------

  datatype Step = Step(call: Call, reply: Reply, after: Auth)

  ghost predicate History(a: Auth, steps: seq<Step>)
    decreases |steps|
  {
    steps == [] ||
    (Allowed(a, steps[0].call) && After(a, steps[0].call, steps[0].after, steps[0].reply)
      && History(steps[0].after, steps[1..]))
  }

  ghost predicate Spent(a: Auth, t: Token) {
    t in a.tokens && a.tokens[t].revoked
  }

  lemma SpentStays(a: Auth, s: Step, t: Token)
    requires Spent(a, t) && Allowed(a, s.call) && After(a, s.call, s.after, s.reply)
    ensures Spent(s.after, t)
    ensures s.call.Refresh? && s.call.token == t ==> s.reply == Refused
  {
  }

  lemma {:induction false} SpentForEver(a: Auth, steps: seq<Step>, t: Token, i: nat)
    requires Spent(a, t) && History(a, steps) && i < |steps| && steps[i].call.Refresh? && steps[i].call.token == t
    ensures steps[i].reply == Refused
    decreases |steps|
  {
    SpentStays(a, steps[0], t);
    if i > 0 {
      assert steps[i] == steps[1..][i - 1];
      SpentForEver(steps[0].after, steps[1..], t, i - 1);
    }
  }

  /** Whatever is called in between, a refresh token yields a new pair at most once. */
  lemma {:induction false} RefreshedOnce(a: Auth, steps: seq<Step>, t: Token, i: nat, k: nat)
    requires History(a, steps) && i < k < |steps|
    requires steps[i].call.Refresh? && steps[i].call.token == t && steps[i].reply.Pair?
    requires steps[k].call.Refresh? && steps[k].call.token == t
    ensures steps[k].reply == Refused
    decreases |steps|
  {
    if i == 0 {
      assert Spent(steps[0].after, t);
      assert steps[k] == steps[1..][k - 1];
      SpentForEver(steps[0].after, steps[1..], t, k - 1);
    } else {
      assert steps[i] == steps[1..][i - 1] && steps[k] == steps[1..][k - 1];
      RefreshedOnce(steps[0].after, steps[1..], t, i - 1, k - 1);
    }
  }

  /** No token that a user had before logging out everywhere ever refreshes afterwards. */
  lemma LogoutAllEndsTokens(a: Auth, steps: seq<Step>, t: Token, i: nat)
    requires History(a, steps) && 0 < i < |steps| && t in a.tokens
    requires steps[0].call == LogoutAll(t.sub) && steps[i].call.Refresh? && steps[i].call.token == t
    ensures steps[i].reply == Refused
  {
    assert Spent(steps[0].after, t);
    assert steps[i] == steps[1..][i - 1];
    SpentForEver(steps[0].after, steps[1..], t, i - 1);
  }

  function Unrevoked(a: Auth, uid: Id): set<Token> {
    set t | t in a.tokens && t.sub == uid && !a.tokens[t].revoked
  }

  /** A refresh, granted or refused, leaves every user with as many unrevoked tokens as before; a granted one swaps the
      token it spends for the one it returns. */
  lemma RefreshKeepsCount(a: Auth, t: Token, verified: bool, jti: Id, b: Auth, r: Reply, uid: Id)
    requires Allowed(a, Refresh(t, verified, jti)) && After(a, Refresh(t, verified, jti), b, r)
    ensures |Unrevoked(b, uid)| == |Unrevoked(a, uid)|
    ensures r.Pair? && uid == t.sub ==>
      Unrevoked(b, uid) == Unrevoked(a, uid) - {t} + {r.token} && r.token !in Unrevoked(a, uid)
  {
    if r.Pair? && uid == t.sub {
      assert Unrevoked(b, uid) == Unrevoked(a, uid) - {t} + {r.token};
    } else {
      assert Unrevoked(b, uid) == Unrevoked(a, uid);
    }
  }
}
