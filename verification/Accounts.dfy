/** What `AuthService` owes to the calls so far.  From the empty tables, whether a registration, a login or a refresh is
    granted is a matter of the earlier calls and their replies alone. */
module Accounts {
  import opened Store
  import opened Tokens

  // ---- one login -------------------------------------------------------------------------

  /** A login is granted exactly when the password matches and an active account has the address, and then the token is
      that account's; a refused one changes nothing. */
  lemma LoginGranted(a: Auth, email: string, password: bool, jti: Id, b: Auth, r: Reply)
    requires UniqueEmails(a) && After(a, Login(email, password, jti), b, r)
    ensures r.Pair? <==> password && exists u :: u in a.users && a.users[u].email == email && a.users[u].active
    ensures r.Pair? ==>
      var u := r.token.sub;
      && u in a.users && a.users[u].email == email && a.users[u].active && r.token.jti == jti
      && b.users == a.users && b.tokens == a.tokens[r.token := Row(false, a.now + a.ttl)]
    ensures !r.Pair? ==> b == a && r == Refused
  {
    assert forall u :: Named(a, email, u) <==> u in a.users && a.users[u].email == email;
  }

  // ---- the journal -----------------------------------------------------------------------

  /** The time that has passed. */
  function Clock(steps: seq<Step>): nat {
    if steps == [] then 0
    else
      var last := steps[|steps| - 1];
      Clock(steps[..|steps| - 1]) + if last.call.Wait? then last.call.seconds else 0
  }

  /** The call granted out, as its reply, token `t`. */
  predicate Pays(s: Step, t: Token) {
    s.reply == Pair(t)
  }

  predicate PaidOut(steps: seq<Step>, t: Token) {
    exists i :: 0 <= i < |steps| && Pays(steps[i], t)
  }

  /** When `t` was paid out. */
  function PaidAt(steps: seq<Step>, t: Token): nat {
    if steps == [] then 0
    else if Pays(steps[|steps| - 1], t) then Clock(steps[..|steps| - 1])
    else PaidAt(steps[..|steps| - 1], t)
  }

  /** The call ends `t`: a granted refresh with it, its owner's logout with it, or a logout from all devices. */
  predicate Ends(s: Step, t: Token) {
    match s.call
    case Refresh(u, _, _) => u == t && s.reply.Pair?
    case Logout(uid, u) => u == t && uid == t.sub
    case LogoutAll(uid) => uid == t.sub
    case _ => false
  }

  /** `t` was paid out and nothing has ended it since. */
  function Usable(steps: seq<Step>, t: Token): bool {
    if steps == [] then false
    else
      var last := steps[|steps| - 1];
      Pays(last, t) || (!Ends(last, t) && Usable(steps[..|steps| - 1], t))
  }

  predicate Registers(s: Step, uid: Id, email: string) {
    s.call.Register? && s.call.uid == uid && s.call.email == email && s.reply.Pair?
  }

  /** Account `uid` has been registered under this address. */
  predicate Registered(steps: seq<Step>, uid: Id, email: string) {
    exists i :: 0 <= i < |steps| && Registers(steps[i], uid, email)
  }

  /** The last word on whether account `uid` is active. */
  function SaidActive(steps: seq<Step>, uid: Id): bool {
    if steps == [] then false
    else
      var last := steps[|steps| - 1];
      if last.call.SetActive? && last.call.uid == uid then last.call.active
      else if last.call.Register? && last.call.uid == uid && last.reply.Pair? then true
      else SaidActive(steps[..|steps| - 1], uid)
  }

  ghost predicate ClockKept(a: Auth, steps: seq<Step>, ttl: nat) {
    a.now == Clock(steps) && a.ttl == ttl
  }

  ghost predicate TokensKept(a: Auth, steps: seq<Step>) {
    && (forall t :: t in a.tokens <==> PaidOut(steps, t))
    && (forall t :: t in a.tokens ==>
          (!a.tokens[t].revoked <==> Usable(steps, t)) && a.tokens[t].expiresAt == PaidAt(steps, t) + a.ttl)
  }

  ghost predicate UsersKept(a: Auth, steps: seq<Step>) {
    && (forall u :: u in a.users ==> Registered(steps, u, a.users[u].email))
    && (forall u, email :: Registered(steps, u, email) ==> u in a.users && a.users[u].email == email)
    && (forall u :: u in a.users ==> a.users[u].active == SaidActive(steps, u))
  }

  /** The tables say what the journal of the calls says. */
  ghost predicate Kept(a: Auth, steps: seq<Step>, ttl: nat) {
    ClockKept(a, steps, ttl) && TokensKept(a, steps) && UsersKept(a, steps) && UniqueEmails(a)
  }

  // ---- one more call ---------------------------------------------------------------------

  lemma PaidOutMore(steps: seq<Step>, s: Step, t: Token)
    ensures PaidOut(steps + [s], t) <==> PaidOut(steps, t) || Pays(s, t)
  {
    var all := steps + [s];
    if i :| 0 <= i < |steps| && Pays(steps[i], t) { assert Pays(all[i], t); }
    if Pays(s, t) { assert Pays(all[|steps|], t); }
  }

  lemma RegisteredMore(steps: seq<Step>, s: Step, uid: Id, email: string)
    ensures Registered(steps + [s], uid, email) <==> Registered(steps, uid, email) || Registers(s, uid, email)
  {
    var all := steps + [s];
    if i :| 0 <= i < |steps| && Registers(steps[i], uid, email) { assert Registers(all[i], uid, email); }
    if Registers(s, uid, email) { assert Registers(all[|steps|], uid, email); }
  }

  lemma JournalMore(steps: seq<Step>, s: Step)
    ensures Clock(steps + [s]) == Clock(steps) + if s.call.Wait? then s.call.seconds else 0
    ensures forall t :: PaidAt(steps + [s], t) == if Pays(s, t) then Clock(steps) else PaidAt(steps, t)
    ensures forall t :: Usable(steps + [s], t) <==> Pays(s, t) || (!Ends(s, t) && Usable(steps, t))
  {
    assert (steps + [s])[..|steps|] == steps;
  }

  lemma SaidMore(steps: seq<Step>, s: Step, uid: Id)
    ensures SaidActive(steps + [s], uid) ==
      if s.call.SetActive? && s.call.uid == uid then s.call.active
      else if s.call.Register? && s.call.uid == uid && s.reply.Pair? then true
      else SaidActive(steps, uid)
  {
    assert (steps + [s])[..|steps|] == steps;
  }

  lemma TokensKeptStep(a: Auth, steps: seq<Step>, s: Step, ttl: nat)
    requires Kept(a, steps, ttl) && Allowed(a, s.call) && After(a, s.call, s.after, s.reply)
    ensures ClockKept(s.after, steps + [s], ttl) && TokensKept(s.after, steps + [s])
  {
    JournalMore(steps, s);
    forall t ensures PaidOut(steps + [s], t) <==> PaidOut(steps, t) || Pays(s, t) { PaidOutMore(steps, s, t); }
  }

  lemma UsersKeptStep(a: Auth, steps: seq<Step>, s: Step, ttl: nat)
    requires Kept(a, steps, ttl) && Allowed(a, s.call) && After(a, s.call, s.after, s.reply)
    ensures UsersKept(s.after, steps + [s]) && UniqueEmails(s.after)
  {
    EmailsStayUnique(a, s.call, s.after, s.reply);
    forall u, email
      ensures Registered(steps + [s], u, email) <==> Registered(steps, u, email) || Registers(s, u, email)
    {
      RegisteredMore(steps, s, u, email);
    }
    forall u | u in s.after.users ensures s.after.users[u].active == SaidActive(steps + [s], u) {
      SaidMore(steps, s, u);
    }
  }

  // ---- histories -------------------------------------------------------------------------

  /** The tables after the calls. */
  function Then(a: Auth, steps: seq<Step>): Auth {
    if steps == [] then a else steps[|steps| - 1].after
  }

  lemma {:induction false} LastCall(a: Auth, steps: seq<Step>, s: Step)
    requires History(a, steps + [s])
    ensures History(a, steps) && Allowed(Then(a, steps), s.call)
    ensures After(Then(a, steps), s.call, s.after, s.reply)
    decreases |steps|
  {
    if steps == [] {
      assert steps + [s] == [s];
    } else {
      assert (steps + [s])[0] == steps[0] && (steps + [s])[1..] == steps[1..] + [s];
      LastCall(steps[0].after, steps[1..], s);
    }
  }

  /** Nobody has registered yet. */
  function Empty(ttl: nat): Auth {
    Auth(map[], map[], 0, ttl)
  }

  lemma {:induction false} JournalKept(ttl: nat, steps: seq<Step>)
    requires History(Empty(ttl), steps)
    ensures Kept(Then(Empty(ttl), steps), steps, ttl)
    decreases |steps|
  {
    if steps != [] {
      var n := |steps| - 1;
      assert steps == steps[..n] + [steps[n]];
      LastCall(Empty(ttl), steps[..n], steps[n]);
      JournalKept(ttl, steps[..n]);
      TokensKeptStep(Then(Empty(ttl), steps[..n]), steps[..n], steps[n], ttl);
      UsersKeptStep(Then(Empty(ttl), steps[..n]), steps[..n], steps[n], ttl);
    }
  }

  lemma {:induction false} Prefix(a: Auth, steps: seq<Step>, i: nat)
    requires History(a, steps) && i < |steps|
    ensures History(a, steps[..i]) && Allowed(Then(a, steps[..i]), steps[i].call)
    ensures After(Then(a, steps[..i]), steps[i].call, steps[i].after, steps[i].reply)
    decreases |steps|
  {
    var n := |steps| - 1;
    assert steps == steps[..n] + [steps[n]];
    LastCall(a, steps[..n], steps[n]);
    if i < n {
      Prefix(a, steps[..n], i);
      assert steps[..n][..i] == steps[..i];
    }
  }

  /** Call number `i` is granted a refresh exactly when its token verifies, was paid out at most the refresh TTL ago
      and not ended since, and its account is registered and, by the last word on it, active. */
  lemma RefreshExactly(ttl: nat, steps: seq<Step>, i: nat)
    requires History(Empty(ttl), steps) && i < |steps| && steps[i].call.Refresh?
    ensures var t, before := steps[i].call.token, steps[..i];
      && (steps[i].reply.Pair? <==>
            && steps[i].call.verified && Usable(before, t) && Clock(before) <= PaidAt(before, t) + ttl
            && (exists email :: Registered(before, t.sub, email)) && SaidActive(before, t.sub))
      && (steps[i].reply.Pair? ==> steps[i].reply == Pair(Token(t.sub, steps[i].call.jti)))
      && (!steps[i].reply.Pair? ==> steps[i].reply == Refused && steps[i].after == Then(Empty(ttl), before))
  {
    Prefix(Empty(ttl), steps, i);
    JournalKept(ttl, steps[..i]);
    assert Usable(steps[..i], steps[i].call.token) ==> PaidOut(steps[..i], steps[i].call.token) by {
      UsableWasPaid(steps[..i], steps[i].call.token);
    }
  }

  lemma {:induction false} UsableWasPaid(steps: seq<Step>, t: Token)
    ensures Usable(steps, t) ==> PaidOut(steps, t)
  {
    if steps != [] {
      var n := |steps| - 1;
      UsableWasPaid(steps[..n], t);
      assert steps == steps[..n] + [steps[n]];
      PaidOutMore(steps[..n], steps[n], t);
    }
  }

  /** A login is granted exactly when the password matches and an account registered under the address is, by the last
      word on it, active; the token is that account's. */
  lemma LoginExactly(ttl: nat, steps: seq<Step>, i: nat)
    requires History(Empty(ttl), steps) && i < |steps| && steps[i].call.Login?
    ensures var c, before := steps[i].call, steps[..i];
      && (steps[i].reply.Pair? <==>
            c.password && exists u :: Registered(before, u, c.email) && SaidActive(before, u))
      && (steps[i].reply.Pair? ==>
            && Registered(before, steps[i].reply.token.sub, c.email) && SaidActive(before, steps[i].reply.token.sub)
            && steps[i].reply.token.jti == c.jti)
      && (!steps[i].reply.Pair? ==> steps[i].reply == Refused && steps[i].after == Then(Empty(ttl), before))
  {
    Prefix(Empty(ttl), steps, i);
    JournalKept(ttl, steps[..i]);
    var c := steps[i].call;
    LoginGranted(Then(Empty(ttl), steps[..i]), c.email, c.password, c.jti, steps[i].after, steps[i].reply);
  }

  /** A registration is granted exactly when nobody has registered under its address. */
  lemma RegisterExactly(ttl: nat, steps: seq<Step>, i: nat)
    requires History(Empty(ttl), steps) && i < |steps| && steps[i].call.Register?
    ensures var c, before := steps[i].call, steps[..i];
      && (steps[i].reply.Pair? <==> forall u :: !Registered(before, u, c.email))
      && (steps[i].reply.Pair? ==> steps[i].reply == Pair(Token(c.uid, c.jti)))
      && (!steps[i].reply.Pair? ==> steps[i].reply == Refused && steps[i].after == Then(Empty(ttl), before))
  {
    Prefix(Empty(ttl), steps, i);
    JournalKept(ttl, steps[..i]);
    var a, email := Then(Empty(ttl), steps[..i]), steps[i].call.email;
    forall u ensures u in Account(a, email) <==> Registered(steps[..i], u, email) {
      if u in a.users { assert Registered(steps[..i], u, a.users[u].email); }
    }
    if u :| Registered(steps[..i], u, email) {
      assert u in Account(a, email);
    } else {
      assert Account(a, email) == {};
    }
  }
}
