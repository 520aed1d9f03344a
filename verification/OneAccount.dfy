/** The step-by-step server of `SingleFlight` against the calls of `Tokens`: seen from one account, the reads and writes
    of `refresh` made in a row are the call as a whole, and every other call is one step or none. */
module OneAccount {
  import opened Store
  import opened SingleFlight
  import opened ServerAlone
  import Tokens

  predicate IsActive(a: Tokens.Auth, uid: Id) {
    uid in a.users && a.users[uid].active
  }

  predicate SameRow(r: Tokens.Row, s: Row) {
    r.revoked == !s.revoked.Unrevoked? && r.expiresAt == s.expiresAt
  }

  /** The state as account `uid` has it in `a`. */
  ghost predicate Mirrors(a: Tokens.Auth, uid: Id, st: State) {
    && st.now == a.now && st.ttl == a.ttl && st.active == IsActive(a, uid)
    && (forall t :: t in st.rows <==> Tokens.Token(uid, t) in a.tokens)
    && (forall t :: t in st.rows ==> SameRow(a.tokens[Tokens.Token(uid, t)], st.rows[t]))
  }

  /** The call reads the row, and goes on as far as it gets. */
  function InARow(st: State, cid: Id, jti: Id): seq<Action>
    requires cid in st.calls
  {
    if !Live(st, st.calls[cid].token) then [CheckToken(cid)]
    else if !st.active then [CheckToken(cid)] + [CheckUser(cid)]
    else [CheckToken(cid)] + [CheckUser(cid)] + [Rotate(cid)] + [Answer(cid, jti)]
  }

  /** What the steps in a row come to. */
  function Outcome(st: State, cid: Id, jti: Id): State
    requires cid in st.calls
  {
    var t := st.calls[cid].token;
    if !Live(st, t) || !st.active then SetCall(st, cid, Denied)
    else SetCall(st, cid, Answered(jti)).(
      rows := st.rows[t := st.rows[t].(revoked := ByRefresh)][jti := Row(Unrevoked, st.now + st.ttl)],
      issued := st.issued[t := CountOf(st.issued, t) + 1])
  }

  lemma RowReaches(st: State, cid: Id, jti: Id)
    requires cid in st.calls && st.calls[cid].phase.Arrived? && jti !in st.rows
    ensures Reaches(st, InARow(st, cid, jti), Outcome(st, cid, jti))
  {
    Steps(st, CheckToken(cid));
    if Live(st, st.calls[cid].token) {
      var s1 := Next(st, CheckToken(cid));
      ThenStep(st, [CheckToken(cid)], s1, CheckUser(cid));
      var s2 := Next(s1, CheckUser(cid));
      assert s2.calls == st.calls[cid := s2.calls[cid]];
      if st.active {
        var s3 := Next(s2, Rotate(cid));
        ThenStep(st, [CheckToken(cid)] + [CheckUser(cid)], s2, Rotate(cid));
        assert s3.calls == st.calls[cid := s3.calls[cid]];
        ThenStep(st, [CheckToken(cid)] + [CheckUser(cid)] + [Rotate(cid)], s3, Answer(cid, jti));
        assert Next(s3, Answer(cid, jti)).calls == st.calls[cid := Call(st.calls[cid].token, Answered(jti))];
      }
    }
  }

  /** The steps of `refresh` in a row, for a token whose signature checks out, are the call: same rows, same reply. */
  lemma RefreshInARow(a: Tokens.Auth, uid: Id, st: State, cid: Id, jti: Id, b: Tokens.Auth, r: Tokens.Reply)
    requires Mirrors(a, uid, st) && cid in st.calls && st.calls[cid].phase.Arrived?
    requires var call := Tokens.Refresh(Tokens.Token(uid, st.calls[cid].token), true, jti);
      Tokens.Allowed(a, call) && Tokens.After(a, call, b, r)
    ensures jti !in st.rows && Run(st, InARow(st, cid, jti))
    ensures var end := Final(st, InARow(st, cid, jti));
      && Mirrors(b, uid, end) && cid in end.calls
      && end.calls[cid].phase == (if r == Tokens.Refused then Denied else Answered(jti))
      && (r == Tokens.Refused || r == Tokens.Pair(Tokens.Token(uid, jti)))
  {
    var t := st.calls[cid].token;
    assert Tokens.Token(uid, jti) !in a.tokens;
    RowReaches(st, cid, jti);
    assert Live(st, t) == Tokens.Live(a, Tokens.Token(uid, t));
  }

  /** The step that another call of this account is. */
  function StepOf(c: Tokens.Call): Action
    requires !c.Register? && !c.Refresh? && !c.Wait?
  {
    match c
    case Login(_, _, jti) => LogIn(jti)
    case Logout(_, t) => RevokeByLogout(t.jti)
    case LogoutAll(_) => RevokeAll
    case SetActive(_, active) => SetActive(active)
  }

  /** A granted login, a logout of a stored token, a logout from all devices and a change of the account are one step
      each. */
  lemma OneStep(a: Tokens.Auth, uid: Id, st: State, c: Tokens.Call, b: Tokens.Auth, r: Tokens.Reply)
    requires Mirrors(a, uid, st) && Tokens.UniqueEmails(a) && Tokens.Allowed(a, c) && Tokens.After(a, c, b, r)
    requires match c
      case Login(_, _, _) => r.Pair? && r.token.sub == uid
      case Logout(u, t) => u == uid == t.sub && t in a.tokens
      case LogoutAll(u) => u == uid
      case SetActive(u, _) => u == uid && uid in a.users
      case _ => false
    ensures Enabled(st, StepOf(c)) && Mirrors(b, uid, Next(st, StepOf(c)))
  {
    match c
    case Login(_, _, jti) =>
      assert b == Tokens.Issue(a, uid, jti) && IsActive(a, uid);
      assert Tokens.Token(uid, jti) !in a.tokens;
    case Logout(_, t) => assert Tokens.Token(uid, t.jti) == t;
    case LogoutAll(_) =>
    case SetActive(_, _) =>
  }

  /** Calls that concern other accounts, and those that are refused, leave the state as it is. */
  lemma NoStep(a: Tokens.Auth, uid: Id, st: State, c: Tokens.Call, b: Tokens.Auth, r: Tokens.Reply)
    requires Mirrors(a, uid, st) && Tokens.Allowed(a, c) && Tokens.After(a, c, b, r) && !c.Wait?
    requires r.Refused? || (r.Pair? && r.token.sub != uid)
      || ((c.Logout? || c.LogoutAll? || c.SetActive?) && c.uid != uid)
    ensures Mirrors(b, uid, st)
  {
  }

  /** The state when `n` seconds have passed. */
  function Later(st: State, n: nat): State {
    st.(now := st.now + n)
  }

  lemma {:induction false} TicksPass(st: State, n: nat) returns (ticks: seq<Action>)
    ensures |ticks| == n && (forall a :: a in ticks ==> a == Tick) && Reaches(st, ticks, Later(st, n))
  {
    ticks := [];
    if n > 0 {
      ticks := TicksPass(st, n - 1);
      ThenStep(st, ticks, Later(st, n - 1), Tick);
      ticks := ticks + [Tick];
    }
  }

  /** A wait is as many ticks as it has seconds. */
  lemma WaitIsTicks(a: Tokens.Auth, uid: Id, st: State, n: nat, b: Tokens.Auth, r: Tokens.Reply)
    returns (ticks: seq<Action>)
    requires Mirrors(a, uid, st) && Tokens.After(a, Tokens.Wait(n), b, r)
    ensures |ticks| == n && (forall t :: t in ticks ==> t == Tick)
    ensures Run(st, ticks) && Mirrors(b, uid, Final(st, ticks))
  {
    ticks := TicksPass(st, n);
  }

  /** A registration of the account is its activation and its first login. */
  lemma RegistrationIsTwoSteps(a: Tokens.Auth, uid: Id, st: State, c: Tokens.Call, b: Tokens.Auth, r: Tokens.Reply)
    requires Mirrors(a, uid, st) && Tokens.Allowed(a, c) && Tokens.After(a, c, b, r)
    requires c.Register? && c.uid == uid && r.Pair?
    ensures Run(st, [SetActive(true)] + [LogIn(c.jti)])
    ensures Mirrors(b, uid, Final(st, [SetActive(true)] + [LogIn(c.jti)]))
  {
    assert Tokens.Token(uid, c.jti) !in a.tokens;
    Steps(st, SetActive(true));
    ThenStep(st, [SetActive(true)], Next(st, SetActive(true)), LogIn(c.jti));
  }

  /** And a login step is a granted login of the account, with its address and a matching password. */
  lemma LoginStepIsACall(a: Tokens.Auth, uid: Id, st: State, t: Id) returns (c: Tokens.Call, b: Tokens.Auth)
    requires Mirrors(a, uid, st) && Tokens.UniqueEmails(a) && Enabled(st, LogIn(t))
    ensures c.Login? && c.password && Tokens.After(a, c, b, Tokens.Pair(Tokens.Token(uid, t)))
    ensures Mirrors(b, uid, Next(st, LogIn(t)))
  {
    var email := a.users[uid].email;
    assert Tokens.Named(a, email, uid);
    c, b := Tokens.Login(email, true, t), Tokens.Issue(a, uid, t);
  }
}
