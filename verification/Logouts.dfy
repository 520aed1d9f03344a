/** When a session outlives its own logout.  The tab posts the token it holds and then clears its store; whether the
    session is over depends on whether that token was still the last of its line. */
module Logouts {
  import opened Store
  import opened SingleFlight
  import opened ServerAlone

  // ---- the tokens of one session ---------------------------------------------------------

  /** Call `c` answered with `u`. */
  predicate Minted(st: State, c: Id, u: Id) {
    c in st.calls && st.calls[c].phase == Answered(u)
  }

  /** `u` is `t`, or at most `n` refreshes away from it. */
  ghost predicate Descends(st: State, t: Id, u: Id, n: nat)
    decreases n
  {
    u == t || (n > 0 && exists c :: Minted(st, c, u) && Descends(st, t, st.calls[c].token, n - 1))
  }

  /** `u` belongs to the session that had token `t`. */
  ghost predicate InLine(st: State, t: Id, u: Id) {
    exists n: nat :: Descends(st, t, u, n)
  }

  /** The session has a token that is not revoked. */
  ghost predicate LineLeft(st: State, t: Id) {
    exists u :: InLine(st, t, u) && u in st.rows && st.rows[u].revoked.Unrevoked?
  }

  ghost predicate StandingIn(st: State, t: Id, c: Id) {
    c in st.calls && Standing(st.calls[c].phase) && InLine(st, t, st.calls[c].token)
  }

  /** A refresh of the session stands between the read of its row and its answer. */
  ghost predicate LineStanding(st: State, t: Id) {
    exists c :: StandingIn(st, t, c)
  }

  /** Something that may follow leaves the session with a token that is not revoked. */
  ghost predicate MayOutlive(st: State, t: Id) {
    exists more: seq<Action> :: Run(st, more) && LineLeft(Final(st, more), t)
  }

  lemma Self(st: State, t: Id)
    ensures InLine(st, t, t)
  {
    assert Descends(st, t, t, 0);
  }

  lemma MintedInLine(st: State, t: Id, c: Id, u: Id)
    requires Minted(st, c, u) && InLine(st, t, st.calls[c].token)
    ensures InLine(st, t, u)
  {
    var n: nat :| Descends(st, t, st.calls[c].token, n);
    assert Descends(st, t, u, n + 1);
  }

  // ---- steps -----------------------------------------------------------------------------

  /** Every answer stays, and none is new but the one of an `Answer` step. */
  lemma MintedStep(st: State, a: Action, c: Id, u: Id)
    requires Enabled(st, a)
    ensures Minted(st, c, u) ==> Minted(Next(st, a), c, u) && Next(st, a).calls[c].token == st.calls[c].token
    ensures Minted(Next(st, a), c, u) ==>
      c in st.calls && Next(st, a).calls[c].token == st.calls[c].token && (Minted(st, c, u) || a == Answer(c, u))
  {
  }

  lemma {:induction false} DescentStays(st: State, a: Action, t: Id, u: Id, n: nat)
    requires Enabled(st, a) && Descends(st, t, u, n)
    ensures Descends(Next(st, a), t, u, n)
    decreases n
  {
    if u != t {
      var c :| Minted(st, c, u) && Descends(st, t, st.calls[c].token, n - 1);
      MintedStep(st, a, c, u);
      DescentStays(st, a, t, st.calls[c].token, n - 1);
    }
  }

  /** Whatever is new in the line is what a call of the line was just answered with. */
  lemma {:induction false} DescentBack(st: State, a: Action, t: Id, u: Id, n: nat)
    requires TokensStored(st) && Enabled(st, a) && Descends(Next(st, a), t, u, n)
    ensures InLine(st, t, u) || (a.Answer? && u == a.minted && InLine(st, t, st.calls[a.cid].token))
    decreases n
  {
    Self(st, t);
    if u != t {
      var c :| Minted(Next(st, a), c, u) && Descends(Next(st, a), t, Next(st, a).calls[c].token, n - 1);
      MintedStep(st, a, c, u);
      DescentBack(st, a, t, st.calls[c].token, n - 1);
      if Minted(st, c, u) { MintedInLine(st, t, c, u); }
    }
  }

  /** Nothing is left of the session: every token of it is revoked, and no refresh of one stands. */
  ghost predicate Over(st: State, t: Id) {
    t in st.rows && !LineLeft(st, t) && !LineStanding(st, t)
  }

  lemma OverStep(st: State, a: Action, t: Id)
    requires TokensStored(st) && Over(st, t) && Enabled(st, a)
    ensures Over(Next(st, a), t)
  {
    var after := Next(st, a);
    if u :| InLine(after, t, u) && u in after.rows && after.rows[u].revoked.Unrevoked? {
      LineBack(st, a, t, u);
      StillRevoked(st, a, t, u);
    }
    if c :| StandingIn(after, t, c) {
      LineBack(st, a, t, after.calls[c].token);
      NotStanding(st, a, t, c);
    }
  }

  lemma LineBack(st: State, a: Action, t: Id, u: Id)
    requires TokensStored(st) && Over(st, t) && Enabled(st, a) && InLine(Next(st, a), t, u)
    ensures InLine(st, t, u)
  {
    var n: nat :| Descends(Next(st, a), t, u, n);
    DescentBack(st, a, t, u, n);
    if a.Answer? && InLine(st, t, st.calls[a.cid].token) {
      assert !StandingIn(st, t, a.cid);
    }
  }

  /** A token of the line is stored. */
  lemma LineStored(st: State, t: Id, u: Id)
    requires TokensStored(st) && t in st.rows && InLine(st, t, u)
    ensures u in st.rows
  {
    var n: nat :| Descends(st, t, u, n);
    if u != t {
      var c :| Minted(st, c, u) && Descends(st, t, st.calls[c].token, n - 1);
    }
  }

  lemma StillRevoked(st: State, a: Action, t: Id, u: Id)
    requires TokensStored(st) && Over(st, t) && Enabled(st, a) && InLine(st, t, u) && u in Next(st, a).rows
    ensures !Next(st, a).rows[u].revoked.Unrevoked?
  {
    LineStored(st, t, u);
    RevokedStays(st, a, u);
  }

  lemma NotStanding(st: State, a: Action, t: Id, c: Id)
    requires TokensStored(st) && Over(st, t) && Enabled(st, a) && c in Next(st, a).calls
    requires InLine(st, t, Next(st, a).calls[c].token)
    ensures !Standing(Next(st, a).calls[c].phase)
  {
    if Standing(Next(st, a).calls[c].phase) {
      assert !StandingIn(st, t, c);
      OnlyChecksPass(st, a, c);
    }
  }

  lemma {:induction false} OverRun(st: State, actions: seq<Action>, t: Id)
    requires TokensStored(st) && Over(st, t) && Run(st, actions)
    ensures Over(Final(st, actions), t)
    decreases |actions|
  {
    if actions != [] {
      OverStep(st, actions[0], t);
      StoredStep(st, actions[0]);
      OverRun(Next(st, actions[0]), actions[1..], t);
    }
  }

  // ---- the exact condition ---------------------------------------------------------------

  lemma {:induction false} DescentByCalls(st: State, other: State, t: Id, u: Id, n: nat)
    requires st.calls == other.calls && Descends(st, t, u, n)
    ensures Descends(other, t, u, n)
    decreases n
  {
    if u != t {
      var c :| Minted(st, c, u) && Descends(st, t, st.calls[c].token, n - 1);
      DescentByCalls(st, other, t, st.calls[c].token, n - 1);
      assert Minted(other, c, u);
    }
  }

  /** The line is a matter of the calls alone. */
  lemma LineByCalls(st: State, other: State, t: Id, u: Id)
    requires st.calls == other.calls
    ensures InLine(st, t, u) <==> InLine(other, t, u)
  {
    if n: nat :| Descends(st, t, u, n) { DescentByCalls(st, other, t, u, n); }
    if n: nat :| Descends(other, t, u, n) { DescentByCalls(other, st, t, u, n); }
  }

  lemma {:induction false} DescentRun(st: State, actions: seq<Action>, t: Id, u: Id, n: nat)
    requires Run(st, actions) && Descends(st, t, u, n)
    ensures Descends(Final(st, actions), t, u, n)
    decreases |actions|
  {
    if actions != [] {
      DescentStays(st, actions[0], t, u, n);
      DescentRun(Next(st, actions[0]), actions[1..], t, u, n);
    }
  }

  /** A refresh that stands is answered with a token of the same line. */
  lemma StandingOutlives(st: State, t: Id, c: Id)
    requires TokensStored(st) && StandingIn(st, t, c)
    ensures MayOutlive(st, t)
  {
    var actions, end := FinishCall(st, c);
    var u := end.calls[c].phase.minted;
    var n: nat :| Descends(st, t, st.calls[c].token, n);
    DescentRun(st, actions, t, st.calls[c].token, n);
    assert InLine(end, t, st.calls[c].token);
    MintedInLine(end, t, c, u);
    assert LineLeft(end, t);
  }

  /** A token of the session other than `t` that is not revoked. */
  ghost predicate LaterToken(st: State, t: Id) {
    exists u :: u != t && InLine(st, t, u) && u in st.rows && st.rows[u].revoked.Unrevoked?
  }

  /** Logging token `t` out ends its session for good, unless the session has moved on to another token, or a refresh
      of it stands between the read of its row and its answer. */
  lemma LogoutExactly(st: State, actions: seq<Action>, t: Id)
    requires Init(st) && Run(st, actions) && t in Final(st, actions).rows
    ensures var end := Final(st, actions);
      MayOutlive(Next(end, RevokeByLogout(t)), t) <==> LaterToken(end, t) || LineStanding(end, t)
  {
    InitBooks(st);
    RunBooks(st, actions);
    var end := Final(st, actions);
    var after := Next(end, RevokeByLogout(t));
    StoredStep(end, RevokeByLogout(t));
    forall u ensures InLine(after, t, u) <==> InLine(end, t, u) { LineByCalls(end, after, t, u); }
    if u :| u != t && InLine(end, t, u) && u in end.rows && end.rows[u].revoked.Unrevoked? {
      assert LineLeft(Final(after, []), t);
    } else if c :| StandingIn(end, t, c) {
      StandingOutlives(after, t, c);
    } else {
      assert !LineStanding(after, t) by {
        if c :| StandingIn(after, t, c) { assert StandingIn(end, t, c); }
      }
      assert Over(after, t);
      forall more: seq<Action> | Run(after, more) ensures !LineLeft(Final(after, more), t) { OverRun(after, more, t); }
    }
  }

  // ---- the tab logs out ------------------------------------------------------------------

  /** A tab that logs out the token it holds, with no refresh pending, ends its session. */
  lemma PromptLogoutEnds(st: State, actions: seq<Action>, t: Id)
    requires Init(st) && Run(st, actions) && OneTab(actions)
    requires Final(st, actions).tab.refresh == Some(t) && Final(st, actions).tab.promise == NoPromise
    ensures t in Final(st, actions).rows && !MayOutlive(Next(Final(st, actions), RevokeByLogout(t)), t)
  {
    RunSound(st, actions);
    var end := Final(st, actions);
    forall u, n: nat | Descends(end, t, u, n) ensures u == t { OnlyOfLine(end, t, u, n); }
    LogoutExactly(st, actions, t);
  }

  /** A token that no call presents is the only one of its line. */
  lemma {:induction false} OnlyOfLine(st: State, t: Id, u: Id, n: nat)
    requires (forall c :: c in st.calls ==> st.calls[c].token != t) && Descends(st, t, u, n)
    ensures u == t
    decreases n
  {
    if u != t {
      var c :| Minted(st, c, u) && Descends(st, t, st.calls[c].token, n - 1);
      OnlyOfLine(st, t, st.calls[c].token, n - 1);
    }
  }

  /** The request gets a 401, and the interceptor posts the token. */
  function Expired(): seq<Action> {
    [Send(1)] + [Unauthorized(1, 1)]
  }

  lemma Posts(st: State, t: Id) returns (end: State)
    requires Init(st) && st.tab.refresh == Some(t)
    ensures Reaches(st, Expired(), end)
    ensures end == st.(calls := map[1 := Call(t, Arrived)], tab := end.tab)
    ensures end.tab == Tab(st.tab.access, Some(t), Awaiting(1), map[1 := Request(1, true, Waiting)])
  {
    var mid := Next(st, Send(1));
    Steps(st, Send(1));
    end := Next(mid, Unauthorized(1, 1));
    ThenStep(st, [Send(1)], mid, Unauthorized(1, 1));
  }

  /** The server refreshes it: both reads, and both writes. */
  function Refreshed(m: Id): seq<Action> {
    [CheckToken(1)] + [CheckUser(1)] + ([Rotate(1)] + [Answer(1, m)])
  }

  lemma Reads(st: State, t: Id)
    requires st.calls == map[1 := Call(t, Arrived)] && st.active && Live(st, t)
    ensures Reaches(st, [CheckToken(1)] + [CheckUser(1)], st.(calls := map[1 := Call(t, Verified)]))
  {
    var mid := st.(calls := map[1 := Call(t, Found)]);
    Steps(st, CheckToken(1));
    ThenStep(st, [CheckToken(1)], mid, CheckUser(1));
  }

  lemma Refreshes(st: State, t: Id, m: Id) returns (end: State)
    requires st.calls == map[1 := Call(t, Arrived)] && st.active && Live(st, t) && m !in st.rows
    ensures Reaches(st, Refreshed(m), end)
    ensures end.calls == map[1 := Call(t, Answered(m))] && end.tab == st.tab
    ensures t in end.rows && end.rows[t].revoked == ByRefresh && Live(end, m)
  {
    Reads(st, t);
    var s1 := st.(calls := map[1 := Call(t, Verified)]);
    var s2 := st.(calls := map[1 := Call(t, Rotated)], rows := st.rows[t := st.rows[t].(revoked := ByRefresh)]);
    Steps(s1, Rotate(1));
    end := Next(s2, Answer(1, m));
    ThenStep(s1, [Rotate(1)], s2, Answer(1, m));
    Joined(st, [CheckToken(1)] + [CheckUser(1)], s1, [Rotate(1)] + [Answer(1, m)], end);
  }

  /** The logout is sent again as it was, with the token that has been spent meanwhile. */
  function Retried(t: Id): seq<Action> {
    [RefreshArrived] + [Resend(1)] + [RevokeByLogout(t)]
  }

  lemma Retries(st: State, t: Id, m: Id) returns (end: State)
    requires st.calls == map[1 := Call(t, Answered(m))]
    requires st.tab.promise == Awaiting(1) && st.tab.requests == map[1 := Request(1, true, Waiting)]
    requires t in st.rows && st.rows[t].revoked == ByRefresh && Live(st, m)
    ensures Reaches(st, Retried(t), end) && end.calls == st.calls && Live(end, m)
    ensures end.tab.requests == map[1 := Request(2, true, InFlight)]
  {
    var s1 := Next(st, RefreshArrived);
    Steps(st, RefreshArrived);
    assert s1.tab.requests == map[1 := Request(1, true, Granted)];
    var s2 := Next(s1, Resend(1));
    ThenStep(st, [RefreshArrived], s1, Resend(1));
    end := Next(s2, RevokeByLogout(t));
    ThenStep(st, [RefreshArrived] + [Resend(1)], s2, RevokeByLogout(t));
  }

  /** It is answered, and the tab clears its store. */
  lemma Clears(st: State, m: Id) returns (end: State)
    requires st.tab.requests == map[1 := Request(2, true, InFlight)] && Live(st, m)
    ensures Reaches(st, [Succeed(1)] + [LoggedOut], end) && end.calls == st.calls && Live(end, m)
    ensures end.tab.refresh == None && !end.tab.access && end.tab.requests == map[1 := Request(2, true, Settled)]
  {
    var mid := Next(st, Succeed(1));
    Steps(st, Succeed(1));
    end := Next(mid, LoggedOut);
    ThenStep(st, [Succeed(1)], mid, LoggedOut);
  }

  /** A tab that logs out when its access token has expired: the logout is answered, the tab holds no token any more,
      and its session has one that still refreshes. */
  lemma ExpiredLogoutOutlived(st: State, t: Id) returns (actions: seq<Action>, u: Id)
    requires Init(st) && st.active && st.tab.refresh == Some(t) && Live(st, t)
    ensures Run(st, actions) && OneTab(actions) && RevokeByLogout(t) in actions
    ensures var end := Final(st, actions);
      && end.tab.refresh == None && !end.tab.access && (forall r :: r in end.tab.requests ==>
            end.tab.requests[r].phase == Settled)
      && InLine(end, t, u) && Live(end, u)
  {
    u := UnusedId(st.rows.Keys);
    var posted := Posts(st, t);
    var mid := Refreshes(posted, t, u);
    var retried := Retries(mid, t, u);
    var end := Clears(retried, u);
    Joined(st, Expired(), posted, Refreshed(u), mid);
    Joined(st, Expired() + Refreshed(u), mid, Retried(t), retried);
    Joined(st, Expired() + Refreshed(u) + Retried(t), retried, [Succeed(1)] + [LoggedOut], end);
    actions := Expired() + Refreshed(u) + Retried(t) + ([Succeed(1)] + [LoggedOut]);
    assert Retried(t)[2] in actions;
    Self(end, t);
    MintedInLine(end, t, 1, u);
  }
}
