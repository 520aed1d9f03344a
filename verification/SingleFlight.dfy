/** Token refresh as two halves that only work together: the browser's interceptor, which keeps one refresh in
    flight, and the server's `refresh`, whose check and revocation are separate steps. */
module SingleFlight {
  import opened Store

  // ---- state -----------------------------------------------------------------------------

  /** What revoked a token during the run; a revocation from before it is recorded as `ByLogout`. */
  datatype Revocation = Unrevoked | ByRefresh | ByLogout

  datatype Row = Row(revoked: Revocation, expiresAt: nat)

  /** Where the server stands with one call of `refresh`: it reads the token's row (`Found`) and the user (`Verified`),
      revokes the token (`Rotated`) and stores a new one. */
  datatype CallPhase = Arrived | Found | Verified | Rotated | Answered(minted: Id) | Denied

  datatype Call = Call(token: Id, phase: CallPhase)

  /** A request of the app: `Settled` by any answer but a 401, `Errored` by a 401 that stands.  `Waiting` is
      parked on the shared promise, `Granted` has been handed a new access token. */
  datatype ReqPhase = InFlight | Waiting | Granted | Settled | Errored

  datatype Request = Request(sent: nat, retried: bool, phase: ReqPhase)

  /** The shared promise: none, one that resolves to null because there was no token, or one awaiting a call. */
  datatype Promise = NoPromise | Null | Awaiting(call: Id)

  datatype Tab = Tab(access: bool, refresh: Option<Id>, promise: Promise, requests: map<Id, Request>)

  /** `issued` counts the pairs handed out for a token; `logins` are login answers on their way to the tab. */
  datatype State = State(
    now: nat, ttl: nat, active: bool,
    rows: map<Id, Row>,
    calls: map<Id, Call>,
    issued: map<Id, nat>,
    logins: set<Id>,
    tab: Tab)

  /** `Present` is a call from elsewhere: another tab, or the restore of a session. */
  datatype Action =
    | Send(rid: Id)
    | Succeed(rid: Id)
    | Unauthorized(rid: Id, cid: Id)
    | Resend(rid: Id)
    | NullResolved
    | RefreshArrived
    | RefreshLost
    | LogIn(token: Id)
    | LoginArrived(token: Id)
    | LoggedOut
    | Present(cid: Id, token: Id)
    | CheckToken(cid: Id)
    | CheckUser(cid: Id)
    | Rotate(cid: Id)
    | Answer(cid: Id, minted: Id)
    | RevokeByLogout(token: Id)
    | RevokeAll
    | SetActive(active: bool)
    | Tick

  function CountOf(issued: map<Id, nat>, t: Id): nat {
    if t in issued then issued[t] else 0
  }

  predicate Live(st: State, t: Id) {
    t in st.rows && st.rows[t].revoked.Unrevoked? && st.now <= st.rows[t].expiresAt
  }

  // ---- the tab ---------------------------------------------------------------------------

  /** A 401 on a request that was retried before is an error; otherwise it joins the promise, starting one if there is
      none.  `cid` names the call that would be made. */
  function OnUnauthorized(tab: Tab, rid: Id, cid: Id): (Tab, Option<Id>)
    requires rid in tab.requests
  {
    var r := tab.requests[rid];
    if r.retried then (tab.(requests := tab.requests[rid := r.(phase := Errored)]), None)
    else
      var parked := tab.(requests := tab.requests[rid := r.(retried := true, phase := Waiting)]);
      if tab.promise != NoPromise then (parked, None)
      else if tab.refresh.None? then (parked.(promise := Null), None)
      else (parked.(promise := Awaiting(cid)), tab.refresh)
  }

  function Woken(r: Request, ok: bool): Request {
    if r.phase.Waiting? then r.(phase := if ok then Granted else Errored) else r
  }

  /** The promise settles: everything parked on it goes on with the new token, or fails without one. */
  function Settle(tab: Tab, ok: bool): Tab {
    tab.(promise := NoPromise, requests := map r | r in tab.requests :: Woken(tab.requests[r], ok))
  }

  function OnRefreshed(tab: Tab, minted: Id): Tab {
    Settle(tab.(access := true, refresh := Some(minted)), true)
  }

  function Clear(tab: Tab): Tab {
    tab.(access := false, refresh := None)
  }

  /** The interceptor and the token store of one tab, as the two halves before and after the awaited call. */
  class ApiClient {
    var accessToken: bool
    var refreshToken: Option<Id>
    var refreshPromise: Promise
    var requests: map<Id, Request>

    ghost function View(): Tab
      reads this
    {
      Tab(accessToken, refreshToken, refreshPromise, requests)
    }

    /** The interceptor meets a 401; the result is the token to post to the server, if any. */
    method Rejected(rid: Id, cid: Id) returns (post: Option<Id>)
      requires rid in requests
      modifies this
      ensures (View(), post) == OnUnauthorized(old(View()), rid, cid)
    {
      post := None;
      if requests[rid].retried {
        requests := requests[rid := requests[rid].(phase := Errored)];
        return;
      }
      requests := requests[rid := requests[rid].(retried := true)];
      if refreshPromise == NoPromise {
        post := refreshToken;
        refreshPromise := if post.Some? then Awaiting(cid) else Null;
      }
      requests := requests[rid := requests[rid].(phase := Waiting)];
      assert requests == old(requests)[rid := old(requests)[rid].(retried := true, phase := Waiting)];
    }

    /** The awaited call has answered with a new pair, or with none. */
    method Answered(minted: Option<Id>)
      modifies this
      ensures View() == if minted.Some? then OnRefreshed(old(View()), minted.value)
        else Settle(Clear(old(View())), false)
      ensures accessToken == minted.Some? && refreshToken == minted && refreshPromise == NoPromise
      ensures requests.Keys == old(requests.Keys)
      ensures forall r :: r in requests ==>
        requests[r] == (if old(requests)[r].phase == Waiting
                        then old(requests)[r].(phase := if minted.Some? then Granted else Errored)
                        else old(requests)[r])
    {
      accessToken, refreshToken := minted.Some?, minted;
      refreshPromise := NoPromise;
      var parked := requests;
      var todo := requests.Keys;
      while todo != {}
        invariant accessToken == minted.Some? && refreshToken == minted && refreshPromise == NoPromise
        invariant todo <= parked.Keys && requests.Keys == parked.Keys
        invariant forall r :: r in parked && r in todo ==> requests[r] == parked[r]
        invariant forall r :: r in parked && r !in todo ==> requests[r] == Woken(parked[r], minted.Some?)
        decreases |todo|
      {
        var r :| r in todo;
        requests := requests[r := Woken(requests[r], minted.Some?)];
        todo := todo - {r};
      }
      assert requests == Settle(old(View()), minted.Some?).requests;
    }
  }

  // ---- steps -----------------------------------------------------------------------------

  predicate Enabled(st: State, a: Action) {
    match a
    case Send(rid) => rid !in st.tab.requests
    case Succeed(rid) => rid in st.tab.requests && st.tab.requests[rid].phase.InFlight?
    case Unauthorized(rid, cid) => rid in st.tab.requests && st.tab.requests[rid].phase.InFlight? && cid !in st.calls
    case Resend(rid) => rid in st.tab.requests && st.tab.requests[rid].phase.Granted?
    case NullResolved => st.tab.promise.Null?
    case RefreshArrived =>
      st.tab.promise.Awaiting? && st.tab.promise.call in st.calls && st.calls[st.tab.promise.call].phase.Answered?
    case RefreshLost => st.tab.promise.Awaiting?
    case LogIn(t) => t !in st.rows && st.active
    case LoginArrived(t) => t in st.logins
    case LoggedOut => true
    case Present(cid, t) => cid !in st.calls && t in st.rows
    case CheckToken(cid) => cid in st.calls && st.calls[cid].phase.Arrived?
    case CheckUser(cid) => cid in st.calls && st.calls[cid].phase.Found?
    case Rotate(cid) => cid in st.calls && st.calls[cid].phase.Verified? && st.calls[cid].token in st.rows
    case Answer(cid, minted) => cid in st.calls && st.calls[cid].phase.Rotated? && minted !in st.rows
    case RevokeByLogout(t) => t in st.rows
    case _ => true
  }

  function SetCall(st: State, cid: Id, phase: CallPhase): State
    requires cid in st.calls
  {
    st.(calls := st.calls[cid := st.calls[cid].(phase := phase)])
  }

  function LogoutRow(r: Row): Row {
    if r.revoked.Unrevoked? then r.(revoked := ByLogout) else r
  }

  function Next(st: State, a: Action): State
    requires Enabled(st, a)
  {
    match a
    case Send(rid) => st.(tab := st.tab.(requests := st.tab.requests[rid := Request(1, false, InFlight)]))
    case Succeed(rid) =>
      st.(tab := st.tab.(requests := st.tab.requests[rid := st.tab.requests[rid].(phase := Settled)]))
    case Unauthorized(rid, cid) =>
      var (tab, token) := OnUnauthorized(st.tab, rid, cid);
      st.(tab := tab, calls := if token.Some? then st.calls[cid := Call(token.value, Arrived)] else st.calls)
    case Resend(rid) =>
      var r := st.tab.requests[rid];
      st.(tab := st.tab.(requests := st.tab.requests[rid := r.(sent := r.sent + 1, phase := InFlight)]))
    case NullResolved => st.(tab := Settle(st.tab, false))
    case RefreshArrived => st.(tab := OnRefreshed(st.tab, st.calls[st.tab.promise.call].phase.minted))
    case RefreshLost => st.(tab := Settle(Clear(st.tab), false))
    case LogIn(t) => st.(rows := st.rows[t := Row(Unrevoked, st.now + st.ttl)], logins := st.logins + {t})
    case LoginArrived(t) => st.(logins := st.logins - {t}, tab := st.tab.(access := true, refresh := Some(t)))
    case LoggedOut => st.(tab := Clear(st.tab))
    case Present(cid, t) => st.(calls := st.calls[cid := Call(t, Arrived)])
    case CheckToken(cid) => SetCall(st, cid, if Live(st, st.calls[cid].token) then Found else Denied)
    case CheckUser(cid) => SetCall(st, cid, if st.active then Verified else Denied)
    case Rotate(cid) =>
      var t := st.calls[cid].token;
      SetCall(st, cid, Rotated).(rows := st.rows[t := st.rows[t].(revoked := ByRefresh)])
    case Answer(cid, minted) =>
      var t := st.calls[cid].token;
      SetCall(st, cid, Answered(minted)).(rows := st.rows[minted := Row(Unrevoked, st.now + st.ttl)],
                                         issued := st.issued[t := CountOf(st.issued, t) + 1])
    case RevokeByLogout(t) => st.(rows := st.rows[t := LogoutRow(st.rows[t])])
    case RevokeAll => st.(rows := map t | t in st.rows :: LogoutRow(st.rows[t]))
    case SetActive(active) => st.(active := active)
    case Tick => st.(now := st.now + 1)
  }

  ghost predicate Run(st: State, actions: seq<Action>)
    decreases |actions|
  {
    actions == [] || (Enabled(st, actions[0]) && Run(Next(st, actions[0]), actions[1..]))
  }

  ghost function Final(st: State, actions: seq<Action>): State
    requires Run(st, actions)
    decreases |actions|
  {
    if actions == [] then st else Final(Next(st, actions[0]), actions[1..])
  }

  /** Nobody but the tab presents a token: no other tab and no session restore. */
  predicate OneTab(actions: seq<Action>) {
    forall a :: a in actions ==> !a.Present?
  }

  /** The tab has been restored: it holds no token, or one that is not revoked. */
  ghost predicate Init(st: State) {
    && st.calls == map[] && st.issued == map[] && st.logins == {}
    && st.tab.promise == NoPromise && st.tab.requests == map[]
    && (forall t :: t in st.rows ==> !st.rows[t].revoked.ByRefresh?)
    && (st.tab.refresh.Some? ==> st.tab.refresh.value in st.rows && st.rows[st.tab.refresh.value].revoked.Unrevoked?)
  }

  // ---- invariants ------------------------------------------------------------------------

  ghost predicate Unspent(st: State, t: Id) {
    t !in st.logins && forall c :: c in st.calls ==> st.calls[c].token != t
  }

  /** A token is presented by one call only, and by none while it is still on its way to the tab or waiting in it. */
  ghost predicate OnePresentation(st: State) {
    && (forall c, d :: c in st.calls && d in st.calls && st.calls[c].token == st.calls[d].token ==> c == d)
    && (forall c :: c in st.calls && st.tab.refresh == Some(st.calls[c].token) ==> st.tab.promise == Awaiting(c))
    && (forall c :: c in st.calls ==> st.calls[c].token !in st.logins)
    && (st.tab.promise.Awaiting? ==> st.tab.promise.call in st.calls)
    && (st.tab.promise.Awaiting? && st.calls[st.tab.promise.call].phase.Answered? ==>
          Unspent(st, st.calls[st.tab.promise.call].phase.minted))
    && (st.tab.refresh.Some? ==> st.tab.refresh.value !in st.logins)
  }

  ghost predicate TokensStored(st: State) {
    && (forall c :: c in st.calls ==> st.calls[c].token in st.rows)
    && (forall c :: c in st.calls && st.calls[c].phase.Answered? ==> st.calls[c].phase.minted in st.rows)
    && st.logins <= st.rows.Keys
    && (st.tab.refresh.Some? ==> st.tab.refresh.value in st.rows)
  }

  predicate PastRotation(p: CallPhase) {
    p.Rotated? || p.Answered?
  }

  /** A refresh revokes no token but the one it was called with, and pays out once. */
  ghost predicate Accounted(st: State) {
    && (forall c :: c in st.calls && !PastRotation(st.calls[c].phase) && st.calls[c].token in st.rows ==>
          !st.rows[st.calls[c].token].revoked.ByRefresh?)
    && (forall t :: t in st.rows && st.rows[t].revoked.ByRefresh? ==>
          exists c :: c in st.calls && st.calls[c].token == t)
    && (forall t :: CountOf(st.issued, t) <= 1)
    && (forall t :: CountOf(st.issued, t) == 1 ==>
          exists c :: c in st.calls && st.calls[c].token == t && st.calls[c].phase.Answered?)
  }

  predicate SentAtMostTwice(r: Request) {
    && (!r.retried ==> r.sent == 1)
    && (r.phase.Waiting? || r.phase.Granted? ==> r.retried && r.sent == 1)
    && r.sent <= 2
  }

  ghost predicate Sound(st: State) {
    && OnePresentation(st) && TokensStored(st) && Accounted(st)
    && forall r :: r in st.tab.requests ==> SentAtMostTwice(st.tab.requests[r])
  }

  /** The steps of the tab; `Unauthorized` is the one that presents a token. */
  lemma TabPresentation(st: State, a: Action)
    requires OnePresentation(st) && TokensStored(st) && Enabled(st, a)
    requires a.Unauthorized? || a.Send? || a.Succeed? || a.Resend? || a.NullResolved? || a.RefreshLost?
      || a.RefreshArrived?
    ensures OnePresentation(Next(st, a))
  {
    if a.Unauthorized? {
      assert st.tab.promise.NoPromise? ==> forall c :: c in st.calls ==> st.tab.refresh != Some(st.calls[c].token);
    }
  }

  lemma LoginPresentation(st: State, a: Action)
    requires OnePresentation(st) && TokensStored(st) && Enabled(st, a)
    requires a.LogIn? || a.LoginArrived? || a.LoggedOut? || a.RevokeByLogout? || a.RevokeAll? || a.SetActive? || a.Tick?
    ensures OnePresentation(Next(st, a))
  {
    assert Next(st, a).calls == st.calls && Next(st, a).tab.promise == st.tab.promise;
  }

  lemma ServerPresentation(st: State, a: Action)
    requires OnePresentation(st) && TokensStored(st) && Enabled(st, a)
    requires a.CheckToken? || a.CheckUser? || a.Rotate? || a.Answer?
    ensures OnePresentation(Next(st, a))
  {
    ServerFrame(st, a);
    TokensPresented(st, Next(st, a));
    assert a.Answer? ==> Unspent(st, a.minted);
  }

  /** A step of the server touches neither the tab nor a call's token, and what a call answers it just made up. */
  lemma ServerFrame(st: State, a: Action)
    requires Enabled(st, a) && (a.CheckToken? || a.CheckUser? || a.Rotate? || a.Answer?)
    ensures var after := Next(st, a);
      && after.tab == st.tab && after.logins == st.logins && after.calls.Keys == st.calls.Keys
      && (forall c :: c in st.calls ==> after.calls[c].token == st.calls[c].token)
      && (forall c :: c in st.calls && after.calls[c].phase.Answered? ==>
            after.calls[c] == st.calls[c] || (a.Answer? && after.calls[c].phase.minted == a.minted))
  {
  }

  lemma TokensPresented(st: State, after: State)
    requires after.tab == st.tab && after.logins == st.logins && after.calls.Keys == st.calls.Keys
    requires forall c :: c in st.calls ==> after.calls[c].token == st.calls[c].token
    ensures forall t :: Unspent(st, t) ==> Unspent(after, t)
  {
  }

  lemma PresentationStep(st: State, a: Action)
    requires OnePresentation(st) && TokensStored(st) && Enabled(st, a) && !a.Present?
    ensures OnePresentation(Next(st, a))
  {
    match a
    case Unauthorized(_, _) => TabPresentation(st, a);
    case Send(_) => TabPresentation(st, a);
    case Succeed(_) => TabPresentation(st, a);
    case Resend(_) => TabPresentation(st, a);
    case NullResolved => TabPresentation(st, a);
    case RefreshLost => TabPresentation(st, a);
    case RefreshArrived => TabPresentation(st, a);
    case CheckToken(_) => ServerPresentation(st, a);
    case CheckUser(_) => ServerPresentation(st, a);
    case Rotate(_) => ServerPresentation(st, a);
    case Answer(_, _) => ServerPresentation(st, a);
    case _ => LoginPresentation(st, a);
  }

  lemma StoredStep(st: State, a: Action)
    requires TokensStored(st) && Enabled(st, a)
    ensures TokensStored(Next(st, a))
  {
  }

  /** Some call presents every token that a refresh has revoked, after a step of call `cid` as before. */
  lemma CallPresents(st: State, a: Action, cid: Id, t: Id)
    requires Accounted(st) && Enabled(st, a) && t in Next(st, a).rows && Next(st, a).rows[t].revoked.ByRefresh?
    requires a == CheckToken(cid) || a == CheckUser(cid) || a == Rotate(cid) || (a.Answer? && a.cid == cid)
    ensures exists c :: c in Next(st, a).calls && Next(st, a).calls[c].token == t
  {
    var after := Next(st, a);
    if t == st.calls[cid].token {
      assert after.calls[cid].token == t;
    } else {
      var c :| c in st.calls && st.calls[c].token == t;
      assert after.calls[c].token == t;
    }
  }

  /** What keeps `Accounted` over a step of call `cid` that pays nothing out. */
  lemma CallAccounted(st: State, a: Action, cid: Id)
    requires OnePresentation(st) && TokensStored(st) && Accounted(st) && Enabled(st, a)
    requires a == CheckToken(cid) || a == CheckUser(cid) || a == Rotate(cid)
    ensures Accounted(Next(st, a))
  {
    var after := Next(st, a);
    forall t | t in after.rows && after.rows[t].revoked.ByRefresh?
      ensures exists c :: c in after.calls && after.calls[c].token == t
    {
      CallPresents(st, a, cid, t);
    }
    forall t | CountOf(after.issued, t) == 1
      ensures exists c :: c in after.calls && after.calls[c].token == t && after.calls[c].phase.Answered?
    {
      var c :| c in st.calls && st.calls[c].token == t && st.calls[c].phase.Answered?;
      assert after.calls[c] == st.calls[c];
    }
  }

  /** The answer pays out a token that had not been paid out. */
  lemma AnswerAccounted(st: State, cid: Id, minted: Id)
    requires OnePresentation(st) && TokensStored(st) && Accounted(st) && Enabled(st, Answer(cid, minted))
    ensures Accounted(Next(st, Answer(cid, minted)))
  {
    var after := Next(st, Answer(cid, minted));
    forall t | t in after.rows && after.rows[t].revoked.ByRefresh?
      ensures exists c :: c in after.calls && after.calls[c].token == t
    {
      CallPresents(st, Answer(cid, minted), cid, t);
    }
    forall t | CountOf(after.issued, t) >= 1
      ensures CountOf(after.issued, t) == 1
      ensures exists c :: c in after.calls && after.calls[c].token == t && after.calls[c].phase.Answered?
    {
      assert CountOf(st.issued, t) == CountOf(after.issued, t) - if t == st.calls[cid].token then 1 else 0;
      if t == st.calls[cid].token {
        assert CountOf(st.issued, t) == 0;
        assert after.calls[cid].phase.Answered?;
      } else {
        var c :| c in st.calls && st.calls[c].token == t && st.calls[c].phase.Answered?;
        assert after.calls[c].phase.Answered?;
      }
    }
  }

  /** A step that pays nothing out and adds no revocation by a refresh keeps the books. */
  lemma KeptAccounted(st: State, after: State)
    requires OnePresentation(st) && TokensStored(st) && Accounted(st) && after.issued == st.issued
    requires forall c :: c in st.calls ==> c in after.calls && after.calls[c] == st.calls[c]
    requires forall t :: t in after.rows && after.rows[t].revoked.ByRefresh? ==>
      t in st.rows && st.rows[t].revoked.ByRefresh?
    requires forall c :: c in after.calls && c !in st.calls ==> Unspent(st, after.calls[c].token)
    ensures Accounted(after)
  {
    forall t | t in after.rows && after.rows[t].revoked.ByRefresh?
      ensures exists c :: c in after.calls && after.calls[c].token == t
    {
      var c :| c in st.calls && st.calls[c].token == t;
      assert after.calls[c].token == t;
    }
    forall t | CountOf(after.issued, t) == 1
      ensures exists c :: c in after.calls && after.calls[c].token == t && after.calls[c].phase.Answered?
    {
      var c :| c in st.calls && st.calls[c].token == t && st.calls[c].phase.Answered?;
      assert after.calls[c].phase.Answered?;
    }
  }

  lemma OtherAccounted(st: State, a: Action)
    requires OnePresentation(st) && TokensStored(st) && Accounted(st) && Enabled(st, a)
    requires !a.CheckToken? && !a.CheckUser? && !a.Rotate? && !a.Answer? && !a.Present?
    ensures Accounted(Next(st, a))
  {
    KeptAccounted(st, Next(st, a));
  }

  /** Requests are only touched by the interceptor and the client that sends them. */
  lemma SentStep(st: State, a: Action)
    requires Enabled(st, a) && forall r :: r in st.tab.requests ==> SentAtMostTwice(st.tab.requests[r])
    ensures forall r :: r in Next(st, a).tab.requests ==> SentAtMostTwice(Next(st, a).tab.requests[r])
  {
  }

  lemma SoundStep(st: State, a: Action)
    requires Sound(st) && Enabled(st, a) && !a.Present?
    ensures Sound(Next(st, a))
  {
    PresentationStep(st, a);
    StoredStep(st, a);
    SentStep(st, a);
    match a
    case CheckToken(cid) => CallAccounted(st, a, cid);
    case CheckUser(cid) => CallAccounted(st, a, cid);
    case Rotate(cid) => CallAccounted(st, a, cid);
    case Answer(cid, minted) => AnswerAccounted(st, cid, minted);
    case _ => OtherAccounted(st, a);
  }

  lemma {:induction false} RunSound(st: State, actions: seq<Action>)
    requires Sound(st) && Run(st, actions) && OneTab(actions)
    ensures Sound(Final(st, actions))
    decreases |actions|
  {
    if actions != [] {
      SoundStep(st, actions[0]);
      RunSound(Next(st, actions[0]), actions[1..]);
    }
  }

  // ---- theorems --------------------------------------------------------------------------

  /** However requests, answers, losses, logins and logouts interleave with the separate steps of the server, one
      tab never presents a refresh token twice and the server never pays out twice for one; and no request is sent
      more than twice. */
  lemma NeverRedeemedTwice(st: State, actions: seq<Action>)
    requires Init(st) && Run(st, actions) && OneTab(actions)
    ensures var end := Final(st, actions);
      && (forall c, d :: c in end.calls && d in end.calls && c != d ==> end.calls[c].token != end.calls[d].token)
      && (forall t :: CountOf(end.issued, t) <= 1)
      && (forall r :: r in end.tab.requests ==> end.tab.requests[r].sent <= 2)
  {
    RunSound(st, actions);
  }

  /** A 401 starts a call only when no other is awaited, and the call presents a token that no refresh has revoked. */
  lemma OneRefreshAtATime(st: State, actions: seq<Action>, rid: Id, cid: Id)
    requires Init(st) && Run(st, actions) && OneTab(actions) && Enabled(Final(st, actions), Unauthorized(rid, cid))
    requires cid in Next(Final(st, actions), Unauthorized(rid, cid)).calls
    ensures var end := Final(st, actions);
      && end.tab.promise.NoPromise? && end.tab.refresh.Some? && end.tab.refresh.value in end.rows
      && Next(end, Unauthorized(rid, cid)).calls[cid].token == end.tab.refresh.value
      && !end.rows[end.tab.refresh.value].revoked.ByRefresh?
      && forall c :: c in end.calls ==> end.calls[c].token != end.tab.refresh.value
  {
    RunSound(st, actions);
  }

  /** The server turns a call of the tab away only because the token has expired or was revoked by a logout, or because
      the account is not active: never because an earlier refresh had already spent it. */
  lemma RefusedForCause(st: State, actions: seq<Action>, a: Action, cid: Id)
    requires Init(st) && Run(st, actions) && OneTab(actions) && Enabled(Final(st, actions), a)
    requires a == CheckToken(cid) || a == CheckUser(cid)
    requires Next(Final(st, actions), a).calls[cid].phase.Denied?
    ensures var end := Final(st, actions);
      var t := end.calls[cid].token;
      && t in end.rows
      && (a.CheckToken? ==> end.now > end.rows[t].expiresAt || end.rows[t].revoked.ByLogout?)
      && (a.CheckUser? ==> !end.active)
  {
    RunSound(st, actions);
  }
}
