/** The server's half of the refresh without the tab's: whoever presents tokens, and as often as they like.  It may pay
    a token out twice exactly when a call finds it live while another that has found it live is still to rotate it; and
    a session outlives a logout from all devices exactly when a call stands between that read and its answer. */
module ServerAlone {
  import opened Store
  import opened SingleFlight

  // ---- invariants of every run -----------------------------------------------------------

  function Answers(st: State, t: Id): set<Id> {
    set c | c in st.calls && st.calls[c].token == t && st.calls[c].phase.Answered?
  }

  /** Tokens presented are stored, one that was rotated is revoked, and a token has been paid out once per answered
      call. */
  ghost predicate Books(st: State) {
    && TokensStored(st)
    && (forall c :: c in st.calls && PastRotation(st.calls[c].phase) ==> !st.rows[st.calls[c].token].revoked.Unrevoked?)
    && (forall t :: CountOf(st.issued, t) == |Answers(st, t)|)
  }

  /** What no step takes back: a call stays a call of its token, and an answer stays. */
  ghost predicate CallsKept(st: State, after: State) {
    forall c :: c in st.calls ==> c in after.calls && after.calls[c].token == st.calls[c].token
  }

  lemma StepKeepsCalls(st: State, a: Action)
    requires Enabled(st, a)
    ensures CallsKept(st, Next(st, a))
    ensures !a.Answer? ==> Next(st, a).issued == st.issued
    ensures forall t :: !(a.Answer? && st.calls[a.cid].token == t) ==> Answers(Next(st, a), t) == Answers(st, t)
  {
  }

  lemma AnswerPays(st: State, cid: Id, minted: Id)
    requires Enabled(st, Answer(cid, minted))
    ensures var after := Next(st, Answer(cid, minted));
      var t := st.calls[cid].token;
      && |Answers(after, t)| == |Answers(st, t)| + 1
      && forall u :: CountOf(after.issued, u) == CountOf(st.issued, u) + if u == t then 1 else 0
  {
    var t := st.calls[cid].token;
    assert Answers(Next(st, Answer(cid, minted)), t) == Answers(st, t) + {cid};
  }

  /** A revoked row stays revoked, and no logout touches it again. */
  lemma RevokedStays(st: State, a: Action, t: Id)
    requires Enabled(st, a) && t in st.rows && !st.rows[t].revoked.Unrevoked?
    ensures t in Next(st, a).rows && !Next(st, a).rows[t].revoked.Unrevoked?
    ensures !a.Rotate? ==> Next(st, a).rows[t] == st.rows[t]
  {
  }

  lemma BooksStep(st: State, a: Action)
    requires Books(st) && Enabled(st, a)
    ensures Books(Next(st, a))
  {
    var after := Next(st, a);
    StoredStep(st, a);
    StepKeepsCalls(st, a);
    forall c | c in after.calls && PastRotation(after.calls[c].phase)
      ensures !after.rows[after.calls[c].token].revoked.Unrevoked?
    {
      if c in st.calls && PastRotation(st.calls[c].phase) {
        RevokedStays(st, a, st.calls[c].token);
      }
    }
    if a.Answer? { AnswerPays(st, a.cid, a.minted); }
  }

  lemma {:induction false} RunBooks(st: State, actions: seq<Action>)
    requires Books(st) && Run(st, actions)
    ensures Books(Final(st, actions))
    decreases |actions|
  {
    if actions != [] {
      BooksStep(st, actions[0]);
      RunBooks(Next(st, actions[0]), actions[1..]);
    }
  }

  lemma InitBooks(st: State)
    requires Init(st)
    ensures Books(st)
  {
    assert forall t :: Answers(st, t) == {};
  }

  // ---- one call at a time ----------------------------------------------------------------

  /** The call has found its token live, and has not revoked it yet. */
  predicate Between(p: CallPhase) {
    p.Found? || p.Verified?
  }

  predicate Passed(p: CallPhase) {
    Between(p) || PastRotation(p)
  }

  /** A call does not find its token live while another call of it stands between that read and the revocation. */
  predicate OneAtATime(st: State, a: Action)
    requires Enabled(st, a)
  {
    a.CheckToken? && Next(st, a).calls[a.cid].phase.Found? ==>
      forall d :: d in st.calls && d != a.cid && st.calls[d].token == st.calls[a.cid].token ==>
        !Between(st.calls[d].phase)
  }

  ghost predicate Serial(st: State, actions: seq<Action>)
    requires Run(st, actions)
    decreases |actions|
  {
    actions == [] || (OneAtATime(st, actions[0]) && Serial(Next(st, actions[0]), actions[1..]))
  }

  ghost predicate Both(st: State, c: Id, d: Id) {
    && c != d && c in st.calls && d in st.calls && st.calls[c].token == st.calls[d].token
    && Passed(st.calls[c].phase) && Passed(st.calls[d].phase)
  }

  /** Two calls of one token have found it live, and neither has been turned away. */
  ghost predicate TwoPassed(st: State) {
    exists c, d :: Both(st, c, d)
  }

  lemma PassedStays(st: State, a: Action, c: Id)
    requires Enabled(st, a) && a.CheckToken? && c in st.calls && Passed(st.calls[c].phase)
    ensures c in Next(st, a).calls && Next(st, a).calls[c] == st.calls[c]
  {
  }

  lemma OnlyChecksPass(st: State, a: Action, c: Id)
    requires Enabled(st, a) && c in Next(st, a).calls && Passed(Next(st, a).calls[c].phase)
    ensures c in st.calls && Next(st, a).calls[c].token == st.calls[c].token
    ensures Passed(st.calls[c].phase)
      || (a == CheckToken(c) && Live(st, st.calls[c].token) && Next(st, a).calls[c].phase.Found?)
  {
  }

  lemma SerialStep(st: State, a: Action)
    requires Books(st) && Enabled(st, a) && !TwoPassed(st)
    ensures TwoPassed(Next(st, a)) <==> !OneAtATime(st, a)
  {
    var after := Next(st, a);
    if !OneAtATime(st, a) {
      var d :| d in st.calls && d != a.cid && st.calls[d].token == st.calls[a.cid].token && Between(st.calls[d].phase);
      PassedStays(st, a, d);
      assert Both(after, a.cid, d);
    }
    if c, d :| Both(after, c, d) {
      OnlyChecksPass(st, a, c);
      OnlyChecksPass(st, a, d);
      if Passed(st.calls[c].phase) && Passed(st.calls[d].phase) {
        assert Both(st, c, d);
      } else if Passed(st.calls[d].phase) {
        PassesBeside(st, c, d);
      } else {
        PassesBeside(st, d, c);
      }
    }
  }

  /** A live token has no call past its rotation. */
  lemma PassesBeside(st: State, c: Id, d: Id)
    requires Books(st) && c in st.calls && Live(st, st.calls[c].token)
    requires d in st.calls && st.calls[d].token == st.calls[c].token && Passed(st.calls[d].phase)
    ensures Between(st.calls[d].phase)
  {
  }

  // ---- finishing the calls under way -----------------------------------------------------

  /** The server finishes what it has begun, whatever becomes of the account meanwhile. */
  predicate Finishing(actions: seq<Action>) {
    forall a :: a in actions ==> a.CheckUser? || a.Rotate? || a.Answer? || a.SetActive?
  }

  ghost predicate Reaches(st: State, actions: seq<Action>, end: State) {
    Run(st, actions) && Final(st, actions) == end
  }

  lemma Steps(st: State, a: Action)
    requires Enabled(st, a)
    ensures Reaches(st, [a], Next(st, a))
  {
    assert [a][1..] == [];
  }

  lemma {:induction false} Joined(st: State, actions: seq<Action>, mid: State, more: seq<Action>, end: State)
    requires Reaches(st, actions, mid) && Reaches(mid, more, end)
    ensures Reaches(st, actions + more, end)
    decreases |actions|
  {
    if actions == [] {
      assert actions + more == more;
    } else {
      Joined(Next(st, actions[0]), actions[1..], mid, more, end);
      assert (actions + more)[1..] == actions[1..] + more;
    }
  }

  lemma ThenStep(st: State, first: seq<Action>, mid: State, a: Action)
    requires Reaches(st, first, mid) && Enabled(mid, a)
    ensures Reaches(st, first + [a], Next(mid, a))
  {
    Steps(mid, a);
    Joined(st, first, mid, [a], Next(mid, a));
  }

  lemma {:induction false} UnusedId(ids: set<Id>) returns (n: Id)
    ensures n !in ids && forall i :: i in ids ==> i < n
    decreases ids
  {
    if ids == {} {
      n := 0;
    } else {
      var i :| i in ids;
      n := UnusedId(ids - {i});
      if n <= i { n := i + 1; }
      assert ids == ids - {i} + {i};
    }
  }

  predicate NewToken(st: State, t: Id) {
    t in st.rows && st.rows[t].revoked.Unrevoked?
  }

  lemma FinishAnswer(st: State, c: Id) returns (actions: seq<Action>, end: State)
    requires c in st.calls && st.calls[c].phase.Rotated?
    ensures Finishing(actions) && Reaches(st, actions, end)
    ensures c in end.calls && end.calls[c].phase.Answered? && end.calls == st.calls[c := end.calls[c]]
    ensures end.calls[c].token == st.calls[c].token
    ensures NewToken(end, end.calls[c].phase.minted)
  {
    var minted := UnusedId(st.rows.Keys);
    end := Next(st, Answer(c, minted));
    actions := [Answer(c, minted)];
    Steps(st, Answer(c, minted));
    assert end.rows[minted].revoked.Unrevoked?;
  }

  /** The call has found its token live and has not been answered. */
  predicate Standing(p: CallPhase) {
    Between(p) || p.Rotated?
  }

  lemma FinishRotation(st: State, c: Id) returns (actions: seq<Action>, end: State)
    requires TokensStored(st) && c in st.calls && st.calls[c].phase.Verified?
    ensures Finishing(actions) && Reaches(st, actions, end)
    ensures c in end.calls && end.calls[c].phase.Answered? && end.calls == st.calls[c := end.calls[c]]
    ensures end.calls[c].token == st.calls[c].token
    ensures NewToken(end, end.calls[c].phase.minted)
  {
    var mid := Next(st, Rotate(c));
    Steps(st, Rotate(c));
    actions, end := FinishAnswer(mid, c);
    Joined(st, [Rotate(c)], mid, actions, end);
    actions := [Rotate(c)] + actions;
  }

  lemma FinishCheck(st: State, c: Id) returns (actions: seq<Action>, end: State)
    requires c in st.calls && st.calls[c].phase.Found?
    ensures Finishing(actions) && Reaches(st, actions, end)
    ensures end.calls == st.calls[c := st.calls[c].(phase := Verified)]
    ensures end.rows == st.rows && end.logins == st.logins && end.tab == st.tab
  {
    var mid := Next(st, SetActive(true));
    Steps(st, SetActive(true));
    end := Next(mid, CheckUser(c));
    Steps(mid, CheckUser(c));
    Joined(st, [SetActive(true)], mid, [CheckUser(c)], end);
    actions := [SetActive(true)] + [CheckUser(c)];
  }

  /** A call that has found its token live can always be answered, with a new token. */
  lemma FinishCall(st: State, c: Id) returns (actions: seq<Action>, end: State)
    requires TokensStored(st) && c in st.calls && Standing(st.calls[c].phase)
    ensures Finishing(actions) && Reaches(st, actions, end)
    ensures c in end.calls && end.calls[c].phase.Answered? && end.calls == st.calls[c := end.calls[c]]
    ensures end.calls[c].token == st.calls[c].token
    ensures NewToken(end, end.calls[c].phase.minted)
  {
    match st.calls[c].phase {
      case Rotated => actions, end := FinishAnswer(st, c);
      case Verified => actions, end := FinishRotation(st, c);
      case Found =>
        var mid, more;
        actions, mid := FinishCheck(st, c);
        more, end := FinishRotation(mid, c);
        Joined(st, actions, mid, more, end);
        actions := actions + more;
    }
  }

  lemma FinishPassed(st: State, c: Id) returns (actions: seq<Action>, end: State)
    requires Books(st) && c in st.calls && Passed(st.calls[c].phase)
    ensures Finishing(actions) && Reaches(st, actions, end) && Books(end)
    ensures c in end.calls && end.calls[c].phase.Answered? && end.calls == st.calls[c := end.calls[c]]
    ensures end.calls[c].token == st.calls[c].token
  {
    if st.calls[c].phase.Answered? {
      actions, end := [], st;
    } else {
      actions, end := FinishCall(st, c);
    }
    RunBooks(st, actions);
  }

  lemma TwoElements(s: set<Id>, c: Id, d: Id)
    requires c in s && d in s && c != d
    ensures |s| >= 2
  {
    assert |s - {c, d}| == |s| - 2;
  }

  /** Once two calls of a token have passed, the server need only finish them to pay that token out twice. */
  lemma TwoPassedPayTwice(st: State) returns (actions: seq<Action>, t: Id)
    requires Books(st) && TwoPassed(st)
    ensures Finishing(actions) && Run(st, actions) && CountOf(Final(st, actions).issued, t) >= 2
  {
    var c, d :| Both(st, c, d);
    t := st.calls[c].token;
    var mid, end, more;
    actions, mid := FinishPassed(st, c);
    more, end := FinishPassed(mid, d);
    Joined(st, actions, mid, more, end);
    actions := actions + more;
    TwoElements(Answers(end, t), c, d);
  }

  lemma OnePassedPaysOnce(st: State, t: Id)
    requires Books(st) && !TwoPassed(st)
    ensures CountOf(st.issued, t) <= 1
  {
    var s := Answers(st, t);
    if c: Id :| c in s {
      assert forall d :: d in s && d != c ==> Both(st, c, d);
      assert s == {c};
    } else {
      assert s == {};
    }
  }

  lemma {:induction false} FinishingPassesNone(st: State, actions: seq<Action>)
    requires Books(st) && !TwoPassed(st) && Run(st, actions) && Finishing(actions)
    ensures !TwoPassed(Final(st, actions))
    decreases |actions|
  {
    if actions != [] {
      assert actions[0] in actions;
      SerialStep(st, actions[0]);
      BooksStep(st, actions[0]);
      FinishingPassesNone(Next(st, actions[0]), actions[1..]);
    }
  }

  // ---- theorems --------------------------------------------------------------------------

  /** However the calls under way are finished, no token is paid out twice. */
  ghost predicate PaysOnce(st: State) {
    forall more: seq<Action>, t: Id :: Finishing(more) && Run(st, more) ==> CountOf(Final(st, more).issued, t) <= 1
  }

  lemma PaysOnceMeans(st: State)
    requires Books(st)
    ensures PaysOnce(st) <==> !TwoPassed(st)
  {
    if TwoPassed(st) {
      var more, t := TwoPassedPayTwice(st);
      assert !PaysOnce(st);
    } else {
      forall more: seq<Action>, t: Id | Finishing(more) && Run(st, more)
        ensures CountOf(Final(st, more).issued, t) <= 1
      {
        FinishingPassesNone(st, more);
        RunBooks(st, more);
        OnePassedPaysOnce(Final(st, more), t);
      }
    }
  }

  /** So it is in every state of the run. */
  ghost predicate PaysOnceThroughout(st: State, actions: seq<Action>)
    requires Run(st, actions)
    decreases |actions|
  {
    PaysOnce(st) && (actions == [] || PaysOnceThroughout(Next(st, actions[0]), actions[1..]))
  }

  lemma {:induction false} SerialMeans(st: State, actions: seq<Action>)
    requires Books(st) && Run(st, actions) && !TwoPassed(st)
    ensures Serial(st, actions) <==> PaysOnceThroughout(st, actions)
    decreases |actions|
  {
    PaysOnceMeans(st);
    if actions != [] {
      var after := Next(st, actions[0]);
      SerialStep(st, actions[0]);
      BooksStep(st, actions[0]);
      if TwoPassed(after) {
        PaysOnceMeans(after);
      } else {
        SerialMeans(after, actions[1..]);
      }
    }
  }

  /** Whoever presents tokens: at no point of the run can the server be brought to pay a token out twice, exactly when
      no call found its token live while another call of it stood between that read and the revocation. */
  lemma SerialExactly(st: State, actions: seq<Action>)
    requires Init(st) && Run(st, actions)
    ensures Serial(st, actions) <==> PaysOnceThroughout(st, actions)
  {
    InitBooks(st);
    SerialMeans(st, actions);
  }

  /** Two clients with one token: a user logs in, both present the token, both calls find it live before either
      rotates. */
  function TwoClients(t: Id): seq<Action> {
    [LogIn(t), Present(1, t), Present(2, t), CheckToken(1), CheckToken(2)]
  }

  lemma TwoClientsPass(st: State, t: Id)
    requires Init(st) && st.active && t !in st.rows
    ensures Run(st, TwoClients(t)) && TwoPassed(Final(st, TwoClients(t)))
  {
    var s1 := Next(st, LogIn(t));
    var s2 := Next(s1, Present(1, t));
    var s3 := Next(s2, Present(2, t));
    var s4 := Next(s3, CheckToken(1));
    var s5 := Next(s4, CheckToken(2));
    assert Both(s5, 1, 2);
    Steps(st, LogIn(t));
    ThenStep(st, [LogIn(t)], s1, Present(1, t));
    ThenStep(st, [LogIn(t)] + [Present(1, t)], s2, Present(2, t));
    ThenStep(st, [LogIn(t)] + [Present(1, t)] + [Present(2, t)], s3, CheckToken(1));
    ThenStep(st, [LogIn(t)] + [Present(1, t)] + [Present(2, t)] + [CheckToken(1)], s4, CheckToken(2));
    assert TwoClients(t) == [LogIn(t)] + [Present(1, t)] + [Present(2, t)] + [CheckToken(1)] + [CheckToken(2)];
  }

  /** Without the shared promise the server's half is not enough: from any start, two clients get two pairs for one
      token. */
  lemma TwoClientsRedeemTwice(st: State, t: Id) returns (actions: seq<Action>)
    requires Init(st) && st.active && t !in st.rows
    ensures Run(st, actions) && exists u :: CountOf(Final(st, actions).issued, u) >= 2
  {
    TwoClientsPass(st, t);
    InitBooks(st);
    RunBooks(st, TwoClients(t));
    var mid := Final(st, TwoClients(t));
    var more, u := TwoPassedPayTwice(mid);
    Joined(st, TwoClients(t), mid, more, Final(mid, more));
    actions := TwoClients(t) + more;
  }

  // ---- a logout from all devices ---------------------------------------------------------

  ghost predicate SessionLeft(st: State) {
    exists t :: t in st.rows && st.rows[t].revoked.Unrevoked?
  }

  predicate NoLogin(actions: seq<Action>) {
    forall a :: a in actions ==> !a.LogIn?
  }

  ghost predicate Settled(st: State) {
    !SessionLeft(st) && forall c :: c in st.calls ==> !Standing(st.calls[c].phase)
  }

  lemma SettledStep(st: State, a: Action)
    requires TokensStored(st) && Settled(st) && Enabled(st, a) && !a.LogIn?
    ensures Settled(Next(st, a))
  {
    var after := Next(st, a);
    forall t | t in after.rows ensures !after.rows[t].revoked.Unrevoked? {
      assert t in st.rows;
    }
  }

  lemma {:induction false} SettledRun(st: State, actions: seq<Action>)
    requires TokensStored(st) && Settled(st) && Run(st, actions) && NoLogin(actions)
    ensures Settled(Final(st, actions))
    decreases |actions|
  {
    if actions != [] {
      assert actions[0] in actions;
      SettledStep(st, actions[0]);
      StoredStep(st, actions[0]);
      SettledRun(Next(st, actions[0]), actions[1..]);
    }
  }

  /** Something that may follow, other than a new login, leaves a token that is not revoked. */
  ghost predicate MaySurvive(st: State) {
    exists more: seq<Action> :: NoLogin(more) && Run(st, more) && SessionLeft(Final(st, more))
  }

  /** A logout from all devices ends every session for good, unless at that moment a refresh stands between the read
      of its row and its answer: that one still hands out a live token. */
  lemma LogoutAllExactly(st: State, actions: seq<Action>)
    requires Init(st) && Run(st, actions)
    ensures var end := Final(st, actions);
      MaySurvive(Next(end, RevokeAll)) <==> exists c :: c in end.calls && Standing(end.calls[c].phase)
  {
    InitBooks(st);
    RunBooks(st, actions);
    var end := Final(st, actions);
    var after := Next(end, RevokeAll);
    StoredStep(end, RevokeAll);
    assert !SessionLeft(after) && after.calls == end.calls;
    if c :| c in end.calls && Standing(end.calls[c].phase) {
      var more, last := FinishCall(after, c);
      assert NoLogin(more) && SessionLeft(Final(after, more));
    } else {
      forall more: seq<Action> | NoLogin(more) && Run(after, more) ensures !SessionLeft(Final(after, more)) {
        SettledRun(after, more);
      }
    }
  }
}
