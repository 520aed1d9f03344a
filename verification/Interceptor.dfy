/** What the interceptor does to each request, and what a request that is sent again has behind it. */
module Interceptor {
  import opened Store
  import opened SingleFlight

  // ---- one step --------------------------------------------------------------------------

  /** The requests of the tab are what they were, but those that wait on the promise move on to `phase`. */
  ghost predicate WaitersMove(before: map<Id, Request>, after: map<Id, Request>, phase: ReqPhase) {
    && after.Keys == before.Keys
    && forall r :: r in before ==>
         after[r] == if before[r].phase == Waiting then before[r].(phase := phase) else before[r]
  }

  /** When the promise settles, every request that waits on it fails unless a refresh has arrived, and then it goes
      on; the tokens are replaced by the new pair, cleared, or absent as before. */
  lemma PromiseSettles(st: State, a: Action)
    requires Enabled(st, a) && (a == RefreshArrived || a == RefreshLost || a == NullResolved)
    ensures var after := Next(st, a);
      && WaitersMove(st.tab.requests, after.tab.requests, if a == RefreshArrived then Granted else Errored)
      && after.tab.promise == NoPromise && after.calls == st.calls && after.rows == st.rows
      && (a == RefreshArrived ==>
            && after.tab.access && st.tab.promise.call in st.calls
            && st.calls[st.tab.promise.call].phase.Answered?
            && after.tab.refresh == Some(st.calls[st.tab.promise.call].phase.minted))
      && (a == RefreshLost ==> !after.tab.access && after.tab.refresh == None)
      && (a == NullResolved ==> after.tab.access == st.tab.access && after.tab.refresh == st.tab.refresh)
  {
  }

  /** A 401: a request that has been tried again fails; any other waits, marked as tried, on the promise that there
      is, or on a new one, for which the stored token is posted if there is one. */
  lemma RejectionParks(st: State, rid: Id, cid: Id)
    requires Enabled(st, Unauthorized(rid, cid))
    ensures var r, after := st.tab.requests[rid], Next(st, Unauthorized(rid, cid));
      var starts := !r.retried && st.tab.promise == NoPromise;
      && after.tab.requests == st.tab.requests[rid :=
           if r.retried then r.(phase := Errored) else r.(retried := true, phase := Waiting)]
      && after.tab.access == st.tab.access && after.tab.refresh == st.tab.refresh && after.rows == st.rows
      && after.tab.promise == (if !starts then st.tab.promise
                               else if st.tab.refresh == None then Null else Awaiting(cid))
      && after.calls == (if starts && st.tab.refresh.Some? then st.calls[cid := Call(st.tab.refresh.value, Arrived)]
                         else st.calls)
  {
  }

  // ---- the two tokens go together --------------------------------------------------------

  /** The tab has an access token exactly when it has a refresh token, if it began so. */
  lemma {:induction false} TokensTogether(st: State, actions: seq<Action>)
    requires Run(st, actions) && (st.tab.access <==> st.tab.refresh.Some?)
    ensures Final(st, actions).tab.access <==> Final(st, actions).tab.refresh.Some?
    decreases |actions|
  {
    if actions != [] {
      TokensTogether(Next(st, actions[0]), actions[1..]);
    }
  }

  // ---- a request over a run --------------------------------------------------------------

  predicate InPhase(st: State, rid: Id, phase: ReqPhase) {
    rid in st.tab.requests && st.tab.requests[rid].phase == phase
  }

  lemma FailedStaysStep(st: State, a: Action, rid: Id)
    requires InPhase(st, rid, Errored) && Enabled(st, a)
    ensures a != Resend(rid) && InPhase(Next(st, a), rid, Errored)
    ensures Next(st, a).tab.requests[rid] == st.tab.requests[rid]
  {
  }

  /** A request that has failed stays failed and is never sent again. */
  lemma {:induction false} FailedStays(st: State, actions: seq<Action>, rid: Id)
    requires InPhase(st, rid, Errored) && Run(st, actions)
    ensures Resend(rid) !in actions && Final(st, actions).tab.requests.Keys >= {rid}
    ensures Final(st, actions).tab.requests[rid] == st.tab.requests[rid]
    decreases |actions|
  {
    if actions != [] {
      FailedStaysStep(st, actions[0], rid);
      FailedStays(Next(st, actions[0]), actions[1..], rid);
      assert actions == [actions[0]] + actions[1..];
    }
  }

  /** Of the requests that wait when a refresh is lost, or when there was no token to refresh with, none is ever sent
      again. */
  lemma LostRefreshFails(st: State, a: Action, actions: seq<Action>, rid: Id)
    requires InPhase(st, rid, Waiting) && Enabled(st, a) && (a == RefreshLost || a == NullResolved)
    requires Run(Next(st, a), actions)
    ensures Resend(rid) !in actions && InPhase(Final(Next(st, a), actions), rid, Errored)
  {
    PromiseSettles(st, a);
    FailedStays(Next(st, a), actions, rid);
  }

  lemma {:induction false} LastStep(st: State, actions: seq<Action>, a: Action)
    requires Run(st, actions + [a])
    ensures Run(st, actions) && Enabled(Final(st, actions), a)
    ensures Final(st, actions + [a]) == Next(Final(st, actions), a)
    decreases |actions|
  {
    if actions == [] {
      assert [] + [a] == [a] && [a][1..] == [];
    } else {
      assert (actions + [a])[1..] == actions[1..] + [a];
      LastStep(Next(st, actions[0]), actions[1..], a);
    }
  }

  predicate IsRejection(a: Action, rid: Id) {
    a.Unauthorized? && a.rid == rid
  }

  predicate Rejected(actions: seq<Action>, rid: Id) {
    exists i :: 0 <= i < |actions| && IsRejection(actions[i], rid)
  }

  /** After a 401 of the request a refresh has arrived. */
  predicate RefreshedSince(actions: seq<Action>, rid: Id) {
    exists j :: 0 <= j < |actions| && actions[j] == RefreshArrived && Rejected(actions[..j], rid)
  }

  lemma RejectedMore(actions: seq<Action>, a: Action, rid: Id)
    ensures Rejected(actions, rid) || IsRejection(a, rid) ==> Rejected(actions + [a], rid)
  {
    if i :| 0 <= i < |actions| && IsRejection(actions[i], rid) { assert IsRejection((actions + [a])[i], rid); }
    assert (actions + [a])[|actions|] == a;
  }

  lemma RefreshedMore(actions: seq<Action>, a: Action, rid: Id)
    ensures RefreshedSince(actions, rid) ==> RefreshedSince(actions + [a], rid)
    ensures a == RefreshArrived && Rejected(actions, rid) ==> RefreshedSince(actions + [a], rid)
  {
    var all := actions + [a];
    if j :| 0 <= j < |actions| && actions[j] == RefreshArrived && Rejected(actions[..j], rid) {
      assert all[..j] == actions[..j] && all[j] == RefreshArrived;
    }
    assert all[..|actions|] == actions && all[|actions|] == a;
  }

  /** Where the requests of one step come from. */
  lemma PhaseStep(st: State, a: Action, rid: Id)
    requires Enabled(st, a)
    ensures InPhase(Next(st, a), rid, Waiting) ==> InPhase(st, rid, Waiting) || IsRejection(a, rid)
    ensures InPhase(Next(st, a), rid, Granted) ==>
      InPhase(st, rid, Granted) || (a == RefreshArrived && InPhase(st, rid, Waiting))
    ensures rid in Next(st, a).tab.requests && Next(st, a).tab.requests[rid].sent > 1 ==>
      (rid in st.tab.requests && st.tab.requests[rid].sent > 1) || (a == Resend(rid) && InPhase(st, rid, Granted))
  {
  }

  /** In a run from the start, a request that waits has had a 401, and one that goes on has had a refresh arrive
      since; so has one that was sent more than once. */
  lemma {:induction false} SentAgainAfterRefresh(st: State, actions: seq<Action>, rid: Id)
    requires Init(st) && Run(st, actions)
    ensures var end := Final(st, actions);
      && (InPhase(end, rid, Waiting) ==> Rejected(actions, rid))
      && (InPhase(end, rid, Granted) ==> RefreshedSince(actions, rid))
      && (rid in end.tab.requests && end.tab.requests[rid].sent > 1 ==> RefreshedSince(actions, rid))
    decreases |actions|
  {
    if actions != [] {
      var n := |actions| - 1;
      assert actions == actions[..n] + [actions[n]];
      LastStep(st, actions[..n], actions[n]);
      SentAgainAfterRefresh(st, actions[..n], rid);
      PhaseStep(Final(st, actions[..n]), actions[n], rid);
      RejectedMore(actions[..n], actions[n], rid);
      RefreshedMore(actions[..n], actions[n], rid);
    }
  }

  /** Before a request is sent again it has had a 401 and then, before the second send, a refresh has arrived. */
  lemma ResentAfterRefresh(st: State, actions: seq<Action>, rid: Id)
    requires Init(st) && Run(st, actions) && Enabled(Final(st, actions), Resend(rid))
    ensures RefreshedSince(actions, rid)
  {
    SentAgainAfterRefresh(st, actions, rid);
  }
}
