/** The sequential calls and the step relation are the same code: run without interference, the steps of one request,
    one cancel or one processor do to the stores what the call does. */
module Solo {
  import opened Store
  import opened Protocol
  import opened Calls

  function SnapshotOf(st: State): Snapshot {
    Snapshot(st.db, st.locks, st.queue)
  }

  function SeatSeq(event: Id, codes: seq<string>): (s: seq<Seat>)
    ensures |s| == |codes| && forall i :: 0 <= i < |s| ==> s[i] == Seat(event, codes[i])
  {
    seq(|codes|, i requires 0 <= i < |codes| => Seat(event, codes[i]))
  }

  lemma SeatSeqKeys(event: Id, codes: seq<string>)
    ensures SetOf(SeatSeq(event, codes)) == Keys(event, codes)
    ensures Distinct(codes) ==> Distinct(SeatSeq(event, codes))
  {
    var s := SeatSeq(event, codes);
    forall x | x in Keys(event, codes) ensures x in SetOf(s) {
      var i :| 0 <= i < |codes| && codes[i] == x.code;
      assert s[i] == x;
    }
  }

  /** Only request `rid` moves. */
  predicate OnlyRequest(rid: Id, st: State, a: Action, after: State) {
    (a.Submit? || a.Booker?) && a.rid == rid
  }

  ghost function ByRequest(rid: Id): Hypothesis {
    (st, a, after) => OnlyRequest(rid, st, a, after)
  }

  /** Only request `rid` moves, it deletes no lock, and its push does not fail. */
  ghost function Growing(rid: Id): Hypothesis {
    (st, a, after) =>
      OnlyRequest(rid, st, a, after) && st.locks.Keys <= after.locks.Keys && !(a.Booker? && a.rstep.FailPush?)
  }

  /** The state with request `rid` moved to `phase` and this lock map. */
  function Moved(st: State, rid: Id, phase: Phase, locks: Locks): State
    requires rid in st.requests
  {
    SetPhase(st, rid, phase).(locks := locks)
  }

  lemma MovedTwice(st: State, rid: Id, p: Phase, l: Locks, q: Phase, m: Locks)
    requires rid in st.requests
    ensures Moved(Moved(st, rid, p, l), rid, q, m) == Moved(st, rid, q, m)
  {
    var r := st.requests[rid];
    assert st.requests[rid := r.(phase := p)][rid := r.(phase := q)] == st.requests[rid := r.(phase := q)];
  }

  lemma SetNxIs(st: State, rid: Id)
    requires RequestEnabled(st, rid, SetNx)
    ensures var r := st.requests[rid];
      var n := r.phase.acquired;
      Leads(st, [Booker(rid, SetNx)], Growing(rid),
        if r.seats[n] in st.locks then SetPhase(st, rid, RollingBack(n))
        else Moved(st, rid, Locking(n + 1), st.locks[r.seats[n] := Lock(rid, st.now + st.cfg.ttl)]))
  {
    LeadsOne(st, Booker(rid, SetNx), Growing(rid));
  }

  function AfterLocks(st: State, rid: Id, i: nat, total: nat, locks: Locks): State
    requires rid in st.requests
  {
    Moved(st, rid, if i == total then Locking(i) else RollingBack(i), locks)
  }

  /** The request has locked the first `n` of these codes, on top of the locks that were there before it. */
  ghost predicate HasLocked(st: State, rid: Id, event: Id, codes: seq<string>, n: nat, before: Locks) {
    && rid in st.requests && n <= |codes|
    && st.requests[rid].seats == SeatSeq(event, codes) && st.requests[rid].phase == Locking(n)
    && Extends(st.locks, before, event, codes[..n], Lock(rid, st.now + st.cfg.ttl))
  }

  lemma SoloConflictStep(st: State, rid: Id, event: Id, codes: seq<string>, n: nat, before: Locks)
    requires HasLocked(st, rid, event, codes, n, before) && n < |codes| && Seat(event, codes[n]) in before
    ensures FirstConflict(before, event, codes, n) == n
    ensures Leads(st, [Booker(rid, SetNx)], Growing(rid), AfterLocks(st, rid, n, |codes|, st.locks))
  {
    SetNxIs(st, rid);
  }

  lemma LocksNext(locks: Locks, before: Locks, event: Id, codes: seq<string>, n: nat, mine: Lock)
    requires n < |codes| && Distinct(codes) && Extends(locks, before, event, codes[..n], mine)
    requires Seat(event, codes[n]) !in before
    ensures Seat(event, codes[n]) !in locks
    ensures FirstConflict(before, event, codes, n) == FirstConflict(before, event, codes, n + 1)
    ensures Extends(locks[Seat(event, codes[n]) := mine], before, event, codes[..n + 1], mine)
  {
    StillFree(locks, before, event, codes, n, mine);
    ExtendsNext(locks, before, event, codes, n, mine);
  }

  lemma SoloLockStep(st: State, rid: Id, event: Id, codes: seq<string>, n: nat, before: Locks) returns (next: State)
    requires HasLocked(st, rid, event, codes, n, before) && n < |codes| && Distinct(codes)
    requires Seat(event, codes[n]) !in before
    ensures FirstConflict(before, event, codes, n) == FirstConflict(before, event, codes, n + 1)
    ensures next == Moved(st, rid, Locking(n + 1), next.locks) && HasLocked(next, rid, event, codes, n + 1, before)
    ensures Leads(st, [Booker(rid, SetNx)], Growing(rid), next)
  {
    var mine := Lock(rid, st.now + st.cfg.ttl);
    LocksNext(st.locks, before, event, codes, n, mine);
    SetNxIs(st, rid);
    next := Moved(st, rid, Locking(n + 1), st.locks[Seat(event, codes[n]) := mine]);
    MovedHasLocked(st, rid, event, codes, n, before, next.locks);
  }

  lemma MovedHasLocked(st: State, rid: Id, event: Id, codes: seq<string>, n: nat, before: Locks, locks: Locks)
    requires HasLocked(st, rid, event, codes, n, before) && n < |codes|
    requires Extends(locks, before, event, codes[..n + 1], Lock(rid, st.now + st.cfg.ttl))
    ensures HasLocked(Moved(st, rid, Locking(n + 1), locks), rid, event, codes, n + 1, before)
  {
  }

  /** From `Locking(n)`, `SET NX` after `SET NX` up to the first conflict or to the last seat. */
  lemma {:induction false} SoloLocks(st: State, rid: Id, event: Id, codes: seq<string>, n: nat, before: Locks)
    returns (actions: seq<Action>, locks: Locks)
    requires HasLocked(st, rid, event, codes, n, before) && Distinct(codes)
    ensures var i := FirstConflict(before, event, codes, n);
      && Extends(locks, before, event, codes[..i], Lock(rid, st.now + st.cfg.ttl))
      && Leads(st, actions, Growing(rid), AfterLocks(st, rid, i, |codes|, locks))
    decreases |codes| - n
  {
    if n == |codes| {
      actions, locks := [], st.locks;
    } else if Seat(event, codes[n]) in before {
      actions, locks := [Booker(rid, SetNx)], st.locks;
      SoloConflictStep(st, rid, event, codes, n, before);
    } else {
      var next := SoloLockStep(st, rid, event, codes, n, before);
      var rest;
      rest, locks := SoloLocks(next, rid, event, codes, n + 1, before);
      actions := [Booker(rid, SetNx)] + rest;
      var i := FirstConflict(before, event, codes, n);
      MovedTwice(st, rid, Locking(n + 1), next.locks, if i == |codes| then Locking(i) else RollingBack(i), locks);
      LeadsThen(st, [Booker(rid, SetNx)], next, rest, AfterLocks(st, rid, i, |codes|, locks), Growing(rid));
    }
  }

  // ---- createBooking ---------------------------------------------------------------------

  /** `st` after request `rid` alone: its record, both stores, and the ids it used up. */
  function AfterRequest(st: State, rid: Id, r: Request, w: Snapshot, used: set<Id>): State {
    st.(db := w.db, locks := w.locks, queue := w.queue, requests := st.requests[rid := r], used := st.used + used)
  }

  /** The request's own ids are fresh and its codes are what `createBooking` works on: distinct, between 1 and 10. */
  predicate CanSubmit(st: State, codes: seq<string>, ids: Ids) {
    && ids.token !in st.requests && {ids.token, ids.booking, ids.job} !! st.used
    && ids.token != ids.booking && ids.token != ids.job && ids.booking != ids.job
    && 1 <= |codes| <= 10 && Distinct(codes)
  }

  function Asked(event: Id, codes: seq<string>, readAt: nat, phase: Phase): Request {
    Request(event, SeatSeq(event, codes), readAt, phase)
  }

  lemma SoloSubmit(st: State, event: Id, codes: seq<string>, ids: Ids)
    requires CanSubmit(st, codes, ids)
    ensures Leads(st, [Submit(ids.token, event, SeatSeq(event, codes))], Growing(ids.token),
      AfterRequest(st, ids.token, Asked(event, codes, 0, Submitted), SnapshotOf(st), {ids.token}))
  {
    SeatSeqKeys(event, codes);
    LeadsOne(st, Submit(ids.token, event, SeatSeq(event, codes)), Growing(ids.token));
  }

  lemma SoloReadEvent(st: State, rid: Id)
    requires rid in st.requests && st.requests[rid].phase == Submitted
    ensures Leads(st, [Booker(rid, ReadEvent)], Growing(rid),
      SetPhase(st, rid, if EventOpen(st.db, st.requests[rid].event) then EventFound else Rejected))
  {
    LeadsOne(st, Booker(rid, ReadEvent), Growing(rid));
  }

  lemma SoloReadSeats(st: State, rid: Id, event: Id, codes: seq<string>)
    requires rid in st.requests && st.requests[rid] == Asked(event, codes, 0, EventFound)
    ensures Leads(st, [Booker(rid, ReadSeats)], Growing(rid),
      if AllFree(st.db, event, codes) then st.(requests := st.requests[rid := Asked(event, codes, st.now, Locking(0))])
      else SetPhase(st, rid, Rejected))
  {
    SeatSeqKeys(event, codes);
    LeadsOne(st, Booker(rid, ReadSeats), Growing(rid));
    assert Bookable(st.db, st.requests[rid]) <==> AllFree(st.db, event, codes) by {
      if Bookable(st.db, st.requests[rid]) {
        forall c | c in codes ensures Seat(event, c) in st.db.seats && st.db.seats[Seat(event, c)] == Available {
          assert Seat(event, c) in SetOf(SeatSeq(event, codes));
        }
      }
    }
  }

  lemma AfterTwice(st: State, rid: Id, r: Request, w: Snapshot, u: set<Id>, q: Request, v: Snapshot, x: set<Id>)
    ensures AfterRequest(AfterRequest(st, rid, r, w, u), rid, q, v, x) == AfterRequest(st, rid, q, v, u + x)
  {
    assert st.requests[rid := r][rid := q] == st.requests[rid := q];
    assert (st.used + u) + x == st.used + (u + x);
  }

  /** One more step of the same request. */
  lemma ThenStep(st: State, rid: Id, actions: seq<Action>, h: Hypothesis, r: Request, w: Snapshot, u: set<Id>,
                 step: Action, q: Request, v: Snapshot, x: set<Id>)
    requires Leads(st, actions, h, AfterRequest(st, rid, r, w, u))
    requires Leads(AfterRequest(st, rid, r, w, u), [step], h,
      AfterRequest(AfterRequest(st, rid, r, w, u), rid, q, v, x))
    ensures Leads(st, actions + [step], h, AfterRequest(st, rid, q, v, u + x))
  {
    AfterTwice(st, rid, r, w, u, q, v, x);
    LeadsThen(st, actions, AfterRequest(st, rid, r, w, u), [step], AfterRequest(st, rid, q, v, u + x), h);
  }

  /** The request record after its two reads. */
  function ReadResult(st: State, event: Id, codes: seq<string>): Request {
    if EventOpen(st.db, event) && AllFree(st.db, event, codes) then Asked(event, codes, st.now, Locking(0))
    else Asked(event, codes, 0, Rejected)
  }

  lemma SoloReads(st: State, event: Id, codes: seq<string>, ids: Ids) returns (actions: seq<Action>)
    requires CanSubmit(st, codes, ids)
    ensures Leads(st, actions, Growing(ids.token),
      AfterRequest(st, ids.token, ReadResult(st, event, codes), SnapshotOf(st), {ids.token}))
  {
    var rid, w := ids.token, SnapshotOf(st);
    var h := Growing(rid);
    var r0 := Asked(event, codes, 0, Submitted);
    SoloSubmit(st, event, codes, ids);
    actions := [Submit(rid, event, SeatSeq(event, codes))];
    var s1 := AfterRequest(st, rid, r0, w, {rid});
    SoloReadEvent(s1, rid);
    var r1 := Asked(event, codes, 0, if EventOpen(st.db, event) then EventFound else Rejected);
    assert SetPhase(s1, rid, r1.phase) == AfterRequest(s1, rid, r1, w, {});
    ThenStep(st, rid, actions, h, r0, w, {rid}, Booker(rid, ReadEvent), r1, w, {});
    assert {rid} + {} == {rid};
    actions := actions + [Booker(rid, ReadEvent)];
    if EventOpen(st.db, event) {
      var s2 := AfterRequest(st, rid, r1, w, {rid});
      SoloReadSeats(s2, rid, event, codes);
      var r2 := ReadResult(st, event, codes);
      assert (if AllFree(s2.db, event, codes)
        then s2.(requests := s2.requests[rid := Asked(event, codes, s2.now, Locking(0))])
              else SetPhase(s2, rid, Rejected)) == AfterRequest(s2, rid, r2, w, {});
      ThenStep(st, rid, actions, h, r1, w, {rid}, Booker(rid, ReadSeats), r2, w, {});
      actions := actions + [Booker(rid, ReadSeats)];
    }
  }

  /** One step of a request whose record is `Asked(event, codes, ...)`, by the phase it is in. */
  lemma SoloStep(st: State, rid: Id, event: Id, codes: seq<string>, step: RequestStep, q: Phase, v: Snapshot,
                 x: set<Id>)
    requires RequestEnabled(st, rid, step)
    requires st.requests[rid] == Asked(event, codes, st.requests[rid].readAt, st.requests[rid].phase)
    requires RequestNext(st, rid, step) == AfterRequest(st, rid, Asked(event, codes, st.requests[rid].readAt, q), v, x)
    ensures Leads(st, [Booker(rid, step)], ByRequest(rid),
      AfterRequest(st, rid, Asked(event, codes, st.requests[rid].readAt, q), v, x))
    ensures st.locks.Keys <= v.locks.Keys && !step.FailPush? ==>
      Leads(st, [Booker(rid, step)], Growing(rid),
        AfterRequest(st, rid, Asked(event, codes, st.requests[rid].readAt, q), v, x))
  {
    LeadsOne(st, Booker(rid, step), ByRequest(rid));
    if st.locks.Keys <= v.locks.Keys && !step.FailPush? { LeadsOne(st, Booker(rid, step), Growing(rid)); }
  }

  lemma SoloCommit(st: State, event: Id, codes: seq<string>, ids: Ids)
    requires ids.token in st.requests && st.requests[ids.token] == Asked(event, codes, st.now, Locking(|codes|))
    requires ids.booking !in st.used && ids.job !in st.used && ids.booking != ids.job
    requires event in st.db.events && forall c :: c in codes ==> Seat(event, c) in st.db.seats
    ensures Leads(st, [Booker(ids.token, Commit(ids.booking, ids.job))], Growing(ids.token),
      AfterRequest(st, ids.token, Asked(event, codes, st.now, Written(ids.booking)),
        SnapshotOf(st).(db := InsertBooking(st.db, ids.booking, ids.job, NewBooking(event, codes, ids.token), st.now)),
        {ids.booking, ids.job}))
  {
    SeatSeqKeys(event, codes);
    SoloStep(st, ids.token, event, codes, Commit(ids.booking, ids.job), Written(ids.booking),
      SnapshotOf(st).(db := InsertBooking(st.db, ids.booking, ids.job, NewBooking(event, codes, ids.token), st.now)),
      {ids.booking, ids.job});
  }

  lemma SoloPush(st: State, rid: Id, event: Id, codes: seq<string>, bid: Id)
    requires rid in st.requests && st.requests[rid] == Asked(event, codes, st.now, Written(bid))
    ensures Leads(st, [Booker(rid, Push)], Growing(rid),
      AfterRequest(st, rid, Asked(event, codes, st.now, Succeeded(bid)), SnapshotOf(st).(queue := [bid] + st.queue),
        {}))
  {
    SoloStep(st, rid, event, codes, Push, Succeeded(bid), SnapshotOf(st).(queue := [bid] + st.queue), {});
  }

  /** Whichever way it fails, the request deletes the locks it set and is left with the locks from before. */
  lemma SoloUndo(st: State, rid: Id, event: Id, codes: seq<string>, before: Locks, n: nat)
    requires rid in st.requests && n <= |codes|
    requires st.requests[rid] == Asked(event, codes, st.now, RollingBack(n))
      || (n == |codes| && st.requests[rid] == Asked(event, codes, st.now, Releasing))
    requires Extends(st.locks, before, event, codes[..n], Lock(rid, st.now + st.cfg.ttl))
    ensures Leads(st, [Booker(rid, if st.requests[rid].phase.Releasing? then Release else RollBack)], ByRequest(rid),
      AfterRequest(st, rid, Asked(event, codes, st.now, Rejected), SnapshotOf(st).(locks := before), {}))
  {
    ExtendsMeans(st.locks, before, event, codes[..n], Lock(rid, st.now + st.cfg.ttl));
    SeatSeqKeys(event, codes[..n]);
    assert codes[..|codes|] == codes;
    assert SeatSeq(event, codes)[..n] == SeatSeq(event, codes[..n]);
    SoloStep(st, rid, event, codes, if st.requests[rid].phase.Releasing? then Release else RollBack, Rejected,
      SnapshotOf(st).(locks := before), {});
  }

  lemma SoloFailTransaction(st: State, rid: Id, event: Id, codes: seq<string>)
    requires rid in st.requests && st.requests[rid] == Asked(event, codes, st.now, Locking(|codes|))
    ensures Leads(st, [Booker(rid, FailTransaction)], ByRequest(rid),
      AfterRequest(st, rid, Asked(event, codes, st.now, Releasing), SnapshotOf(st), {}))
  {
    SoloStep(st, rid, event, codes, FailTransaction, Releasing, SnapshotOf(st), {});
  }

  lemma SoloFailPush(st: State, rid: Id, event: Id, codes: seq<string>, bid: Id)
    requires rid in st.requests && st.requests[rid] == Asked(event, codes, st.now, Written(bid))
    ensures Leads(st, [Booker(rid, FailPush)], ByRequest(rid),
      AfterRequest(st, rid, Asked(event, codes, st.now, Releasing), SnapshotOf(st), {}))
  {
    SoloStep(st, rid, event, codes, FailPush, Releasing, SnapshotOf(st), {});
  }

  lemma ReadThenLocked(st: State, rid: Id, r: Request, phase: Phase, locks: Locks)
    ensures Moved(AfterRequest(st, rid, r, SnapshotOf(st), {rid}), rid, phase, locks)
         == AfterRequest(st, rid, r.(phase := phase), SnapshotOf(st).(locks := locks), {rid})
  {
  }

  /** The request has read its seats and runs `SET NX` up to its first conflict, or through. */
  lemma SoloToLocks(st: State, event: Id, codes: seq<string>, ids: Ids) returns (actions: seq<Action>, locks: Locks)
    requires CanSubmit(st, codes, ids) && EventOpen(st.db, event) && AllFree(st.db, event, codes)
    ensures var i := FirstConflict(st.locks, event, codes, 0);
      && Extends(locks, st.locks, event, codes[..i], Lock(ids.token, st.now + st.cfg.ttl))
      && Leads(st, actions, Growing(ids.token),
           AfterRequest(st, ids.token, Asked(event, codes, st.now, if i == |codes| then Locking(i) else RollingBack(i)),
                        SnapshotOf(st).(locks := locks), {ids.token}))
  {
    var rid := ids.token;
    var first := SoloReads(st, event, codes, ids);
    var mid := AfterRequest(st, rid, ReadResult(st, event, codes), SnapshotOf(st), {rid});
    var more;
    more, locks := SoloLocks(mid, rid, event, codes, 0, st.locks);
    actions := first + more;
    var i := FirstConflict(st.locks, event, codes, 0);
    var r := Asked(event, codes, st.now, if i == |codes| then Locking(i) else RollingBack(i));
    ReadThenLocked(st, rid, ReadResult(st, event, codes), if i == |codes| then Locking(i) else RollingBack(i), locks);
    LeadsThen(st, first, mid, more, AfterRequest(st, rid, r, SnapshotOf(st).(locks := locks), {rid}), Growing(rid));
  }

  /** The stores just after the booking transaction. */
  function Persisted(st: State, event: Id, codes: seq<string>, ids: Ids): Snapshot {
    Snapshot(InsertBooking(st.db, ids.booking, ids.job, NewBooking(event, codes, ids.token), st.now),
             Locked(st.locks, Keys(event, codes), Lock(ids.token, st.now + st.cfg.ttl)), st.queue)
  }

  lemma PersistedIs(st: State, event: Id, codes: seq<string>, ids: Ids, locks: Locks)
    requires Extends(locks, st.locks, event, codes[..|codes|], Lock(ids.token, st.now + st.cfg.ttl))
    ensures Snapshot(InsertBooking(st.db, ids.booking, ids.job, NewBooking(event, codes, ids.token), st.now), locks,
      st.queue)
         == Persisted(st, event, codes, ids)
  {
    assert codes[..|codes|] == codes;
    ExtendsMeans(locks, st.locks, event, codes, Lock(ids.token, st.now + st.cfg.ttl));
  }

  lemma ReserveIs(st: State, event: Id, codes: seq<string>, ids: Ids)
    requires FirstConflict(st.locks, event, codes, 0) == |codes|
    ensures Reserve(SnapshotOf(st), st.now, st.cfg.ttl, event, codes, ids, NoTrouble)
         == (Persisted(st, event, codes, ids).(queue := [ids.booking] + st.queue), Created(ids.booking))
  {
  }

  lemma SoloPersists(st: State, event: Id, codes: seq<string>, ids: Ids) returns (actions: seq<Action>)
    requires CanSubmit(st, codes, ids) && EventOpen(st.db, event) && AllFree(st.db, event, codes)
    requires FirstConflict(st.locks, event, codes, 0) == |codes|
    ensures Leads(st, actions, Growing(ids.token),
      AfterRequest(st, ids.token, Asked(event, codes, st.now, Written(ids.booking)), Persisted(st, event, codes, ids),
                   {ids.token} + {ids.booking, ids.job}))
  {
    var rid, w := ids.token, SnapshotOf(st);
    var locks;
    actions, locks := SoloToLocks(st, event, codes, ids);
    PersistedIs(st, event, codes, ids, locks);
    var r := Asked(event, codes, st.now, Locking(|codes|));
    actions := ThenCommit(st, event, codes, ids, actions, r, w.(locks := locks));
  }

  /** Appends the transaction to a run that has taken all its locks. */
  lemma ThenCommit(st: State, event: Id, codes: seq<string>, ids: Ids, first: seq<Action>, r: Request, w: Snapshot)
    returns (actions: seq<Action>)
    requires CanSubmit(st, codes, ids) && EventOpen(st.db, event) && AllFree(st.db, event, codes)
    requires r == Asked(event, codes, st.now, Locking(|codes|)) && w.db == st.db
    requires Leads(st, first, Growing(ids.token), AfterRequest(st, ids.token, r, w, {ids.token}))
    ensures Leads(st, actions, Growing(ids.token),
      AfterRequest(st, ids.token, Asked(event, codes, st.now, Written(ids.booking)),
        w.(db := InsertBooking(st.db, ids.booking, ids.job, NewBooking(event, codes, ids.token), st.now)),
        {ids.token} + {ids.booking, ids.job}))
  {
    var rid := ids.token;
    var mid := AfterRequest(st, rid, r, w, {rid});
    SoloCommit(mid, event, codes, ids);
    var commit := Booker(rid, Commit(ids.booking, ids.job));
    ThenStep(st, rid, first, Growing(rid), r, w, {rid}, commit, Asked(event, codes, st.now, Written(ids.booking)),
      w.(db := InsertBooking(st.db, ids.booking, ids.job, NewBooking(event, codes, ids.token), st.now)),
        {ids.booking, ids.job});
    actions := first + [commit];
  }

  lemma ThenPush(st: State, event: Id, codes: seq<string>, rid: Id, bid: Id, first: seq<Action>, w: Snapshot,
                 used: set<Id>)
    returns (actions: seq<Action>)
    requires Leads(st, first, Growing(rid), AfterRequest(st, rid, Asked(event, codes, st.now, Written(bid)), w, used))
    ensures Leads(st, actions, Growing(rid),
      AfterRequest(st, rid, Asked(event, codes, st.now, Succeeded(bid)), w.(queue := [bid] + w.queue), used + {}))
  {
    var q := Asked(event, codes, st.now, Written(bid));
    SoloPush(AfterRequest(st, rid, q, w, used), rid, event, codes, bid);
    ThenStep(st, rid, first, Growing(rid), q, w, used, Booker(rid, Push),
      Asked(event, codes, st.now, Succeeded(bid)), w.(queue := [bid] + w.queue), {});
    actions := first + [Booker(rid, Push)];
  }

  /** Nothing in its way, `createBooking` books: it ends as the call says, and on the way it deletes no lock. */
  lemma SoloBooks(st: State, event: Id, codes: seq<string>, ids: Ids) returns (actions: seq<Action>)
    requires CanSubmit(st, codes, ids) && EventOpen(st.db, event) && AllFree(st.db, event, codes)
    requires FirstConflict(st.locks, event, codes, 0) == |codes|
    ensures Leads(st, actions, Growing(ids.token),
      AfterRequest(st, ids.token, Asked(event, codes, st.now, Succeeded(ids.booking)),
        Persisted(st, event, codes, ids).(queue := [ids.booking] + st.queue),
          {ids.token} + {ids.booking, ids.job} + {}))
  {
    var first := SoloPersists(st, event, codes, ids);
    actions := ThenPush(st, event, codes, ids.token, ids.booking, first, Persisted(st, event, codes, ids),
      {ids.token} + {ids.booking, ids.job});
  }

  lemma GrowingIsByRequest(st: State, actions: seq<Action>, rid: Id, end: State)
    requires Leads(st, actions, Growing(rid), end)
    ensures Leads(st, actions, ByRequest(rid), end)
  {
    RunWeaken(st, actions, Growing(rid), ByRequest(rid));
  }

  /** Appends the deletion of the request's locks to a run that ends in a rollback or a release. */
  lemma ThenUndo(st: State, event: Id, codes: seq<string>, rid: Id, first: seq<Action>, phase: Phase, w: Snapshot,
                 used: set<Id>, n: nat)
    returns (actions: seq<Action>)
    requires n <= |codes| && (phase == RollingBack(n) || (n == |codes| && phase == Releasing))
    requires Extends(w.locks, st.locks, event, codes[..n], Lock(rid, st.now + st.cfg.ttl))
    requires Leads(st, first, ByRequest(rid), AfterRequest(st, rid, Asked(event, codes, st.now, phase), w, used))
    ensures Leads(st, actions, ByRequest(rid),
      AfterRequest(st, rid, Asked(event, codes, st.now, Rejected), w.(locks := st.locks), used + {}))
  {
    var r := Asked(event, codes, st.now, phase);
    SoloUndo(AfterRequest(st, rid, r, w, used), rid, event, codes, st.locks, n);
    var last := Booker(rid, if phase.Releasing? then Release else RollBack);
    ThenStep(st, rid, first, ByRequest(rid), r, w, used, last, Asked(event, codes, st.now, Rejected),
      w.(locks := st.locks), {});
    actions := first + [last];
  }

  lemma SoloConflict(st: State, event: Id, codes: seq<string>, ids: Ids) returns (actions: seq<Action>)
    requires CanSubmit(st, codes, ids) && EventOpen(st.db, event) && AllFree(st.db, event, codes)
    requires FirstConflict(st.locks, event, codes, 0) < |codes|
    ensures Leads(st, actions, ByRequest(ids.token),
      AfterRequest(st, ids.token, Asked(event, codes, st.now, Rejected), SnapshotOf(st), {ids.token} + {}))
  {
    var rid := ids.token;
    var first, locks := SoloToLocks(st, event, codes, ids);
    var i := FirstConflict(st.locks, event, codes, 0);
    GrowingIsByRequest(st, first, rid,
      AfterRequest(st, rid, Asked(event, codes, st.now, RollingBack(i)), SnapshotOf(st).(locks := locks), {rid}));
    actions := ThenUndo(st, event, codes, rid, first, RollingBack(i), SnapshotOf(st).(locks := locks), {rid}, i);
  }

  /** Appends a failure in the try block, of the transaction or of the push, and the catch block's release. */
  lemma ThenFail(st: State, event: Id, codes: seq<string>, rid: Id, first: seq<Action>, phase: Phase, w: Snapshot,
                 used: set<Id>)
    returns (actions: seq<Action>)
    requires phase.Written? || phase == Locking(|codes|)
    requires Extends(w.locks, st.locks, event, codes[..|codes|], Lock(rid, st.now + st.cfg.ttl))
    requires Leads(st, first, Growing(rid), AfterRequest(st, rid, Asked(event, codes, st.now, phase), w, used))
    ensures Leads(st, actions, ByRequest(rid),
      AfterRequest(st, rid, Asked(event, codes, st.now, Rejected), w.(locks := st.locks), used + {} + {}))
  {
    var r := Asked(event, codes, st.now, phase);
    var fail := if phase.Written? then FailPush else FailTransaction;
    GrowingIsByRequest(st, first, rid, AfterRequest(st, rid, r, w, used));
    if phase.Written? {
      SoloFailPush(AfterRequest(st, rid, r, w, used), rid, event, codes, phase.booking);
    } else {
      SoloFailTransaction(AfterRequest(st, rid, r, w, used), rid, event, codes);
    }
    ThenStep(st, rid, first, ByRequest(rid), r, w, used, Booker(rid, fail), Asked(event, codes, st.now, Releasing), w,
      {});
    actions := ThenUndo(st, event, codes, rid, first + [Booker(rid, fail)], Releasing, w, used + {}, |codes|);
  }

  lemma SoloTransactionFails(st: State, event: Id, codes: seq<string>, ids: Ids) returns (actions: seq<Action>)
    requires CanSubmit(st, codes, ids) && EventOpen(st.db, event) && AllFree(st.db, event, codes)
    requires FirstConflict(st.locks, event, codes, 0) == |codes|
    ensures Leads(st, actions, ByRequest(ids.token),
      AfterRequest(st, ids.token, Asked(event, codes, st.now, Rejected), SnapshotOf(st), {ids.token} + {} + {}))
  {
    var first, locks := SoloToLocks(st, event, codes, ids);
    actions := ThenFail(st, event, codes, ids.token, first, Locking(|codes|), SnapshotOf(st).(locks := locks),
      {ids.token});
  }

  lemma SoloPushFails(st: State, event: Id, codes: seq<string>, ids: Ids) returns (actions: seq<Action>)
    requires CanSubmit(st, codes, ids) && EventOpen(st.db, event) && AllFree(st.db, event, codes)
    requires FirstConflict(st.locks, event, codes, 0) == |codes|
    ensures Leads(st, actions, ByRequest(ids.token),
      AfterRequest(st, ids.token, Asked(event, codes, st.now, Rejected),
        Persisted(st, event, codes, ids).(locks := st.locks),
                   {ids.token} + {ids.booking, ids.job} + {} + {}))
  {
    var first := SoloPersists(st, event, codes, ids);
    LockedExtends(st.locks, event, codes, Lock(ids.token, st.now + st.cfg.ttl));
    actions := ThenFail(st, event, codes, ids.token, first, Written(ids.booking), Persisted(st, event, codes, ids),
      {ids.token} + {ids.booking, ids.job});
  }

  lemma LockedExtends(before: Locks, event: Id, codes: seq<string>, mine: Lock)
    requires FirstConflict(before, event, codes, 0) == |codes|
    ensures Extends(Locked(before, Keys(event, codes), mine), before, event, codes[..|codes|], mine)
  {
    assert codes[..|codes|] == codes;
    forall c | c in codes ensures Seat(event, c) !in before && Seat(event, c) in Keys(event, codes) {
      var i :| 0 <= i < |codes| && codes[i] == c;
    }
  }

  /** From the reads on, every way a request can go: it ends with the stores that `Reserve` computes. */
  lemma SoloReserve(st: State, event: Id, codes: seq<string>, ids: Ids, trouble: Trouble)
    returns (actions: seq<Action>, phase: Phase, used: set<Id>)
    requires CanSubmit(st, codes, ids) && EventOpen(st.db, event) && AllFree(st.db, event, codes)
    ensures var (w, r) := Reserve(SnapshotOf(st), st.now, st.cfg.ttl, event, codes, ids, trouble);
      && phase == (if r.Created? then Succeeded(r.booking) else Rejected)
      && Leads(st, actions, ByRequest(ids.token),
         AfterRequest(st, ids.token, Asked(event, codes, st.now, phase), w, used))
  {
    phase := Rejected;
    if FirstConflict(st.locks, event, codes, 0) < |codes| {
      actions := SoloConflict(st, event, codes, ids);
      used := {ids.token} + {};
    } else if trouble == TransactionFails {
      actions := SoloTransactionFails(st, event, codes, ids);
      used := {ids.token} + {} + {};
    } else if trouble == PushFails {
      actions := SoloPushFails(st, event, codes, ids);
      used := {ids.token} + {ids.booking, ids.job} + {} + {};
    } else {
      actions := SoloBooks(st, event, codes, ids);
      phase, used := Succeeded(ids.booking), {ids.token} + {ids.booking, ids.job} + {};
      ReserveIs(st, event, codes, ids);
      GrowingIsByRequest(st, actions, ids.token, AfterRequest(st, ids.token, Asked(event, codes, st.now, phase),
        Reserve(SnapshotOf(st), st.now, st.cfg.ttl, event, codes, ids, NoTrouble).0, used));
    }
  }

  /** `createBooking` as steps and as a call agree: alone, the request's steps end with exactly the stores the call
      returns, and it succeeds exactly when the call does. */
  lemma CallIsARun(st: State, event: Id, seatCodes: seq<string>, ids: Ids, trouble: Trouble)
    returns (actions: seq<Action>, end: State)
    requires CanSubmit(st, Unique(seatCodes), ids)
    ensures var (w, r) := Calls.CreateBooking(SnapshotOf(st), st.now, st.cfg.ttl, event, seatCodes, ids, trouble);
      && Leads(st, actions, ByRequest(ids.token), end) && SnapshotOf(end) == w && end.now == st.now
      && ids.token in end.requests
      && end.requests[ids.token].phase == if r.Created? then Succeeded(r.booking) else Rejected
  {
    var codes := Unique(seatCodes);
    ReadsAgree(SnapshotOf(st), st.now, st.cfg.ttl, event, seatCodes, ids, trouble);
    if EventOpen(st.db, event) && AllFree(st.db, event, codes) {
      var phase, used;
      actions, phase, used := SoloReserve(st, event, codes, ids, trouble);
      end := AfterRequest(st, ids.token, Asked(event, codes, st.now, phase),
        Reserve(SnapshotOf(st), st.now, st.cfg.ttl, event, codes, ids, trouble).0, used);
    } else {
      actions := SoloReads(st, event, codes, ids);
      end := AfterRequest(st, ids.token, ReadResult(st, event, codes), SnapshotOf(st), {ids.token});
      GrowingIsByRequest(st, actions, ids.token, end);
    }
  }

  // ---- cancelBooking and the admin cancel ------------------------------------------------

  predicate OnlyCancel(cid: Id, st: State, a: Action, after: State) {
    (a.CheckCancel? || a.Canceller?) && a.cid == cid
  }

  ghost function ByCancel(cid: Id): Hypothesis {
    (st, a, after) => OnlyCancel(cid, st, a, after)
  }

  lemma LiveCancelIsARun(st: State, cid: Id, bid: Id, byAdmin: bool) returns (actions: seq<Action>, end: State)
    requires CheckEnabled(st, cid, bid)
    ensures Leads(st, actions, ByCancel(cid), end)
    ensures SnapshotOf(end) == Calls.CancelBooking(SnapshotOf(st), bid, byAdmin).0
    ensures end == st.(db := end.db, locks := end.locks, cancels := st.cancels[cid := Cancel(bid, byAdmin, Ended)],
                       used := st.used + {cid})
  {
    var h := ByCancel(cid);
    LeadsOne(st, CheckCancel(cid, bid, byAdmin), h);
    var s1 := Next(st, CheckCancel(cid, bid, byAdmin));
    LeadsOne(s1, Canceller(cid, WriteCancel), h);
    var s2 := CancelNext(s1, cid, WriteCancel);
    actions := [CheckCancel(cid, bid, byAdmin)] + [Canceller(cid, WriteCancel)];
    LeadsThen(st, [CheckCancel(cid, bid, byAdmin)], s1, [Canceller(cid, WriteCancel)], s2, h);
    if byAdmin {
      end := s2;
    } else {
      LeadsOne(s2, Canceller(cid, ReleaseAfterCancel), h);
      end := CancelNext(s2, cid, ReleaseAfterCancel);
      LeadsThen(st, actions, s2, [Canceller(cid, ReleaseAfterCancel)], end, h);
      actions := actions + [Canceller(cid, ReleaseAfterCancel)];
    }
  }

  /** The steps of one cancel, in a row, are the call; a cancel that the call refuses takes no step. */
  lemma CancelIsARun(st: State, cid: Id, bid: Id, byAdmin: bool) returns (actions: seq<Action>, end: State)
    requires cid !in st.used && cid !in st.cancels
    ensures Leads(st, actions, ByCancel(cid), end)
    ensures var (w, r) := Calls.CancelBooking(SnapshotOf(st), bid, byAdmin);
      && SnapshotOf(end) == w
      && (if r.CancelDone? then cid in end.cancels && end.cancels[cid] == Cancel(bid, byAdmin, Ended)
          else end == st && !CheckEnabled(st, cid, bid))
  {
    if CheckEnabled(st, cid, bid) {
      actions, end := LiveCancelIsARun(st, cid, bid, byAdmin);
    } else {
      actions, end := [], st;
    }
  }

  // ---- processJob ------------------------------------------------------------------------

  predicate OnlyWorker(wid: Id, st: State, a: Action, after: State) {
    a.Processor? && a.wid == wid
  }

  ghost function ByWorker(wid: Id): Hypothesis {
    (st, a, after) => OnlyWorker(wid, st, a, after)
  }

  /** Only processor `wid` moves, and it stays inside the job it has loaded. */
  ghost function ByWriter(wid: Id): Hypothesis {
    (st, a, after) => OnlyWorker(wid, st, a, after) && !a.wstep.Load?
  }

  lemma WorkerStepIs(st: State, wid: Id, step: WorkerStep)
    requires WorkerEnabled(st, wid, step) && !step.Load?
    ensures Leads(st, [Processor(wid, step)], ByWriter(wid), WorkerNext(st, wid, step))
  {
    LeadsOne(st, Processor(wid, step), ByWriter(wid));
  }

  /** `st` with these stores and with processor `wid` here. */
  function AfterWork(st: State, wid: Id, db: Db, locks: Locks, w: Worker): State {
    st.(db := db, locks := locks, workers := st.workers[wid := w])
  }

  /** A death, or a throw that nobody catches. */
  lemma SoloDeath(st: State, wid: Id)
    requires wid in st.workers
    ensures Leads(st, [Processor(wid, Die)], ByWriter(wid), AfterWork(st, wid, st.db, st.locks, Worker([], Idle)))
  {
    WorkerStepIs(st, wid, Die);
  }

  lemma SoloThrow(st: State, wid: Id)
    requires wid in st.workers && Guarded(st.workers[wid].pc) && JobPresent(st.db, st.workers[wid].pc.job)
    ensures Leads(st, [Processor(wid, Throw)] + [Processor(wid, Write(None))], ByWriter(wid),
      AfterWork(st, wid, SetJobStatus(st.db, st.workers[wid].pc.job, JobPending), st.locks,
        st.workers[wid].(pc := Idle)))
  {
    var w := st.workers[wid];
    WorkerStepIs(st, wid, Throw);
    var mid := AfterWork(st, wid, st.db, st.locks, w.(pc := Catching(w.pc.job)));
    WorkerStepIs(mid, wid, Write(None));
    assert mid.workers[wid := w.(pc := Idle)] == st.workers[wid := w.(pc := Idle)];
    LeadsThen(st, [Processor(wid, Throw)], mid, [Processor(wid, Write(None))],
      AfterWork(st, wid, SetJobStatus(st.db, w.pc.job, JobPending), st.locks, w.(pc := Idle)), ByWriter(wid));
  }

  lemma SoloWrite(st: State, wid: Id, qr: Option<string>) returns (mid: State)
    requires WriteEnabled(st, wid)
    ensures var (db, locks, next) := JobWrite(st.db, st.locks, st.workers[wid].pc, qr);
      mid == AfterWork(st, wid, db, locks, st.workers[wid].(pc := next))
    ensures Leads(st, [Processor(wid, Write(qr))], ByWriter(wid), mid)
  {
    mid := WriteNext(st, wid, qr);
    WorkerStepIs(st, wid, Write(qr));
  }

  lemma AfterWorkTwice(st: State, wid: Id, mid: State, db: Db, locks: Locks, w: Worker)
    requires exists d, l, v :: mid == AfterWork(st, wid, d, l, v)
    ensures AfterWork(mid, wid, db, locks, w) == AfterWork(st, wid, db, locks, w)
  {
    assert mid.workers[wid := w] == st.workers[wid := w];
  }

  lemma WriteJoins(st: State, wid: Id, qr: Option<string>, mid: State, rest: seq<Action>, db: Db, locks: Locks,
                   w: Worker)
    requires wid in st.workers && Leads(st, [Processor(wid, Write(qr))], ByWriter(wid), mid)
    requires exists d, l, v :: mid == AfterWork(st, wid, d, l, v)
    requires Leads(mid, rest, ByWriter(wid), AfterWork(mid, wid, db, locks, w))
    ensures Leads(st, [Processor(wid, Write(qr))] + rest, ByWriter(wid), AfterWork(st, wid, db, locks, w))
  {
    AfterWorkTwice(st, wid, mid, db, locks, w);
    LeadsThen(st, [Processor(wid, Write(qr))], mid, rest, AfterWork(st, wid, db, locks, w), ByWriter(wid));
  }

  /** The call is over, or goes wrong at once. */
  lemma DriveStops(st: State, wid: Id, qr: Option<string>, m: Mishap) returns (actions: seq<Action>, w: Worker)
    requires wid in st.workers && (st.workers[wid].pc.Idle? || JobPresent(st.db, st.workers[wid].pc.job))
    requires st.workers[wid].pc.Idle? || m == DieAt(0) || m == ThrowAt(0)
    ensures var (db, locks) := Drive(st.db, st.locks, st.workers[wid].pc, qr, m);
      Leads(st, actions, ByWriter(wid), AfterWork(st, wid, db, locks, w))
    ensures w == Worker(if Returns(st.workers[wid].pc, m) then st.workers[wid].todo else [], Idle)
  {
    var pc := st.workers[wid].pc;
    if pc.Idle? {
      actions, w := [], st.workers[wid];
    } else if m == DieAt(0) || !Guarded(pc) {
      SoloDeath(st, wid);
      actions, w := [Processor(wid, Die)], Worker([], Idle);
    } else {
      SoloThrow(st, wid);
      actions, w := [Processor(wid, Throw)] + [Processor(wid, Write(None))], st.workers[wid].(pc := Idle);
    }
  }

  /** From any point of `processJob`, the processor's own steps do what `Drive` computes, mishap and all; it goes on
      with its batch exactly when the call returns. */
  lemma {:induction false} DriveIsARun(st: State, wid: Id, qr: Option<string>, m: Mishap)
    returns (actions: seq<Action>, w: Worker)
    requires wid in st.workers && (st.workers[wid].pc.Idle? || JobPresent(st.db, st.workers[wid].pc.job))
    ensures var (db, locks) := Drive(st.db, st.locks, st.workers[wid].pc, qr, m);
      Leads(st, actions, ByWriter(wid), AfterWork(st, wid, db, locks, w))
    ensures w == Worker(if Returns(st.workers[wid].pc, m) then st.workers[wid].todo else [], Idle)
    decreases Remaining(st.workers[wid].pc)
  {
    var pc := st.workers[wid].pc;
    if pc.Idle? || m == DieAt(0) || m == ThrowAt(0) {
      actions, w := DriveStops(st, wid, qr, m);
    } else {
      var mid := SoloWrite(st, wid, qr);
      var rest;
      rest, w := DriveIsARun(mid, wid, qr, Later(m));
      actions := [Processor(wid, Write(qr))] + rest;
      DriveOn(st.db, st.locks, pc, qr, m);
      var (db, locks) := Drive(st.db, st.locks, pc, qr, m);
      WriteJoins(st, wid, qr, mid, rest, db, locks, w);
    }
  }

  /** The load and the writes of one processor, in a row, are the call of `processJob`; a call that does not return
      takes the rest of the batch with it. */
  lemma ProcessIsARun(st: State, wid: Id, qr: Option<string>, m: Mishap) returns (actions: seq<Action>, w: Worker)
    requires WorkerEnabled(st, wid, Load) && JobsPresent(st.db)
    ensures var (db, locks) := Calls.ProcessJob(st.db, st.locks, st.cfg.maxAttempts, st.workers[wid].todo[0], qr, m);
      Leads(st, actions, ByWorker(wid), AfterWork(st, wid, db, locks, w))
    ensures var todo := st.workers[wid].todo;
      w == Worker(if Returns(Loaded(st.cfg, st.db, todo[0]), m) then todo[1..] else [], Idle)
  {
    LeadsOne(st, Processor(wid, Load), ByWorker(wid));
    var mid := WorkerNext(st, wid, Load);
    var rest;
    rest, w := DriveIsARun(mid, wid, qr, m);
    actions := [Processor(wid, Load)] + rest;
    var (db, locks) := Drive(mid.db, mid.locks, mid.workers[wid].pc, qr, m);
    assert mid.workers[wid := w] == st.workers[wid := w];
    RunWeaken(mid, rest, ByWriter(wid), ByWorker(wid));
    LeadsThen(st, [Processor(wid, Load)], mid, rest, AfterWork(st, wid, db, locks, w), ByWorker(wid));
  }

  // ---- a sweep ---------------------------------------------------------------------------

  /** The batch of a processor, taken up job by job, is the calls one after the other, and none after one that does not
      return. */
  lemma {:induction false} BatchIsARun(st: State, wid: Id, calls: seq<JobCall>) returns (actions: seq<Action>)
    requires wid in st.workers && st.workers[wid] == Worker(JobsOf(calls), Idle) && JobsPresent(st.db)
    ensures var (db, locks) := ProcessAll(st.db, st.locks, st.cfg.maxAttempts, calls);
      Leads(st, actions, ByWorker(wid), AfterWork(st, wid, db, locks, Worker([], Idle)))
    decreases |calls|
  {
    actions := [];
    if calls != [] {
      var c := calls[0];
      var first, w := ProcessIsARun(st, wid, c.qr, c.m);
      DriveKeepsRows(st.db, st.locks, Loaded(Config(0, 0, st.cfg.maxAttempts), st.db, c.job), c.qr, c.m);
      var (d, l) := Calls.ProcessJob(st.db, st.locks, st.cfg.maxAttempts, c.job, c.qr, c.m);
      var mid := AfterWork(st, wid, d, l, w);
      if !Returns(Loaded(st.cfg, st.db, c.job), c.m) {
        actions := first;
      } else {
        assert JobsOf(calls)[1..] == JobsOf(calls[1..]);
        actions := BatchIsARun(mid, wid, calls[1..]);
        BatchJoins(st, wid, first, mid, actions, calls[1..]);
        actions := first + actions;
      }
    }
  }

  lemma BatchJoins(st: State, wid: Id, first: seq<Action>, mid: State, more: seq<Action>, rest: seq<JobCall>)
    requires wid in st.workers && Leads(st, first, ByWorker(wid), mid) && JobsPresent(mid.db) && mid.cfg == st.cfg
    requires exists d, l, v :: mid == AfterWork(st, wid, d, l, v)
    requires var (db, locks) := ProcessAll(mid.db, mid.locks, st.cfg.maxAttempts, rest);
      Leads(mid, more, ByWorker(wid), AfterWork(mid, wid, db, locks, Worker([], Idle)))
    ensures var (db, locks) := ProcessAll(mid.db, mid.locks, st.cfg.maxAttempts, rest);
      Leads(st, first + more, ByWorker(wid), AfterWork(st, wid, db, locks, Worker([], Idle)))
  {
    var (db, locks) := ProcessAll(mid.db, mid.locks, st.cfg.maxAttempts, rest);
    AfterWorkTwice(st, wid, mid, db, locks, Worker([], Idle));
    LeadsThen(st, first, mid, more, AfterWork(st, wid, db, locks, Worker([], Idle)), ByWorker(wid));
  }

  /** The steps of one sweep, from its query to the end of its batch, are the loop over the batch. */
  lemma SweepIsARun(st: State, wid: Id, calls: seq<JobCall>) returns (actions: seq<Action>)
    requires WorkerEnabled(st, wid, Sweep(JobsOf(calls))) && JobsPresent(st.db)
    ensures var (db, locks) := ProcessAll(st.db, st.locks, st.cfg.maxAttempts, calls);
      Leads(st, [Processor(wid, Sweep(JobsOf(calls)))] + actions, ByWorker(wid),
        AfterWork(st, wid, db, locks, Worker([], Idle)))
  {
    var mid := WorkerNext(st, wid, Sweep(JobsOf(calls)));
    LeadsOne(st, Processor(wid, Sweep(JobsOf(calls))), ByWorker(wid));
    actions := BatchIsARun(mid, wid, calls);
    assert mid == AfterWork(st, wid, st.db, st.locks, Worker(JobsOf(calls), Idle));
    BatchJoins(st, wid, [Processor(wid, Sweep(JobsOf(calls)))], mid, actions, calls);
  }
}
