/** No double booking, over every run that meets four named hypotheses.  `Refinement` shows what such a run comes to. */
module Safety {
  import opened Store
  import opened Protocol

  // ---- hypotheses on a step --------------------------------------------------------------

  /** The request read seat `s` AVAILABLE and has not reached its transaction yet. */
  predicate Reading(r: Request, s: Seat) {
    r.phase.Locking? && s in r.seats
  }

  /** The request is `Reading` and its lock on `s` is among those it has taken. */
  predicate Holding(r: Request, s: Seat) {
    r.phase.Locking? && s in Acquired(r)
  }

  /** The holder of the lock of `s` is not waiting to commit. */
  ghost predicate HolderIdle(st: State, s: Seat)
    requires s in st.locks
  {
    var h := st.locks[s].holder;
    h in st.requests ==> !Holding(st.requests[h], s)
  }

  /** If the holder of the lock of `s` has a live booking of `s`, nobody is left who read `s` AVAILABLE. */
  ghost predicate ReadersOver(st: State, after: State, s: Seat)
    requires s in st.locks
  {
    (exists b :: Owns(after.db, b, s) && after.db.bookings[b].holder == st.locks[s].holder) ==>
      forall r :: r in after.requests ==> !Reading(after.requests[r], s)
  }

  /** Whichever step removes the lock of `s`, both hold. */
  ghost predicate Unfenced(st: State, after: State, s: Seat) {
    s in st.locks ==> HolderIdle(st, s) && ReadersOver(st, after, s)
  }

  ghost predicate Fence(st: State, a: Action, after: State) {
    forall s :: s in st.locks && s !in after.locks ==> Unfenced(st, after, s)
  }

  /** A cancel commits only when every job of its booking has ended and no processor is inside one. */
  ghost predicate CancelAfterJob(st: State, a: Action, after: State) {
    a.Canceller? && a.cstep.WriteCancel? && a.cid in st.cancels ==>
      forall j :: j in st.db.jobs && st.db.jobs[j].booking == st.cancels[a.cid].booking ==>
        Terminal(st.db.jobs[j]) && forall w :: w in st.workers ==> !Inside(st.workers[w], j)
  }

  /** Nothing happened to the booking between the cancel's status check and its transaction. */
  predicate FreshCancel(st: State, a: Action, after: State) {
    a.Canceller? && a.cstep.WriteCancel? && a.cid in st.cancels && st.cancels[a.cid].booking in st.db.bookings ==>
      Active(st.db.bookings[st.cancels[a.cid].booking])
  }

  /** `processJob` is given jobs that the sweep would still pick: it never re-opens a FAILED one. */
  predicate SweepChosen(st: State, a: Action, after: State) {
    a.Processor? && a.wstep.Load? && a.wid in st.workers && st.workers[a.wid].todo != [] ==>
      var j := st.workers[a.wid].todo[0];
      j in st.db.jobs ==> st.db.jobs[j].status != JobFailed
  }

  ghost predicate Guards(st: State, a: Action, after: State) {
    Fence(st, a, after) && CancelAfterJob(st, a, after) && FreshCancel(st, a, after) && SweepChosen(st, a, after)
  }

  // ---- invariants that hold of every run -------------------------------------------------

  ghost predicate RowsFit(db: Db) {
    && (forall b :: b in db.bookings ==> db.bookings[b].event in db.events)
    && (forall b, s :: b in db.bookings && s in db.bookings[b].seats ==>
          s in db.seats && s.event == db.bookings[b].event)
    && (forall j :: j in db.jobs ==> db.jobs[j].booking in db.bookings)
    && (forall s :: s in db.seats ==> s.event in db.events)
  }

  ghost predicate IdsUsed(st: State) {
    && st.db.bookings.Keys <= st.used && st.db.jobs.Keys <= st.used && st.db.events.Keys <= st.used
    && st.requests.Keys <= st.used && st.cancels.Keys <= st.used
  }

  predicate RequestFits(r: Request) {
    && Distinct(r.seats)
    && (r.phase.Locking? || r.phase.RollingBack? ==> r.phase.acquired <= |r.seats|)
    && forall s :: s in r.seats ==> s.event == r.event
  }

  predicate PastCommit(p: Phase) {
    p.Written? || p.Releasing? || p.Succeeded? || p.Rejected? || p.Gone?
  }

  ghost predicate RequestsFit(requests: map<Id, Request>) {
    forall r :: r in requests ==> RequestFits(requests[r])
  }

  ghost predicate HoldersDone(st: State) {
    forall b :: b in st.db.bookings ==>
      var h := st.db.bookings[b].holder;
      h in st.requests && PastCommit(st.requests[h].phase)
  }

  ghost predicate Fit(st: State) {
    RowsFit(st.db) && IdsUsed(st) && RequestsFit(st.requests) && HoldersDone(st)
  }

  lemma JobWriteFits(db: Db, locks: Locks, pc: Pc, qr: Option<string>)
    requires RowsFit(db) && !pc.Idle? && JobPresent(db, pc.job)
    ensures var out := JobWrite(db, locks, pc, qr).0;
      && RowsFit(out) && out.events == db.events && out.seats == db.seats
      && out.bookings.Keys == db.bookings.Keys && out.jobs.Keys == db.jobs.Keys
      && (forall b :: b in db.bookings ==>
            out.bookings[b].holder == db.bookings[b].holder && out.bookings[b].seats == db.bookings[b].seats)
      && (forall j :: j in db.jobs ==> out.jobs[j].booking == db.jobs[j].booking)
  {
    JobWriteKeepsRows(db, locks, pc, qr);
    JobWriteKeepsHolders(db, locks, pc, qr);
  }

  lemma JobWriteKeepsHolders(db: Db, locks: Locks, pc: Pc, qr: Option<string>)
    requires !pc.Idle? && JobPresent(db, pc.job)
    ensures var out := JobWrite(db, locks, pc, qr).0;
      out.bookings.Keys == db.bookings.Keys && out.seats == db.seats
      && forall b :: b in db.bookings ==> out.bookings[b].holder == db.bookings[b].holder
  {
  }

  lemma CommitFits(db: Db, bid: Id, jid: Id, b: Booking, now: nat)
    requires RowsFit(db) && bid !in db.bookings && jid !in db.jobs
    requires b.event in db.events && b.seats <= db.seats.Keys && forall s :: s in b.seats ==> s.event == b.event
    ensures RowsFit(InsertBooking(db, bid, jid, b, now))
  {
  }

  lemma RequestFitsStep(st: State, rid: Id, step: RequestStep)
    requires RequestsFit(st.requests) && RequestEnabled(st, rid, step)
    ensures var after := RequestNext(st, rid, step).requests;
      after == st.requests[rid := after[rid]] && RequestFits(after[rid])
  {
    assert RequestFits(st.requests[rid]);
  }

  lemma RequestsFitStep(st: State, rid: Id, step: RequestStep)
    requires RequestsFit(st.requests) && RequestEnabled(st, rid, step)
    ensures RequestsFit(RequestNext(st, rid, step).requests)
  {
    RequestFitsStep(st, rid, step);
  }

  lemma HoldersDoneStep(st: State, rid: Id, step: RequestStep)
    requires HoldersDone(st) && RequestEnabled(st, rid, step)
    ensures HoldersDone(RequestNext(st, rid, step))
  {
  }

  lemma FitRequest(st: State, rid: Id, step: RequestStep)
    requires Fit(st) && RequestEnabled(st, rid, step)
    ensures Fit(RequestNext(st, rid, step))
  {
    var r := st.requests[rid];
    RequestsFitStep(st, rid, step);
    HoldersDoneStep(st, rid, step);
    if step.Commit? {
      CommitFits(st.db, step.bid, step.jid, Booking(r.event, SetOf(r.seats), Pending, None, rid), st.now);
    }
  }

  lemma FitCancel(st: State, cid: Id, step: CancelStep)
    requires Fit(st) && CancelEnabled(st, cid, step)
    ensures Fit(CancelNext(st, cid, step))
  {
  }

  lemma FitWorker(st: State, wid: Id, step: WorkerStep)
    requires Fit(st) && WorkerEnabled(st, wid, step)
    ensures Fit(WorkerNext(st, wid, step))
  {
    if step.Write? { JobWriteFits(st.db, st.locks, st.workers[wid].pc, step.qr); }
  }

  lemma FitWorld(st: State, step: WorldStep)
    requires Fit(st) && WorldEnabled(st, step)
    ensures Fit(WorldNext(st, step))
  {
  }

  lemma FitStep(st: State, a: Action)
    requires Fit(st) && Enabled(st, a)
    ensures Fit(Next(st, a))
  {
    match a
    case Submit(_, _, _) =>
    case Booker(rid, step) => FitRequest(st, rid, step);
    case CheckCancel(_, _, _) =>
    case Canceller(cid, step) => FitCancel(st, cid, step);
    case Processor(wid, step) => FitWorker(st, wid, step);
    case World(step) => FitWorld(st, step);
  }

  // ---- invariants that need the hypotheses -----------------------------------------------

  /** BOOKED means owned, and nothing is ever HELD. */
  ghost predicate BookedMeansOwned(db: Db) {
    forall s :: s in db.seats ==> db.seats[s] != Held && (db.seats[s] == Booked <==> exists b :: Owns(db, b, s))
  }

  ghost predicate SoleOwner(db: Db) {
    forall s, b, c :: Owns(db, b, s) && Owns(db, c, s) ==> b == c
  }

  /** Every lock that a waiting request has taken is still its own. */
  ghost predicate LocksKept(st: State) {
    forall r, s :: r in st.requests && Holding(st.requests[r], s) ==> s in st.locks && st.locks[s].holder == r
  }

  /** The lock of `s` is there and belongs to a request that booked `s`. */
  ghost predicate ShieldedSeat(st: State, s: Seat) {
    s in st.locks && exists b :: Owns(st.db, b, s) && st.db.bookings[b].holder == st.locks[s].holder
  }

  /** A seat that a waiting request read AVAILABLE but is BOOKED by now is still locked by whoever booked it. */
  ghost predicate Shielded(st: State) {
    forall r, s :: r in st.requests && Reading(st.requests[r], s) && s in st.db.seats && st.db.seats[s] == Booked ==>
      ShieldedSeat(st, s)
  }

  /** Open jobs, and jobs that a processor is inside, belong to live bookings. */
  ghost predicate JobsLive(st: State) {
    && (forall j :: j in st.db.jobs && !Terminal(st.db.jobs[j]) ==>
          st.db.jobs[j].booking in st.db.bookings && Active(st.db.bookings[st.db.jobs[j].booking]))
    && (forall w :: w in st.workers && !st.workers[w].pc.Idle? ==>
          var j := st.workers[w].pc.job;
          j in st.db.jobs && st.db.jobs[j].booking in st.db.bookings && Active(st.db.bookings[st.db.jobs[j].booking]))
  }

  ghost predicate Safe(st: State) {
    && Fit(st)
    && BookedMeansOwned(st.db) && SoleOwner(st.db) && LocksKept(st) && Shielded(st) && JobsLive(st)
  }

  /** At its transaction every seat of the request is still AVAILABLE, although the transaction does not look. */
  lemma CommitFindsAvailable(st: State, rid: Id, bid: Id, jid: Id)
    requires Safe(st) && CommitEnabled(st, rid, bid, jid)
    ensures Bookable(st.db, st.requests[rid])
  {
    var r := st.requests[rid];
    assert Acquired(r) == r.seats;
    forall s | s in r.seats ensures s in st.db.seats && st.db.seats[s] == Available {
      assert s in SetOf(r.seats);
      assert Holding(r, s) && Reading(r, s);
    }
  }

  // ---- one step keeps them ---------------------------------------------------------------

  /** No request gains a reading or a lock, every seat still BOOKED keeps its owner, and locks only go. */
  ghost predicate OnlyUnlocks(st: State, after: State) {
    && (forall r :: r in after.requests && after.requests[r].phase.Locking? ==>
          r in st.requests && st.requests[r] == after.requests[r])
    && (forall s :: s in after.locks ==> s in st.locks && st.locks[s] == after.locks[s])
    && (forall s :: s in after.db.seats && after.db.seats[s] == Booked ==> s in st.db.seats && st.db.seats[s] == Booked)
    && (forall s, b :: s in after.db.seats && after.db.seats[s] == Booked && Owns(st.db, b, s) ==>
          Owns(after.db, b, s) && after.db.bookings[b].holder == st.db.bookings[b].holder)
  }

  lemma UnlockingIsSafe(st: State, a: Action, after: State)
    requires LocksKept(st) && Shielded(st) && Fence(st, a, after) && OnlyUnlocks(st, after)
    ensures LocksKept(after) && Shielded(after)
  {
    forall r, s | r in after.requests && Holding(after.requests[r], s)
      ensures s in after.locks && after.locks[s].holder == r
    {
      assert s in st.locks && st.locks[s].holder == r;
      assert s !in after.locks ==> Unfenced(st, after, s);
    }
    forall r, s | r in after.requests && Reading(after.requests[r], s) && s in after.db.seats
      && after.db.seats[s] == Booked
      ensures ShieldedSeat(after, s)
    {
      assert ShieldedSeat(st, s);
      var b :| Owns(st.db, b, s) && st.db.bookings[b].holder == st.locks[s].holder;
      assert Owns(after.db, b, s);
      assert s !in after.locks ==> Unfenced(st, after, s);
    }
  }

  lemma CommitRowsSafe(st: State, rid: Id, bid: Id, jid: Id)
    requires Safe(st) && CommitEnabled(st, rid, bid, jid)
    ensures var db := CommitNext(st, rid, bid, jid).db;
      && BookedMeansOwned(db) && SoleOwner(db)
      && forall b, s :: Owns(db, b, s) <==> (Owns(st.db, b, s) || (b == bid && s in st.requests[rid].seats))
  {
    CommitFindsAvailable(st, rid, bid, jid);
    var db := CommitNext(st, rid, bid, jid).db;
    assert forall b, s :: Owns(db, b, s) <==> (Owns(st.db, b, s) || (b == bid && s in st.requests[rid].seats));
    forall s | s in db.seats ensures db.seats[s] == Booked <==> exists b :: Owns(db, b, s) {
      if s in st.requests[rid].seats {
        assert Owns(db, bid, s);
      } else if st.db.seats[s] == Booked {
        var b :| Owns(st.db, b, s);
        assert Owns(db, b, s);
      }
    }
  }

  lemma CommitKeepsLocks(st: State, rid: Id, bid: Id, jid: Id)
    requires LocksKept(st) && CommitEnabled(st, rid, bid, jid)
    ensures LocksKept(CommitNext(st, rid, bid, jid))
  {
  }

  lemma CommitShields(st: State, rid: Id, bid: Id, jid: Id)
    requires Safe(st) && CommitEnabled(st, rid, bid, jid)
    ensures Shielded(CommitNext(st, rid, bid, jid))
  {
    var after := CommitNext(st, rid, bid, jid);
    forall r, s | r in after.requests && Reading(after.requests[r], s) && s in after.db.seats
      && after.db.seats[s] == Booked
      ensures ShieldedSeat(after, s)
    {
      assert r != rid && Reading(st.requests[r], s);
      if s in st.requests[rid].seats {
        CommitShieldsOwn(st, rid, bid, jid, s);
      } else {
        CommitShieldsOther(st, rid, bid, jid, s);
      }
    }
  }

  lemma CommitShieldsOwn(st: State, rid: Id, bid: Id, jid: Id, s: Seat)
    requires LocksKept(st) && CommitEnabled(st, rid, bid, jid) && s in st.requests[rid].seats
    ensures ShieldedSeat(CommitNext(st, rid, bid, jid), s)
  {
    assert Acquired(st.requests[rid]) == st.requests[rid].seats;
    assert Holding(st.requests[rid], s);
    assert Owns(CommitNext(st, rid, bid, jid).db, bid, s);
  }

  lemma CommitShieldsOther(st: State, rid: Id, bid: Id, jid: Id, s: Seat)
    requires IdsUsed(st) && CommitEnabled(st, rid, bid, jid) && ShieldedSeat(st, s)
    ensures ShieldedSeat(CommitNext(st, rid, bid, jid), s)
  {
    var b :| Owns(st.db, b, s) && st.db.bookings[b].holder == st.locks[s].holder;
    assert Owns(CommitNext(st, rid, bid, jid).db, b, s);
  }

  lemma AcquireKeepsLocks(st: State, rid: Id)
    requires LocksKept(st) && AcquireEnabled(st, rid)
    ensures LocksKept(AcquireNext(st, rid))
  {
    var r := st.requests[rid];
    var n := r.phase.acquired;
    assert r.seats[..n + 1] == r.seats[..n] + [r.seats[n]];
  }

  lemma AcquireShields(st: State, rid: Id)
    requires Shielded(st) && AcquireEnabled(st, rid)
    ensures Shielded(AcquireNext(st, rid))
  {
    var after := AcquireNext(st, rid);
    assert forall q, s :: q in after.requests && Reading(after.requests[q], s) ==>
      q in st.requests && Reading(st.requests[q], s);
  }

  lemma ReadKeepsLocks(st: State, rid: Id)
    requires LocksKept(st) && rid in st.requests && st.requests[rid].phase.EventFound?
    ensures LocksKept(ReadNext(st, rid))
  {
    assert forall s :: !Holding(ReadNext(st, rid).requests[rid], s);
  }

  lemma ReadShields(st: State, rid: Id)
    requires Shielded(st) && rid in st.requests && st.requests[rid].phase.EventFound?
    ensures Shielded(ReadNext(st, rid))
  {
    var after := ReadNext(st, rid);
    assert forall s :: Reading(after.requests[rid], s) ==> after.db.seats[s] == Available;
    assert forall s :: ShieldedSeat(st, s) ==> ShieldedSeat(after, s);
  }

  lemma RequestUnlocks(st: State, rid: Id, step: RequestStep)
    requires RequestEnabled(st, rid, step) && !step.ReadSeats? && !step.SetNx? && !step.Commit?
    ensures OnlyUnlocks(st, RequestNext(st, rid, step)) && RequestNext(st, rid, step).db == st.db
  {
  }

  lemma RequestLocksSafe(st: State, rid: Id, step: RequestStep)
    requires Safe(st) && RequestEnabled(st, rid, step)
    requires Fence(st, Booker(rid, step), RequestNext(st, rid, step))
    ensures LocksKept(RequestNext(st, rid, step)) && Shielded(RequestNext(st, rid, step))
  {
    match step
    case Commit(bid, jid) => CommitKeepsLocks(st, rid, bid, jid); CommitShields(st, rid, bid, jid);
    case SetNx => AcquireKeepsLocks(st, rid); AcquireShields(st, rid);
    case ReadSeats => ReadKeepsLocks(st, rid); ReadShields(st, rid);
    case _ =>
      RequestUnlocks(st, rid, step);
      UnlockingIsSafe(st, Booker(rid, step), RequestNext(st, rid, step));
  }

  lemma CommitJobsLive(st: State, rid: Id, bid: Id, jid: Id)
    requires JobsLive(st) && IdsUsed(st) && CommitEnabled(st, rid, bid, jid)
    ensures JobsLive(CommitNext(st, rid, bid, jid))
  {
  }

  lemma RequestJobsLive(st: State, rid: Id, step: RequestStep)
    requires JobsLive(st) && IdsUsed(st) && RequestEnabled(st, rid, step)
    ensures JobsLive(RequestNext(st, rid, step))
  {
    if step.Commit? {
      CommitJobsLive(st, rid, step.bid, step.jid);
    } else {
      assert RequestNext(st, rid, step).db == st.db && RequestNext(st, rid, step).workers == st.workers;
    }
  }

  lemma RequestSafe(st: State, rid: Id, step: RequestStep)
    requires Safe(st) && RequestEnabled(st, rid, step)
    requires Fence(st, Booker(rid, step), RequestNext(st, rid, step))
    ensures Safe(RequestNext(st, rid, step))
  {
    FitRequest(st, rid, step);
    RequestLocksSafe(st, rid, step);
    RequestJobsLive(st, rid, step);
    if step.Commit? { CommitRowsSafe(st, rid, step.bid, step.jid); }
  }

  /** Whom a cancel's step leaves owning what. */
  lemma CancelOwners(st: State, cid: Id, step: CancelStep)
    requires CancelEnabled(st, cid, step)
    ensures var after := CancelNext(st, cid, step);
      forall b, s :: Owns(after.db, b, s) <==> Owns(st.db, b, s) && !(step.WriteCancel? && b == st.cancels[cid].booking)
  {
  }

  lemma CancelSeats(st: State, cid: Id, step: CancelStep)
    requires BookedMeansOwned(st.db) && SoleOwner(st.db) && CancelEnabled(st, cid, step)
    requires FreshCancel(st, Canceller(cid, step), CancelNext(st, cid, step))
    ensures BookedMeansOwned(CancelNext(st, cid, step).db) && SoleOwner(CancelNext(st, cid, step).db)
  {
    CancelOwners(st, cid, step);
    var bid := st.cancels[cid].booking;
    if step.WriteCancel? {
      assert forall s :: s in st.db.bookings[bid].seats ==> Owns(st.db, bid, s);
    }
  }

  lemma CancelUnlocks(st: State, cid: Id, step: CancelStep)
    requires SoleOwner(st.db) && CancelEnabled(st, cid, step)
    requires FreshCancel(st, Canceller(cid, step), CancelNext(st, cid, step))
    ensures OnlyUnlocks(st, CancelNext(st, cid, step))
  {
    CancelOwners(st, cid, step);
    var bid := st.cancels[cid].booking;
    if step.WriteCancel? {
      assert forall s :: s in st.db.bookings[bid].seats ==> Owns(st.db, bid, s);
    }
  }

  lemma CancelJobsLive(st: State, cid: Id, step: CancelStep)
    requires JobsLive(st) && CancelEnabled(st, cid, step)
    requires CancelAfterJob(st, Canceller(cid, step), CancelNext(st, cid, step))
    ensures JobsLive(CancelNext(st, cid, step))
  {
  }

  lemma CancelSafe(st: State, cid: Id, step: CancelStep)
    requires Safe(st) && CancelEnabled(st, cid, step)
    requires Guards(st, Canceller(cid, step), CancelNext(st, cid, step))
    ensures Safe(CancelNext(st, cid, step))
  {
    FitCancel(st, cid, step);
    CancelSeats(st, cid, step);
    CancelJobsLive(st, cid, step);
    CancelUnlocks(st, cid, step);
    UnlockingIsSafe(st, Canceller(cid, step), CancelNext(st, cid, step));
  }

  lemma JobWriteLive(db: Db, locks: Locks, pc: Pc, qr: Option<string>)
    requires !pc.Idle? && JobPresent(db, pc.job) && Active(db.bookings[db.jobs[pc.job].booking])
    ensures var (out, _, next) := JobWrite(db, locks, pc, qr);
      && (next.Idle? || next.job == pc.job)
      && (forall j :: j in db.jobs && j != pc.job ==> out.jobs[j] == db.jobs[j])
      && (forall b :: b in db.bookings && Active(db.bookings[b]) ==> Active(out.bookings[b]))
  {
  }

  lemma WriteKeepsLive(st: State, wid: Id, qr: Option<string>)
    requires JobsLive(st) && RowsFit(st.db) && WriteEnabled(st, wid)
    ensures JobsLive(WriteNext(st, wid, qr))
  {
    var (out, locks, pc) := JobWrite(st.db, st.locks, st.workers[wid].pc, qr);
    JobWriteFits(st.db, st.locks, st.workers[wid].pc, qr);
    JobWriteLive(st.db, st.locks, st.workers[wid].pc, qr);
    var after := WriteNext(st, wid, qr);
    assert after.db == out && after.workers == st.workers[wid := st.workers[wid].(pc := pc)];
  }

  lemma WorkerJobsLive(st: State, wid: Id, step: WorkerStep)
    requires JobsLive(st) && RowsFit(st.db) && WorkerEnabled(st, wid, step)
    requires SweepChosen(st, Processor(wid, step), WorkerNext(st, wid, step))
    ensures JobsLive(WorkerNext(st, wid, step))
  {
    if step.Write? {
      WriteKeepsLive(st, wid, step.qr);
    }
  }

  /** A processor's writes neither give nor take a seat. */
  lemma JobWriteOwners(db: Db, locks: Locks, pc: Pc, qr: Option<string>)
    requires !pc.Idle? && JobPresent(db, pc.job) && Active(db.bookings[db.jobs[pc.job].booking])
    ensures var out := JobWrite(db, locks, pc, qr).0; forall b, s :: Owns(out, b, s) <==> Owns(db, b, s)
  {
  }

  lemma WorkerUnlocks(st: State, wid: Id, step: WorkerStep)
    requires JobsLive(st) && RowsFit(st.db) && WorkerEnabled(st, wid, step)
    ensures var after := WorkerNext(st, wid, step);
      && OnlyUnlocks(st, after) && after.db.seats == st.db.seats
      && forall b, s :: Owns(after.db, b, s) <==> Owns(st.db, b, s)
  {
    if step.Write? {
      JobWriteFits(st.db, st.locks, st.workers[wid].pc, step.qr);
      JobWriteOwners(st.db, st.locks, st.workers[wid].pc, step.qr);
    }
  }

  lemma WorkerSafe(st: State, wid: Id, step: WorkerStep)
    requires Safe(st) && WorkerEnabled(st, wid, step)
    requires Guards(st, Processor(wid, step), WorkerNext(st, wid, step))
    ensures Safe(WorkerNext(st, wid, step))
  {
    FitWorker(st, wid, step);
    WorkerJobsLive(st, wid, step);
    WorkerUnlocks(st, wid, step);
    UnlockingIsSafe(st, Processor(wid, step), WorkerNext(st, wid, step));
  }

  lemma WorldSafe(st: State, step: WorldStep)
    requires Safe(st) && WorldEnabled(st, step)
    requires Guards(st, World(step), WorldNext(st, step))
    ensures Safe(WorldNext(st, step))
  {
    FitWorld(st, step);
    var after := WorldNext(st, step);
    assert forall b, s :: Owns(after.db, b, s) <==> Owns(st.db, b, s);
    UnlockingIsSafe(st, World(step), after);
  }

  lemma {:induction false} SafeStep(st: State, a: Action)
    requires Safe(st) && Enabled(st, a) && Guards(st, a, Next(st, a))
    ensures Safe(Next(st, a))
  {
    match a
    case Submit(_, _, _) => FitStep(st, a); UnlockingIsSafe(st, a, Next(st, a));
    case Booker(rid, step) => RequestSafe(st, rid, step);
    case CheckCancel(_, _, _) => FitStep(st, a); UnlockingIsSafe(st, a, Next(st, a));
    case Canceller(cid, step) => CancelSafe(st, cid, step);
    case Processor(wid, step) => WorkerSafe(st, wid, step);
    case World(step) => WorldSafe(st, step);
  }

  // ---- whole runs ------------------------------------------------------------------------

  lemma InitSafe(st: State)
    requires Init(st)
    ensures Safe(st)
  {
  }

  lemma {:induction false} RunSafe(st: State, actions: seq<Action>)
    requires Safe(st) && Run(st, actions, Guards)
    ensures Safe(Final(st, actions, Guards))
    decreases |actions|
  {
    if actions != [] {
      SafeStep(st, actions[0]);
      RunSafe(Next(st, actions[0]), actions[1..]);
    }
  }

  function Owners(db: Db, s: Seat): set<Id> {
    set b | b in db.bookings && Owns(db, b, s)
  }

  /** Zero double bookings: whatever the interleaving, a seat is BOOKED exactly when one and only one booking that is
      not cancelled contains it, and AVAILABLE exactly when none does. */
  lemma NoDoubleBooking(st: State, actions: seq<Action>, s: Seat)
    requires Init(st) && Run(st, actions, Guards)
    requires s in Final(st, actions, Guards).db.seats
    ensures var db := Final(st, actions, Guards).db;
      && (db.seats[s] == Booked <==> |Owners(db, s)| == 1)
      && (db.seats[s] == Available <==> Owners(db, s) == {})
  {
    InitSafe(st);
    RunSafe(st, actions);
    var db := Final(st, actions, Guards).db;
    if b: Id :| Owns(db, b, s) {
      assert Owners(db, s) == {b};
    } else {
      assert Owners(db, s) == {};
    }
  }
}
