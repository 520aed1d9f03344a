/** Timing gives the fence.  If every booking request is over, or at least past its transaction, within `d` of its
    availability read, and the configuration meets `Settings`, then no step of the protocol removes a lock that
    `Safety.Fence` protects.  `Bounds` shows that `Settings` asks for no more than it must. */
module Timing {
  import opened Store
  import opened Protocol
  import opened Safety
  import opened Always

  // ---- hypotheses ------------------------------------------------------------------------

  /** The request has read its seats and has not finished its transaction, its rollback or its release. */
  predicate Pending(r: Request) {
    r.phase.Locking? || r.phase.RollingBack? || r.phase.Releasing?
  }

  predicate Wants(r: Request, s: Seat) {
    Pending(r) && s in r.seats
  }

  ghost predicate Timely(st: State, d: nat) {
    forall r :: r in st.requests && Pending(st.requests[r]) ==> st.now <= st.requests[r].readAt + d
  }

  /** Once a cancel has checked the status, its transaction and its release follow at once (or it dies). */
  ghost predicate AtomicCancel(st: State, a: Action, after: State) {
    forall c :: c in st.cancels && !st.cancels[c].phase.Ended? ==> a.Canceller? && a.cid == c
  }

  predicate PushWorks(st: State, a: Action, after: State) {
    !(a.Booker? && a.rstep.FailPush?)
  }

  ghost predicate InTime(d: nat, st: State, a: Action, after: State) {
    && Timely(after, d) && PushWorks(st, a, after) && OwnQueue(st, a, after)
    && AtomicCancel(st, a, after) && CancelAfterJob(st, a, after) && SweepChosen(st, a, after)
  }

  ghost function Within(d: nat): Hypothesis {
    (st, a, after) => InTime(d, st, a, after)
  }

  /** What the configuration has to meet: the TTL outlives two requests one after the other, and a job is not stuck
      before every older request is over.  Requests that take no time need neither, and a worker that never makes an
      attempt never deletes a lock. */
  predicate Settings(cfg: Config, d: nat) {
    && (d == 0 || cfg.ttl > 2 * d)
    && (cfg.threshold >= d || cfg.maxAttempts == 0)
  }

  // ---- invariants ------------------------------------------------------------------------

  /** The locks that a request has set and not yet deleted. */
  function Taken(r: Request): seq<Seat> {
    if r.phase.Releasing? then r.seats else Acquired(r)
  }

  ghost predicate OwnLocks(st: State) {
    forall r, s :: r in st.requests && s in Taken(st.requests[r]) ==>
      s in st.locks && st.locks[s].holder == r && st.locks[s].expiresAt >= st.requests[r].readAt + st.cfg.ttl
  }

  ghost predicate ReadsPast(st: State) {
    forall r :: r in st.requests ==> st.requests[r].readAt <= st.now
  }

  /** Request `r` wants `s`, which the booking of job `j` owns: it read `s` before that booking committed, and the lock
      the booking took is still there. */
  ghost predicate OlderReader(st: State, d: nat, j: Id, s: Seat, r: Id)
    requires j in st.db.jobs && r in st.requests
  {
    var job := st.db.jobs[j];
    && st.requests[r].readAt <= job.createdAt
    && s in st.locks
    && job.booking in st.db.bookings && st.locks[s].holder == st.db.bookings[job.booking].holder
    && st.locks[s].expiresAt + d >= job.createdAt + st.cfg.ttl
  }

  ghost predicate OwnedLocks(st: State, d: nat) {
    forall j, s, r ::
      j in st.db.jobs && Owns(st.db, st.db.jobs[j].booking, s) && r in st.requests && Wants(st.requests[r], s) ==>
        OlderReader(st, d, j, s, r)
  }

  predicate Old(st: State, j: Id) {
    j in st.db.jobs && st.db.jobs[j].createdAt + st.cfg.threshold < st.now
  }

  /** Whatever a processor has been given, and whatever has ended, was stuck. */
  ghost predicate OnlyOldJobs(st: State) {
    && (forall w, j :: w in st.workers && j in st.workers[w].todo ==> Old(st, j))
    && (forall w :: w in st.workers && !st.workers[w].pc.Idle? ==> Old(st, st.workers[w].pc.job))
    && (forall j :: j in st.db.jobs && Terminal(st.db.jobs[j]) ==> Old(st, j))
  }

  /** Nobody who wants `s` has locked it, and nobody wants it at all if it is owned. */
  ghost predicate Spare(st: State, s: Seat) {
    && (forall r :: r in st.requests ==> s !in Taken(st.requests[r]))
    && (forall b, r :: Owns(st.db, b, s) && r in st.requests ==> !Wants(st.requests[r], s))
  }

  /** Cancel `c` is about to delete the lock of `s`. */
  predicate DueFor(st: State, c: Id, s: Seat)
    requires c in st.cancels
  {
    var b := st.cancels[c].booking;
    st.cancels[c].phase.ReleaseDue? && b in st.db.bookings && s in st.db.bookings[b].seats
  }

  ghost predicate CancelsFresh(st: State) {
    && (forall c :: c in st.cancels && st.cancels[c].phase.Checked? ==>
          st.cancels[c].booking in st.db.bookings && Active(st.db.bookings[st.cancels[c].booking]))
    && (forall c, s :: c in st.cancels && DueFor(st, c, s) ==> Spare(st, s))
  }

  /** Only a request whose transaction failed is releasing its locks. */
  ghost predicate NoReleaser(st: State) {
    forall b :: b in st.db.bookings ==>
      st.db.bookings[b].holder in st.requests && !st.requests[st.db.bookings[b].holder].phase.Releasing?
  }

  /** With no attempts allowed, a processor only ever marks jobs and bookings FAILED. */
  predicate NoAttempts(st: State) {
    st.cfg.maxAttempts == 0 ==>
      forall w :: w in st.workers ==>
        st.workers[w].pc.Idle? || st.workers[w].pc.FailingJob? || st.workers[w].pc.FailingBooking?
  }

  ghost predicate Bookkept(st: State) {
    ReadsPast(st) && OnlyOldJobs(st) && NoReleaser(st) && NoAttempts(st)
  }

  ghost predicate TimedLocks(st: State, d: nat) {
    OwnLocks(st) && OwnedLocks(st, d) && Bookkept(st) && CancelsFresh(st)
  }

  ghost predicate Timed(st: State, d: nat) {
    Settings(st.cfg, d) && Timely(st, d) && TimedLocks(st, d) && QueueOfBookings(st) && OneJobEach(st.db)
  }

  // ---- what a removed lock was not -------------------------------------------------------

  ghost predicate RemovedSpare(st: State, after: State) {
    forall s :: s in st.locks && s !in after.locks ==> Spare(after, s)
  }

  /** By the time a processor or a cancel unlocks a booking's seats, every request with an older read is over. */
  lemma NobodyWaits(st: State, d: nat, j: Id, s: Seat, r: Id)
    requires st.cfg.threshold >= d && Timely(st, d) && OwnedLocks(st, d) && Old(st, j)
    requires Owns(st.db, st.db.jobs[j].booking, s) && r in st.requests
    ensures !Wants(st.requests[r], s)
  {
    assert Wants(st.requests[r], s) ==> OlderReader(st, d, j, s, r);
  }

  lemma TickSpares(st: State, d: nat)
    requires Settings(st.cfg, d) && OwnLocks(st) && OwnedLocks(st, d) && OneJobEach(st.db) && ReadsPast(st)
    requires Timely(WorldNext(st, Tick), d)
    ensures RemovedSpare(st, WorldNext(st, Tick))
  {
    var after := WorldNext(st, Tick);
    assert d == 0 ==> forall r :: r in st.requests ==> !Pending(st.requests[r]);
    forall s | s in st.locks && s !in after.locks ensures Spare(after, s) {
      forall b, r | Owns(after.db, b, s) && r in after.requests ensures !Wants(after.requests[r], s) {
        var j :| j in st.db.jobs && st.db.jobs[j].booking == b;
        assert Wants(after.requests[r], s) ==> OlderReader(st, d, j, s, r);
      }
    }
  }

  /** A rollback, or the release after a failed transaction, deletes the request's own locks only. */
  lemma ReleaseSpares(st: State, d: nat, rid: Id, step: RequestStep)
    requires OwnLocks(st) && OwnedLocks(st, d) && OneJobEach(st.db) && HoldersDone(st) && NoReleaser(st)
    requires RequestEnabled(st, rid, step) && (step.RollBack? || step.Release?)
    ensures RemovedSpare(st, RequestNext(st, rid, step))
  {
    var after := RequestNext(st, rid, step);
    assert after.db == st.db && !Pending(after.requests[rid]);
    assert forall r :: r in after.requests && r != rid ==> r in st.requests && after.requests[r] == st.requests[r];
    forall s | s in st.locks && s !in after.locks ensures Spare(after, s) {
      assert s in Taken(st.requests[rid]);
      TakenIsSpare(st, d, rid, s);
    }
  }

  /** Once its holder is done with it, a lock that one request has taken is of no use to any other. */
  lemma TakenIsSpare(st: State, d: nat, rid: Id, s: Seat)
    requires OwnLocks(st) && OwnedLocks(st, d) && OneJobEach(st.db) && HoldersDone(st) && NoReleaser(st)
    requires rid in st.requests && s in Taken(st.requests[rid])
    ensures forall r :: r in st.requests && r != rid ==> s !in Taken(st.requests[r])
    ensures forall b, r :: Owns(st.db, b, s) && r in st.requests && r != rid ==> !Wants(st.requests[r], s)
  {
    assert s in st.locks && st.locks[s].holder == rid && Pending(st.requests[rid]);
    forall b, r | Owns(st.db, b, s) && r in st.requests && r != rid ensures !Wants(st.requests[r], s) {
      var j :| j in st.db.jobs && st.db.jobs[j].booking == b;
      assert Wants(st.requests[r], s) ==> OlderReader(st, d, j, s, r);
    }
  }

  lemma OthersKeepLocks(st: State, rid: Id, step: RequestStep)
    requires RequestEnabled(st, rid, step) && !step.RollBack? && !step.Release?
    ensures st.locks.Keys <= RequestNext(st, rid, step).locks.Keys
  {
  }

  lemma WorkerSpares(st: State, d: nat, wid: Id, step: WorkerStep)
    requires Settings(st.cfg, d) && Timely(st, d) && OwnedLocks(st, d) && OnlyOldJobs(st) && NoAttempts(st)
    requires JobsLive(st)
    requires WorkerEnabled(st, wid, step)
    ensures RemovedSpare(st, WorkerNext(st, wid, step))
  {
    var after := WorkerNext(st, wid, step);
    forall s | s in st.locks && s !in after.locks ensures Spare(after, s) {
      var j := st.workers[wid].pc.job;
      assert st.workers[wid].pc.Unlocking?;
      assert Owns(st.db, st.db.jobs[j].booking, s);
      forall r | r in after.requests ensures !Wants(after.requests[r], s) {
        NobodyWaits(st, d, j, s, r);
      }
      assert forall r :: r in after.requests && s in Taken(after.requests[r]) ==> Wants(after.requests[r], s);
    }
  }

  lemma CancelSpares(st: State, cid: Id, step: CancelStep)
    requires CancelsFresh(st) && CancelEnabled(st, cid, step)
    ensures RemovedSpare(st, CancelNext(st, cid, step))
  {
    var after := CancelNext(st, cid, step);
    forall s | s in st.locks && s !in after.locks ensures Spare(after, s) {
      assert DueFor(st, cid, s);
    }
  }

  /** No waiting request moves. */
  ghost predicate WaitersStay(st: State, after: State) {
    forall r :: r in st.requests && st.requests[r].phase.Locking? ==>
      r in after.requests && after.requests[r] == st.requests[r]
  }

  /** A step that removes only spare locks meets the fence. */
  lemma SpareMeetsFence(st: State, a: Action, after: State)
    requires RemovedSpare(st, after) && (WaitersStay(st, after) || st.locks.Keys <= after.locks.Keys)
    ensures Fence(st, a, after)
  {
    forall s | s in st.locks && s !in after.locks ensures Unfenced(st, after, s) {
      assert Spare(after, s);
    }
  }

  // ---- lock invariants over a step -------------------------------------------------------

  /** No request wants, takes or reads anything new, no booking gains a seat, and locks only go. */
  ghost predicate Quiet(st: State, after: State) {
    && after.cfg == st.cfg
    && (forall r :: r in after.requests && Pending(after.requests[r]) ==>
          && r in st.requests && Pending(st.requests[r])
          && after.requests[r].seats == st.requests[r].seats && after.requests[r].readAt == st.requests[r].readAt
          && SetOf(Taken(after.requests[r])) <= SetOf(Taken(st.requests[r])))
    && (forall s :: s in after.locks ==> s in st.locks && after.locks[s] == st.locks[s])
    && (forall j, s :: j in after.db.jobs && Owns(after.db, after.db.jobs[j].booking, s) ==>
          && j in st.db.jobs && after.db.jobs[j].booking == st.db.jobs[j].booking
          && after.db.jobs[j].createdAt == st.db.jobs[j].createdAt
          && Owns(st.db, st.db.jobs[j].booking, s)
          && after.db.bookings[after.db.jobs[j].booking].holder == st.db.bookings[st.db.jobs[j].booking].holder)
  }

  lemma QuietKeepsOwnLocks(st: State, after: State)
    requires OwnLocks(st) && Quiet(st, after) && RemovedSpare(st, after)
    ensures OwnLocks(after)
  {
    forall r, s | r in after.requests && s in Taken(after.requests[r])
      ensures s in after.locks && after.locks[s].holder == r
      ensures after.locks[s].expiresAt >= after.requests[r].readAt + after.cfg.ttl
    {
      assert s in SetOf(Taken(after.requests[r]));
      assert s in Taken(st.requests[r]);
      assert s in st.locks && s !in after.locks ==> Spare(after, s);
    }
  }

  lemma QuietKeepsOwnedLocks(st: State, d: nat, after: State)
    requires OwnedLocks(st, d) && Quiet(st, after) && RemovedSpare(st, after)
    ensures OwnedLocks(after, d)
  {
    forall j, s, r | j in after.db.jobs && Owns(after.db, after.db.jobs[j].booking, s) && r in after.requests
      && Wants(after.requests[r], s)
      ensures OlderReader(after, d, j, s, r)
    {
      assert OlderReader(st, d, j, s, r);
      assert s in st.locks && s !in after.locks ==> Spare(after, s);
    }
  }

  lemma RequestQuiet(st: State, rid: Id, step: RequestStep)
    requires RequestEnabled(st, rid, step) && !step.SetNx? && !step.ReadSeats? && !step.Commit? && !step.FailPush?
    ensures Quiet(st, RequestNext(st, rid, step))
  {
    var r := st.requests[rid];
    assert r.seats[..|r.seats|] == r.seats;
  }

  lemma CancelQuiet(st: State, cid: Id, step: CancelStep)
    requires CancelEnabled(st, cid, step)
    ensures Quiet(st, CancelNext(st, cid, step))
  {
  }

  lemma JobWriteQuiet(db: Db, locks: Locks, pc: Pc, qr: Option<string>)
    requires !pc.Idle? && JobPresent(db, pc.job)
    ensures var out := JobWrite(db, locks, pc, qr).0;
      && out.jobs.Keys == db.jobs.Keys
      && forall j :: j in db.jobs ==>
           out.jobs[j].booking == db.jobs[j].booking && out.jobs[j].createdAt == db.jobs[j].createdAt
  {
  }

  lemma WorkerQuiet(st: State, wid: Id, step: WorkerStep)
    requires JobsLive(st) && RowsFit(st.db) && WorkerEnabled(st, wid, step)
    ensures Quiet(st, WorkerNext(st, wid, step))
  {
    WorkerUnlocks(st, wid, step);
    if step.Write? {
      JobWriteFits(st.db, st.locks, st.workers[wid].pc, step.qr);
      JobWriteQuiet(st.db, st.locks, st.workers[wid].pc, step.qr);
    }
  }

  lemma WorldQuiet(st: State, step: WorldStep)
    requires RowsFit(st.db) && WorldEnabled(st, step)
    ensures Quiet(st, WorldNext(st, step))
  {
  }

  lemma AcquireKeepsOwnLocks(st: State, rid: Id)
    requires OwnLocks(st) && ReadsPast(st) && AcquireEnabled(st, rid)
    ensures OwnLocks(AcquireNext(st, rid))
  {
    var r := st.requests[rid];
    var n := r.phase.acquired;
    assert r.seats[..n + 1] == r.seats[..n] + [r.seats[n]];
  }

  lemma AcquireKeepsOwnedLocks(st: State, d: nat, rid: Id)
    requires OwnedLocks(st, d) && AcquireEnabled(st, rid)
    ensures OwnedLocks(AcquireNext(st, rid), d)
  {
    var after := AcquireNext(st, rid);
    assert forall q :: q in after.requests && q != rid ==> after.requests[q] == st.requests[q];
    forall j, s, q | j in after.db.jobs && Owns(after.db, after.db.jobs[j].booking, s) && q in after.requests
      && Wants(after.requests[q], s)
      ensures OlderReader(after, d, j, s, q)
    {
      assert OlderReader(st, d, j, s, q);
    }
  }

  lemma ReadKeepsOwnLocks(st: State, rid: Id)
    requires OwnLocks(st) && rid in st.requests && st.requests[rid].phase.EventFound?
    ensures OwnLocks(ReadNext(st, rid))
  {
    assert Taken(ReadNext(st, rid).requests[rid]) == [];
  }

  lemma ReadKeepsOwnedLocks(st: State, d: nat, rid: Id)
    requires OwnedLocks(st, d) && BookedMeansOwned(st.db) && rid in st.requests && st.requests[rid].phase.EventFound?
    ensures OwnedLocks(ReadNext(st, rid), d)
  {
    var after := ReadNext(st, rid);
    assert forall q :: q in after.requests && q != rid ==> after.requests[q] == st.requests[q];
    assert forall s :: Wants(after.requests[rid], s) ==> s in st.db.seats && st.db.seats[s] == Available;
    forall j, s, q | j in after.db.jobs && Owns(after.db, after.db.jobs[j].booking, s) && q in after.requests
      && Wants(after.requests[q], s)
      ensures OlderReader(after, d, j, s, q)
    {
      assert q != rid;
      assert OlderReader(st, d, j, s, q);
    }
  }

  lemma CommitKeepsOwnLocks(st: State, rid: Id, bid: Id, jid: Id)
    requires OwnLocks(st) && CommitEnabled(st, rid, bid, jid)
    ensures OwnLocks(CommitNext(st, rid, bid, jid))
  {
  }

  /** The new booking's seats are locked by its own request, and whoever else wants them read them before. */
  lemma CommitOlderReader(st: State, d: nat, rid: Id, bid: Id, jid: Id, s: Seat, q: Id)
    requires OwnLocks(st) && ReadsPast(st) && Timely(st, d) && CommitEnabled(st, rid, bid, jid)
    requires s in st.requests[rid].seats && q in st.requests
    ensures OlderReader(CommitNext(st, rid, bid, jid), d, jid, s, q)
  {
    assert Acquired(st.requests[rid]) == st.requests[rid].seats;
    assert s in Taken(st.requests[rid]);
  }

  lemma CommitKeepsOwnedLocks(st: State, d: nat, rid: Id, bid: Id, jid: Id)
    requires OwnLocks(st) && OwnedLocks(st, d) && RowsFit(st.db) && IdsUsed(st) && ReadsPast(st) && Timely(st, d)
    requires CommitEnabled(st, rid, bid, jid)
    ensures OwnedLocks(CommitNext(st, rid, bid, jid), d)
  {
    var after := CommitNext(st, rid, bid, jid);
    assert forall q :: q in after.requests && q != rid ==> after.requests[q] == st.requests[q];
    forall j, s, q | j in after.db.jobs && Owns(after.db, after.db.jobs[j].booking, s) && q in after.requests
      && Wants(after.requests[q], s)
      ensures OlderReader(after, d, j, s, q)
    {
      if j == jid {
        CommitOlderReader(st, d, rid, bid, jid, s, q);
      } else {
        assert st.db.jobs[j].booking != bid;
        assert OlderReader(st, d, j, s, q);
      }
    }
  }

  // ---- the other invariants over a step --------------------------------------------------

  lemma RequestNoReleaser(st: State, rid: Id, step: RequestStep)
    requires NoReleaser(st) && HoldersDone(st) && RequestEnabled(st, rid, step) && !step.FailPush?
    ensures NoReleaser(RequestNext(st, rid, step))
  {
  }

  lemma RequestBookkept(st: State, rid: Id, step: RequestStep)
    requires ReadsPast(st) && OnlyOldJobs(st) && IdsUsed(st) && RequestEnabled(st, rid, step)
    ensures var after := RequestNext(st, rid, step); ReadsPast(after) && OnlyOldJobs(after) && after.cfg == st.cfg
    ensures NoAttempts(st) ==> NoAttempts(RequestNext(st, rid, step))
  {
    var after := RequestNext(st, rid, step);
    RequestKeepsJobs(st, rid, step);
    assert forall j :: Old(st, j) ==> Old(after, j);
  }

  lemma RequestKeepsJobs(st: State, rid: Id, step: RequestStep)
    requires IdsUsed(st) && RequestEnabled(st, rid, step)
    ensures var after := RequestNext(st, rid, step);
      && after.workers == st.workers && after.now == st.now
      && (forall j :: j in st.db.jobs ==> j in after.db.jobs && after.db.jobs[j] == st.db.jobs[j])
      && (forall j :: j in after.db.jobs && j !in st.db.jobs ==> !Terminal(after.db.jobs[j]))
  {
  }

  lemma CancelBookkept(st: State, cid: Id, step: CancelStep)
    requires Bookkept(st) && CancelEnabled(st, cid, step)
    ensures var after := CancelNext(st, cid, step); Bookkept(after) && after.cfg == st.cfg
  {
    assert forall j :: Old(st, j) ==> Old(CancelNext(st, cid, step), j);
  }

  lemma WriteOldJobs(st: State, wid: Id, qr: Option<string>)
    requires OnlyOldJobs(st) && WorkerEnabled(st, wid, Write(qr))
    ensures OnlyOldJobs(WorkerNext(st, wid, Write(qr)))
  {
    JobWriteQuiet(st.db, st.locks, st.workers[wid].pc, qr);
    var after := WorkerNext(st, wid, Write(qr));
    assert forall j :: Old(st, j) ==> Old(after, j);
    assert forall j :: j in st.db.jobs && j != st.workers[wid].pc.job ==> after.db.jobs[j] == st.db.jobs[j];
  }

  lemma WorkerOldJobs(st: State, wid: Id, step: WorkerStep)
    requires OnlyOldJobs(st) && QueueOfBookings(st) && WorkerEnabled(st, wid, step)
    ensures OnlyOldJobs(WorkerNext(st, wid, step))
  {
    var w := st.workers[wid];
    if !step.Write? { assert forall j :: Old(st, j) ==> Old(WorkerNext(st, wid, step), j); }
    match step
    case Write(qr) => WriteOldJobs(st, wid, qr);
    case Deliver => assert st.queue[|st.queue| - 1] in st.queue;
    case Sweep(ids) => assert forall j :: j in ids ==> Stuck(st.db, st.cfg.threshold, st.now, j);
    case Load => assert w.todo[0] in w.todo;
    case Throw =>
    case Die =>
  }

  lemma WorkerBookkept(st: State, wid: Id, step: WorkerStep)
    requires ReadsPast(st) && NoReleaser(st) && WorkerEnabled(st, wid, step)
    ensures var after := WorkerNext(st, wid, step); ReadsPast(after) && NoReleaser(after) && after.cfg == st.cfg
    ensures NoAttempts(st) ==> NoAttempts(WorkerNext(st, wid, step))
  {
    if step.Write? { JobWriteKeepsHolders(st.db, st.locks, st.workers[wid].pc, step.qr); }
  }

  lemma WorldBookkept(st: State, step: WorldStep)
    requires Bookkept(st) && WorldEnabled(st, step)
    ensures var after := WorldNext(st, step); Bookkept(after) && after.cfg == st.cfg
  {
    assert forall j :: Old(st, j) ==> Old(WorldNext(st, step), j);
  }

  /** A lock that a cancel of its booking finds in place is the booking's own: no pending request has taken it. */
  lemma BookingsOwnLock(st: State, d: nat, b: Id, s: Seat, r: Id)
    requires OwnLocks(st) && OwnedLocks(st, d) && NoReleaser(st) && HoldersDone(st) && OneJobEach(st.db)
    requires Owns(st.db, b, s) && r in st.requests
    ensures s !in Taken(st.requests[r])
  {
    var j :| j in st.db.jobs && st.db.jobs[j].booking == b;
    assert s in Taken(st.requests[r]) ==> Wants(st.requests[r], s);
    assert Wants(st.requests[r], s) ==> OlderReader(st, d, j, s, r);
  }

  /** A checked cancel finds its booking live, and leaves seats that nobody owns and nobody has locked. */
  lemma WriteCancelFresh(st: State, d: nat, cid: Id)
    requires OwnLocks(st) && OwnedLocks(st, d) && NoReleaser(st) && HoldersDone(st) && OneJobEach(st.db)
    requires CancelsFresh(st) && SoleOwner(st.db) && CancelEnabled(st, cid, WriteCancel)
    ensures FreshCancel(st, Canceller(cid, WriteCancel), CancelNext(st, cid, WriteCancel))
    ensures forall s :: s in st.db.bookings[st.cancels[cid].booking].seats ==>
      Spare(CancelNext(st, cid, WriteCancel), s)
  {
    var b := st.cancels[cid].booking;
    var after := CancelNext(st, cid, WriteCancel);
    CancelOwners(st, cid, WriteCancel);
    forall s | s in st.db.bookings[b].seats ensures Spare(after, s) {
      assert Owns(st.db, b, s);
      forall r | r in after.requests ensures s !in Taken(after.requests[r]) {
        BookingsOwnLock(st, d, b, s, r);
      }
    }
  }

  // ---- one step --------------------------------------------------------------------------

  /** What `Guards` asks of a step and what is left of `Timed` after it. */
  ghost predicate StepTimed(st: State, d: nat, a: Action, after: State) {
    Fence(st, a, after) && FreshCancel(st, a, after) && TimedLocks(after, d) && after.cfg == st.cfg
  }

  lemma RequestLocksTimed(st: State, d: nat, rid: Id, step: RequestStep)
    requires Timed(st, d) && Fit(st) && BookedMeansOwned(st.db) && RequestEnabled(st, rid, step) && !step.FailPush?
    ensures var after := RequestNext(st, rid, step);
      OwnLocks(after) && OwnedLocks(after, d) && Fence(st, Booker(rid, step), after)
  {
    var after := RequestNext(st, rid, step);
    if step.RollBack? || step.Release? {
      ReleaseSpares(st, d, rid, step);
      assert WaitersStay(st, after);
    } else {
      OthersKeepLocks(st, rid, step);
    }
    SpareMeetsFence(st, Booker(rid, step), after);
    match step
    case SetNx => AcquireKeepsOwnLocks(st, rid); AcquireKeepsOwnedLocks(st, d, rid);
    case ReadSeats => ReadKeepsOwnLocks(st, rid); ReadKeepsOwnedLocks(st, d, rid);
    case Commit(bid, jid) => CommitKeepsOwnLocks(st, rid, bid, jid); CommitKeepsOwnedLocks(st, d, rid, bid, jid);
    case _ =>
      RequestQuiet(st, rid, step);
      QuietKeepsOwnLocks(st, after);
      QuietKeepsOwnedLocks(st, d, after);
  }

  /** Outside a cancel none is under way, so nothing is left to show about cancels. */
  lemma IdleCancelsFresh(st: State, a: Action, after: State)
    requires AtomicCancel(st, a, after) && !a.Canceller? && after.cancels == st.cancels
    ensures CancelsFresh(after)
  {
  }

  lemma RequestTimed(st: State, d: nat, rid: Id, step: RequestStep)
    requires Timed(st, d) && Fit(st) && BookedMeansOwned(st.db) && RequestEnabled(st, rid, step)
    requires PushWorks(st, Booker(rid, step), RequestNext(st, rid, step))
    requires AtomicCancel(st, Booker(rid, step), RequestNext(st, rid, step))
    ensures StepTimed(st, d, Booker(rid, step), RequestNext(st, rid, step))
  {
    RequestLocksTimed(st, d, rid, step);
    RequestNoReleaser(st, rid, step);
    RequestBookkept(st, rid, step);
    RequestFrame(st, rid, step);
    IdleCancelsFresh(st, Booker(rid, step), RequestNext(st, rid, step));
  }

  lemma RequestFrame(st: State, rid: Id, step: RequestStep)
    requires RequestEnabled(st, rid, step)
    ensures RequestNext(st, rid, step).cancels == st.cancels
  {
  }

  lemma CancelKeepsFresh(st: State, d: nat, cid: Id, step: CancelStep)
    requires OwnLocks(st) && OwnedLocks(st, d) && NoReleaser(st) && HoldersDone(st) && OneJobEach(st.db)
    requires CancelsFresh(st) && SoleOwner(st.db) && CancelEnabled(st, cid, step)
    requires AtomicCancel(st, Canceller(cid, step), CancelNext(st, cid, step))
    ensures CancelsFresh(CancelNext(st, cid, step))
    ensures FreshCancel(st, Canceller(cid, step), CancelNext(st, cid, step))
  {
    var after := CancelNext(st, cid, step);
    if step.WriteCancel? { WriteCancelFresh(st, d, cid); }
    assert forall c :: c in after.cancels && c != cid ==> after.cancels[c].phase.Ended?;
    assert forall s :: DueFor(after, cid, s) ==> s in st.db.bookings[st.cancels[cid].booking].seats;
  }

  lemma CancelTimed(st: State, d: nat, cid: Id, step: CancelStep)
    requires Timed(st, d) && HoldersDone(st) && SoleOwner(st.db) && CancelEnabled(st, cid, step)
    requires AtomicCancel(st, Canceller(cid, step), CancelNext(st, cid, step))
    ensures StepTimed(st, d, Canceller(cid, step), CancelNext(st, cid, step))
  {
    var after := CancelNext(st, cid, step);
    CancelSpares(st, cid, step);
    CancelKeepsFresh(st, d, cid, step);
    SpareMeetsFence(st, Canceller(cid, step), after);
    CancelQuiet(st, cid, step);
    QuietKeepsOwnLocks(st, after);
    QuietKeepsOwnedLocks(st, d, after);
    CancelBookkept(st, cid, step);
  }

  lemma WorkerTimed(st: State, d: nat, wid: Id, step: WorkerStep)
    requires Timed(st, d) && Fit(st) && JobsLive(st) && WorkerEnabled(st, wid, step)
    requires InTime(d, st, Processor(wid, step), WorkerNext(st, wid, step))
    ensures StepTimed(st, d, Processor(wid, step), WorkerNext(st, wid, step))
  {
    var after := WorkerNext(st, wid, step);
    WorkerSpares(st, d, wid, step);
    SpareMeetsFence(st, Processor(wid, step), after);
    WorkerQuiet(st, wid, step);
    QuietKeepsOwnLocks(st, after);
    QuietKeepsOwnedLocks(st, d, after);
    WorkerBookkept(st, wid, step);
    WorkerOldJobs(st, wid, step);
    assert after.cancels == st.cancels;
  }

  lemma WorldTimed(st: State, d: nat, step: WorldStep)
    requires Timed(st, d) && Fit(st) && WorldEnabled(st, step)
    requires InTime(d, st, World(step), WorldNext(st, step))
    ensures StepTimed(st, d, World(step), WorldNext(st, step))
  {
    var after := WorldNext(st, step);
    if step.Tick? { TickSpares(st, d); }
    SpareMeetsFence(st, World(step), after);
    WorldQuiet(st, step);
    QuietKeepsOwnLocks(st, after);
    QuietKeepsOwnedLocks(st, d, after);
    WorldBookkept(st, step);
    assert after.cancels == st.cancels;
  }

  lemma SubmitLocks(st: State, d: nat, rid: Id, event: Id, seats: seq<Seat>)
    requires OwnLocks(st) && OwnedLocks(st, d) && SubmitEnabled(st, rid, event, seats)
    ensures var after := Next(st, Submit(rid, event, seats));
      OwnLocks(after) && OwnedLocks(after, d) && Fence(st, Submit(rid, event, seats), after)
  {
    var after := Next(st, Submit(rid, event, seats));
    assert Quiet(st, after);
    QuietKeepsOwnLocks(st, after);
    QuietKeepsOwnedLocks(st, d, after);
  }

  lemma SubmitBookkept(st: State, rid: Id, event: Id, seats: seq<Seat>)
    requires Bookkept(st) && HoldersDone(st) && SubmitEnabled(st, rid, event, seats)
    ensures Bookkept(Next(st, Submit(rid, event, seats)))
  {
    var after := Next(st, Submit(rid, event, seats));
    assert forall j :: Old(st, j) ==> Old(after, j);
  }

  lemma SubmitTimed(st: State, d: nat, rid: Id, event: Id, seats: seq<Seat>)
    requires TimedLocks(st, d) && HoldersDone(st) && SubmitEnabled(st, rid, event, seats)
    requires AtomicCancel(st, Submit(rid, event, seats), Next(st, Submit(rid, event, seats)))
    ensures StepTimed(st, d, Submit(rid, event, seats), Next(st, Submit(rid, event, seats)))
  {
    SubmitLocks(st, d, rid, event, seats);
    SubmitBookkept(st, rid, event, seats);
    IdleCancelsFresh(st, Submit(rid, event, seats), Next(st, Submit(rid, event, seats)));
  }

  lemma CheckTimed(st: State, d: nat, cid: Id, bid: Id, byAdmin: bool)
    requires TimedLocks(st, d) && CheckEnabled(st, cid, bid)
    ensures StepTimed(st, d, CheckCancel(cid, bid, byAdmin), Next(st, CheckCancel(cid, bid, byAdmin)))
  {
    var after := Next(st, CheckCancel(cid, bid, byAdmin));
    assert Quiet(st, after);
    QuietKeepsOwnLocks(st, after);
    QuietKeepsOwnedLocks(st, d, after);
    assert forall j :: Old(st, j) ==> Old(after, j);
    assert forall c, s :: c in st.cancels ==> (DueFor(after, c, s) <==> DueFor(st, c, s));
    assert forall s :: Spare(st, s) ==> Spare(after, s);
  }

  lemma TimedStep(st: State, d: nat, a: Action)
    requires Safe(st) && Timed(st, d) && Enabled(st, a) && InTime(d, st, a, Next(st, a))
    ensures Guards(st, a, Next(st, a)) && Timed(Next(st, a), d)
  {
    OneJobStep(st, a);
    QueueStep(st, a);
    match a
    case Submit(rid, event, seats) => SubmitTimed(st, d, rid, event, seats);
    case Booker(rid, step) => RequestTimed(st, d, rid, step);
    case CheckCancel(cid, bid, byAdmin) => CheckTimed(st, d, cid, bid, byAdmin);
    case Canceller(cid, step) => CancelTimed(st, d, cid, step);
    case Processor(wid, step) => WorkerTimed(st, d, wid, step);
    case World(step) => WorldTimed(st, d, step);
  }

  // ---- whole runs ------------------------------------------------------------------------

  lemma {:induction false} TimedRun(st: State, d: nat, actions: seq<Action>)
    requires Safe(st) && Timed(st, d) && Run(st, actions, Within(d))
    ensures Run(st, actions, Guards) && Final(st, actions, Guards) == Final(st, actions, Within(d))
    decreases |actions|
  {
    if actions != [] {
      TimedStep(st, d, actions[0]);
      SafeStep(st, actions[0]);
      TimedRun(Next(st, actions[0]), d, actions[1..]);
    }
  }

  /** When the configuration meets `Settings`, every run in which requests take at most `d`, no push fails, cancels are
      atomic and come after the job, and the sweep picks the jobs, meets the fence (and the other hypotheses of
      `NoDoubleBooking`) at every step. */
  lemma TimingGivesFence(st: State, d: nat, actions: seq<Action>)
    requires Init(st) && Settings(st.cfg, d) && Run(st, actions, Within(d))
    ensures Run(st, actions, Guards) && Final(st, actions, Guards) == Final(st, actions, Within(d))
  {
    InitSafe(st);
    TimedRun(st, d, actions);
  }

  lemma NoDoubleBookingInTime(st: State, d: nat, actions: seq<Action>, s: Seat)
    requires Init(st) && Settings(st.cfg, d) && Run(st, actions, Within(d))
    requires s in Final(st, actions, Within(d)).db.seats
    ensures var db := Final(st, actions, Within(d)).db;
      && (db.seats[s] == Booked <==> |Owners(db, s)| == 1)
      && (db.seats[s] == Available <==> Owners(db, s) == {})
  {
    TimingGivesFence(st, d, actions);
    NoDoubleBooking(st, actions, s);
  }
}
