/** What every interleaving keeps, with no hypothesis on locks, cancels, processors or time. */
module Always {
  import opened Store
  import opened Protocol
  import opened Safety

  predicate Any(st: State, a: Action, after: State) {
    true
  }

  /** The queue carries only what `createBooking` pushes. */
  predicate OwnQueue(st: State, a: Action, after: State) {
    !(a.World? && a.step.Inject?)
  }

  // ---- a BOOKED seat always has a live booking -------------------------------------------

  ghost predicate Unstranded(db: Db) {
    forall s :: s in db.seats && db.seats[s] == Booked ==> exists b :: Owns(db, b, s)
  }

  /** A processor write may revive a cancelled booking, but it never takes a seat from one. */
  lemma JobWriteKeepsOwners(db: Db, locks: Locks, pc: Pc, qr: Option<string>)
    requires !pc.Idle? && JobPresent(db, pc.job)
    ensures var out := JobWrite(db, locks, pc, qr).0;
      out.seats == db.seats && forall b, s :: Owns(db, b, s) ==> Owns(out, b, s)
  {
  }

  lemma CancelRowsUnstranded(db: Db, bid: Id)
    requires Unstranded(db) && bid in db.bookings
    ensures Unstranded(CancelRows(db, bid))
  {
    var out := CancelRows(db, bid);
    forall s | s in out.seats && out.seats[s] == Booked ensures exists b :: Owns(out, b, s) {
      var b :| Owns(db, b, s);
      assert Owns(out, b, s);
    }
  }

  lemma CommitUnstranded(db: Db, bid: Id, jid: Id, b: Booking, now: nat)
    requires Unstranded(db) && bid !in db.bookings && Active(b)
    ensures Unstranded(InsertBooking(db, bid, jid, b, now))
  {
    var out := InsertBooking(db, bid, jid, b, now);
    forall s | s in out.seats && out.seats[s] == Booked ensures exists c :: Owns(out, c, s) {
      if s in b.seats {
        assert Owns(out, bid, s);
      } else {
        var c :| Owns(db, c, s);
        assert Owns(out, c, s);
      }
    }
  }

  lemma WorldUnstranded(st: State, step: WorldStep)
    requires Unstranded(st.db) && WorldEnabled(st, step)
    ensures Unstranded(WorldNext(st, step).db)
  {
    assert forall b, s :: Owns(st.db, b, s) ==> Owns(WorldNext(st, step).db, b, s);
  }

  lemma UnstrandedStep(st: State, a: Action)
    requires Fit(st) && Unstranded(st.db) && Enabled(st, a)
    ensures Unstranded(Next(st, a).db)
  {
    match a
    case Booker(rid, Commit(bid, jid)) =>
      var r := st.requests[rid];
      CommitUnstranded(st.db, bid, jid, Booking(r.event, SetOf(r.seats), Pending, None, rid), st.now);
    case Canceller(cid, WriteCancel) => CancelRowsUnstranded(st.db, st.cancels[cid].booking);
    case Processor(wid, Write(qr)) => JobWriteKeepsOwners(st.db, st.locks, st.workers[wid].pc, qr);
    case World(step) => WorldUnstranded(st, step);
    case _ =>
  }

  lemma {:induction false} RunUnstranded(st: State, actions: seq<Action>)
    requires Fit(st) && Unstranded(st.db) && Run(st, actions, Any)
    ensures Unstranded(Final(st, actions, Any).db)
    decreases |actions|
  {
    if actions != [] {
      FitStep(st, actions[0]);
      UnstrandedStep(st, actions[0]);
      RunUnstranded(Next(st, actions[0]), actions[1..]);
    }
  }

  /** In every interleaving, whatever locks are lost, a BOOKED seat belongs to some booking that can still be
      cancelled. */
  lemma NeverStranded(st: State, actions: seq<Action>, s: Seat)
    requires Init(st) && Run(st, actions, Any)
    requires s in Final(st, actions, Any).db.seats && Final(st, actions, Any).db.seats[s] == Booked
    ensures Owners(Final(st, actions, Any).db, s) != {}
  {
    RunUnstranded(st, actions);
    var db := Final(st, actions, Any).db;
    var b: Id :| Owns(db, b, s);
    assert b in Owners(db, s);
  }

  // ---- one job row per booking, for ever -------------------------------------------------

  ghost predicate OneJobEach(db: Db) {
    && (forall b :: b in db.bookings ==> exists j :: j in db.jobs && db.jobs[j].booking == b)
    && (forall j, k :: j in db.jobs && k in db.jobs && db.jobs[j].booking == db.jobs[k].booking ==> j == k)
  }

  lemma RequestKeepsRows(st: State, rid: Id, step: RequestStep)
    requires IdsUsed(st) && RequestEnabled(st, rid, step)
    ensures RowsKept(st.db, RequestNext(st, rid, step).db)
    ensures !step.Commit? ==> RequestNext(st, rid, step).db == st.db
  {
  }

  lemma CancelKeepsRows(st: State, cid: Id, step: CancelStep)
    requires CancelEnabled(st, cid, step)
    ensures var out := CancelNext(st, cid, step).db;
      RowsKept(st.db, out) && out.bookings.Keys == st.db.bookings.Keys && out.jobs == st.db.jobs
  {
  }

  lemma WorkerKeepsRows(st: State, wid: Id, step: WorkerStep)
    requires WorkerEnabled(st, wid, step)
    ensures var out := WorkerNext(st, wid, step).db;
      RowsKept(st.db, out) && out.bookings.Keys == st.db.bookings.Keys && out.jobs.Keys == st.db.jobs.Keys
  {
    if step.Write? { JobWriteKeepsRows(st.db, st.locks, st.workers[wid].pc, step.qr); }
  }

  lemma WorldKeepsRows(st: State, step: WorldStep)
    requires WorldEnabled(st, step)
    ensures WorldNext(st, step).db.bookings == st.db.bookings && WorldNext(st, step).db.jobs == st.db.jobs
  {
  }

  lemma RowsKeptStep(st: State, a: Action)
    requires IdsUsed(st) && Enabled(st, a)
    ensures RowsKept(st.db, Next(st, a).db)
  {
    match a
    case Booker(rid, step) => RequestKeepsRows(st, rid, step);
    case Canceller(cid, step) => CancelKeepsRows(st, cid, step);
    case Processor(wid, step) => WorkerKeepsRows(st, wid, step);
    case World(step) => WorldKeepsRows(st, step);
    case _ =>
  }

  lemma CommitOneJob(db: Db, bid: Id, jid: Id, b: Booking, now: nat)
    requires OneJobEach(db) && RowsFit(db) && bid !in db.bookings && jid !in db.jobs
    ensures OneJobEach(InsertBooking(db, bid, jid, b, now))
  {
    var out := InsertBooking(db, bid, jid, b, now);
    forall c | c in out.bookings ensures exists j :: j in out.jobs && out.jobs[j].booking == c {
      if c == bid {
        assert out.jobs[jid].booking == c;
      } else {
        var j :| j in db.jobs && db.jobs[j].booking == c;
        assert out.jobs[j].booking == c;
      }
    }
  }

  lemma SameRowsOneJob(db: Db, out: Db)
    requires OneJobEach(db) && RowsKept(db, out) && out.bookings.Keys == db.bookings.Keys
    requires out.jobs.Keys == db.jobs.Keys
    ensures OneJobEach(out)
  {
    forall b | b in out.bookings ensures exists j :: j in out.jobs && out.jobs[j].booking == b {
      var j :| j in db.jobs && db.jobs[j].booking == b;
      assert out.jobs[j].booking == b;
    }
  }

  lemma RequestOneJob(st: State, rid: Id, step: RequestStep)
    requires RowsFit(st.db) && IdsUsed(st) && OneJobEach(st.db) && RequestEnabled(st, rid, step)
    ensures OneJobEach(RequestNext(st, rid, step).db)
  {
    if step.Commit? {
      var r := st.requests[rid];
      CommitOneJob(st.db, step.bid, step.jid, Booking(r.event, SetOf(r.seats), Pending, None, rid), st.now);
    } else {
      RequestKeepsRows(st, rid, step);
    }
  }

  lemma OneJobStep(st: State, a: Action)
    requires Fit(st) && OneJobEach(st.db) && Enabled(st, a)
    ensures OneJobEach(Next(st, a).db)
  {
    match a
    case Booker(rid, step) => RequestOneJob(st, rid, step);
    case Canceller(cid, step) => CancelKeepsRows(st, cid, step); SameRowsOneJob(st.db, CancelNext(st, cid, step).db);
    case Processor(wid, step) => WorkerKeepsRows(st, wid, step); SameRowsOneJob(st.db, WorkerNext(st, wid, step).db);
    case World(step) => WorldKeepsRows(st, step); SameRowsOneJob(st.db, WorldNext(st, step).db);
    case _ =>
  }

  /** From the transaction that writes it, a booking keeps its one job row for ever. */
  lemma {:induction false} JobForEver(st: State, actions: seq<Action>)
    requires Fit(st) && OneJobEach(st.db) && Run(st, actions, Any)
    ensures var end := Final(st, actions, Any).db; OneJobEach(end) && RowsKept(st.db, end)
    decreases |actions|
  {
    if actions != [] {
      FitStep(st, actions[0]);
      OneJobStep(st, actions[0]);
      RowsKeptStep(st, actions[0]);
      JobForEver(Next(st, actions[0]), actions[1..]);
    }
  }

  // ---- the fast path finds nothing -------------------------------------------------------

  /** Booking ids and job ids come from one pool of uuids, and what is queued are booking ids. */
  ghost predicate QueueOfBookings(st: State) {
    && st.db.bookings.Keys !! st.db.jobs.Keys
    && (forall m :: m in st.queue ==> m in st.db.bookings)
    && (forall r :: r in st.requests && st.requests[r].phase.Written? ==>
          st.requests[r].phase.booking in st.db.bookings)
  }

  lemma RequestQueue(st: State, rid: Id, step: RequestStep)
    requires IdsUsed(st) && QueueOfBookings(st) && RequestEnabled(st, rid, step)
    ensures QueueOfBookings(RequestNext(st, rid, step))
  {
  }

  lemma WorkerQueue(st: State, wid: Id, step: WorkerStep)
    requires QueueOfBookings(st) && WorkerEnabled(st, wid, step)
    ensures QueueOfBookings(WorkerNext(st, wid, step))
  {
    if step.Write? { JobWriteKeepsRows(st.db, st.locks, st.workers[wid].pc, step.qr); }
  }

  lemma WorldQueue(st: State, step: WorldStep)
    requires QueueOfBookings(st) && WorldEnabled(st, step) && !step.Inject?
    ensures QueueOfBookings(WorldNext(st, step))
  {
  }

  lemma QueueStep(st: State, a: Action)
    requires Fit(st) && QueueOfBookings(st) && Enabled(st, a) && OwnQueue(st, a, Next(st, a))
    ensures QueueOfBookings(Next(st, a))
  {
    match a
    case Booker(rid, step) => RequestQueue(st, rid, step);
    case Processor(wid, step) => WorkerQueue(st, wid, step);
    case World(step) => WorldQueue(st, step);
    case Canceller(_, _) =>
    case _ =>
  }

  lemma {:induction false} RunQueue(st: State, actions: seq<Action>)
    requires Fit(st) && QueueOfBookings(st) && Run(st, actions, OwnQueue)
    ensures QueueOfBookings(Final(st, actions, OwnQueue))
    decreases |actions|
  {
    if actions != [] {
      FitStep(st, actions[0]);
      QueueStep(st, actions[0]);
      RunQueue(Next(st, actions[0]), actions[1..]);
    }
  }

  /** `createBooking` queues the booking's id where the consumer looks up a job's: however the queue loses or delays
      messages, delivering one never gives a processor anything to do. */
  lemma PushedMessagesFindNoJob(st: State, actions: seq<Action>, wid: Id)
    requires Init(st) && Run(st, actions, OwnQueue) && WorkerEnabled(Final(st, actions, OwnQueue), wid, Deliver)
    ensures var end := Final(st, actions, OwnQueue); WorkerNext(end, wid, Deliver).workers == end.workers
  {
    RunQueue(st, actions);
    var end := Final(st, actions, OwnQueue);
    assert end.queue[|end.queue| - 1] in end.queue;
  }

  // ---- events ----------------------------------------------------------------------------

  function SeatsWith(db: Db, e: Id, status: SeatStatus): set<Seat> {
    set s | s in db.seats && s.event == e && db.seats[s] == status
  }

  function SeatsOf(db: Db, e: Id): set<Seat> {
    set s | s in db.seats && s.event == e
  }

  ghost predicate Counted(db: Db) {
    && (forall s :: s in db.seats ==> db.seats[s] != Held)
    && (forall e :: e in db.events ==> |SeatsOf(db, e)| == db.events[e].totalSeats)
  }

  lemma SameSeatsCounted(db: Db, out: Db)
    requires Counted(db) && out.seats.Keys == db.seats.Keys && out.events.Keys == db.events.Keys
    requires forall s :: s in out.seats ==> out.seats[s] != Held
    requires forall e :: e in db.events ==> out.events[e].totalSeats == db.events[e].totalSeats
    ensures Counted(out)
  {
    forall e | e in out.events ensures |SeatsOf(out, e)| == out.events[e].totalSeats {
      assert SeatsOf(out, e) == SeatsOf(db, e);
    }
  }

  lemma {:induction false} CodesCounted(e: Id, codes: set<string>)
    ensures |set c | c in codes :: Seat(e, c)| == |codes|
    decreases codes
  {
    if codes != {} {
      var c :| c in codes;
      CodesCounted(e, codes - {c});
      assert (set d | d in codes :: Seat(e, d)) == (set d | d in codes - {c} :: Seat(e, d)) + {Seat(e, c)};
    }
  }

  lemma AddEventCounted(db: Db, e: Id, codes: set<string>)
    requires Counted(db) && RowsFit(db) && e !in db.events
    ensures Counted(AddEvent(db, e, codes))
  {
    var out := AddEvent(db, e, codes);
    CodesCounted(e, codes);
    assert SeatsOf(out, e) == set c | c in codes :: Seat(e, c);
    forall f | f in out.events && f != e ensures |SeatsOf(out, f)| == out.events[f].totalSeats {
      assert SeatsOf(out, f) == SeatsOf(db, f);
    }
  }

  lemma DropEventCounted(db: Db, e: Id)
    requires Counted(db)
    ensures Counted(DropEvent(db, e))
  {
    var out := DropEvent(db, e);
    forall f | f in out.events ensures |SeatsOf(out, f)| == out.events[f].totalSeats {
      assert SeatsOf(out, f) == SeatsOf(db, f);
    }
  }

  lemma CountedStep(st: State, a: Action)
    requires Fit(st) && Counted(st.db) && Enabled(st, a)
    ensures Counted(Next(st, a).db)
  {
    match a
    case Booker(_, Commit(_, _)) => SameSeatsCounted(st.db, Next(st, a).db);
    case Canceller(_, WriteCancel) => SameSeatsCounted(st.db, Next(st, a).db);
    case Processor(wid, Write(qr)) =>
      JobWriteKeepsRows(st.db, st.locks, st.workers[wid].pc, qr);
      JobWriteKeepsOwners(st.db, st.locks, st.workers[wid].pc, qr);
      SameSeatsCounted(st.db, Next(st, a).db);
    case World(CreateEvent(e, codes)) => AddEventCounted(st.db, e, codes);
    case World(SetPublished(_, _)) => SameSeatsCounted(st.db, Next(st, a).db);
    case World(DeleteEvent(e)) => DropEventCounted(st.db, e);
    case _ =>
  }

  lemma {:induction false} RunCounted(st: State, actions: seq<Action>)
    requires Fit(st) && Counted(st.db) && Run(st, actions, Any)
    ensures Counted(Final(st, actions, Any).db)
    decreases |actions|
  {
    if actions != [] {
      FitStep(st, actions[0]);
      CountedStep(st, actions[0]);
      RunCounted(Next(st, actions[0]), actions[1..]);
    }
  }

  lemma CountedAddsUp(db: Db, e: Id)
    requires Counted(db) && e in db.events
    ensures SeatsWith(db, e, Held) == {}
    ensures |SeatsWith(db, e, Available)| + |SeatsWith(db, e, Booked)| == db.events[e].totalSeats
  {
    assert SeatsOf(db, e) == SeatsWith(db, e, Available) + SeatsWith(db, e, Booked);
    assert SeatsWith(db, e, Available) !! SeatsWith(db, e, Booked);
  }

  /** While an event exists, no seat of it is HELD and its AVAILABLE and BOOKED seats add up to `totalSeats`. */
  lemma SeatsAddUp(st: State, actions: seq<Action>, e: Id)
    requires Init(st) && Run(st, actions, Any) && e in Final(st, actions, Any).db.events
    ensures var db := Final(st, actions, Any).db;
      && SeatsWith(db, e, Held) == {}
      && |SeatsWith(db, e, Available)| + |SeatsWith(db, e, Booked)| == db.events[e].totalSeats
  {
    RunCounted(st, actions);
    CountedAddsUp(Final(st, actions, Any).db, e);
  }

  /** An event with any booking, even one that is CANCELLED or FAILED, is never deleted. */
  lemma BookedEventStays(st: State, actions: seq<Action>, b: Id, more: seq<Action>)
    requires Init(st) && Run(st, actions, Any)
    requires b in Final(st, actions, Any).db.bookings && Run(Final(st, actions, Any), more, Any)
    ensures var e := Final(st, actions, Any).db.bookings[b].event;
      e in Final(Final(st, actions, Any), more, Any).db.events
      && !Enabled(Final(Final(st, actions, Any), more, Any), World(DeleteEvent(e)))
  {
    RunFit(st, actions);
    var mid := Final(st, actions, Any);
    RunFit(mid, more);
    RunKeepsRows(mid, more);
  }

  lemma {:induction false} RunFit(st: State, actions: seq<Action>)
    requires Fit(st) && Run(st, actions, Any)
    ensures Fit(Final(st, actions, Any))
    decreases |actions|
  {
    if actions != [] {
      FitStep(st, actions[0]);
      RunFit(Next(st, actions[0]), actions[1..]);
    }
  }

  lemma {:induction false} RunKeepsRows(st: State, actions: seq<Action>)
    requires Fit(st) && Run(st, actions, Any)
    ensures RowsKept(st.db, Final(st, actions, Any).db)
    decreases |actions|
  {
    if actions != [] {
      FitStep(st, actions[0]);
      RowsKeptStep(st, actions[0]);
      RunKeepsRows(Next(st, actions[0]), actions[1..]);
    }
  }

  // ---- exclusion of the locks ------------------------------------------------------------

  /** Request `rid` takes the lock of `s` in this step. */
  predicate Takes(st: State, a: Action, rid: Id, s: Seat) {
    && a.Booker? && a.rid == rid && a.rstep.SetNx? && RequestEnabled(st, rid, SetNx)
    && st.requests[rid].seats[st.requests[rid].phase.acquired] == s && s !in st.locks
  }

  ghost predicate KeepsLock(s: Seat, st: State, a: Action, after: State) {
    s in st.locks ==> s in after.locks
  }

  ghost function Keeping(s: Seat): Hypothesis {
    (st, a, after) => KeepsLock(s, st, a, after)
  }

  lemma LockHolderStays(st: State, a: Action, s: Seat)
    requires Enabled(st, a) && s in st.locks && s in Next(st, a).locks
    ensures Next(st, a).locks[s] == st.locks[s]
  {
    match a
    case Booker(_, _) =>
    case Canceller(_, _) =>
    case Processor(_, _) =>
    case World(_) =>
    case _ =>
  }

  /** Once `s` is locked, as long as no step deletes or expires that lock the holder stays and no `SET NX` on it
      succeeds. */
  lemma {:induction false} LockExcludes(st: State, actions: seq<Action>, s: Seat, rid: Id, a: Action)
    requires s in st.locks && Run(st, actions, Keeping(s))
    ensures var end := Final(st, actions, Keeping(s));
      s in end.locks && end.locks[s].holder == st.locks[s].holder && !Takes(end, a, rid, s)
    decreases |actions|
  {
    if actions != [] {
      LockHolderStays(st, actions[0], s);
      LockExcludes(Next(st, actions[0]), actions[1..], s, rid, a);
    }
  }

  /** Some step of the run finds `s` locked and leaves it unlocked. */
  ghost predicate Unlocks(st: State, actions: seq<Action>, s: Seat)
    requires Run(st, actions, Any)
    decreases |actions|
  {
    actions != [] &&
    ((s in st.locks && s !in Next(st, actions[0]).locks) || Unlocks(Next(st, actions[0]), actions[1..], s))
  }

  /** Between two successful acquisitions of one lock, whoever makes them, that lock was deleted or expired. */
  lemma AcquisitionsSeparated(st: State, first: Action, r1: Id, between: seq<Action>, second: Action, r2: Id, s: Seat)
    requires Takes(st, first, r1, s) && Run(Next(st, first), between, Any)
    requires Takes(Final(Next(st, first), between, Any), second, r2, s)
    ensures Unlocks(Next(st, first), between, s)
  {
    LockedUntilUnlocked(Next(st, first), between, s);
  }

  lemma {:induction false} LockedUntilUnlocked(st: State, actions: seq<Action>, s: Seat)
    requires s in st.locks && Run(st, actions, Any) && s !in Final(st, actions, Any).locks
    ensures Unlocks(st, actions, s)
    decreases |actions|
  {
    if actions != [] && s in Next(st, actions[0]).locks {
      LockedUntilUnlocked(Next(st, actions[0]), actions[1..], s);
    }
  }
}
