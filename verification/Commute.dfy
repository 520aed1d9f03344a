/** Operations on different seats do not touch each other: each call is local to its own seats and rows, so calls that
    share none commute, and a cancel undoes a booking whatever happens to other seats in between. */
module Commute {
  import opened Store
  import opened Protocol
  import opened Calls
  import opened Always

  datatype Op =
    | Book(event: Id, codes: seq<string>, ids: Ids, trouble: Trouble)
    | CancelIt(bid: Id, byAdmin: bool)
    | Process(job: Id, qr: Option<string>, m: Mishap)
    | Expire(seats: set<Seat>)

  /** The rows and the locks; the queue, whose order no one relies on, is left aside. */
  datatype Data = Data(db: Db, locks: Locks)

  datatype Setting = Setting(now: nat, ttl: nat, max: nat)

  function Apply(d: Data, op: Op, at: Setting): Data
    requires JobsPresent(d.db)
  {
    match op
    case Book(event, codes, ids, trouble) =>
      var w := CreateBooking(Snapshot(d.db, d.locks, []), at.now, at.ttl, event, codes, ids, trouble).0;
      Data(w.db, w.locks)
    case CancelIt(bid, byAdmin) =>
      var w := CancelBooking(Snapshot(d.db, d.locks, []), bid, byAdmin).0;
      Data(w.db, w.locks)
    case Process(j, qr, m) =>
      var (db, locks) := ProcessJob(d.db, d.locks, at.max, j, qr, m);
      Data(db, locks)
    case Expire(seats) => d.(locks := d.locks - seats)
  }

  /** An operation is its call, whatever the queue holds. */
  lemma AppliedIsCalled(w: Snapshot, op: Op, at: Setting)
    requires JobsPresent(w.db)
    ensures var d := Apply(Data(w.db, w.locks), op, at);
      match op
      case Book(event, codes, ids, trouble) =>
        var after := CreateBooking(w, at.now, at.ttl, event, codes, ids, trouble).0;
        after.db == d.db && after.locks == d.locks
      case CancelIt(bid, byAdmin) =>
        var after := CancelBooking(w, bid, byAdmin).0;
        after.db == d.db && after.locks == d.locks
      case Process(j, qr, m) => (d.db, d.locks) == ProcessJob(w.db, w.locks, at.max, j, qr, m)
      case Expire(seats) =>
        && d.db == w.db
        && forall s :: if s in w.locks && s !in seats then s in d.locks && d.locks[s] == w.locks[s] else s !in d.locks
  {
    match op
    case Book(event, codes, ids, trouble) =>
      QueueAside(w, at, event, codes, ids, trouble);
    case _ =>
  }

  lemma QueueAside(w: Snapshot, at: Setting, event: Id, codes: seq<string>, ids: Ids, trouble: Trouble)
    ensures var with := CreateBooking(w, at.now, at.ttl, event, codes, ids, trouble).0;
      var without := CreateBooking(w.(queue := []), at.now, at.ttl, event, codes, ids, trouble).0;
      with.db == without.db && with.locks == without.locks
  {
  }

  /** The seats an operation may touch. */
  function Footprint(d: Data, op: Op): set<Seat> {
    match op
    case Book(event, codes, _, _) => Keys(event, Unique(codes))
    case CancelIt(bid, _) => if bid in d.db.bookings then d.db.bookings[bid].seats else {}
    case Process(j, _, _) => if JobPresent(d.db, j) then d.db.bookings[d.db.jobs[j].booking].seats else {}
    case Expire(seats) => seats
  }

  /** The booking rows it may touch. */
  function BookingRows(d: Data, op: Op): set<Id> {
    match op
    case Book(_, _, ids, _) => {ids.booking}
    case CancelIt(bid, _) => {bid}
    case Process(j, _, _) => if j in d.db.jobs then {d.db.jobs[j].booking} else {}
    case Expire(_) => {}
  }

  /** The job rows it may touch. */
  function JobRows(op: Op): set<Id> {
    match op
    case Book(_, _, ids, _) => {ids.job}
    case CancelIt(_, _) => {}
    case Process(j, _, _) => {j}
    case Expire(_) => {}
  }

  // ---- locality --------------------------------------------------------------------------

  datatype Part = Part(seats: set<Seat>, bookings: set<Id>, jobs: set<Id>)

  function PartOf(d: Data, op: Op): Part {
    Part(Footprint(d, op), BookingRows(d, op), JobRows(op))
  }

  /** Only these seats, with their locks, and only these rows. */
  function Cut(d: Data, p: Part): Data {
    Data(Db(d.db.events,
            map s | s in d.db.seats && s in p.seats :: d.db.seats[s],
            map b | b in d.db.bookings && b in p.bookings :: d.db.bookings[b],
            map j | j in d.db.jobs && j in p.jobs :: d.db.jobs[j],
            multiset{}),
         map s | s in d.locks && s in p.seats :: d.locks[s])
  }

  /** `d` with what is on these seats and in these rows replaced. */
  function Paste(d: Data, seats: set<Seat>, part: Data): Data {
    Data(Db(d.db.events, d.db.seats + part.db.seats, d.db.bookings + part.db.bookings, d.db.jobs + part.db.jobs,
            d.db.notices + part.db.notices),
         (d.locks - seats) + part.locks)
  }

  ghost predicate Inside(part: Data, d: Data, p: Part) {
    && part.db.events == d.db.events
    && part.db.seats.Keys <= p.seats && part.locks.Keys <= p.seats
    && part.db.bookings.Keys <= p.bookings && part.db.jobs.Keys <= p.jobs
  }

  /** The operation does to `d` what it does to its own part of `d`. */
  ghost predicate Local(d: Data, op: Op, at: Setting)
    requires JobsPresent(d.db)
  {
    var p := PartOf(d, op);
    && JobsPresent(Cut(d, p).db)
    && Inside(Apply(Cut(d, p), op, at), d, p)
    && Apply(d, op, at) == Paste(d, p.seats, Apply(Cut(d, p), op, at))
  }

  lemma CutPastes(d: Data, p: Part)
    ensures Paste(d, p.seats, Cut(d, p)) == d && Inside(Cut(d, p), d, p)
  {
    var c := Cut(d, p);
    assert d.db.seats + c.db.seats == d.db.seats;
    assert d.db.bookings + c.db.bookings == d.db.bookings;
    assert d.db.jobs + c.db.jobs == d.db.jobs;
    assert (d.locks - p.seats) + c.locks == d.locks;
  }

  lemma ExpireLocal(d: Data, seats: set<Seat>, at: Setting)
    requires JobsPresent(d.db)
    ensures Local(d, Expire(seats), at)
  {
    var p := PartOf(d, Expire(seats));
    CutPastes(d, p);
    assert Apply(Cut(d, p), Expire(seats), at).locks == map[];
  }

  /** Setting the status of seats of the part, whole and cut. */
  lemma SetSeatsLocal(seats: map<Seat, SeatStatus>, which: set<Seat>, status: SeatStatus)
    ensures var cut := map s | s in seats && s in which :: seats[s];
      SetSeats(seats, which, status) == seats + SetSeats(cut, which, status)
  {
  }

  lemma CancelRowsLocal(d: Data, bid: Id, p: Part)
    requires bid in d.db.bookings && p == Part(d.db.bookings[bid].seats, {bid}, {})
    ensures var part := CancelRows(Cut(d, p).db, bid);
      var whole := CancelRows(d.db, bid);
      && whole.seats == d.db.seats + part.seats && whole.bookings == d.db.bookings + part.bookings
      && whole.jobs == d.db.jobs + part.jobs && whole.notices == d.db.notices + part.notices
      && part.seats.Keys <= p.seats && part.bookings.Keys <= {bid} && part.jobs == map[] && part.events == d.db.events
  {
    SetSeatsLocal(d.db.seats, p.seats, Available);
    var part := CancelRows(Cut(d, p).db, bid);
    assert part.bookings == map[bid := d.db.bookings[bid].(status := Cancelled)];
    assert d.db.jobs + part.jobs == d.db.jobs;
    assert CancelRows(d.db, bid).bookings == d.db.bookings + part.bookings;
  }

  lemma LocksLocal(locks: Locks, seats: set<Seat>)
    ensures var cut := map s | s in locks && s in seats :: locks[s];
      && cut - seats == map[]
      && locks == (locks - seats) + cut && locks - seats == (locks - seats) + map[]
  {
  }

  lemma CancelLiveLocal(d: Data, bid: Id, byAdmin: bool, at: Setting)
    requires JobsPresent(d.db) && bid in d.db.bookings && Active(d.db.bookings[bid])
    ensures Local(d, CancelIt(bid, byAdmin), at)
  {
    var p := PartOf(d, CancelIt(bid, byAdmin));
    CancelRowsLocal(d, bid, p);
    LocksLocal(d.locks, p.seats);
  }

  lemma CancelLocal(d: Data, bid: Id, byAdmin: bool, at: Setting)
    requires JobsPresent(d.db)
    ensures Local(d, CancelIt(bid, byAdmin), at)
  {
    if bid in d.db.bookings && Active(d.db.bookings[bid]) {
      CancelLiveLocal(d, bid, byAdmin, at);
    } else {
      CutPastes(d, PartOf(d, CancelIt(bid, byAdmin)));
    }
  }

  lemma InsertLocal(d: Data, bid: Id, jid: Id, b: Booking, now: nat, p: Part)
    requires p == Part(b.seats, {bid}, {jid})
    ensures var part := InsertBooking(Cut(d, p).db, bid, jid, b, now);
      var whole := InsertBooking(d.db, bid, jid, b, now);
      && whole.seats == d.db.seats + part.seats && whole.bookings == d.db.bookings + part.bookings
      && whole.jobs == d.db.jobs + part.jobs && whole.notices == d.db.notices + part.notices
      && part.seats.Keys <= p.seats && part.bookings.Keys <= {bid} && part.jobs.Keys <= {jid}
      && part.events == d.db.events
  {
    SetSeatsLocal(d.db.seats, p.seats, Booked);
    InsertLocalRows(d, bid, jid, b, now, p);
  }

  lemma InsertLocalRows(d: Data, bid: Id, jid: Id, b: Booking, now: nat, p: Part)
    requires p.bookings == {bid} && p.jobs == {jid}
    ensures var part := InsertBooking(Cut(d, p).db, bid, jid, b, now);
      var whole := InsertBooking(d.db, bid, jid, b, now);
      && whole.bookings == d.db.bookings + part.bookings && whole.jobs == d.db.jobs + part.jobs
      && part.bookings.Keys <= {bid} && part.jobs.Keys <= {jid}
  {
    AddOne(d.db.bookings, bid, b);
    AddOne(d.db.jobs, jid, Job(bid, JobPending, 0, now));
  }

  lemma AddOne<V>(m: map<Id, V>, k: Id, v: V)
    ensures var cut := map i | i in m && i in {k} :: m[i]; m[k := v] == m + cut[k := v]
  {
  }

  lemma LockLocal(locks: Locks, event: Id, codes: seq<string>, mine: Lock)
    requires FirstConflict(locks, event, codes, 0) == |codes|
    ensures var p := Keys(event, codes);
      var cut: Locks := map s | s in locks && s in p :: locks[s];
      cut == map[] && Locked(locks, p, mine) == (locks - p) + Locked(cut, p, mine)
  {
    forall s | s in Keys(event, codes) ensures s !in locks {
      var i :| 0 <= i < |codes| && codes[i] == s.code;
    }
  }

  /** `createBooking` after its reads, as an operation on the data. */
  function ReserveData(d: Data, event: Id, codes: seq<string>, ids: Ids, trouble: Trouble, at: Setting): Data {
    var w := Reserve(Snapshot(d.db, d.locks, []), at.now, at.ttl, event, codes, ids, trouble).0;
    Data(w.db, w.locks)
  }

  lemma ReserveIs(d: Data, event: Id, codes: seq<string>, ids: Ids, trouble: Trouble, at: Setting)
    ensures ReserveData(d, event, codes, ids, trouble, at) ==
      if FirstConflict(d.locks, event, codes, 0) < |codes| || trouble == TransactionFails then d
      else Data(InsertBooking(d.db, ids.booking, ids.job, NewBooking(event, codes, ids.token), at.now),
                if trouble == PushFails then d.locks
                  else Locked(d.locks, Keys(event, codes), Lock(ids.token, at.now + at.ttl)))
  {
  }

  lemma ReserveLocal(d: Data, event: Id, codes: seq<string>, ids: Ids, trouble: Trouble, at: Setting)
    ensures var p := Part(Keys(event, codes), {ids.booking}, {ids.job});
      var part := ReserveData(Cut(d, p), event, codes, ids, trouble, at);
      Inside(part, d, p) && ReserveData(d, event, codes, ids, trouble, at) == Paste(d, p.seats, part)
  {
    var p := Part(Keys(event, codes), {ids.booking}, {ids.job});
    var cut := Cut(d, p);
    ConflictLocal(d.locks, event, codes, 0);
    ReserveIs(d, event, codes, ids, trouble, at);
    ReserveIs(cut, event, codes, ids, trouble, at);
    if FirstConflict(d.locks, event, codes, 0) == |codes| && trouble != TransactionFails {
      InsertLocal(d, ids.booking, ids.job, NewBooking(event, codes, ids.token), at.now, p);
      LockLocal(d.locks, event, codes, Lock(ids.token, at.now + at.ttl));
      PutBack(d.locks, p.seats);
    } else {
      CutPastes(d, p);
    }
  }

  lemma PutBack(locks: Locks, seats: set<Seat>)
    ensures locks == (locks - seats) + map s | s in locks && s in seats :: locks[s]
  {
  }

  lemma {:induction false} ConflictLocal(locks: Locks, event: Id, codes: seq<string>, from: nat)
    requires from <= |codes|
    ensures FirstConflict(locks, event, codes, from)
         == FirstConflict(map s | s in locks && s in Keys(event, codes) :: locks[s], event, codes, from)
    decreases |codes| - from
  {
    if from < |codes| {
      assert Seat(event, codes[from]) in Keys(event, codes);
      ConflictLocal(locks, event, codes, from + 1);
    }
  }

  lemma BookLocal(d: Data, op: Op, at: Setting)
    requires JobsPresent(d.db) && op.Book? && op.ids.job !in d.db.jobs
    ensures Local(d, op, at)
  {
    var p := PartOf(d, op);
    var codes := Unique(op.codes);
    var cut := Cut(d, p);
    ReadsAgree(Snapshot(d.db, d.locks, []), at.now, at.ttl, op.event, op.codes, op.ids, op.trouble);
    ReadsAgree(Snapshot(cut.db, cut.locks, []), at.now, at.ttl, op.event, op.codes, op.ids, op.trouble);
    assert AllFree(d.db, op.event, codes) <==> AllFree(cut.db, op.event, codes);
    ReserveLocal(d, op.event, codes, op.ids, op.trouble, at);
    CutPastes(d, p);
  }

  /** One write of a processor on a pasted part is the write on the part, pasted. */
  lemma JobWriteLocal(d: Data, seats: set<Seat>, part: Data, pc: Pc, qr: Option<string>)
    requires !pc.Idle? && JobPresent(part.db, pc.job) && part.db.bookings[part.db.jobs[pc.job].booking].seats <= seats
    requires part.db.events == d.db.events
    ensures var whole := Paste(d, seats, part);
      JobPresent(whole.db, pc.job) &&
      var (db, locks, next) := JobWrite(whole.db, whole.locks, pc, qr);
      var (db', locks', next') := JobWrite(part.db, part.locks, pc, qr);
      Data(db, locks) == Paste(d, seats, Data(db', locks')) && next == next'
  {
    var j := pc.job;
    var job := part.db.jobs[j];
    var b := part.db.bookings[job.booking];
    match pc
    case FailingJob(_) => UpdatePasted(d.db.jobs, part.db.jobs, j, job.(status := JobFailed));
    case FailingBooking(_) => UpdatePasted(d.db.bookings, part.db.bookings, job.booking, b.(status := Failed));
    case Starting(_) =>
      UpdatePasted(d.db.jobs, part.db.jobs, j, job.(status := JobProcessing, attempts := job.attempts + 1));
    case Confirming(_) =>
      UpdatePasted(d.db.bookings, part.db.bookings, job.booking,
        b.(status := Confirmed, qr := if qr.Some? then qr else b.qr));
    case Notifying(_) =>
      var one := multiset{job.booking};
      assert (d.db.notices + part.db.notices) + one == d.db.notices + (part.db.notices + one);
    case Unlocking(_) =>
      assert ((d.locks - seats) + part.locks) - b.seats == (d.locks - seats) + (part.locks - b.seats);
    case Finishing(_) => UpdatePasted(d.db.jobs, part.db.jobs, j, job.(status := JobDone));
    case Catching(_) => UpdatePasted(d.db.jobs, part.db.jobs, j, job.(status := JobPending));
  }

  lemma UpdatePasted<V>(m: map<Id, V>, a: map<Id, V>, k: Id, v: V)
    ensures (m + a)[k := v] == m + a[k := v]
  {
  }

  lemma JobWriteInside(d: Data, p: Part, part: Data, pc: Pc, qr: Option<string>)
    requires !pc.Idle? && JobPresent(part.db, pc.job) && Inside(part, d, p)
    ensures var (db, locks, next) := JobWrite(part.db, part.locks, pc, qr);
      && Inside(Data(db, locks), d, p)
      && (next.Idle? || next.job == pc.job) && JobPresent(db, pc.job)
      && db.jobs[pc.job].booking == part.db.jobs[pc.job].booking
      && db.bookings[db.jobs[pc.job].booking].seats == part.db.bookings[part.db.jobs[pc.job].booking].seats
  {
  }

  lemma CatchLocal(d: Data, p: Part, part: Data, j: Id)
    requires Inside(part, d, p) && JobPresent(part.db, j)
    ensures var whole := Paste(d, p.seats, part);
      && JobPresent(whole.db, j)
      && whole.(db := SetJobStatus(whole.db, j, JobPending))
        == Paste(d, p.seats, part.(db := SetJobStatus(part.db, j, JobPending)))
      && Inside(part.(db := SetJobStatus(part.db, j, JobPending)), d, p)
  {
    var job := part.db.jobs[j];
    UpdatePasted(d.db.jobs, part.db.jobs, j, job.(status := JobPending));
  }

  lemma {:induction false} DriveLocal(d: Data, p: Part, part: Data, pc: Pc, qr: Option<string>, m: Mishap)
    requires Inside(part, d, p)
    requires pc.Idle? || (JobPresent(part.db, pc.job)
      && part.db.bookings[part.db.jobs[pc.job].booking].seats <= p.seats)
    ensures var whole := Paste(d, p.seats, part);
      (pc.Idle? || JobPresent(whole.db, pc.job)) &&
      var (db, locks) := Drive(whole.db, whole.locks, pc, qr, m);
      var (db', locks') := Drive(part.db, part.locks, pc, qr, m);
      Data(db, locks) == Paste(d, p.seats, Data(db', locks')) && Inside(Data(db', locks'), d, p)
    decreases Remaining(pc)
  {
    var whole := Paste(d, p.seats, part);
    if pc.Idle? || m == DieAt(0) {
    } else if m == ThrowAt(0) {
      if Guarded(pc) { CatchLocal(d, p, part, pc.job); }
    } else {
      JobWriteLocal(d, p.seats, part, pc, qr);
      JobWriteInside(d, p, part, pc, qr);
      var (db', locks', next) := JobWrite(part.db, part.locks, pc, qr);
      DriveLocal(d, p, Data(db', locks'), next, qr, Later(m));
    }
  }

  lemma ProcessLocal(d: Data, j: Id, qr: Option<string>, m: Mishap, at: Setting)
    requires JobsPresent(d.db)
    ensures Local(d, Process(j, qr, m), at)
  {
    var p := PartOf(d, Process(j, qr, m));
    CutPastes(d, p);
    DriveLocal(d, p, Cut(d, p), Loaded(Config(0, 0, at.max), d.db, j), qr, m);
  }

  /** Every call is local to its seats and rows, given that a new job's id is new. */
  lemma {:induction false} OpLocal(d: Data, op: Op, at: Setting)
    requires JobsPresent(d.db) && (op.Book? ==> op.ids.job !in d.db.jobs)
    ensures Local(d, op, at)
  {
    match op
    case Book(_, _, _, _) => BookLocal(d, op, at);
    case CancelIt(bid, byAdmin) => CancelLocal(d, bid, byAdmin, at);
    case Process(j, qr, m) => ProcessLocal(d, j, qr, m, at);
    case Expire(seats) => ExpireLocal(d, seats, at);
  }

  // ---- commuting -------------------------------------------------------------------------

  /** The two operations share no seat and no row. */
  predicate Apart(p: Part, q: Part) {
    p.seats !! q.seats && p.bookings !! q.bookings && p.jobs !! q.jobs
  }

  lemma PasteKeepsCut(d: Data, p: Part, part: Data, q: Part)
    requires Inside(part, d, p) && Apart(p, q)
    ensures Cut(Paste(d, p.seats, part), q) == Cut(d, q)
  {
  }

  lemma MapsCommute<K, V>(m: map<K, V>, a: map<K, V>, b: map<K, V>)
    requires a.Keys !! b.Keys
    ensures (m + a) + b == (m + b) + a
  {
  }

  lemma LocksCommute(m: Locks, s: set<Seat>, a: Locks, t: set<Seat>, b: Locks)
    requires a.Keys <= s && b.Keys <= t && s !! t
    ensures (((m - s) + a) - t) + b == (((m - t) + b) - s) + a
  {
  }

  lemma PastesCommute(d: Data, p: Part, part: Data, q: Part, other: Data)
    requires Inside(part, d, p) && Inside(other, d, q) && Apart(p, q)
    ensures Paste(Paste(d, p.seats, part), q.seats, other) == Paste(Paste(d, q.seats, other), p.seats, part)
  {
    MapsCommute(d.db.seats, part.db.seats, other.db.seats);
    MapsCommute(d.db.bookings, part.db.bookings, other.db.bookings);
    MapsCommute(d.db.jobs, part.db.jobs, other.db.jobs);
    LocksCommute(d.locks, p.seats, part.locks, q.seats, other.locks);
    assert (d.db.notices + part.db.notices) + other.db.notices == (d.db.notices + other.db.notices) + part.db.notices;
  }

  /** What operation `op` sees of `d` is all that decides what it does and where. */
  lemma SameCutSamePart(d: Data, e: Data, op: Op)
    requires JobsPresent(d.db) && JobsPresent(e.db)
    requires Cut(d, PartOf(d, op)) == Cut(e, PartOf(d, op))
    ensures PartOf(e, op) == PartOf(d, op)
  {
    var p := PartOf(d, op);
    assert forall b :: b in p.bookings ==> (b in d.db.bookings <==> b in Cut(d, p).db.bookings);
    assert forall b :: b in p.bookings ==> (b in e.db.bookings <==> b in Cut(e, p).db.bookings);
    assert forall j :: j in p.jobs ==> (j in d.db.jobs <==> j in Cut(d, p).db.jobs);
    assert forall j :: j in p.jobs ==> (j in e.db.jobs <==> j in Cut(e, p).db.jobs);
    match op
    case Book(_, _, _, _) =>
    case CancelIt(bid, _) =>
      if bid in d.db.bookings { assert Cut(d, p).db.bookings[bid] == Cut(e, p).db.bookings[bid]; }
    case Process(j, _, _) =>
      if j in d.db.jobs {
        assert Cut(d, p).db.jobs[j] == Cut(e, p).db.jobs[j];
        var b := d.db.jobs[j].booking;
        assert Cut(d, p).db.bookings[b] == Cut(e, p).db.bookings[b];
      }
    case Expire(_) =>
  }

  // ---- the laws --------------------------------------------------------------------------

  /** The operations keep every job's booking in place, so they can follow one another. */
  lemma ApplyPresent(d: Data, op: Op, at: Setting)
    requires JobsPresent(d.db)
    ensures JobsPresent(Apply(d, op, at).db)
  {
    match op
    case Book(_, _, _, _) =>
    case CancelIt(_, _) =>
    case Process(j, qr, m) => DrivePresent(d.db, d.locks, Loaded(Config(0, 0, at.max), d.db, j), qr, m);
    case Expire(_) =>
  }

  lemma {:induction false} DrivePresent(db: Db, locks: Locks, pc: Pc, qr: Option<string>, m: Mishap)
    requires JobsPresent(db) && (pc.Idle? || pc.job in db.jobs)
    ensures JobsPresent(Drive(db, locks, pc, qr, m).0)
    decreases Remaining(pc)
  {
    if !pc.Idle? && m != DieAt(0) && m != ThrowAt(0) {
      var (db', locks', next) := JobWrite(db, locks, pc, qr);
      DrivePresent(db', locks', next, qr, Later(m));
    }
  }

  /** Two operations may be done in either order: they share no seat and no row, and a new job id is new to both. */
  ghost predicate Independent(d: Data, o: Op, u: Op) {
    && Apart(PartOf(d, o), PartOf(d, u))
    && (o.Book? ==> o.ids.job !in d.db.jobs) && (u.Book? ==> u.ids.job !in d.db.jobs)
  }

  /** After `o`, `u` still sees what it saw before. */
  lemma SecondSeesSame(d: Data, o: Op, u: Op, at: Setting)
    requires JobsPresent(d.db) && Independent(d, o, u)
    ensures JobsPresent(Apply(d, o, at).db)
    ensures PartOf(Apply(d, o, at), u) == PartOf(d, u)
    ensures Cut(Apply(d, o, at), PartOf(d, u)) == Cut(d, PartOf(d, u))
    ensures u.Book? ==> u.ids.job !in Apply(d, o, at).db.jobs
  {
    OpLocal(d, o, at);
    ApplyPresent(d, o, at);
    var p := PartOf(d, o);
    PasteKeepsCut(d, p, Apply(Cut(d, p), o, at), PartOf(d, u));
    SameCutSamePart(d, Apply(d, o, at), u);
  }

  /** Operations on disjoint seats and rows commute, on every row and every lock. */
  lemma DisjointOpsCommute(d: Data, o: Op, u: Op, at: Setting, later: Setting)
    requires JobsPresent(d.db) && Independent(d, o, u)
    ensures JobsPresent(Apply(d, o, at).db) && JobsPresent(Apply(d, u, later).db)
    ensures Apply(Apply(d, o, at), u, later) == Apply(Apply(d, u, later), o, at)
  {
    SecondSeesSame(d, o, u, at);
    SecondSeesSame(d, u, o, later);
    OpLocal(d, o, at);
    OpLocal(d, u, later);
    OpLocal(Apply(d, o, at), u, later);
    OpLocal(Apply(d, u, later), o, at);
    var p, q := PartOf(d, o), PartOf(d, u);
    PastesCommute(d, p, Apply(Cut(d, p), o, at), q, Apply(Cut(d, q), u, later));
  }

  datatype Timed = Timed(op: Op, at: Setting)

  ghost function ApplyAll(d: Data, ops: seq<Timed>): (e: Data)
    requires JobsPresent(d.db)
    ensures JobsPresent(e.db)
    decreases |ops|
  {
    if ops == [] then d
    else
      ApplyPresent(d, ops[0].op, ops[0].at);
      ApplyAll(Apply(d, ops[0].op, ops[0].at), ops[1..])
  }

  /** When its turn comes, none of the operations touches the seats or rows of `p`, and new job ids are new. */
  ghost predicate Elsewhere(d: Data, ops: seq<Timed>, p: Part)
    requires JobsPresent(d.db)
    decreases |ops|
  {
    ops == [] ||
    (&& Apart(PartOf(d, ops[0].op), p)
     && (ops[0].op.Book? ==> ops[0].op.ids.job !in d.db.jobs)
     && (ApplyPresent(d, ops[0].op, ops[0].at); Elsewhere(Apply(d, ops[0].op, ops[0].at), ops[1..], p)))
  }

  /** An operation elsewhere neither sees nor disturbs what is pasted onto `p`. */
  lemma FrameOp(d: Data, p: Part, x: Data, op: Op, at: Setting)
    requires JobsPresent(d.db) && JobsPresent(Paste(d, p.seats, x).db) && Inside(x, d, p) && Apart(PartOf(d, op), p)
    requires op.Book? ==> op.ids.job !in d.db.jobs
    ensures Apply(Paste(d, p.seats, x), op, at) == Paste(Apply(d, op, at), p.seats, x)
    ensures Inside(x, Apply(d, op, at), p) && Cut(Apply(d, op, at), p) == Cut(d, p)
  {
    var e, q := Paste(d, p.seats, x), PartOf(d, op);
    PasteKeepsCut(d, p, x, q);
    SameCutSamePart(d, e, op);
    OpLocal(d, op, at);
    OpLocal(e, op, at);
    PastesCommute(d, p, x, q, Apply(Cut(d, q), op, at));
    PasteKeepsCut(d, q, Apply(Cut(d, q), op, at), p);
  }

  lemma {:induction false} FrameOps(d: Data, p: Part, x: Data, ops: seq<Timed>)
    requires JobsPresent(d.db) && JobsPresent(Paste(d, p.seats, x).db) && Inside(x, d, p) && Elsewhere(d, ops, p)
    ensures ApplyAll(Paste(d, p.seats, x), ops) == Paste(ApplyAll(d, ops), p.seats, x)
    ensures Inside(x, ApplyAll(d, ops), p) && Cut(ApplyAll(d, ops), p) == Cut(d, p)
    decreases |ops|
  {
    if ops != [] {
      var op, at := ops[0].op, ops[0].at;
      FrameOp(d, p, x, op, at);
      ApplyPresent(d, op, at);
      ApplyPresent(Paste(d, p.seats, x), op, at);
      FrameOps(Apply(d, op, at), p, x, ops[1..]);
    }
  }

  /** The booking went through. */
  predicate Succeeds(d: Data, op: Op, at: Setting) {
    op.Book? && CreateBooking(Snapshot(d.db, d.locks, []), at.now, at.ttl, op.event, op.codes, op.ids,
      op.trouble).1.Created?
  }

  lemma SucceedsMeans(d: Data, op: Op, at: Setting)
    requires Succeeds(d, op, at)
    ensures var codes := Unique(op.codes);
      && EventOpen(d.db, op.event) && AllFree(d.db, op.event, codes)
      && FirstConflict(d.locks, op.event, codes, 0) == |codes| && op.trouble == NoTrouble
  {
    ReadsAgree(Snapshot(d.db, d.locks, []), at.now, at.ttl, op.event, op.codes, op.ids, op.trouble);
  }

  lemma BookIsReserve(d: Data, op: Op, at: Setting)
    requires JobsPresent(d.db) && op.Book? && EventOpen(d.db, op.event) && AllFree(d.db, op.event, Unique(op.codes))
    ensures Apply(d, op, at) == ReserveData(d, op.event, Unique(op.codes), op.ids, op.trouble, at)
  {
    ReadsAgree(Snapshot(d.db, d.locks, []), at.now, at.ttl, op.event, op.codes, op.ids, op.trouble);
  }

  /** What a successful booking starts from, on its own part. */
  lemma FreePart(d: Data, op: Op, at: Setting)
    requires Succeeds(d, op, at)
    ensures var codes := Unique(op.codes);
      var cut := Cut(d, PartOf(d, op));
      && cut.locks == map[] && cut.db.seats == (map s | s in Keys(op.event, codes) :: Available)
      && AllFree(cut.db, op.event, codes) && FirstConflict(cut.locks, op.event, codes, 0) == |codes|
  {
    SucceedsMeans(d, op, at);
    FreeCut(d, op.event, Unique(op.codes), PartOf(d, op));
  }

  lemma FreeCut(d: Data, event: Id, codes: seq<string>, p: Part)
    requires p.seats == Keys(event, codes) && AllFree(d.db, event, codes)
    requires FirstConflict(d.locks, event, codes, 0) == |codes|
    ensures var cut := Cut(d, p);
      && cut.locks == map[] && cut.db.seats == (map s | s in Keys(event, codes) :: Available)
      && AllFree(cut.db, event, codes) && FirstConflict(cut.locks, event, codes, 0) == |codes|
  {
    ConflictLocal(d.locks, event, codes, 0);
    LockLocal(d.locks, event, codes, Lock(0, 0));
    assert forall c :: c in codes ==> Seat(event, c) in Keys(event, codes);
  }

  lemma BookingPart(d: Data, op: Op, at: Setting)
    requires JobsPresent(d.db) && Succeeds(d, op, at) && op.ids.booking !in d.db.bookings && op.ids.job !in d.db.jobs
    ensures var p := PartOf(d, op);
      var b := NewBooking(op.event, Unique(op.codes), op.ids.token);
      var x := Apply(Cut(d, p), op, at);
      && x.db.bookings == map[op.ids.booking := b]
      && x.db.jobs == map[op.ids.job := Job(op.ids.booking, JobPending, 0, at.now)]
      && x.db.seats == (map s | s in p.seats :: Booked) && x.locks.Keys == p.seats && x.db.notices == multiset{}
      && Cut(d, p).locks == map[] && Cut(d, p).db.seats == (map s | s in p.seats :: Available)
  {
    SucceedsMeans(d, op, at);
    FreePart(d, op, at);
    BookIsReserve(Cut(d, PartOf(d, op)), op, at);
    ReservedPart(Cut(d, PartOf(d, op)), op.event, Unique(op.codes), op.ids, at);
  }

  /** A booking of seats that are all there is. */
  lemma ReservedPart(cut: Data, event: Id, codes: seq<string>, ids: Ids, at: Setting)
    requires cut.db.bookings == map[] && cut.db.jobs == map[] && cut.db.notices == multiset{} && cut.locks == map[]
    requires cut.db.seats == (map s | s in Keys(event, codes) :: Available)
    requires FirstConflict(cut.locks, event, codes, 0) == |codes|
    ensures var x := ReserveData(cut, event, codes, ids, NoTrouble, at);
      && x.db.bookings == map[ids.booking := NewBooking(event, codes, ids.token)]
      && x.db.jobs == map[ids.job := Job(ids.booking, JobPending, 0, at.now)]
      && x.db.seats == (map s | s in Keys(event, codes) :: Booked) && x.locks.Keys == Keys(event, codes)
      && x.db.notices == multiset{}
  {
    ReserveIs(cut, event, codes, ids, NoTrouble, at);
    InsertIntoFree(cut.db, ids.booking, ids.job, NewBooking(event, codes, ids.token), at.now);
  }

  lemma InsertIntoFree(db: Db, bid: Id, jid: Id, b: Booking, now: nat)
    requires db.bookings == map[] && db.jobs == map[] && db.seats == (map s | s in b.seats :: Available)
    ensures var out := InsertBooking(db, bid, jid, b, now);
      && out.bookings == map[bid := b] && out.jobs == map[jid := Job(bid, JobPending, 0, now)]
      && out.seats == (map s | s in b.seats :: Booked) && out.notices == db.notices
  {
  }

  /** Booking and then cancelling leaves every seat and every lock as the operations in between alone would have: the
      cancelled booking and its job row are all that remains of it. */
  lemma {:induction false} CancelUndoesBooking(d: Data, op: Op, at: Setting, ops: seq<Timed>, later: Setting)
    requires JobsPresent(d.db) && Succeeds(d, op, at) && op.ids.booking !in d.db.bookings && op.ids.job !in d.db.jobs
    requires Elsewhere(d, ops, PartOf(d, op))
    ensures JobsPresent(Apply(d, op, at).db)
    ensures var without := ApplyAll(d, ops);
      var end := Apply(ApplyAll(Apply(d, op, at), ops), CancelIt(op.ids.booking, false), later);
      var b := NewBooking(op.event, Unique(op.codes), op.ids.token);
      && end.db.seats == without.db.seats && end.locks == without.locks
      && end.db.events == without.db.events && end.db.notices == without.db.notices
      && end.db.bookings == without.db.bookings[op.ids.booking := b.(status := Cancelled)]
      && end.db.jobs == without.db.jobs[op.ids.job := Job(op.ids.booking, JobPending, 0, at.now)]
  {
    ApplyPresent(d, op, at);
    OpLocal(d, op, at);
    BookingPart(d, op, at);
    var p := PartOf(d, op);
    var x := Apply(Cut(d, p), op, at);
    FrameOps(d, p, x, ops);
    UnbookPart(ApplyAll(d, ops), p, x, op, at, later);
  }

  /** Cancelling the pasted booking, given that the part beneath it is free. */
  lemma UnbookPart(f: Data, p: Part, x: Data, op: Op, at: Setting, later: Setting)
    requires op.Book? && p == Part(Keys(op.event, Unique(op.codes)), {op.ids.booking}, {op.ids.job})
    requires JobsPresent(Paste(f, p.seats, x).db)
    requires x.db.bookings == map[op.ids.booking := NewBooking(op.event, Unique(op.codes), op.ids.token)]
    requires x.db.jobs == map[op.ids.job := Job(op.ids.booking, JobPending, 0, at.now)]
    requires x.db.seats == (map s | s in p.seats :: Booked) && x.locks.Keys == p.seats && x.db.notices == multiset{}
    requires Cut(f, p).locks == map[] && Cut(f, p).db.seats == (map s | s in p.seats :: Available)
    ensures var end := Apply(Paste(f, p.seats, x), CancelIt(op.ids.booking, false), later);
      && end.db.seats == f.db.seats && end.locks == f.locks && end.db.events == f.db.events
      && end.db.notices == f.db.notices
      && end.db.bookings == f.db.bookings[op.ids.booking := NewBooking(op.event, Unique(op.codes),
         op.ids.token).(status := Cancelled)]
      && end.db.jobs == f.db.jobs[op.ids.job := Job(op.ids.booking, JobPending, 0, at.now)]
  {
    assert forall s :: s in p.seats ==> s in Cut(f, p).db.seats && f.db.seats[s] == Available;
    assert forall s :: s in p.seats ==> s !in Cut(f, p).locks;
    SeatsRestored(f.db.seats, x.db.seats, p.seats);
    LocksRestored(f.locks, x.locks, p.seats);
    CancelledIs(Paste(f, p.seats, x), op.ids.booking, later);
    var b := NewBooking(op.event, Unique(op.codes), op.ids.token);
    assert Paste(f, p.seats, x).db.bookings[op.ids.booking] == b;
    UpdateTwice(f.db.bookings, op.ids.booking, b, b.(status := Cancelled));
    UpdateTwice(f.db.jobs, op.ids.job, Job(op.ids.booking, JobPending, 0, at.now),
      Job(op.ids.booking, JobPending, 0, at.now));
  }

  lemma UpdateTwice<V>(m: map<Id, V>, k: Id, v: V, w: V)
    ensures (m + map[k := v])[k := w] == m[k := w] && m + map[k := v] == m[k := v]
  {
  }

  lemma SeatsRestored(seats: map<Seat, SeatStatus>, over: map<Seat, SeatStatus>, which: set<Seat>)
    requires over.Keys == which && forall s :: s in which ==> s in seats && seats[s] == Available
    ensures SetSeats(seats + over, which, Available) == seats
  {
  }

  lemma LocksRestored(locks: Locks, over: Locks, which: set<Seat>)
    requires over.Keys == which && forall s :: s in which ==> s !in locks
    ensures ((locks - which) + over) - which == locks
  {
  }

  lemma CancelledIs(d: Data, bid: Id, at: Setting)
    requires JobsPresent(d.db) && bid in d.db.bookings && Active(d.db.bookings[bid])
    ensures Apply(d, CancelIt(bid, false), at) == Data(CancelRows(d.db, bid), d.locks - d.db.bookings[bid].seats)
  {
  }

  // ---- expiry by the clock ---------------------------------------------------------------

  function AdminCancel(cid: Id, bid: Id): seq<Action> {
    [CheckCancel(cid, bid, true)] + [Canceller(cid, WriteCancel)]
  }

  function CustomerCancel(cid: Id, bid: Id): seq<Action> {
    [CheckCancel(cid, bid, false)] + [Canceller(cid, WriteCancel)] + [Canceller(cid, ReleaseAfterCancel)]
  }

  /** `st` after cancel `cid` of booking `bid`, with these locks. */
  function AfterCancel(st: State, cid: Id, bid: Id, byAdmin: bool, phase: CancelPhase, locks: Locks): State
    requires bid in st.db.bookings
  {
    st.(db := CancelRows(st.db, bid), locks := locks, cancels := st.cancels[cid := Cancel(bid, byAdmin, phase)],
        used := st.used + {cid})
  }

  lemma CancelRowsLead(st: State, cid: Id, bid: Id, byAdmin: bool)
    requires CheckEnabled(st, cid, bid)
    ensures Leads(st, [CheckCancel(cid, bid, byAdmin)] + [Canceller(cid, WriteCancel)], Any,
      AfterCancel(st, cid, bid, byAdmin, if byAdmin then Ended else ReleaseDue, st.locks))
  {
    LeadsOne(st, CheckCancel(cid, bid, byAdmin), Any);
    var mid := Next(st, CheckCancel(cid, bid, byAdmin));
    LeadsStep(st, [CheckCancel(cid, bid, byAdmin)], mid, Canceller(cid, WriteCancel),
      CancelNext(mid, cid, WriteCancel), Any);
  }

  lemma CustomerCancelLeads(st: State, cid: Id, bid: Id)
    requires CheckEnabled(st, cid, bid)
    ensures Leads(st, CustomerCancel(cid, bid), Any,
      AfterCancel(st, cid, bid, false, Ended, st.locks - st.db.bookings[bid].seats))
  {
    CancelRowsLead(st, cid, bid, false);
    var mid := AfterCancel(st, cid, bid, false, ReleaseDue, st.locks);
    LeadsStep(st, [CheckCancel(cid, bid, false)] + [Canceller(cid, WriteCancel)], mid,
      Canceller(cid, ReleaseAfterCancel),
      CancelNext(mid, cid, ReleaseAfterCancel), Any);
  }

  lemma ThenTicks(st: State, actions: seq<Action>, mid: State, n: nat)
    requires Leads(st, actions, Any, mid)
    ensures Leads(st, actions + Ticks(n), Any, Elapsed(mid, n))
  {
    TicksLead(mid, n, Any);
    LeadsThen(st, actions, mid, Ticks(n), Elapsed(mid, n), Any);
  }

  predicate ExpiredBy(locks: Locks, seats: set<Seat>, now: nat) {
    forall s :: s in seats && s in locks ==> locks[s].expiresAt <= now
  }

  lemma ExpiredLocks(locks: Locks, seats: set<Seat>, now: nat)
    ensures ExpiredBy(locks, seats, now) <==>
      (map s | s in locks && now < locks[s].expiresAt :: locks[s])
        == (map s | s in locks - seats && now < (locks - seats)[s].expiresAt :: (locks - seats)[s])
  {
    var left := map s | s in locks && now < locks[s].expiresAt :: locks[s];
    var right := map s | s in locks - seats && now < (locks - seats)[s].expiresAt :: (locks - seats)[s];
    if s :| s in seats && s in locks && locks[s].expiresAt > now {
      assert s in left && s !in right;
    }
  }

  lemma CancelsElapse(st: State, cid: Id, bid: Id, n: nat)
    requires bid in st.db.bookings && n >= 1
    ensures var seats := st.db.bookings[bid].seats;
      var admin := Elapsed(AfterCancel(st, cid, bid, true, Ended, st.locks), n);
      var customer := Elapsed(AfterCancel(st, cid, bid, false, Ended, st.locks - seats), n);
      && admin.db == customer.db && admin.queue == customer.queue
      && (admin.locks == customer.locks <==> ExpiredBy(st.locks, seats, st.now + n))
  {
    ExpiredLocks(st.locks, st.db.bookings[bid].seats, st.now + n);
  }

  /** As time goes on, an admin's cancel and a customer's lead to the same rows, and to the same locks exactly when
      the locks of the booking's seats have expired by then. */
  lemma CancelsAgreeOnceExpired(st: State, cid: Id, bid: Id, n: nat)
    requires CheckEnabled(st, cid, bid) && n >= 1
    ensures Run(st, AdminCancel(cid, bid) + Ticks(n), Any) && Run(st, CustomerCancel(cid, bid) + Ticks(n), Any)
    ensures var admin := Final(st, AdminCancel(cid, bid) + Ticks(n), Any);
      var customer := Final(st, CustomerCancel(cid, bid) + Ticks(n), Any);
      && admin.db == customer.db && admin.queue == customer.queue
      && (admin.locks == customer.locks <==> ExpiredBy(st.locks, st.db.bookings[bid].seats, st.now + n))
  {
    CancelRowsLead(st, cid, bid, true);
    ThenTicks(st, AdminCancel(cid, bid), AfterCancel(st, cid, bid, true, Ended, st.locks), n);
    CustomerCancelLeads(st, cid, bid);
    ThenTicks(st, CustomerCancel(cid, bid),
      AfterCancel(st, cid, bid, false, Ended, st.locks - st.db.bookings[bid].seats), n);
    CancelsElapse(st, cid, bid, n);
  }
}
