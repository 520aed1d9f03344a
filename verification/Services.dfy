/** The services as the sequential code they are: classes whose methods update the shared stores in place, each proved
    against the function of `Calls` that says what the call does. */
module Services {
  import opened Store
  import opened Protocol
  import opened Calls
  import opened Outcomes

  class Stores {
    var db: Db
    var locks: Locks
    var queue: seq<Id>
    var now: nat

    constructor ()
      ensures db == EMPTY_DB && locks == map[] && queue == [] && now == 0
    {
      db, locks, queue, now := EMPTY_DB, map[], [], 0;
    }

    function View(): Snapshot
      reads this
    {
      Snapshot(db, locks, queue)
    }

    /** `SET key token EX ttl NX`. */
    method SetNx(key: Seat, l: Lock) returns (ok: bool)
      modifies this`locks
      ensures ok <==> key !in old(locks)
      ensures locks == if ok then old(locks)[key := l] else old(locks)
    {
      ok := key !in locks;
      if ok { locks := locks[key := l]; }
    }
  }

  class SeatLockService {
    const stores: Stores
    const ttl: nat

    constructor (stores: Stores, ttl: nat)
      ensures this.stores == stores && this.ttl == ttl
    {
      this.stores, this.ttl := stores, ttl;
    }

    /** All or nothing: success locks exactly these seats for the token; a conflict names the first code that was held
        (or repeated) and leaves every lock as it was. */
    method AcquireLocks(event: Id, codes: seq<string>, token: Id) returns (r: LockResult)
      modifies stores`locks
      ensures (stores.locks, r) == LockAll(old(stores.locks), event, codes, Lock(token, stores.now + ttl))
    {
      var acquired: seq<string> := [];
      var n := 0;
      ghost var before, mine := stores.locks, Lock(token, stores.now + ttl);
      while n < |codes|
        invariant n <= |codes| && acquired == codes[..n]
        invariant Acquiring(stores.locks, before, event, codes, n, mine)
      {
        AcquiringNext(stores.locks, before, event, codes, n, mine);
        var ok := stores.SetNx(Seat(event, codes[n]), Lock(token, stores.now + ttl));
        if !ok {
          ReleaseLocks(event, acquired);
          return Conflict(codes[n]);
        }
        acquired := acquired + [codes[n]];
        n := n + 1;
      }
      AcquiringDone(stores.locks, before, event, codes, mine);
      return AllLocked;
    }

    method ReleaseLocks(event: Id, codes: seq<string>)
      modifies stores`locks
      ensures stores.locks == old(stores.locks) - Keys(event, codes)
    {
      if |codes| == 0 {
        assert Keys(event, codes) == {};
        return;
      }
      stores.locks := stores.locks - Keys(event, codes);
    }
  }

  class BookingsService {
    const stores: Stores
    const seatLocks: SeatLockService

    constructor (seatLocks: SeatLockService)
      ensures this.seatLocks == seatLocks && this.stores == seatLocks.stores
    {
      this.seatLocks, this.stores := seatLocks, seatLocks.stores;
    }

    static method UniqueCodes(codes: seq<string>) returns (u: seq<string>)
      ensures u == Unique(codes)
    {
      u := [];
      for i := 0 to |codes|
        invariant u == Unique(codes[..i])
      {
        assert codes[..i + 1][..i] == codes[..i];
        if codes[i] !in u { u := u + [codes[i]]; }
      }
      assert codes[..|codes|] == codes;
    }

    method CreateBooking(event: Id, seatCodes: seq<string>, ids: Ids, trouble: Trouble) returns (r: Outcome)
      requires stores == seatLocks.stores
      modifies stores
      ensures (stores.View(), r) ==
        Calls.CreateBooking(old(stores.View()), stores.now, seatLocks.ttl, event, seatCodes, ids, trouble)
      ensures AnswersFor(old(stores.View()), event, seatCodes, ids, trouble, r)
      ensures stores.now == old(stores.now)
    {
      CreateAnswers(stores.View(), stores.now, seatLocks.ttl, event, seatCodes, ids, trouble);
      var db := stores.db;
      ghost var before, now := stores.View(), stores.now;
      var codes := UniqueCodes(seatCodes);
      if event !in db.events || !db.events[event].published { return NotFound; }

      var missing := Missing(db, event, codes);
      if missing != [] { return UnknownSeats(missing); }

      var taken := set c | c in codes && Seat(event, c) in db.seats && db.seats[Seat(event, c)] != Available;
      if taken != {} { return AlreadyTaken(taken); }

      r := Reserve(event, codes, ids, trouble);
    }

    /** Locks every seat, then persists: from the lock attempt to the end of `createBooking`. */
    method Reserve(event: Id, codes: seq<string>, ids: Ids, trouble: Trouble) returns (r: Outcome)
      requires stores == seatLocks.stores
      modifies stores
      ensures stores.now == old(stores.now)
      ensures (stores.View(), r)
        == Calls.Reserve(old(stores.View()), stores.now, seatLocks.ttl, event, codes, ids, trouble)
    {
      ghost var before := stores.locks;
      var locked := seatLocks.AcquireLocks(event, codes, ids.token);
      if locked.Conflict? { return HeldByAnother(locked.code); }
      assert Keys(event, codes) !! before.Keys;
      r := Persist(event, codes, ids, trouble, before);
    }

    /** The try block and its catch, with all the locks taken. */
    method Persist(event: Id, codes: seq<string>, ids: Ids, trouble: Trouble, ghost before: Locks) returns (r: Outcome)
      requires stores == seatLocks.stores
      requires stores.locks == Locked(before, Keys(event, codes), Lock(ids.token, stores.now + seatLocks.ttl))
      requires Keys(event, codes) !! before.Keys
      modifies stores
      ensures stores.now == old(stores.now)
      ensures r == if trouble == NoTrouble then Created(ids.booking) else ServerError
      ensures stores.db == if trouble == TransactionFails then old(stores.db)
        else InsertBooking(old(stores.db), ids.booking, ids.job, NewBooking(event, codes, ids.token), stores.now)
      ensures stores.locks == if trouble == NoTrouble then old(stores.locks) else before
      ensures stores.queue == if trouble == NoTrouble then [ids.booking] + old(stores.queue) else old(stores.queue)
    {
      if trouble == TransactionFails {
        RollBack(event, codes);
        return ServerError;
      }
      stores.db := InsertBooking(stores.db, ids.booking, ids.job, NewBooking(event, codes, ids.token), stores.now);
      if trouble == PushFails {
        RollBack(event, codes);
        return ServerError;
      }
      stores.queue := [ids.booking] + stores.queue;
      return Created(ids.booking);
    }

    /** The catch block. */
    method RollBack(event: Id, codes: seq<string>)
      requires stores == seatLocks.stores
      modifies stores`locks
      ensures stores.locks == old(stores.locks) - Keys(event, codes)
    {
      seatLocks.ReleaseLocks(event, codes);
    }

    method CancelBooking(bid: Id) returns (r: CancelOutcome)
      modifies stores
      ensures (stores.View(), r) == Calls.CancelBooking(old(stores.View()), bid, false)
      ensures stores.now == old(stores.now)
    {
      if bid !in stores.db.bookings { return NoSuchBooking; }
      var booking := stores.db.bookings[bid];
      if booking.status == Cancelled { return AlreadyCancelled; }
      stores.db := CancelRows(stores.db, bid);
      stores.locks := stores.locks - booking.seats;
      return CancelDone;
    }
  }

  class AdminBookingsService {
    const stores: Stores

    constructor (stores: Stores)
      ensures this.stores == stores
    {
      this.stores := stores;
    }

    method Cancel(bid: Id) returns (r: CancelOutcome)
      modifies stores
      ensures (stores.View(), r) == Calls.CancelBooking(old(stores.View()), bid, true)
      ensures stores.now == old(stores.now)
    {
      if bid !in stores.db.bookings { return NoSuchBooking; }
      if stores.db.bookings[bid].status == Cancelled { return AlreadyCancelled; }
      stores.db := CancelRows(stores.db, bid);
      return CancelDone;
    }
  }

  /** How the try block of `processJob` ends: a throw goes on to the catch, a death does not. */
  datatype TryEnd = Completed | Threw | Died

  class BookingsProcessorService {
    const stores: Stores
    const maxAttempts: nat

    constructor (stores: Stores, maxAttempts: nat)
      ensures this.stores == stores && this.maxAttempts == maxAttempts
    {
      this.stores, this.maxAttempts := stores, maxAttempts;
    }

    method ProcessMessage(jobId: Id, qr: Option<string>, m: Mishap)
      requires JobsPresent(stores.db)
      modifies stores
      ensures JobsPresent(stores.db)
      ensures (stores.db, stores.locks) ==
        if jobId in old(stores.db.jobs)
          then Calls.ProcessJob(old(stores.db), old(stores.locks), maxAttempts, jobId, qr, m)
        else (old(stores.db), old(stores.locks))
      ensures stores.queue == old(stores.queue) && stores.now == old(stores.now)
    {
      if jobId !in stores.db.jobs { return; }
      var _ := this.ProcessJob(jobId, qr, m);
    }

    /** The `m` parameter says which write, if any, throws or never happens. */
    method ProcessJob(jobId: Id, qr: Option<string>, m: Mishap) returns (returned: bool)
      requires JobsPresent(stores.db)
      modifies stores
      ensures JobsPresent(stores.db)
      ensures (stores.db, stores.locks) ==
        Calls.ProcessJob(old(stores.db), old(stores.locks), maxAttempts, jobId, qr, m)
      ensures returned == Returns(Loaded(Config(0, 0, maxAttempts), old(stores.db), jobId), m)
      ensures stores.queue == old(stores.queue) && stores.now == old(stores.now)
    {
      var db := stores.db;
      if jobId !in db.jobs { return true; }
      var job := db.jobs[jobId];
      if job.status == JobDone { return true; }
      if job.attempts >= maxAttempts {
        if m == DieAt(0) || m == ThrowAt(0) { return false; }
        stores.db := SetJobStatus(stores.db, jobId, JobFailed);
        assert Drive(db, stores.locks, FailingJob(jobId), qr, m)
            == Drive(stores.db, stores.locks, FailingBooking(jobId), qr, Later(m));
        if m == DieAt(1) || m == ThrowAt(1) { return false; }
        stores.db := SetBookingStatus(stores.db, job.booking, Failed);
        assert Drive(stores.db, stores.locks, Idle, qr, Later(Later(m))) == (stores.db, stores.locks);
        return true;
      }
      if m == DieAt(0) || m == ThrowAt(0) { return false; }
      stores.db := StartAttempt(stores.db, jobId);
      returned := Attempt(jobId, qr, Later(m));
    }

    /** The try block and its catch. */
    method Attempt(jobId: Id, qr: Option<string>, m: Mishap) returns (returned: bool)
      requires JobsPresent(stores.db) && jobId in stores.db.jobs
      modifies stores`db, stores`locks
      ensures JobsPresent(stores.db)
      ensures (stores.db, stores.locks) == Drive(old(stores.db), old(stores.locks), Confirming(jobId), qr, m)
      ensures returned == Returns(Confirming(jobId), m)
    {
      var end := TryBlock(jobId, qr, m);
      if end == Threw { stores.db := SetJobStatus(stores.db, jobId, JobPending); }
      returned := end != Died;
    }

    /** The try block alone, write by write: here the CONFIRMED and the notice. */
    method TryBlock(jobId: Id, qr: Option<string>, m: Mishap) returns (end: TryEnd)
      requires JobsPresent(stores.db) && jobId in stores.db.jobs
      modifies stores`db, stores`locks
      ensures JobsPresent(stores.db) && jobId in stores.db.jobs
      ensures Drive(old(stores.db), old(stores.locks), Confirming(jobId), qr, m)
           == (if end == Threw then SetJobStatus(stores.db, jobId, JobPending) else stores.db, stores.locks)
      ensures end == Died <==> !Returns(Confirming(jobId), m)
    {
      var bid := stores.db.jobs[jobId].booking;
      if m == DieAt(0) || m == ThrowAt(0) { return if m == ThrowAt(0) then Threw else Died; }
      DriveOn(stores.db, stores.locks, Confirming(jobId), qr, m);
      stores.db := ConfirmBooking(stores.db, bid, qr);
      var m1 := Later(m);
      if m1 == DieAt(0) || m1 == ThrowAt(0) { return if m1 == ThrowAt(0) then Threw else Died; }
      DriveOn(stores.db, stores.locks, Notifying(jobId), qr, m1);
      stores.db := AddNotice(stores.db, bid);
      end := TryRest(jobId, qr, Later(m1));
    }

    /** The rest of it: the locks and the DONE. */
    method TryRest(jobId: Id, qr: Option<string>, m: Mishap) returns (end: TryEnd)
      requires JobsPresent(stores.db) && jobId in stores.db.jobs
      modifies stores`db, stores`locks
      ensures JobsPresent(stores.db) && jobId in stores.db.jobs
      ensures Drive(old(stores.db), old(stores.locks), Unlocking(jobId), qr, m)
           == (if end == Threw then SetJobStatus(stores.db, jobId, JobPending) else stores.db, stores.locks)
      ensures end == Died <==> !Returns(Unlocking(jobId), m)
    {
      var seats := stores.db.bookings[stores.db.jobs[jobId].booking].seats;
      if m == DieAt(0) || m == ThrowAt(0) { return if m == ThrowAt(0) then Threw else Died; }
      DriveOn(stores.db, stores.locks, Unlocking(jobId), qr, m);
      stores.locks := stores.locks - seats;
      var m1 := Later(m);
      if m1 == DieAt(0) || m1 == ThrowAt(0) { return if m1 == ThrowAt(0) then Threw else Died; }
      DriveOn(stores.db, stores.locks, Finishing(jobId), qr, m1);
      stores.db := SetJobStatus(stores.db, jobId, JobDone);
      return Completed;
    }
  }

  class ReconciliationSweepService {
    const stores: Stores
    const processor: BookingsProcessorService
    const threshold: nat

    constructor (processor: BookingsProcessorService, threshold: nat)
      ensures this.processor == processor && this.stores == processor.stores && this.threshold == threshold
    {
      this.processor, this.stores, this.threshold := processor, processor.stores, threshold;
    }

    /** `calls` says which batch the query returned, in order, and what goes wrong in each call. */
    method Sweep(calls: seq<JobCall>)
      requires stores == processor.stores && JobsPresent(stores.db)
      requires Batch(stores.db, threshold, stores.now, JobsOf(calls))
      modifies stores
      ensures (stores.db, stores.locks) == ProcessAll(old(stores.db), old(stores.locks), processor.maxAttempts, calls)
      ensures stores.queue == old(stores.queue) && stores.now == old(stores.now)
    {
      if |calls| == 0 { return; }
      var n := 0;
      while n < |calls|
        invariant n <= |calls| && JobsPresent(stores.db)
        invariant ProcessAll(stores.db, stores.locks, processor.maxAttempts, calls[n..])
               == ProcessAll(old(stores.db), old(stores.locks), processor.maxAttempts, calls)
        invariant stores.queue == old(stores.queue) && stores.now == old(stores.now)
      {
        var returned := processor.ProcessJob(calls[n].job, calls[n].qr, calls[n].m);
        assert calls[n..][1..] == calls[n + 1..];
        if !returned { return; }
        n := n + 1;
      }
    }
  }
}
