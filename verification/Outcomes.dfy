/** What the calls answer and what they leave, row by row: each outcome with the condition on the stores under which it
    is given, what it names, and every field that changes. */
module Outcomes {
  import opened Store
  import opened Protocol
  import opened Calls
  import opened Orders

  // ---- order of first occurrence ---------------------------------------------------------

  /** Deduplication keeps the order of first occurrence. */
  lemma {:induction false} UniqueInOrder(s: seq<string>)
    ensures FirstsOf(Unique(s), s)
  {
    if s != [] {
      var n := |s| - 1;
      var front, u := Unique(s[..n]), Unique(s);
      UniqueInOrder(s[..n]);
      assert s == s[..n] + [s[n]];
      OrderMore(front, s[..n], s[n], u);
    }
  }

  /** So does leaving out the codes that name a seat. */
  lemma {:induction false} MissingInOrder(db: Db, event: Id, codes: seq<string>)
    requires Distinct(codes)
    ensures Distinct(Missing(db, event, codes)) && FirstOrder(Missing(db, event, codes), codes)
  {
    if codes != [] {
      var n := |codes| - 1;
      var front, all := Missing(db, event, codes[..n]), Missing(db, event, codes);
      MissingInOrder(db, event, codes[..n]);
      assert codes == codes[..n] + [codes[n]];
      assert codes[n] !in codes[..n];
      OrderMore(front, codes[..n], codes[n], all);
    }
  }

  lemma OrderThrough(s: seq<string>, x: string, y: string)
    requires FirstBefore(Unique(s), x, y) && y in Unique(s)
    ensures FirstBefore(s, x, y)
  {
    var u := Unique(s);
    var p :| 0 <= p < |u| && u[p] == x && y !in u[..p + 1];
    var q :| 0 <= q < |u| && u[q] == y;
    forall k | 0 <= k <= p ensures u[k] != y { assert u[k] in u[..p + 1]; }
    UniqueInOrder(s);
  }

  /** Leaving out repetitions and then the codes of seats keeps the order of first occurrence. */
  lemma MissingFirstOrder(db: Db, event: Id, seatCodes: seq<string>)
    ensures FirstOrder(Missing(db, event, Unique(seatCodes)), seatCodes)
  {
    var u := Unique(seatCodes);
    var m := Missing(db, event, u);
    MissingInOrder(db, event, u);
    forall i, j | 0 <= i < j < |m| ensures FirstBefore(seatCodes, m[i], m[j]) {
      assert m[j] in m;
      OrderThrough(seatCodes, m[i], m[j]);
    }
  }

  // ---- what createBooking answers --------------------------------------------------------

  predicate AllKnown(db: Db, event: Id, seatCodes: seq<string>) {
    forall c :: c in seatCodes ==> Seat(event, c) in db.seats
  }

  predicate NoneLocked(locks: Locks, event: Id, seatCodes: seq<string>) {
    forall c :: c in seatCodes ==> Seat(event, c) !in locks
  }

  /** `code` is the first of the codes, as they were asked for, whose seat is locked. */
  predicate FirstLocked(locks: Locks, event: Id, seatCodes: seq<string>, code: string) {
    exists i :: 0 <= i < |seatCodes| && seatCodes[i] == code && Seat(event, code) in locks
      && forall k :: 0 <= k < i ==> Seat(event, seatCodes[k]) !in locks
  }

  /** The first conflict among the distinct codes is the first locked one among all. */
  lemma ConflictIsFirstLocked(locks: Locks, event: Id, seatCodes: seq<string>)
    ensures var u := Unique(seatCodes);
      var i := FirstConflict(locks, event, u, 0);
      && (i == |u| <==> NoneLocked(locks, event, seatCodes))
      && (i < |u| ==> FirstLocked(locks, event, seatCodes, u[i]))
  {
    var u := Unique(seatCodes);
    var i := FirstConflict(locks, event, u, 0);
    if i < |u| {
      assert Distinct(u) && u[i] !in u[..i];
      LockedFirst(locks, event, seatCodes, i);
    } else {
      forall c | c in seatCodes ensures Seat(event, c) !in locks {
        var k :| 0 <= k < |u| && u[k] == c;
      }
    }
  }

  lemma LockedFirst(locks: Locks, event: Id, seatCodes: seq<string>, i: nat)
    requires var u := Unique(seatCodes); i < |u| && Seat(event, u[i]) in locks
    requires forall k :: 0 <= k < i ==> Seat(event, Unique(seatCodes)[k]) !in locks
    ensures FirstLocked(locks, event, seatCodes, Unique(seatCodes)[i]) && !NoneLocked(locks, event, seatCodes)
  {
    var u := Unique(seatCodes);
    assert u[i] in u;
    var p := FirstPlace(seatCodes, u[i]);
    UniqueInOrder(seatCodes);
    forall k | 0 <= k < p ensures Seat(event, seatCodes[k]) !in locks {
      assert seatCodes[..p][k] == seatCodes[k];
      assert seatCodes[k] in u;
      var m :| 0 <= m < |u| && u[m] == seatCodes[k];
      assert m != i;
      if m > i { PlacedBefore(seatCodes, u[i], u[m], p, k); }
    }
  }

  lemma ReservedExactly(w: Snapshot, now: nat, ttl: nat, event: Id, seatCodes: seq<string>, ids: Ids, trouble: Trouble)
    ensures var r := Reserve(w, now, ttl, event, Unique(seatCodes), ids, trouble).1;
      && (r.HeldByAnother? <==> !NoneLocked(w.locks, event, seatCodes))
      && (r.HeldByAnother? ==> FirstLocked(w.locks, event, seatCodes, r.code))
      && (r == ServerError <==> NoneLocked(w.locks, event, seatCodes) && trouble != NoTrouble)
      && (r.Created? <==> NoneLocked(w.locks, event, seatCodes) && trouble == NoTrouble)
      && (r.Created? ==> r.booking == ids.booking) && !r.NotFound? && !r.UnknownSeats? && !r.AlreadyTaken?
  {
    ConflictIsFirstLocked(w.locks, event, seatCodes);
  }

  /** Each answer of `createBooking`, with the first of these tests that fails and what the answer names: the event
      is published; every code names a seat; every seat is AVAILABLE; no seat is locked; nothing goes wrong in the
      store. */
  ghost predicate AnswersFor(w: Snapshot, event: Id, seatCodes: seq<string>, ids: Ids, trouble: Trouble, r: Outcome) {
    match r
    case NotFound => !EventOpen(w.db, event)
    case UnknownSeats(missing) =>
      && EventOpen(w.db, event) && !AllKnown(w.db, event, seatCodes)
      && (forall c :: c in missing <==> c in seatCodes && Seat(event, c) !in w.db.seats)
      && Distinct(missing) && FirstOrder(missing, seatCodes)
    case AlreadyTaken(seats) =>
      && EventOpen(w.db, event) && AllKnown(w.db, event, seatCodes) && !AllFree(w.db, event, seatCodes)
      && forall c :: c in seats <==>
           c in seatCodes && Seat(event, c) in w.db.seats && w.db.seats[Seat(event, c)] != Available
    case HeldByAnother(code) =>
      EventOpen(w.db, event) && AllFree(w.db, event, seatCodes) && FirstLocked(w.locks, event, seatCodes, code)
    case ServerError =>
      && EventOpen(w.db, event) && AllFree(w.db, event, seatCodes) && NoneLocked(w.locks, event, seatCodes)
      && trouble != NoTrouble
    case Created(booking) =>
      && EventOpen(w.db, event) && AllFree(w.db, event, seatCodes) && NoneLocked(w.locks, event, seatCodes)
      && trouble == NoTrouble && booking == ids.booking
  }

  lemma FreeUnlessTaken(w: Snapshot, event: Id, seatCodes: seq<string>)
    ensures var codes := Unique(seatCodes);
      var taken := set c | c in codes && Seat(event, c) in w.db.seats && w.db.seats[Seat(event, c)] != Available;
      && (Missing(w.db, event, codes) == [] <==> AllKnown(w.db, event, seatCodes))
      && (AllFree(w.db, event, seatCodes) <==> AllKnown(w.db, event, seatCodes) && taken == {})
      && (AllFree(w.db, event, seatCodes) <==> AllFree(w.db, event, codes))
  {
    var codes := Unique(seatCodes);
    var missing := Missing(w.db, event, codes);
    var taken := set c | c in codes && Seat(event, c) in w.db.seats && w.db.seats[Seat(event, c)] != Available;
    if missing != [] {
      assert missing[0] in missing;
    }
    forall c | c in seatCodes && c !in missing && c !in taken
      ensures Seat(event, c) in w.db.seats && w.db.seats[Seat(event, c)] == Available
    {
      assert c in codes;
    }
  }

  lemma CreateAnswers(w: Snapshot, now: nat, ttl: nat, event: Id, seatCodes: seq<string>, ids: Ids, trouble: Trouble)
    ensures AnswersFor(w, event, seatCodes, ids, trouble,
      CreateBooking(w, now, ttl, event, seatCodes, ids, trouble).1)
  {
    FreeUnlessTaken(w, event, seatCodes);
    if EventOpen(w.db, event) && AllFree(w.db, event, seatCodes) {
      ReservedExactly(w, now, ttl, event, seatCodes, ids, trouble);
      ReadsAgree(w, now, ttl, event, seatCodes, ids, trouble);
    } else {
      MissingInOrder(w.db, event, Unique(seatCodes));
      MissingFirstOrder(w.db, event, seatCodes);
    }
  }

  // ---- what the calls leave --------------------------------------------------------------

  /** A booking that succeeds: one row of the booking, its seats BOOKED, one open job, its keys locked, one message
      at the head of the queue, and nothing else. */
  lemma CreatedLeaves(w: Snapshot, now: nat, ttl: nat, event: Id, seatCodes: seq<string>, ids: Ids, trouble: Trouble)
    requires CreateBooking(w, now, ttl, event, seatCodes, ids, trouble).1.Created?
    ensures var after := CreateBooking(w, now, ttl, event, seatCodes, ids, trouble).0;
      && after.db.events == w.db.events && after.db.notices == w.db.notices
      && after.db.bookings == w.db.bookings[ids.booking :=
           Booking(event, set c | c in seatCodes :: Seat(event, c), Pending, None, ids.token)]
      && after.db.jobs == w.db.jobs[ids.job := Job(ids.booking, JobPending, 0, now)]
      && after.db.seats.Keys == w.db.seats.Keys
      && (forall s :: s in w.db.seats ==>
            after.db.seats[s] == (if s.event == event && s.code in seatCodes then Booked else w.db.seats[s]))
      && (forall s: Seat :: s in after.locks <==> s in w.locks || (s.event == event && s.code in seatCodes))
      && (forall s: Seat :: s in after.locks ==>
            after.locks[s]
              == (if s.event == event && s.code in seatCodes then Lock(ids.token, now + ttl) else w.locks[s]))
      && after.queue == [ids.booking] + w.queue
  {
    ReadsAgree(w, now, ttl, event, seatCodes, ids, trouble);
    assert Keys(event, Unique(seatCodes)) == set c | c in seatCodes :: Seat(event, c);
  }

  /** What a cancel answers, and what it leaves: the booking CANCELLED, its seats AVAILABLE, and for a customer its keys
      deleted. */
  lemma CancelExactly(w: Snapshot, bid: Id, byAdmin: bool)
    ensures var (after, r) := CancelBooking(w, bid, byAdmin);
      && (r == NoSuchBooking <==> bid !in w.db.bookings)
      && (r == AlreadyCancelled <==> bid in w.db.bookings && w.db.bookings[bid].status == Cancelled)
      && (r != CancelDone ==> after == w)
      && (r == CancelDone ==>
            var b := w.db.bookings[bid];
            && after.db == w.db.(bookings := w.db.bookings[bid := b.(status := Cancelled)], seats := after.db.seats)
            && after.db.seats.Keys == w.db.seats.Keys && after.queue == w.queue
            && (forall s :: s in w.db.seats ==>
                  after.db.seats[s] == if s in b.seats then Available else w.db.seats[s])
            && (forall s :: s in after.locks <==> s in w.locks && (byAdmin || s !in b.seats))
            && (forall s :: s in after.locks ==> after.locks[s] == w.locks[s]))
  {
  }

  // ---- what processJob leaves ------------------------------------------------------------

  /** A job whose attempts are used up is given up: it and its booking are FAILED, and nothing else changes. */
  lemma GivesUp(db: Db, locks: Locks, max: nat, j: Id, qr: Option<string>)
    requires JobsPresent(db) && j in db.jobs && db.jobs[j].status != JobDone && db.jobs[j].attempts >= max
    ensures var (after, free) := ProcessJob(db, locks, max, j, qr, Fine);
      var b := db.jobs[j].booking;
      && after == db.(jobs := db.jobs[j := db.jobs[j].(status := JobFailed)],
                      bookings := db.bookings[b := db.bookings[b].(status := Failed)])
      && free == locks
  {
    var d1 := SetJobStatus(db, j, JobFailed);
    assert Drive(db, locks, FailingJob(j), qr, Fine) == Drive(d1, locks, FailingBooking(j), qr, Fine);
    var d2 := SetBookingStatus(d1, db.jobs[j].booking, Failed);
    assert Drive(d1, locks, FailingBooking(j), qr, Fine) == Drive(d2, locks, Idle, qr, Fine);
  }

  /** The stores after the first `n` writes of an attempt: counted, CONFIRMED, noticed, unlocked; and the job's
      status. */
  function AfterWrites(db: Db, locks: Locks, j: Id, qr: Option<string>, n: nat, status: JobStatus): (Db, Locks)
    requires JobPresent(db, j) && n >= 1
  {
    var job := db.jobs[j];
    var b := db.bookings[job.booking];
    (db.(jobs := db.jobs[j := job.(status := status, attempts := job.attempts + 1)],
         bookings := if n < 2 then db.bookings
           else db.bookings[job.booking := b.(status := Confirmed, qr := if qr.Some? then qr else b.qr)],
         notices := if n < 3 then db.notices else db.notices + multiset{job.booking}),
     if n < 4 then locks else locks - b.seats)
  }

  /** A death before write number `n`, or a throw at it. */
  function Broken(n: nat, dies: bool): Mishap {
    if dies then DieAt(n) else ThrowAt(n)
  }

  /** How a broken attempt leaves its job: PENDING after a throw, as it was after a death. */
  function Dropped(db: Db, j: Id, dies: bool): Db
    requires j in db.jobs
  {
    if dies then db else SetJobStatus(db, j, JobPending)
  }

  lemma BrokenUnlock(db: Db, locks: Locks, j: Id, qr: Option<string>, n: nat, dies: bool)
    requires JobPresent(db, j) && n <= 1
    ensures Drive(db, locks, Unlocking(j), qr, Broken(n, dies))
      == (Dropped(db, j, dies), if n < 1 then locks else locks - db.bookings[db.jobs[j].booking].seats)
  {
    if n >= 1 { DriveOn(db, locks, Unlocking(j), qr, Broken(n, dies)); }
  }

  lemma BrokenNotice(db: Db, locks: Locks, j: Id, qr: Option<string>, n: nat, dies: bool)
    requires JobPresent(db, j) && n <= 2
    ensures var b := db.jobs[j].booking;
      Drive(db, locks, Notifying(j), qr, Broken(n, dies))
        == (Dropped(if n < 1 then db else AddNotice(db, b), j, dies),
            if n < 2 then locks else locks - db.bookings[b].seats)
  {
    if n >= 1 {
      DriveOn(db, locks, Notifying(j), qr, Broken(n, dies));
      BrokenUnlock(AddNotice(db, db.jobs[j].booking), locks, j, qr, n - 1, dies);
    }
  }

  /** From the confirmation on: the writes before the one that goes wrong stand. */
  lemma BrokenTry(db: Db, locks: Locks, j: Id, qr: Option<string>, n: nat, dies: bool)
    requires JobPresent(db, j) && n <= 3
    ensures var b := db.jobs[j].booking;
      var confirmed := if n < 1 then db else ConfirmBooking(db, b, qr);
      Drive(db, locks, Confirming(j), qr, Broken(n, dies))
        == (Dropped(if n < 2 then confirmed else AddNotice(confirmed, b), j, dies),
            if n < 3 then locks else locks - db.bookings[b].seats)
  {
    if n >= 1 {
      DriveOn(db, locks, Confirming(j), qr, Broken(n, dies));
      BrokenNotice(ConfirmBooking(db, db.jobs[j].booking, qr), locks, j, qr, n - 1, dies);
    }
  }

  /** An attempt that throws at, or dies before, its write `n`, the first being number 0: the writes before it
      stand; after a throw the job is PENDING again, and after a death it stays PROCESSING. */
  lemma BrokenOff(db: Db, locks: Locks, max: nat, j: Id, qr: Option<string>, n: nat, dies: bool)
    requires JobsPresent(db) && j in db.jobs && db.jobs[j].status != JobDone && db.jobs[j].attempts < max
    requires 1 <= n <= 4
    ensures ProcessJob(db, locks, max, j, qr, if dies then DieAt(n) else ThrowAt(n))
      == AfterWrites(db, locks, j, qr, n, if dies then JobProcessing else JobPending)
  {
    var d1 := StartAttempt(db, j);
    DriveOn(db, locks, Starting(j), qr, Broken(n, dies));
    BrokenTry(d1, locks, j, qr, n - 1, dies);
    var out := AfterWrites(db, locks, j, qr, n, if dies then JobProcessing else JobPending).0;
    assert out.jobs == if dies then d1.jobs else d1.jobs[j := d1.jobs[j].(status := JobPending)];
  }
}
