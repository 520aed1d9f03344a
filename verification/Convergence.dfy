/** `processJob` converges: however often a run of it dies or throws, one undisturbed run while attempts remain ends
    where a single undisturbed run would have, up to the attempt and notice counts. */
module Convergence {
  import opened Store
  import opened Protocol
  import opened Calls

  /** What interrupted runs may have changed, from the stores on the left to those on the right: the job's status and
      attempts, the booking's status and QR url, its notices, and its locks. */
  ghost predicate Smudged(db: Db, locks: Locks, j: Id, db': Db, locks': Locks) {
    JobPresent(db, j) && JobPresent(db', j) &&
    var b := db.jobs[j].booking;
    && db'.events == db.events && db'.seats == db.seats
    && db'.jobs == db.jobs[j := db.jobs[j].(status := db'.jobs[j].status, attempts := db'.jobs[j].attempts)]
    && b in db'.bookings
    && db'.bookings == db.bookings[b := db.bookings[b].(status := db'.bookings[b].status, qr := db'.bookings[b].qr)]
    && (forall c :: c != b ==> db'.notices[c] == db.notices[c])
    && locks'.Keys <= locks.Keys && (forall s :: s in locks' ==> locks'[s] == locks[s])
    && (forall s :: s in locks && s !in db.bookings[b].seats ==> s in locks')
    && (db.bookings[b].qr.Some? ==> db'.bookings[b].qr.Some?)
  }

  /** Where one undisturbed run leads: DONE, CONFIRMED, one more attempt and notice, the locks gone, a new QR url
      kept only if there is one. */
  function Finished(db: Db, locks: Locks, j: Id, qr: Option<string>): (Db, Locks)
    requires JobPresent(db, j)
  {
    var job := db.jobs[j];
    var b := db.bookings[job.booking];
    (db.(jobs := db.jobs[j := job.(status := JobDone, attempts := job.attempts + 1)],
         bookings := db.bookings[job.booking := b.(status := Confirmed, qr := if qr.Some? then qr else b.qr)],
         notices := db.notices + multiset{job.booking}),
     locks - b.seats)
  }

  predicate CanRun(db: Db, max: nat, j: Id) {
    JobPresent(db, j) && db.jobs[j].status != JobDone && db.jobs[j].attempts < max
  }

  lemma UndisturbedRun(db: Db, locks: Locks, max: nat, j: Id, qr: Option<string>)
    requires JobsPresent(db) && CanRun(db, max, j)
    ensures ProcessJob(db, locks, max, j, qr, Fine) == Finished(db, locks, j, qr)
  {
    var bid := db.jobs[j].booking;
    var d1 := StartAttempt(db, j);
    assert Drive(db, locks, Starting(j), qr, Fine) == Drive(d1, locks, Confirming(j), qr, Fine);
    var d2 := ConfirmBooking(d1, bid, qr);
    assert Drive(d1, locks, Confirming(j), qr, Fine) == Drive(d2, locks, Notifying(j), qr, Fine);
    var d3, free := AddNotice(d2, bid), locks - db.bookings[bid].seats;
    assert Drive(d2, locks, Notifying(j), qr, Fine) == Drive(d3, locks, Unlocking(j), qr, Fine);
    assert Drive(d3, locks, Unlocking(j), qr, Fine) == Drive(d3, free, Finishing(j), qr, Fine);
    var d4 := SetJobStatus(d3, j, JobDone);
    assert Drive(d3, free, Finishing(j), qr, Fine) == Drive(d4, free, Idle, qr, Fine);
    assert d4.jobs == Finished(db, locks, j, qr).0.jobs;
  }

  /** A job that is DONE is left wholly unchanged. */
  lemma DoneUntouched(db: Db, locks: Locks, max: nat, j: Id, qr: Option<string>, m: Mishap)
    requires JobsPresent(db) && j in db.jobs && db.jobs[j].status == JobDone
    ensures ProcessJob(db, locks, max, j, qr, m) == (db, locks)
  {
  }

  // ---- interrupted runs ------------------------------------------------------------------

  lemma WriteSmudges(db: Db, locks: Locks, j: Id, d: Db, l: Locks, pc: Pc, qr: Option<string>)
    requires Smudged(db, locks, j, d, l) && !pc.Idle? && pc.job == j
    ensures var (d', l', next) := JobWrite(d, l, pc, qr);
      Smudged(db, locks, j, d', l') && (next.Idle? || next.job == j)
      && (pc.Starting? || Guarded(pc) ==> next.Idle? || Guarded(next))
  {
    var (d', l', next) := JobWrite(d, l, pc, qr);
    assert d'.jobs == db.jobs[j := db.jobs[j].(status := d'.jobs[j].status, attempts := d'.jobs[j].attempts)];
  }

  lemma {:induction false} DriveSmudges(db: Db, locks: Locks, j: Id, d: Db, l: Locks, pc: Pc, qr: Option<string>,
                                        m: Mishap)
    requires Smudged(db, locks, j, d, l) && (pc.Idle? || pc.job == j)
    ensures var (d', l') := Drive(d, l, pc, qr, m); Smudged(db, locks, j, d', l')
    decreases Remaining(pc)
  {
    if pc.Idle? || m == DieAt(0) {
    } else if m == ThrowAt(0) {
      var d' := SetJobStatus(d, j, JobPending);
      assert d'.jobs == db.jobs[j := db.jobs[j].(status := d'.jobs[j].status, attempts := d'.jobs[j].attempts)];
    } else {
      WriteSmudges(db, locks, j, d, l, pc, qr);
      var (d', l', next) := JobWrite(d, l, pc, qr);
      DriveSmudges(db, locks, j, d', l', next, qr, Later(m));
    }
  }

  /** One earlier run of the job: its QR result and its mishap. */
  datatype Attempt = Attempt(qr: Option<string>, m: Mishap)

  ghost function RunAll(db: Db, locks: Locks, max: nat, j: Id, attempts: seq<Attempt>): (out: (Db, Locks))
    requires JobsPresent(db)
    ensures JobsPresent(out.0)
    decreases |attempts|
  {
    if attempts == [] then (db, locks)
    else
      var (d, l) := ProcessJob(db, locks, max, j, attempts[0].qr, attempts[0].m);
      DriveKeepsRows(db, locks, Loaded(Config(0, 0, max), db, j), attempts[0].qr, attempts[0].m);
      RunAll(d, l, max, j, attempts[1..])
  }

  lemma {:induction false} RunsSmudge(db: Db, locks: Locks, max: nat, j: Id, d: Db, l: Locks, attempts: seq<Attempt>)
    requires JobsPresent(d) && Smudged(db, locks, j, d, l)
    ensures var (d', l') := RunAll(d, l, max, j, attempts); Smudged(db, locks, j, d', l')
    decreases |attempts|
  {
    if attempts != [] {
      var (d', l') := ProcessJob(d, l, max, j, attempts[0].qr, attempts[0].m);
      DriveSmudges(db, locks, j, d, l, Loaded(Config(0, 0, max), d, j), attempts[0].qr, attempts[0].m);
      DriveKeepsRows(d, l, Loaded(Config(0, 0, max), d, j), attempts[0].qr, attempts[0].m);
      RunsSmudge(db, locks, max, j, d', l', attempts[1..]);
    }
  }

  /** An undisturbed run from smudged stores, against one from the clean stores. */
  lemma FinishFromSmudged(db: Db, locks: Locks, j: Id, d: Db, l: Locks, qr: Option<string>)
    requires Smudged(db, locks, j, d, l)
    ensures var b := db.jobs[j].booking;
      var (clean, cleanLocks) := Finished(db, locks, j, qr);
      var (end, endLocks) := Finished(d, l, j, qr);
      && endLocks == cleanLocks
      && end.events == clean.events && end.seats == clean.seats
      && end.jobs == clean.jobs[j := clean.jobs[j].(attempts := d.jobs[j].attempts + 1)]
      && end.bookings == clean.bookings[b := clean.bookings[b].(qr := if qr.Some? then qr else d.bookings[b].qr)]
      && (forall c :: c != b ==> end.notices[c] == clean.notices[c])
  {
    var b := db.jobs[j].booking;
    var (clean, cleanLocks) := Finished(db, locks, j, qr);
    var (end, endLocks) := Finished(d, l, j, qr);
    assert end.jobs == clean.jobs[j := clean.jobs[j].(attempts := d.jobs[j].attempts + 1)];
    assert endLocks == cleanLocks;
  }

  /** Crash convergence.  After any number of runs, each stopped or thrown off anywhere, one undisturbed run while
      attempts remain leaves the job DONE, the booking CONFIRMED, its locks deleted and every other row and lock
      exactly as the undisturbed run alone would have; only attempts, notices and a QR url stored meanwhile can
      tell. */
  lemma CrashConvergence(db: Db, locks: Locks, max: nat, j: Id, earlier: seq<Attempt>, qr: Option<string>)
    requires JobsPresent(db) && CanRun(db, max, j)
    requires CanRun(RunAll(db, locks, max, j, earlier).0, max, j)
    ensures var (d, l) := RunAll(db, locks, max, j, earlier);
      var (end, endLocks) := ProcessJob(d, l, max, j, qr, Fine);
      var (clean, cleanLocks) := ProcessJob(db, locks, max, j, qr, Fine);
      var b := db.jobs[j].booking;
      && j in end.jobs && b in end.bookings && b in clean.bookings && j in clean.jobs
      && end.jobs[j].status == JobDone && end.bookings[b].status == Confirmed
      && endLocks == locks - db.bookings[b].seats
      && endLocks == cleanLocks && end.events == clean.events && end.seats == clean.seats
      && end.jobs == clean.jobs[j := clean.jobs[j].(attempts := end.jobs[j].attempts)]
      && end.bookings == clean.bookings[b := clean.bookings[b].(qr := end.bookings[b].qr)]
      && (forall c :: c != b ==> end.notices[c] == clean.notices[c])
  {
    RunsSmudge(db, locks, max, j, db, locks, earlier);
    var (d, l) := RunAll(db, locks, max, j, earlier);
    UndisturbedRun(d, l, max, j, qr);
    UndisturbedRun(db, locks, max, j, qr);
    FinishFromSmudged(db, locks, j, d, l, qr);
  }

  /** A QR url, once stored, is never erased: a run that makes none keeps the one there. */
  lemma QrSurvives(db: Db, locks: Locks, max: nat, j: Id, runs: seq<Attempt>)
    requires JobsPresent(db) && JobPresent(db, j) && db.bookings[db.jobs[j].booking].qr.Some?
    ensures var b := db.jobs[j].booking;
      b in RunAll(db, locks, max, j, runs).0.bookings && RunAll(db, locks, max, j, runs).0.bookings[b].qr.Some?
  {
    RunsSmudge(db, locks, max, j, db, locks, runs);
  }
}
