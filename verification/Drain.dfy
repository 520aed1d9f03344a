/** The sweeps drain: without new bookings, and with throws caught by the try block, a bounded number of sweeps ends
    every job, whichever 25 jobs each sweep picks and whatever the queue delivers in between. */
module Drain {
  import opened Store
  import opened Protocol
  import opened Calls
  import opened Safety
  import opened Always

  /** How many more calls a job can take before it is terminal. */
  function Weight(max: nat, job: Job): nat {
    if Terminal(job) then 0 else if job.attempts > max then 1 else max + 1 - job.attempts
  }

  ghost function Total(max: nat, jobs: map<Id, Job>): nat
    decreases |jobs|
  {
    if jobs == map[] then 0
    else
      var j :| j in jobs;
      Weight(max, jobs[j]) + Total(max, jobs - {j})
  }

  lemma {:induction false} TotalSplit(max: nat, jobs: map<Id, Job>, j: Id)
    requires j in jobs
    ensures Total(max, jobs) == Weight(max, jobs[j]) + Total(max, jobs - {j})
    decreases |jobs|
  {
    var k :| k in jobs && Total(max, jobs) == Weight(max, jobs[k]) + Total(max, jobs - {k});
    if k != j {
      TotalSplit(max, jobs - {k}, j);
      TotalSplit(max, jobs - {j}, k);
      assert (jobs - {k}) - {j} == (jobs - {j}) - {k};
    }
  }

  /** The same jobs, none heavier, and each of `lighter` lighter by one at least. */
  ghost predicate Lighter(max: nat, before: map<Id, Job>, after: map<Id, Job>, lighter: set<Id>) {
    && after.Keys == before.Keys
    && (forall j :: j in before ==> Weight(max, after[j]) <= Weight(max, before[j]))
    && (forall j :: j in lighter ==> j in before && Weight(max, after[j]) < Weight(max, before[j]))
  }

  lemma {:induction false} TotalDrops(max: nat, before: map<Id, Job>, after: map<Id, Job>, lighter: set<Id>)
    requires Lighter(max, before, after, lighter)
    ensures Total(max, after) + |lighter| <= Total(max, before)
    decreases |before|
  {
    if before == map[] {
      assert after == map[] && lighter == {};
    } else {
      var j :| j in before;
      TotalSplit(max, before, j);
      TotalSplit(max, after, j);
      assert Lighter(max, before - {j}, after - {j}, lighter - {j});
      TotalDrops(max, before - {j}, after - {j}, lighter - {j});
      assert j in lighter ==> |lighter - {j}| == |lighter| - 1;
      assert j !in lighter ==> lighter - {j} == lighter;
    }
  }

  function Open(jobs: map<Id, Job>): set<Id> {
    set j | j in jobs && !Terminal(jobs[j])
  }

  lemma OneMore(n: nat, m: nat)
    ensures (n + 1) * m == n * m + m
  {
  }

  lemma {:induction false} TotalBounds(max: nat, jobs: map<Id, Job>)
    ensures |Open(jobs)| <= Total(max, jobs) <= |Open(jobs)| * (max + 1)
    decreases |jobs|
  {
    if jobs == map[] {
      assert Open(jobs) == {};
    } else {
      var j :| j in jobs;
      TotalSplit(max, jobs, j);
      TotalBounds(max, jobs - {j});
      OpenSplit(jobs, j);
      OneMore(|Open(jobs - {j})|, max + 1);
    }
  }

  lemma OpenSplit(jobs: map<Id, Job>, j: Id)
    requires j in jobs
    ensures |Open(jobs)| == |Open(jobs - {j})| + if Terminal(jobs[j]) then 0 else 1
  {
    if Terminal(jobs[j]) {
      assert Open(jobs) == Open(jobs - {j});
    } else {
      assert Open(jobs) == Open(jobs - {j}) + {j};
    }
  }

  // ---- one call --------------------------------------------------------------------------

  /** A FAILED job has no attempts left; that is how it came to fail. */
  ghost predicate FailedSpent(max: nat, jobs: map<Id, Job>) {
    forall j :: j in jobs && jobs[j].status == JobFailed ==> jobs[j].attempts >= max
  }

  /** What one call that returns does to its job. */
  lemma CallEffect(db: Db, locks: Locks, max: nat, c: JobCall)
    requires JobsPresent(db) && FailedSpent(max, db.jobs) && Returns(Loaded(Config(0, 0, max), db, c.job), c.m)
    ensures var out := ProcessJob(db, locks, max, c.job, c.qr, c.m).0;
      && JobsPresent(out) && FailedSpent(max, out.jobs) && out.jobs.Keys == db.jobs.Keys
      && (forall j :: j in db.jobs && j != c.job ==> out.jobs[j] == db.jobs[j])
      && (c.job in db.jobs && !Terminal(db.jobs[c.job]) ==> Weight(max, out.jobs[c.job]) < Weight(max, db.jobs[c.job]))
      && (c.job in db.jobs && Terminal(db.jobs[c.job]) ==> Terminal(out.jobs[c.job]))
  {
    var pc := Loaded(Config(0, 0, max), db, c.job);
    DriveKeepsRows(db, locks, pc, c.qr, c.m);
    if pc.FailingJob? {
      FailingCall(db, locks, c.job, c.qr, c.m);
    } else if pc.Starting? {
      var s := StartingCall(db, locks, c.job, c.qr, c.m);
    }
  }

  lemma FailingCall(db: Db, locks: Locks, j: Id, qr: Option<string>, m: Mishap)
    requires JobPresent(db, j) && Returns(FailingJob(j), m)
    ensures Drive(db, locks, FailingJob(j), qr, m).0.jobs == db.jobs[j := db.jobs[j].(status := JobFailed)]
  {
    var db1 := SetJobStatus(db, j, JobFailed);
    var db2 := SetBookingStatus(db1, db.jobs[j].booking, Failed);
    assert Drive(db, locks, FailingJob(j), qr, m) == Drive(db1, locks, FailingBooking(j), qr, Later(m));
    assert Drive(db2, locks, Idle, qr, Later(Later(m))) == (db2, locks);
  }

  lemma {:induction false} GuardedCall(db: Db, locks: Locks, pc: Pc, qr: Option<string>,
                                       m: Mishap) returns (s: JobStatus)
    requires Guarded(pc) && JobPresent(db, pc.job) && Returns(pc, m)
    ensures s == JobDone || s == JobPending
    ensures Drive(db, locks, pc, qr, m).0.jobs == db.jobs[pc.job := db.jobs[pc.job].(status := s)]
    decreases Remaining(pc)
  {
    if m == ThrowAt(0) {
      s := JobPending;
    } else {
      var (db', locks', next) := JobWrite(db, locks, pc, qr);
      if next.Idle? {
        s := JobDone;
        assert Drive(db', locks', next, qr, Later(m)) == (db', locks');
      } else {
        s := GuardedCall(db', locks', next, qr, Later(m));
      }
    }
  }

  lemma StartingCall(db: Db, locks: Locks, j: Id, qr: Option<string>, m: Mishap) returns (s: JobStatus)
    requires JobPresent(db, j) && Returns(Starting(j), m)
    ensures s == JobDone || s == JobPending
    ensures Drive(db, locks, Starting(j), qr, m).0.jobs
      == db.jobs[j := db.jobs[j].(status := s, attempts := db.jobs[j].attempts + 1)]
  {
    var db1 := StartAttempt(db, j);
    assert Drive(db, locks, Starting(j), qr, m) == Drive(db1, locks, Confirming(j), qr, Later(m));
    s := GuardedCall(db1, locks, Confirming(j), qr, Later(m));
    assert db1.jobs[j := db1.jobs[j].(status := s)]
      == db.jobs[j := db.jobs[j].(status := s, attempts := db.jobs[j].attempts + 1)];
  }

  // ---- one sweep -------------------------------------------------------------------------

  /** One sweep: the batch its query returns, and every call of `processJob` from that query to the next sweep's, in the
      order they run.  Besides the batch they may be whatever the queue delivers. */
  datatype Round = Round(batch: seq<Id>, calls: seq<JobCall>)

  /** Each call, when its turn comes, returns. */
  ghost predicate AllReturn(db: Db, locks: Locks, max: nat, calls: seq<JobCall>)
    requires JobsPresent(db)
    decreases |calls|
  {
    calls == [] ||
    (var c := calls[0];
     var pc := Loaded(Config(0, 0, max), db, c.job);
     var (db', locks') := ProcessJob(db, locks, max, c.job, c.qr, c.m);
     DriveKeepsRows(db, locks, pc, c.qr, c.m);
     Returns(pc, c.m) && AllReturn(db', locks', max, calls[1..]))
  }

  function Called(calls: seq<JobCall>): set<Id> {
    set c | c in calls :: c.job
  }

  lemma {:induction false} CallsEffect(db: Db, locks: Locks, max: nat, calls: seq<JobCall>)
    requires JobsPresent(db) && FailedSpent(max, db.jobs) && AllReturn(db, locks, max, calls)
    ensures var out := ProcessAll(db, locks, max, calls).0;
      && JobsPresent(out) && FailedSpent(max, out.jobs)
      && Lighter(max, db.jobs, out.jobs, Called(calls) * Open(db.jobs))
    decreases |calls|
  {
    if calls != [] {
      var c := calls[0];
      CallEffect(db, locks, max, c);
      var (db', locks') := ProcessJob(db, locks, max, c.job, c.qr, c.m);
      CallsEffect(db', locks', max, calls[1..]);
      var out := ProcessAll(db, locks, max, calls).0;
      forall j | j in Called(calls) * Open(db.jobs) ensures Weight(max, out.jobs[j]) < Weight(max, db.jobs[j]) {
        if j != c.job {
          var d :| d in calls && d.job == j;
          assert d in calls[1..];
          assert j in Called(calls[1..]) * Open(db'.jobs);
        }
      }
    }
  }

  /** The database when the rounds are over; every job is old enough for the sweep to see (no new bookings). */
  ghost predicate Sweeps(db: Db, locks: Locks, max: nat, rounds: seq<Round>)
    requires JobsPresent(db)
    decreases |rounds|
  {
    rounds == [] ||
    (var r := rounds[0];
     && SweepBatch(db, r.batch)
     && (forall j :: j in r.batch ==> j in Called(r.calls))
     && AllReturn(db, locks, max, r.calls)
     && (AllPresent(db, locks, max, r.calls);
         var (db', locks') := ProcessAll(db, locks, max, r.calls);
         Sweeps(db', locks', max, rounds[1..])))
  }

  lemma {:induction false} AllPresent(db: Db, locks: Locks, max: nat, calls: seq<JobCall>)
    requires JobsPresent(db)
    ensures JobsPresent(ProcessAll(db, locks, max, calls).0)
    decreases |calls|
  {
    if calls != [] {
      var c := calls[0];
      DriveKeepsRows(db, locks, Loaded(Config(0, 0, max), db, c.job), c.qr, c.m);
      var (db', locks') := ProcessJob(db, locks, max, c.job, c.qr, c.m);
      AllPresent(db', locks', max, calls[1..]);
    }
  }

  /** At most 25 distinct open jobs, and all of them if fewer. */
  ghost predicate SweepBatch(db: Db, batch: seq<Id>) {
    && Distinct(batch) && |batch| <= 25
    && (forall j :: j in batch ==> j in Open(db.jobs))
    && (|batch| < 25 ==> forall j :: j in Open(db.jobs) ==> j in batch)
  }

  /** When every job is older than the threshold, that is what the sweep's query returns. */
  lemma BatchIsSweepBatch(db: Db, threshold: nat, now: nat, batch: seq<Id>)
    requires forall j :: j in db.jobs ==> db.jobs[j].createdAt + threshold < now
    ensures Batch(db, threshold, now, batch) <==> SweepBatch(db, batch)
  {
    assert forall j :: Stuck(db, threshold, now, j) <==> j in Open(db.jobs);
  }

  ghost function AfterSweeps(db: Db, locks: Locks, max: nat, rounds: seq<Round>): Db
    requires JobsPresent(db)
    decreases |rounds|
  {
    if rounds == [] then db
    else
      AllPresent(db, locks, max, rounds[0].calls);
      var (db', locks') := ProcessAll(db, locks, max, rounds[0].calls);
      AfterSweeps(db', locks', max, rounds[1..])
  }

  lemma {:induction false} DistinctCount(s: seq<Id>)
    requires Distinct(s)
    ensures |SetOf(s)| == |s|
    decreases |s|
  {
    if s == [] {
      assert SetOf(s) == {};
    } else {
      var last := s[|s| - 1];
      DistinctCount(s[..|s| - 1]);
      assert SetOf(s) == SetOf(s[..|s| - 1]) + {last};
      assert last !in SetOf(s[..|s| - 1]);
    }
  }

  /** A full sweep takes 25 off the total; one that is not full takes one off every open job. */
  lemma RoundEffect(db: Db, locks: Locks, max: nat, r: Round, heaviest: nat)
    requires JobsPresent(db) && FailedSpent(max, db.jobs) && SweepBatch(db, r.batch)
    requires AllReturn(db, locks, max, r.calls)
    requires forall j :: j in r.batch ==> j in Called(r.calls)
    requires forall j :: j in db.jobs ==> Weight(max, db.jobs[j]) <= heaviest
    ensures var out := ProcessAll(db, locks, max, r.calls).0;
      && JobsPresent(out) && FailedSpent(max, out.jobs)
      && Total(max, out.jobs) + |r.batch| <= Total(max, db.jobs)
      && (forall j :: j in out.jobs ==>
            Weight(max, out.jobs[j]) <= if |r.batch| < BATCH && heaviest > 0 then heaviest - 1 else heaviest)
  {
    CallsEffect(db, locks, max, r.calls);
    var out := ProcessAll(db, locks, max, r.calls).0;
    DistinctCount(r.batch);
    assert SetOf(r.batch) <= Called(r.calls) * Open(db.jobs);
    assert Lighter(max, db.jobs, out.jobs, SetOf(r.batch));
    TotalDrops(max, db.jobs, out.jobs, SetOf(r.batch));
  }

  lemma {:induction false} DrainFrom(db: Db, locks: Locks, max: nat, rounds: seq<Round>, total: nat, heaviest: nat)
    requires JobsPresent(db) && FailedSpent(max, db.jobs) && Sweeps(db, locks, max, rounds)
    requires Total(max, db.jobs) <= total && forall j :: j in db.jobs ==> Weight(max, db.jobs[j]) <= heaviest
    requires |rounds| >= total / BATCH + heaviest
    ensures Open(AfterSweeps(db, locks, max, rounds).jobs) == {}
    decreases |rounds|
  {
    if rounds == [] {
      assert forall j :: j in Open(db.jobs) ==> Weight(max, db.jobs[j]) > 0;
    } else {
      var r := rounds[0];
      RoundEffect(db, locks, max, r, heaviest);
      var (db', locks') := ProcessAll(db, locks, max, r.calls);
      if |r.batch| == BATCH {
        DrainFrom(db', locks', max, rounds[1..], total - BATCH, heaviest);
      } else {
        TotalBounds(max, db.jobs);
        if heaviest == 0 {
          assert Open(db.jobs) == {};
          DrainFrom(db', locks', max, rounds[1..], 0, 0);
        } else {
          DrainFrom(db', locks', max, rounds[1..], total, heaviest - 1);
        }
      }
    }
  }

  /** With `n` open jobs, `n * (max + 1) / 25 + max + 1` sweeps leave every job DONE or FAILED. */
  lemma SweepsDrain(db: Db, locks: Locks, max: nat, rounds: seq<Round>)
    requires JobsPresent(db) && FailedSpent(max, db.jobs) && Sweeps(db, locks, max, rounds)
    requires |rounds| >= |Open(db.jobs)| * (max + 1) / 25 + max + 1
    ensures var end := AfterSweeps(db, locks, max, rounds);
      forall j :: j in end.jobs ==> end.jobs[j].status == JobDone || end.jobs[j].status == JobFailed
  {
    TotalBounds(max, db.jobs);
    DrainFrom(db, locks, max, rounds, |Open(db.jobs)| * (max + 1), max + 1);
    var end := AfterSweeps(db, locks, max, rounds);
    assert forall j :: j in end.jobs && !Terminal(end.jobs[j]) ==> j in Open(end.jobs);
  }

  // ---- every run leaves the stores as `SweepsDrain` wants them ---------------------------

  ghost predicate FailingSpent(st: State) {
    forall w :: w in st.workers && st.workers[w].pc.FailingJob? ==>
      var j := st.workers[w].pc.job; j in st.db.jobs && st.db.jobs[j].attempts >= st.cfg.maxAttempts
  }

  ghost predicate Spent(st: State) {
    FailedSpent(st.cfg.maxAttempts, st.db.jobs) && FailingSpent(st)
  }

  lemma JobWriteSpends(db: Db, locks: Locks, pc: Pc, qr: Option<string>, max: nat)
    requires !pc.Idle? && JobPresent(db, pc.job) && FailedSpent(max, db.jobs)
    requires pc.FailingJob? ==> db.jobs[pc.job].attempts >= max
    ensures var (out, _, next) := JobWrite(db, locks, pc, qr);
      && out.jobs.Keys == db.jobs.Keys && FailedSpent(max, out.jobs) && !next.FailingJob?
      && forall j :: j in db.jobs ==> out.jobs[j].attempts >= db.jobs[j].attempts
  {
  }

  lemma WriteSpent(st: State, wid: Id, qr: Option<string>)
    requires Spent(st) && WriteEnabled(st, wid)
    ensures Spent(WriteNext(st, wid, qr))
  {
    JobWriteSpends(st.db, st.locks, st.workers[wid].pc, qr, st.cfg.maxAttempts);
  }

  lemma WorkerSpent(st: State, wid: Id, step: WorkerStep)
    requires Spent(st) && WorkerEnabled(st, wid, step)
    ensures Spent(WorkerNext(st, wid, step))
  {
    if step.Write? { WriteSpent(st, wid, step.qr); }
  }

  lemma RequestSpent(st: State, rid: Id, step: RequestStep)
    requires Spent(st) && IdsUsed(st) && RequestEnabled(st, rid, step)
    ensures Spent(RequestNext(st, rid, step))
  {
  }

  lemma CancelSpent(st: State, cid: Id, step: CancelStep)
    requires Spent(st) && CancelEnabled(st, cid, step)
    ensures Spent(CancelNext(st, cid, step))
  {
  }

  lemma WorldSpent(st: State, step: WorldStep)
    requires Spent(st) && WorldEnabled(st, step)
    ensures Spent(WorldNext(st, step))
  {
  }

  lemma SpentStep(st: State, a: Action)
    requires Spent(st) && IdsUsed(st) && Enabled(st, a)
    ensures Spent(Next(st, a)) && Next(st, a).cfg == st.cfg
  {
    match a
    case Booker(rid, step) => RequestSpent(st, rid, step);
    case Canceller(cid, step) => CancelSpent(st, cid, step);
    case Processor(wid, step) => WorkerSpent(st, wid, step);
    case World(step) => WorldSpent(st, step);
    case _ =>
  }

  lemma {:induction false} RunSpent(st: State, actions: seq<Action>)
    requires Spent(st) && Fit(st) && Run(st, actions, Any)
    ensures Spent(Final(st, actions, Any)) && Final(st, actions, Any).cfg == st.cfg
    decreases |actions|
  {
    if actions != [] {
      SpentStep(st, actions[0]);
      FitStep(st, actions[0]);
      RunSpent(Next(st, actions[0]), actions[1..]);
    }
  }

  /** After any run the sweeps may start: every job's booking exists and every FAILED job has used its attempts up. */
  lemma SweepsMayStart(st: State, actions: seq<Action>)
    requires Init(st) && Run(st, actions, Any)
    ensures var end := Final(st, actions, Any); JobsPresent(end.db) && FailedSpent(st.cfg.maxAttempts, end.db.jobs)
  {
    RunSpent(st, actions);
    RunFit(st, actions);
  }
}
