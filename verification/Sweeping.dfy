/** The drain over the step relation: whatever interleaves with it, the sweeper that completes enough sweeps leaves
    no open job.  No booking commits meanwhile, no processor dies, and a processor enters a job only when no other
    is inside; `SharedSweeping` does without the last two. */
module Sweeping {
  import opened Store
  import opened Protocol
  import opened Safety
  import opened Always
  import opened JobStatuses
  import opened Drain

  ghost predicate Draining(st: State, a: Action, after: State) {
    && OneProcessor(st, a, after)
    && !(a.Processor? && a.wstep.Die?)
    && !(a.Booker? && a.rstep.Commit?)
  }

  /** Every job is old enough for the sweep to see. */
  predicate AllOld(st: State) {
    forall j :: j in st.db.jobs ==> st.db.jobs[j].createdAt + st.cfg.threshold < st.now
  }

  ghost predicate Settling(st: State) {
    Agree(st) && Fit(st) && OneJobEach(st.db) && AllOld(st)
  }

  // ---- weights over a step ---------------------------------------------------------------

  /** The same jobs, as old as before, and none heavier. */
  ghost predicate NoneHeavier(max: nat, before: map<Id, Job>, after: map<Id, Job>) {
    && after.Keys == before.Keys
    && forall j :: j in before ==>
         after[j].createdAt == before[j].createdAt && Weight(max, after[j]) <= Weight(max, before[j])
  }

  lemma WriteLightens(db: Db, locks: Locks, pc: Pc, qr: Option<string>, max: nat)
    requires !pc.Idle? && JobPresent(db, pc.job)
    requires PcAgrees(max, db.jobs[pc.job], db.bookings[db.jobs[pc.job].booking].status, pc)
    ensures var (out, _, next) := JobWrite(db, locks, pc, qr);
      && NoneHeavier(max, db.jobs, out.jobs)
      && (pc.FailingJob? || pc.Starting? ==>
            Weight(max, out.jobs[pc.job]) == 0 || Weight(max, out.jobs[pc.job]) < Weight(max, db.jobs[pc.job]))
      && !next.FailingJob? && !next.Starting?
  {
  }

  /** A step that no processor takes leaves the jobs and the processors alone. */
  lemma OthersKeepJobs(st: State, a: Action)
    requires Enabled(st, a) && !a.Processor? && !(a.Booker? && a.rstep.Commit?)
    ensures var after := Next(st, a);
      after.db.jobs == st.db.jobs && after.workers == st.workers && after.cfg == st.cfg && after.now >= st.now
  {
    match a
    case Booker(rid, step) => assert RequestNext(st, rid, step).db == st.db;
    case Canceller(cid, step) => CancelKeepsRows(st, cid, step);
    case World(step) => WorldKeepsRows(st, step);
    case Submit(_, _, _) =>
    case CheckCancel(_, _, _) =>
    case Processor(_, _) =>
  }

  lemma WorkerLightens(st: State, wid: Id, step: WorkerStep)
    requires Agree(st) && WorkerEnabled(st, wid, step)
    ensures var after := WorkerNext(st, wid, step);
      && NoneHeavier(st.cfg.maxAttempts, st.db.jobs, after.db.jobs) && after.cfg == st.cfg && after.now == st.now
      && after.workers.Keys == st.workers.Keys && forall w :: w in st.workers && w != wid ==>
           after.workers[w] == st.workers[w]
  {
    if step.Write? {
      var pc := st.workers[wid].pc;
      assert Inside(st.workers[wid], pc.job);
      WriteLightens(st.db, st.locks, pc, step.qr, st.cfg.maxAttempts);
    }
  }

  lemma StepLightens(st: State, a: Action)
    requires Settling(st) && Enabled(st, a) && Draining(st, a, Next(st, a))
    ensures var after := Next(st, a);
      && NoneHeavier(st.cfg.maxAttempts, st.db.jobs, after.db.jobs) && after.cfg == st.cfg && after.now >= st.now
      && after.workers.Keys == st.workers.Keys
      && forall w :: w in st.workers && !(a.Processor? && a.wid == w) ==> after.workers[w] == st.workers[w]
  {
    if a.Processor? { WorkerLightens(st, a.wid, a.wstep); } else { OthersKeepJobs(st, a); }
  }

  lemma SettlingStep(st: State, a: Action)
    requires Settling(st) && Enabled(st, a) && Draining(st, a, Next(st, a))
    ensures Settling(Next(st, a))
  {
    AgreeStep(st, a);
    FitStep(st, a);
    OneJobStep(st, a);
    StepLightens(st, a);
  }

  // ---- one sweep among the other steps ---------------------------------------------------

  /** Since the sweeper queried `before`, no job has grown heavier, and each job of its batch is lighter unless the
      sweeper still has to take it up or is about to make its first write. */
  ghost predicate Progress(max: nat, before: map<Id, Job>, batch: set<Id>, jobs: map<Id, Job>, w: Worker) {
    && NoneHeavier(max, before, jobs)
    && forall j :: j in batch ==>
         (&& j in before && Weight(max, before[j]) > 0
          && (j in w.todo || w.pc == FailingJob(j) || w.pc == Starting(j)
                || Weight(max, jobs[j]) < Weight(max, before[j])))
  }

  lemma ProgressElsewhere(max: nat, before: map<Id, Job>, batch: set<Id>, jobs: map<Id, Job>, next: map<Id, Job>,
                          w: Worker)
    requires Progress(max, before, batch, jobs, w) && NoneHeavier(max, jobs, next)
    ensures Progress(max, before, batch, next, w)
  {
  }

  lemma LoadProgress(st: State, wid: Id, before: map<Id, Job>, batch: set<Id>)
    requires LoadEnabled(st, wid) && Progress(st.cfg.maxAttempts, before, batch, st.db.jobs, st.workers[wid])
    ensures Progress(st.cfg.maxAttempts, before, batch, LoadNext(st, wid).db.jobs, LoadNext(st, wid).workers[wid])
  {
    var w := st.workers[wid];
    assert w.todo == [w.todo[0]] + w.todo[1..];
  }

  lemma WriteProgress(st: State, wid: Id, qr: Option<string>, before: map<Id, Job>, batch: set<Id>)
    requires Agree(st) && WriteEnabled(st, wid)
    requires Progress(st.cfg.maxAttempts, before, batch, st.db.jobs, st.workers[wid])
    ensures Progress(st.cfg.maxAttempts, before, batch, WriteNext(st, wid, qr).db.jobs,
      WriteNext(st, wid, qr).workers[wid])
  {
    var pc := st.workers[wid].pc;
    assert Inside(st.workers[wid], pc.job);
    WriteLightens(st.db, st.locks, pc, qr, st.cfg.maxAttempts);
    var after := WriteNext(st, wid, qr);
    assert after.workers[wid].todo == st.workers[wid].todo;
    assert NoneHeavier(st.cfg.maxAttempts, before, after.db.jobs);
  }

  lemma OwnProgress(st: State, wid: Id, step: WorkerStep, before: map<Id, Job>, batch: set<Id>)
    requires Agree(st) && WorkerEnabled(st, wid, step) && !step.Sweep? && !step.Die?
    requires Progress(st.cfg.maxAttempts, before, batch, st.db.jobs, st.workers[wid])
    ensures Progress(st.cfg.maxAttempts, before, batch, WorkerNext(st, wid, step).db.jobs,
      WorkerNext(st, wid, step).workers[wid])
  {
    match step
    case Load => LoadProgress(st, wid, before, batch);
    case Write(qr) => WriteProgress(st, wid, qr, before, batch);
    case Deliver =>
    case Throw =>
  }

  lemma ProgressStep(st: State, a: Action, wid: Id, before: map<Id, Job>, batch: set<Id>)
    requires Settling(st) && Enabled(st, a) && Draining(st, a, Next(st, a)) && wid in st.workers
    requires !(a.Processor? && a.wid == wid && a.wstep.Sweep?)
    requires Progress(st.cfg.maxAttempts, before, batch, st.db.jobs, st.workers[wid])
    ensures wid in Next(st, a).workers
    ensures Progress(st.cfg.maxAttempts, before, batch, Next(st, a).db.jobs, Next(st, a).workers[wid])
  {
    StepLightens(st, a);
    if a.Processor? && a.wid == wid {
      OwnProgress(st, wid, a.wstep, before, batch);
    } else {
      ProgressElsewhere(st.cfg.maxAttempts, before, batch, st.db.jobs, Next(st, a).db.jobs, st.workers[wid]);
    }
  }

  /** What is known to hold when the sweep in hand is over. */
  ghost predicate SweepLeaves(max: nat, before: map<Id, Job>, batch: set<Id>, total: nat, heaviest: nat) {
    forall jobs: map<Id, Job> :: Lighter(max, before, jobs, batch) ==>
      Total(max, jobs) <= total && forall j :: j in jobs ==> Weight(max, jobs[j]) <= heaviest
  }

  lemma SweepOver(max: nat, before: map<Id, Job>, batch: set<Id>, jobs: map<Id, Job>, w: Worker, total: nat,
                  heaviest: nat)
    requires Progress(max, before, batch, jobs, w) && w.pc.Idle? && w.todo == []
    requires SweepLeaves(max, before, batch, total, heaviest)
    ensures Total(max, jobs) <= total && forall j :: j in jobs ==> Weight(max, jobs[j]) <= heaviest
  {
    assert Lighter(max, before, jobs, batch);
  }

  /** A full sweep takes 25 off the total; one that is not full takes one off every open job. */
  lemma SweepStarts(max: nat, db: Db, ids: seq<Id>, total: nat, heaviest: nat) returns (total': nat, heaviest': nat)
    requires SweepBatch(db, ids) && Total(max, db.jobs) <= total
    requires forall j :: j in db.jobs ==> Weight(max, db.jobs[j]) <= heaviest
    ensures SweepLeaves(max, db.jobs, SetOf(ids), total', heaviest')
    ensures total' / BATCH + heaviest' < total / BATCH + heaviest || total' == heaviest' == 0
  {
    DistinctCount(ids);
    TotalBounds(max, db.jobs);
    if |ids| == BATCH {
      SetOfOpen(db, ids);
      total', heaviest' := total - BATCH, heaviest;
    } else if heaviest > 0 {
      total', heaviest' := total, heaviest - 1;
    } else {
      assert Open(db.jobs) == {};
      total', heaviest' := 0, 0;
    }
    forall jobs: map<Id, Job> | Lighter(max, db.jobs, jobs, SetOf(ids))
      ensures Total(max, jobs) <= total' && forall j :: j in jobs ==> Weight(max, jobs[j]) <= heaviest'
    {
      TotalDrops(max, db.jobs, jobs, SetOf(ids));
      assert |ids| < BATCH ==> forall j :: j in Open(db.jobs) ==> j in SetOf(ids);
      assert forall j :: j in db.jobs && j !in Open(db.jobs) ==> Weight(max, db.jobs[j]) == 0;
    }
  }

  lemma SetOfOpen(db: Db, ids: seq<Id>)
    requires SweepBatch(db, ids)
    ensures |ids| <= |Open(db.jobs)|
  {
    DistinctCount(ids);
    assert SetOf(ids) <= Open(db.jobs);
    assert |Open(db.jobs) - SetOf(ids)| == |Open(db.jobs)| - |SetOf(ids)|;
  }

  /** The sweeper has queried the jobs; now it has the whole batch before it. */
  lemma SweepProgress(st: State, wid: Id, ids: seq<Id>)
    requires AllOld(st) && WorkerEnabled(st, wid, Sweep(ids))
    ensures SweepBatch(st.db, ids)
    ensures Progress(st.cfg.maxAttempts, st.db.jobs, SetOf(ids), st.db.jobs,
      WorkerNext(st, wid, Sweep(ids)).workers[wid])
  {
    BatchIsSweepBatch(st.db, st.cfg.threshold, st.now, ids);
    assert forall j :: j in Open(st.db.jobs) ==> Weight(st.cfg.maxAttempts, st.db.jobs[j]) > 0;
  }

  // ---- all the sweeps --------------------------------------------------------------------

  predicate SweepsNow(a: Action, wid: Id) {
    a.Processor? && a.wid == wid && a.wstep.Sweep?
  }

  function SweepCount(actions: seq<Action>, wid: Id): nat {
    if actions == [] then 0 else (if SweepsNow(actions[0], wid) then 1 else 0) + SweepCount(actions[1..], wid)
  }

  lemma NothingOpen(max: nat, jobs: map<Id, Job>, heaviest: nat)
    requires heaviest == 0 && forall j :: j in jobs ==> Weight(max, jobs[j]) <= heaviest
    ensures Open(jobs) == {}
  {
    assert forall j :: j in Open(jobs) ==> Weight(max, jobs[j]) > 0;
  }

  /** The sweep in hand is over, and the sweeper queries the jobs again. */
  lemma NextSweep(st: State, wid: Id, ids: seq<Id>, before: map<Id, Job>, batch: set<Id>, total: nat, heaviest: nat)
    returns (total': nat, heaviest': nat)
    requires AllOld(st) && WorkerEnabled(st, wid, Sweep(ids))
    requires Progress(st.cfg.maxAttempts, before, batch, st.db.jobs, st.workers[wid])
    requires SweepLeaves(st.cfg.maxAttempts, before, batch, total, heaviest)
    ensures SweepLeaves(st.cfg.maxAttempts, st.db.jobs, SetOf(ids), total', heaviest')
    ensures total' / BATCH + heaviest' < total / BATCH + heaviest || total' == heaviest' == 0
    ensures var after := WorkerNext(st, wid, Sweep(ids));
      Progress(st.cfg.maxAttempts, st.db.jobs, SetOf(ids), after.db.jobs, after.workers[wid])
  {
    SweepOver(st.cfg.maxAttempts, before, batch, st.db.jobs, st.workers[wid], total, heaviest);
    SweepProgress(st, wid, ids);
    total', heaviest' := SweepStarts(st.cfg.maxAttempts, st.db, ids, total, heaviest);
  }

  lemma {:induction false} DrainsFrom(st: State, actions: seq<Action>, wid: Id, before: map<Id, Job>, batch: set<Id>,
                                      total: nat, heaviest: nat)
    requires Settling(st) && Run(st, actions, Draining) && wid in st.workers
    requires Progress(st.cfg.maxAttempts, before, batch, st.db.jobs, st.workers[wid])
    requires SweepLeaves(st.cfg.maxAttempts, before, batch, total, heaviest)
    requires SweepCount(actions, wid) >= total / BATCH + heaviest
    requires var end := Final(st, actions, Draining); wid in end.workers ==> end.workers[wid] == Worker([], Idle)
    ensures Open(Final(st, actions, Draining).db.jobs) == {}
    decreases |actions|
  {
    var max := st.cfg.maxAttempts;
    if actions == [] {
      SweepOver(max, before, batch, st.db.jobs, st.workers[wid], total, heaviest);
      NothingOpen(max, st.db.jobs, heaviest);
    } else {
      var a, next := actions[0], Next(st, actions[0]);
      SettlingStep(st, a);
      StepLightens(st, a);
      if SweepsNow(a, wid) {
        var total', heaviest' := NextSweep(st, wid, a.wstep.ids, before, batch, total, heaviest);
        DrainsFrom(next, actions[1..], wid, st.db.jobs, SetOf(a.wstep.ids), total', heaviest');
      } else {
        ProgressStep(st, a, wid, before, batch);
        DrainsFrom(next, actions[1..], wid, before, batch, total, heaviest);
      }
    }
  }

  lemma {:induction false} SoFarAgrees(st: State, actions: seq<Action>)
    requires Agree(st) && Fit(st) && OneJobEach(st.db) && Run(st, actions, Orderly)
    ensures var end := Final(st, actions, Orderly); Agree(end) && Fit(end) && OneJobEach(end.db)
    decreases |actions|
  {
    if actions != [] {
      AgreeStep(st, actions[0]);
      FitStep(st, actions[0]);
      OneJobStep(st, actions[0]);
      SoFarAgrees(Next(st, actions[0]), actions[1..]);
    }
  }

  lemma InitAgrees(st: State)
    requires Init(st)
    ensures Agree(st) && Fit(st) && OneJobEach(st.db)
  {
  }

  lemma OldAgrees(start: State, earlier: seq<Action>, st: State)
    requires Init(start) && Leads(start, earlier, Orderly, st) && AllOld(st)
    ensures Settling(st)
  {
    InitAgrees(start);
    SoFarAgrees(start, earlier);
  }

  lemma NothingSwept(max: nat, before: map<Id, Job>, total: nat)
    requires total == |Open(before)| * (max + 1)
    ensures SweepLeaves(max, before, {}, total, max + 1)
  {
    TotalBounds(max, before);
    forall jobs: map<Id, Job> | Lighter(max, before, jobs, {})
      ensures Total(max, jobs) <= total && forall j :: j in jobs ==> Weight(max, jobs[j]) <= max + 1
    {
      TotalDrops(max, before, jobs, {});
    }
  }

  lemma DrainsRun(st: State, actions: seq<Action>, wid: Id, total: nat)
    requires Settling(st) && Run(st, actions, Draining) && wid in st.workers
    requires var end := Final(st, actions, Draining); wid in end.workers ==> end.workers[wid] == Worker([], Idle)
    requires SweepLeaves(st.cfg.maxAttempts, st.db.jobs, {}, total, st.cfg.maxAttempts + 1)
    requires SweepCount(actions, wid) >= total / BATCH + st.cfg.maxAttempts + 1
    ensures forall j :: j in Final(st, actions, Draining).db.jobs ==> Terminal(Final(st, actions, Draining).db.jobs[j])
  {
    DrainsFrom(st, actions, wid, st.db.jobs, {}, total, st.cfg.maxAttempts + 1);
    var end := Final(st, actions, Draining);
    assert forall j :: j in end.db.jobs && !Terminal(end.db.jobs[j]) ==> j in Open(end.db.jobs);
  }

  /** From any point of an orderly run at which `n` jobs are open and all are old: once one sweeper has completed
      `n * (max + 1) / 25 + max + 1` sweeps, every job is DONE or FAILED, however requests, cancels, messages, other
      sweepers and the sweeps' own writes interleave. */
  lemma SweepsDrainRuns(start: State, earlier: seq<Action>, st: State, actions: seq<Action>, end: State, wid: Id,
                        total: nat)
    requires Init(start) && Leads(start, earlier, Orderly, st) && AllOld(st) && wid in st.workers
    requires Leads(st, actions, Draining, end) && wid in end.workers && end.workers[wid] == Worker([], Idle)
    requires total == |Open(st.db.jobs)| * (st.cfg.maxAttempts + 1)
    requires SweepCount(actions, wid) >= total / 25 + st.cfg.maxAttempts + 1
    ensures forall j :: j in end.db.jobs ==> end.db.jobs[j].status == JobDone || end.db.jobs[j].status == JobFailed
  {
    OldAgrees(start, earlier, st);
    NothingSwept(st.cfg.maxAttempts, st.db.jobs, total);
    DrainsRun(st, actions, wid, total);
  }
}
