/** The drain when any number of processors share the jobs.  A job may then be opened again under a sweeper's hands, but
    each time somebody has counted an attempt, and attempts are bounded: only so many sweeps can find anything. */
module SharedSweeping {
  import opened Store
  import opened Protocol
  import opened Safety
  import opened Always
  import opened Workers
  import opened Drain
  import opened Sweeping

  /** No booking commits and the sweeper itself does not die; others may. */
  ghost predicate Shares(wid: Id, st: State, a: Action, after: State) {
    !(a.Processor? && a.wid == wid && a.wstep.Die?) && !(a.Booker? && a.rstep.Commit?)
  }

  ghost function Shared(wid: Id): Hypothesis {
    (st, a, after) => Shares(wid, st, a, after)
  }

  // ---- what is left in a job -------------------------------------------------------------

  /** In an attempt at `j` that has been counted. */
  predicate Attempting(w: Worker, j: Id) {
    (Guarded(w.pc) || w.pc.Catching?) && w.pc.job == j
  }

  function Attempts(workers: map<Id, Worker>, j: Id): set<Id> {
    set w | w in workers && Attempting(workers[w], j)
  }

  /** The job has ended and nobody is about to open it again. */
  predicate Dead(workers: map<Id, Worker>, j: Id, job: Job) {
    Terminal(job) && forall w :: w in workers ==> workers[w].pc != Starting(j) && !Attempting(workers[w], j)
  }

  /** Two for every attempt that may still be counted, one for every attempt under way, and one if the job is open. */
  function Heat(most: nat, workers: map<Id, Worker>, j: Id, job: Job): nat {
    if Dead(workers, j, job) then 0
    else
      (if job.attempts < most then 2 * (most - job.attempts) else 0) + |Attempts(workers, j)|
      + (if Terminal(job) then 0 else 1)
  }

  function Most(st: State): nat {
    st.cfg.maxAttempts + |st.workers|
  }

  function HeatOf(st: State, j: Id): nat
    requires j in st.db.jobs
  {
    Heat(Most(st), st.workers, j, st.db.jobs[j])
  }

  lemma AttemptsMove(workers: map<Id, Worker>, wid: Id, w: Worker, j: Id)
    requires wid in workers
    ensures |Attempts(workers[wid := w], j)| ==
      |Attempts(workers, j)| + (if Attempting(w, j) then 1 else 0) - (if Attempting(workers[wid], j) then 1 else 0)
    ensures |workers[wid := w]| == |workers|
  {
    var after := workers[wid := w];
    assert Attempts(after, j) - {wid} == Attempts(workers, j) - {wid};
    DifferByOne(Attempts(workers, j), Attempts(after, j), wid);
    assert after.Keys == workers.Keys;
    assert |after| == |after.Keys| && |workers| == |workers.Keys|;
  }

  /** The dead stay dead when a processor moves that neither starts the job nor is in an attempt at it. */
  lemma DeadMove(workers: map<Id, Worker>, wid: Id, w: Worker, j: Id, job: Job, job': Job)
    requires wid in workers && Dead(workers, j, job) && Terminal(job') && w.pc != Starting(j) && !Attempting(w, j)
    ensures Dead(workers[wid := w], j, job')
  {
  }

  // ---- steps -----------------------------------------------------------------------------

  /** A step by `wid` that writes no row. */
  lemma MoveHeat(st: State, wid: Id, step: WorkerStep, j: Id)
    requires Spent(st) && j in st.db.jobs && WorkerEnabled(st, wid, step) && !step.Write?
    ensures WorkerNext(st, wid, step).db == st.db && HeatOf(WorkerNext(st, wid, step), j) <= HeatOf(st, j)
  {
    var w := WorkerNext(st, wid, step).workers[wid];
    AttemptsMove(st.workers, wid, w, j);
    if Dead(st.workers, j, st.db.jobs[j]) {
      DeadMove(st.workers, wid, w, j, st.db.jobs[j], st.db.jobs[j]);
    }
  }

  /** What a write does to the job, with what it does to the processor. */
  lemma JobWriteHeat(db: Db, locks: Locks, pc: Pc, qr: Option<string>, j: Id)
    requires !pc.Idle? && JobPresent(db, pc.job) && j in db.jobs
    ensures var (out, _, next) := JobWrite(db, locks, pc, qr);
      && j in out.jobs && (j != pc.job ==> out.jobs[j] == db.jobs[j]) && (next.Idle? || next.job == pc.job)
      && !next.Starting? && !next.Catching?
      && (pc == Starting(j) ==> next == Confirming(j) && out.jobs[j].attempts == db.jobs[j].attempts + 1
                                && !Terminal(out.jobs[j]))
      && (pc != Starting(j) ==> out.jobs[j].attempts == db.jobs[j].attempts)
      && (Terminal(db.jobs[j]) && !Terminal(out.jobs[j]) ==> pc == Starting(j) || (pc == Catching(j) && next.Idle?))
      && (!Terminal(db.jobs[j]) && Terminal(out.jobs[j]) ==>
            pc == FailingJob(j) || (pc == Finishing(j) && next.Idle?))
      && (pc == FailingJob(j) ==> Terminal(out.jobs[j]))
      && (!pc.Starting? ==> !Guarded(next) || Guarded(pc))
  {
  }

  lemma WriteHeat(st: State, wid: Id, qr: Option<string>, j: Id)
    requires AttemptsBounded(st) && j in st.db.jobs && WriteEnabled(st, wid)
    ensures var after := WriteNext(st, wid, qr);
      && j in after.db.jobs && HeatOf(after, j) <= HeatOf(st, j)
      && (!Terminal(st.db.jobs[j]) &&
            (Terminal(after.db.jobs[j]) || st.workers[wid].pc == Starting(j) || st.workers[wid].pc == FailingJob(j)) ==>
            HeatOf(after, j) < HeatOf(st, j))
  {
    var pc := st.workers[wid].pc;
    var after := WriteNext(st, wid, qr);
    JobWriteHeat(st.db, st.locks, pc, qr, j);
    AttemptsMove(st.workers, wid, after.workers[wid], j);
    assert after.workers == st.workers[wid := after.workers[wid]];
    if pc == Starting(j) { assert wid in Starters(st.workers, j); }
    if Dead(st.workers, j, st.db.jobs[j]) {
      DeadMove(st.workers, wid, after.workers[wid], j, st.db.jobs[j], after.db.jobs[j]);
    }
  }

  ghost predicate Steady(st: State) {
    Tallied(st) && Spent(st) && Fit(st) && OneJobEach(st.db) && AllOld(st)
  }

  lemma StepHeat(st: State, a: Action, j: Id)
    requires Steady(st) && j in st.db.jobs && Enabled(st, a) && !(a.Booker? && a.rstep.Commit?)
    ensures j in Next(st, a).db.jobs && HeatOf(Next(st, a), j) <= HeatOf(st, j)
  {
    if a.Processor? { WorkerHeat(st, a.wid, a.wstep, j); } else { OthersKeepJobs(st, a); }
  }

  lemma WorkerHeat(st: State, wid: Id, step: WorkerStep, j: Id)
    requires AttemptsBounded(st) && Spent(st) && j in st.db.jobs && WorkerEnabled(st, wid, step)
    ensures j in WorkerNext(st, wid, step).db.jobs && HeatOf(WorkerNext(st, wid, step), j) <= HeatOf(st, j)
  {
    if step.Write? { WriteHeat(st, wid, step.qr, j); } else { MoveHeat(st, wid, step, j); }
  }

  lemma SteadyStep(st: State, a: Action)
    requires Steady(st) && Enabled(st, a) && !(a.Booker? && a.rstep.Commit?)
    ensures Steady(Next(st, a)) && Next(st, a).workers.Keys == st.workers.Keys
    ensures Next(st, a).db.jobs.Keys == st.db.jobs.Keys
  {
    TalliedStep(st, a);
    SpentStep(st, a);
    FitStep(st, a);
    OneJobStep(st, a);
    if a.Processor? { WorkerKeepsOld(st, a.wid, a.wstep); } else { OthersKeepJobs(st, a); }
  }

  lemma WorkerKeepsOld(st: State, wid: Id, step: WorkerStep)
    requires AllOld(st) && WorkerEnabled(st, wid, step)
    ensures var after := WorkerNext(st, wid, step);
      AllOld(after) && after.db.jobs.Keys == st.db.jobs.Keys && after.workers.Keys == st.workers.Keys
  {
    if step.Write? { JobWriteKeepsAge(st.db, st.locks, st.workers[wid].pc, step.qr); }
  }

  lemma JobWriteKeepsAge(db: Db, locks: Locks, pc: Pc, qr: Option<string>)
    requires !pc.Idle? && JobPresent(db, pc.job)
    ensures var out := JobWrite(db, locks, pc, qr).0;
      out.jobs.Keys == db.jobs.Keys && forall j :: j in db.jobs ==> out.jobs[j].createdAt == db.jobs[j].createdAt
  {
  }

  // ---- all the jobs ----------------------------------------------------------------------

  ghost function Sum(heats: map<Id, nat>): nat
    decreases |heats|
  {
    if heats == map[] then 0
    else
      var j :| j in heats;
      heats[j] + Sum(heats - {j})
  }

  lemma {:induction false} SumSplit(heats: map<Id, nat>, j: Id)
    requires j in heats
    ensures Sum(heats) == heats[j] + Sum(heats - {j})
    decreases |heats|
  {
    var k :| k in heats && Sum(heats) == heats[k] + Sum(heats - {k});
    if k != j {
      SumSplit(heats - {k}, j);
      SumSplit(heats - {j}, k);
      assert (heats - {k}) - {j} == (heats - {j}) - {k};
    }
  }

  lemma {:induction false} SumFalls(before: map<Id, nat>, after: map<Id, nat>)
    requires NoneHotter(before, after)
    ensures Sum(after) <= Sum(before)
    ensures (exists j :: j in before && after[j] < before[j]) ==> Sum(after) < Sum(before)
    decreases |before|
  {
    if before == map[] {
      assert after == map[];
    } else {
      var j :| j in before && ((exists k :: k in before && after[k] < before[k]) ==> after[j] < before[j]);
      SumSplit(before, j);
      SumSplit(after, j);
      SumFalls(before - {j}, after - {j});
    }
  }

  ghost function Heats(st: State): map<Id, nat> {
    map j | j in st.db.jobs :: HeatOf(st, j)
  }

  ghost predicate NoneHotter(before: map<Id, nat>, after: map<Id, nat>) {
    after.Keys == before.Keys && forall j :: j in before ==> after[j] <= before[j]
  }

  lemma NoneHotterStep(st: State, a: Action)
    requires Steady(st) && Enabled(st, a) && !(a.Booker? && a.rstep.Commit?)
    ensures NoneHotter(Heats(st), Heats(Next(st, a)))
  {
    SteadyStep(st, a);
    forall j | j in st.db.jobs ensures HeatOf(Next(st, a), j) <= HeatOf(st, j) { StepHeat(st, a, j); }
  }

  // ---- the sweeper -----------------------------------------------------------------------

  /** The sweeper has job `j` still before it, and it is open. */
  predicate Awaits(st: State, wid: Id, j: Id) {
    && j in st.db.jobs && !Terminal(st.db.jobs[j]) && wid in st.workers
    && var w := st.workers[wid]; (j in w.todo || w.pc == FailingJob(j) || w.pc == Starting(j))
  }

  /** The jobs hold less than `total`, or will when the sweep in hand is over. */
  ghost predicate Cools(st: State, wid: Id, total: nat) {
    Sum(Heats(st)) < total || (Sum(Heats(st)) == total && exists j :: Awaits(st, wid, j))
  }

  /** Before the sweeper gets past a job, the job holds less. */
  lemma AwaitsStep(st: State, a: Action, wid: Id, j: Id)
    requires Steady(st) && Enabled(st, a) && Shares(wid, st, a, Next(st, a)) && Awaits(st, wid, j)
    requires !SweepsNow(a, wid)
    ensures j in Next(st, a).db.jobs
    ensures Awaits(Next(st, a), wid, j) || HeatOf(Next(st, a), j) < HeatOf(st, j)
  {
    if a.Processor? && a.wid == wid {
      OwnAwaits(st, wid, a.wstep, j);
    } else if a.Processor? {
      OtherAwaits(st, a.wid, a.wstep, wid, j);
    } else {
      OthersKeepJobs(st, a);
    }
  }

  lemma OwnAwaits(st: State, wid: Id, step: WorkerStep, j: Id)
    requires AttemptsBounded(st) && WorkerEnabled(st, wid, step) && Awaits(st, wid, j) && !step.Sweep? && !step.Die?
    ensures j in WorkerNext(st, wid, step).db.jobs
    ensures Awaits(WorkerNext(st, wid, step), wid, j) || HeatOf(WorkerNext(st, wid, step), j) < HeatOf(st, j)
  {
    match step
    case Write(qr) => WriteHeat(st, wid, qr, j);
    case Load => LoadAwaits(st, wid, j);
    case Deliver =>
    case Throw =>
  }

  lemma OtherAwaits(st: State, v: Id, step: WorkerStep, wid: Id, j: Id)
    requires AttemptsBounded(st) && WorkerEnabled(st, v, step) && Awaits(st, wid, j) && v != wid
    ensures j in WorkerNext(st, v, step).db.jobs
    ensures Awaits(WorkerNext(st, v, step), wid, j) || HeatOf(WorkerNext(st, v, step), j) < HeatOf(st, j)
  {
    if step.Write? { WriteHeat(st, v, step.qr, j); }
  }

  lemma LoadAwaits(st: State, wid: Id, j: Id)
    requires LoadEnabled(st, wid) && Awaits(st, wid, j)
    ensures Awaits(LoadNext(st, wid), wid, j)
  {
    var w := st.workers[wid];
    assert w.todo == [w.todo[0]] + w.todo[1..];
  }

  lemma CoolsStep(st: State, a: Action, wid: Id, total: nat)
    requires Steady(st) && Enabled(st, a) && Shares(wid, st, a, Next(st, a)) && Cools(st, wid, total)
    requires !SweepsNow(a, wid)
    ensures Cools(Next(st, a), wid, total)
  {
    NoneHotterStep(st, a);
    SumFalls(Heats(st), Heats(Next(st, a)));
    if j :| Awaits(st, wid, j) {
      AwaitsStep(st, a, wid, j);
      assert Awaits(Next(st, a), wid, j) || Heats(Next(st, a))[j] < Heats(st)[j];
    }
  }

  /** An open job holds something. */
  lemma OpenHolds(st: State, j: Id)
    requires j in st.db.jobs && !Terminal(st.db.jobs[j])
    ensures Sum(Heats(st)) > 0
  {
    SumSplit(Heats(st), j);
    assert HeatOf(st, j) >= 1;
  }

  /** A sweep that finds something: when the next one begins, the jobs hold less. */
  lemma SweepCools(st: State, wid: Id, ids: seq<Id>, total: nat)
    requires Steady(st) && WorkerEnabled(st, wid, Sweep(ids)) && ids != [] && Cools(st, wid, total)
    ensures 0 < Sum(Heats(st)) < total && Cools(WorkerNext(st, wid, Sweep(ids)), wid, Sum(Heats(st)))
  {
    var after := WorkerNext(st, wid, Sweep(ids));
    assert ids[0] in ids && Stuck(st.db, st.cfg.threshold, st.now, ids[0]);
    OpenHolds(st, ids[0]);
    assert Awaits(after, wid, ids[0]);
    NoneHotterStep(st, Processor(wid, Sweep(ids)));
    SumFalls(Heats(st), Heats(after));
  }

  lemma {:induction false} SweepsFinding(st: State, actions: seq<Action>, wid: Id, total: nat)
    requires Steady(st) && Run(st, actions, Shared(wid)) && Cools(st, wid, total) && wid in st.workers
    requires Processor(wid, Sweep([])) !in actions
    ensures SweepCount(actions, wid) < total
    decreases |actions|
  {
    if actions == [] {
      if j :| Awaits(st, wid, j) { OpenHolds(st, j); }
    } else {
      var a, next := actions[0], Next(st, actions[0]);
      assert a in actions && (forall b :: b in actions[1..] ==> b in actions);
      SteadyStep(st, a);
      if SweepsNow(a, wid) {
        SweepCools(st, wid, a.wstep.ids, total);
        SweepsFinding(next, actions[1..], wid, Sum(Heats(st)));
      } else {
        CoolsStep(st, a, wid, total);
        SweepsFinding(next, actions[1..], wid, total);
      }
    }
  }

  // ---- the bound -------------------------------------------------------------------------

  /** The jobs that are open, or that a processor is about to open or is in an attempt at. */
  function Alive(st: State): set<Id> {
    set j | j in st.db.jobs && !Dead(st.workers, j, st.db.jobs[j])
  }

  lemma {:induction false} SumBound(heats: map<Id, nat>, some: set<Id>, most: nat)
    requires forall j :: j in heats ==> heats[j] <= if j in some then most else 0
    requires some <= heats.Keys
    ensures Sum(heats) <= |some| * most
    decreases |heats|
  {
    if heats != map[] {
      var j :| j in heats;
      SumSplit(heats, j);
      SumBound(heats - {j}, some - {j}, most);
      if j in some {
        var n := |some - {j}|;
        assert |some| == n + 1;
        OneMore(n, most);
        assert Sum(heats) <= most + n * most;
      } else {
        assert some - {j} == some;
        assert Sum(heats) == Sum(heats - {j});
      }
    }
  }

  lemma HeatBound(st: State, j: Id)
    requires j in st.db.jobs
    ensures HeatOf(st, j) <= if j in Alive(st) then 2 * st.cfg.maxAttempts + 3 * |st.workers| + 1 else 0
  {
    SubsetCount(Attempts(st.workers, j), st.workers.Keys);
    assert |st.workers.Keys| == |st.workers|;
  }

  lemma HeatsBound(st: State, most: nat)
    requires most == 2 * st.cfg.maxAttempts + 3 * |st.workers| + 1
    ensures Sum(Heats(st)) <= |Alive(st)| * most
  {
    var heats := Heats(st);
    forall j | j in heats ensures heats[j] <= if j in Alive(st) then most else 0 { HeatBound(st, j); }
    assert Alive(st) <= heats.Keys;
    SumBound(heats, Alive(st), most);
  }

  lemma {:induction false} CrewStays(st: State, actions: seq<Action>)
    requires Run(st, actions, Any)
    ensures |Final(st, actions, Any).workers| == |st.workers|
    decreases |actions|
  {
    if actions != [] {
      CrewStep(st, actions[0]);
      CrewStays(Next(st, actions[0]), actions[1..]);
    }
  }

  lemma SoFarSteady(st: State, actions: seq<Action>)
    requires Init(st) && st.workers != map[] && Run(st, actions, Any) && AllOld(Final(st, actions, Any))
    ensures Steady(Final(st, actions, Any))
  {
    assert Tallied(st) by {
      var w :| w in st.workers;
      assert |st.workers| >= 1;
    }
    RunTallied(st, actions);
    RunSpent(st, actions);
    RunFit(st, actions);
    JobForEver(st, actions);
  }

  lemma FindsNothing(st: State, actions: seq<Action>, wid: Id, total: nat)
    requires Steady(st) && wid in st.workers && Run(st, actions, Shared(wid))
    requires Sum(Heats(st)) <= total && SweepCount(actions, wid) > total
    ensures Processor(wid, Sweep([])) in actions
  {
    if Processor(wid, Sweep([])) !in actions {
      SweepsFinding(st, actions, wid, Sum(Heats(st)) + 1);
    }
  }

  /** Any number `W` of processors, any of which but the sweeper may die: from any state the services can be in
      whose jobs are all old and `n` of them alive, of more than `n * (2 * max + 3 * W + 1)` sweeps by one sweeper
      some sweep finds nothing. */
  lemma SweepFindsNothing(start: State, earlier: seq<Action>, st: State, actions: seq<Action>, wid: Id, most: nat)
    requires Init(start) && Leads(start, earlier, Any, st) && AllOld(st) && wid in st.workers
    requires Run(st, actions, Shared(wid)) && most == 2 * st.cfg.maxAttempts + 3 * |st.workers| + 1
    requires SweepCount(actions, wid) > |Alive(st)| * most
    ensures Processor(wid, Sweep([])) in actions
  {
    CrewStays(start, earlier);
    SoFarSteady(start, earlier);
    HeatsBound(st, most);
    FindsNothing(st, actions, wid, |Alive(st)| * most);
  }

  // ---- a sweep that finds nothing --------------------------------------------------------

  predicate NoCommit(st: State, a: Action, after: State) {
    !(a.Booker? && a.rstep.Commit?)
  }

  /** Nobody is about to open a job. */
  predicate NobodyAttempts(st: State) {
    forall w :: w in st.workers ==>
      !st.workers[w].pc.Starting? && !Guarded(st.workers[w].pc) && !st.workers[w].pc.Catching?
  }

  lemma ColdIsDead(st: State, j: Id)
    requires AttemptsBounded(st) && j in st.db.jobs
    ensures HeatOf(st, j) == 0 <==> Dead(st.workers, j, st.db.jobs[j])
  {
    if !Dead(st.workers, j, st.db.jobs[j]) && Terminal(st.db.jobs[j]) {
      var w :| w in st.workers && (st.workers[w].pc == Starting(j) || Attempting(st.workers[w], j));
      assert w in Attempts(st.workers, j) || w in Starters(st.workers, j);
    }
  }

  lemma DeadStep(st: State, a: Action)
    requires Steady(st) && Enabled(st, a) && NoCommit(st, a, Next(st, a)) && Alive(st) == {}
    ensures Steady(Next(st, a)) && Alive(Next(st, a)) == {}
  {
    var after := Next(st, a);
    SteadyStep(st, a);
    forall j | j in after.db.jobs ensures Dead(after.workers, j, after.db.jobs[j]) {
      assert j !in Alive(st);
      StepHeat(st, a, j);
      ColdIsDead(st, j);
      ColdIsDead(after, j);
    }
  }

  lemma {:induction false} DeadRun(st: State, actions: seq<Action>)
    requires Steady(st) && Alive(st) == {} && Run(st, actions, NoCommit)
    ensures Alive(Final(st, actions, NoCommit)) == {}
    decreases |actions|
  {
    if actions != [] {
      DeadStep(st, actions[0]);
      DeadRun(Next(st, actions[0]), actions[1..]);
    }
  }

  /** If a sweep finds nothing while nobody is in an attempt, every job is DONE or FAILED from then on. */
  lemma NothingFoundEnds(start: State, earlier: seq<Action>, st: State, wid: Id, actions: seq<Action>, end: State)
    requires Init(start) && Leads(start, earlier, Any, st) && AllOld(st)
    requires WorkerEnabled(st, wid, Sweep([])) && NobodyAttempts(st) && Leads(st, actions, NoCommit, end)
    ensures forall j :: j in end.db.jobs ==> end.db.jobs[j].status == JobDone || end.db.jobs[j].status == JobFailed
  {
    CrewStays(start, earlier);
    SoFarSteady(start, earlier);
    forall j | j in st.db.jobs ensures Dead(st.workers, j, st.db.jobs[j]) {
      assert Stuck(st.db, st.cfg.threshold, st.now, j) <==> !Terminal(st.db.jobs[j]);
    }
    assert Alive(st) == {};
    DeadRun(st, actions);
    assert forall j :: j in end.db.jobs ==> j !in Alive(end);
  }
}
