/** What the processors do to a job however many of them run at once, and what one at a time adds. */
module Workers {
  import opened Store
  import opened Protocol
  import opened Safety
  import opened Always

  // ---- W processors ----------------------------------------------------------------------

  /** The processors that have loaded `j` with attempts to spare but not counted theirs yet. */
  function Starters(workers: map<Id, Worker>, j: Id): set<Id> {
    set w | w in workers && workers[w].pc == Starting(j)
  }

  /** The processors whose attempt at `j` is counted and whose notice is still to come. */
  function Notifiers(workers: map<Id, Worker>, j: Id): set<Id> {
    set w | w in workers && (workers[w].pc == Confirming(j) || workers[w].pc == Notifying(j))
  }

  ghost predicate AttemptsBounded(st: State) {
    && st.workers != map[]
    && forall j :: j in st.db.jobs ==>
         st.db.jobs[j].attempts + |Starters(st.workers, j)| <= st.cfg.maxAttempts + |st.workers| - 1
  }

  ghost predicate NoticesBounded(st: State) {
    && (forall j :: j in st.db.jobs ==>
          st.db.notices[st.db.jobs[j].booking] + |Notifiers(st.workers, j)| <= st.db.jobs[j].attempts)
    && (forall b :: b !in st.db.bookings ==> st.db.notices[b] == 0)
  }

  /** Whoever is past the notice, and whatever is DONE, has one. */
  ghost predicate DoneNoticed(st: State) {
    && (forall w :: w in st.workers && (st.workers[w].pc.Unlocking? || st.workers[w].pc.Finishing?) ==>
          var j := st.workers[w].pc.job; j in st.db.jobs && st.db.notices[st.db.jobs[j].booking] >= 1)
    && (forall j :: j in st.db.jobs && st.db.jobs[j].status == JobDone ==> st.db.notices[st.db.jobs[j].booking] >= 1)
  }

  /** A processor is only ever inside a job that exists. */
  ghost predicate InsideJobs(st: State) {
    && (forall w :: w in st.workers && !st.workers[w].pc.Idle? ==> st.workers[w].pc.job in st.db.jobs)
  }

  ghost predicate Tallied(st: State) {
    AttemptsBounded(st) && NoticesBounded(st) && DoneNoticed(st) && InsideJobs(st)
  }

  /** Moving one processor changes the two sets by that processor at most. */
  lemma MoveOne(workers: map<Id, Worker>, wid: Id, w: Worker, j: Id)
    requires wid in workers
    ensures |Starters(workers[wid := w], j)| ==
      |Starters(workers, j)|
        + (if w.pc == Starting(j) then 1 else 0) - (if workers[wid].pc == Starting(j) then 1 else 0)
    ensures |Notifiers(workers[wid := w], j)| ==
      |Notifiers(workers, j)| + (if w.pc == Confirming(j) || w.pc == Notifying(j) then 1 else 0)
                              - (if workers[wid].pc == Confirming(j) || workers[wid].pc == Notifying(j) then 1 else 0)
    ensures |workers[wid := w]| == |workers|
  {
    var after := workers[wid := w];
    assert Starters(after, j) - {wid} == Starters(workers, j) - {wid};
    DifferByOne(Starters(workers, j), Starters(after, j), wid);
    assert Notifiers(after, j) - {wid} == Notifiers(workers, j) - {wid};
    DifferByOne(Notifiers(workers, j), Notifiers(after, j), wid);
    assert after.Keys == workers.Keys;
    assert |after| == |after.Keys| && |workers| == |workers.Keys|;
  }

  lemma DifferByOne(a: set<Id>, b: set<Id>, x: Id)
    requires a - {x} == b - {x}
    ensures |b| == |a| + (if x in b then 1 else 0) - (if x in a then 1 else 0)
  {
    assert a == a - {x} + if x in a then {x} else {};
    assert b == b - {x} + if x in b then {x} else {};
  }

  lemma StartersFit(workers: map<Id, Worker>, wid: Id, j: Id)
    requires wid in workers && workers[wid].pc != Starting(j)
    ensures |Starters(workers, j)| <= |workers| - 1
  {
    assert |workers.Keys - {wid}| == |workers| - 1;
    assert Starters(workers, j) <= workers.Keys - {wid};
    SubsetCount(Starters(workers, j), workers.Keys - {wid});
  }

  lemma {:induction false} SubsetCount(a: set<Id>, b: set<Id>)
    requires a <= b
    ensures |a| <= |b|
    decreases |a|
  {
    if a != {} {
      var x :| x in a;
      SubsetCount(a - {x}, b - {x});
    }
  }

  lemma LoadTallied(st: State, wid: Id)
    requires Tallied(st) && LoadEnabled(st, wid)
    ensures Tallied(LoadNext(st, wid))
  {
    var after := LoadNext(st, wid);
    forall j | j in st.db.jobs
      ensures st.db.jobs[j].attempts + |Starters(after.workers, j)| <= st.cfg.maxAttempts + |after.workers| - 1
      ensures |Notifiers(after.workers, j)| == |Notifiers(st.workers, j)|
    {
      MoveOne(st.workers, wid, after.workers[wid], j);
      StartersFit(st.workers, wid, j);
    }
  }

  /** A processor that leaves its job, or moves on to one it has been handed. */
  lemma StopTallied(st: State, wid: Id, step: WorkerStep)
    requires Tallied(st) && WorkerEnabled(st, wid, step) && !step.Load? && !step.Write?
    ensures Tallied(WorkerNext(st, wid, step))
  {
    var after := WorkerNext(st, wid, step);
    forall j | j in st.db.jobs
      ensures |Starters(after.workers, j)| <= |Starters(st.workers, j)|
      ensures |Notifiers(after.workers, j)| <= |Notifiers(st.workers, j)|
      ensures |after.workers| == |st.workers|
    {
      MoveOne(st.workers, wid, after.workers[wid], j);
    }
  }

  /** What one write changes: at most one more attempt, or one more notice, for the processor's own job. */
  lemma JobWriteTally(db: Db, locks: Locks, pc: Pc, qr: Option<string>)
    requires !pc.Idle? && JobPresent(db, pc.job)
    ensures var (out, _, next) := JobWrite(db, locks, pc, qr);
      && out.jobs.Keys == db.jobs.Keys && out.bookings.Keys == db.bookings.Keys
      && (forall j :: j in db.jobs ==>
            && out.jobs[j].booking == db.jobs[j].booking
            && out.jobs[j].attempts == db.jobs[j].attempts + (if pc == Starting(j) then 1 else 0)
            && (j != pc.job ==> out.jobs[j] == db.jobs[j])
            && (out.jobs[j].status == JobDone ==> db.jobs[j].status == JobDone || pc == Finishing(j)))
      && (forall b :: out.notices[b] == db.notices[b]
            + (if pc.Notifying? && b == db.jobs[pc.job].booking then 1 else 0))
      && (next.Idle? || next.job == pc.job)
      && !next.Starting? && (next.Confirming? <==> pc.Starting?) && (next.Notifying? <==> pc.Confirming?)
      && (next.Unlocking? <==> pc.Notifying?) && (next.Finishing? <==> pc.Unlocking?)
  {
  }

  lemma WriteBounded(st: State, wid: Id, qr: Option<string>)
    requires AttemptsBounded(st) && NoticesBounded(st) && RowsFit(st.db) && OneJobEach(st.db)
    requires WorkerEnabled(st, wid, Write(qr))
    ensures AttemptsBounded(WorkerNext(st, wid, Write(qr))) && NoticesBounded(WorkerNext(st, wid, Write(qr)))
  {
    var w := st.workers[wid];
    var (out, locks, next) := JobWrite(st.db, st.locks, w.pc, qr);
    JobWriteTally(st.db, st.locks, w.pc, qr);
    var after := WorkerNext(st, wid, Write(qr));
    var crew := st.workers[wid := w.(pc := next)];
    assert after.workers == crew && after.db == out && after.cfg == st.cfg;
    forall j | j in out.jobs
      ensures out.jobs[j].attempts + |Starters(crew, j)| <= st.cfg.maxAttempts + |crew| - 1
      ensures out.notices[out.jobs[j].booking] + |Notifiers(crew, j)| <= out.jobs[j].attempts
    {
      MoveOne(st.workers, wid, w.(pc := next), j);
      assert j != w.pc.job ==> st.db.jobs[j].booking != st.db.jobs[w.pc.job].booking;
    }
  }

  lemma WriteNoticed(st: State, wid: Id, qr: Option<string>)
    requires DoneNoticed(st) && InsideJobs(st) && WorkerEnabled(st, wid, Write(qr))
    ensures DoneNoticed(WorkerNext(st, wid, Write(qr))) && InsideJobs(WorkerNext(st, wid, Write(qr)))
  {
    JobWriteTally(st.db, st.locks, st.workers[wid].pc, qr);
    var after := WorkerNext(st, wid, Write(qr));
    var (out, locks, next) := JobWrite(st.db, st.locks, st.workers[wid].pc, qr);
    assert after.workers == st.workers[wid := st.workers[wid].(pc := next)] && after.db == out;
  }

  lemma CommitBounded(st: State, rid: Id, bid: Id, jid: Id)
    requires Tallied(st) && IdsUsed(st) && RowsFit(st.db) && RequestEnabled(st, rid, Commit(bid, jid))
    ensures AttemptsBounded(RequestNext(st, rid, Commit(bid, jid)))
    ensures NoticesBounded(RequestNext(st, rid, Commit(bid, jid)))
  {
    assert Starters(st.workers, jid) == {} && Notifiers(st.workers, jid) == {};
    var w :| w in st.workers;
    assert |st.workers| >= 1;
  }

  lemma CommitNoticed(st: State, rid: Id, bid: Id, jid: Id)
    requires DoneNoticed(st) && InsideJobs(st) && IdsUsed(st) && RequestEnabled(st, rid, Commit(bid, jid))
    ensures DoneNoticed(RequestNext(st, rid, Commit(bid, jid))) && InsideJobs(RequestNext(st, rid, Commit(bid, jid)))
  {
  }

  lemma RequestSame(st: State, rid: Id, step: RequestStep)
    requires RequestEnabled(st, rid, step)
    ensures var after := RequestNext(st, rid, step);
      && after.workers == st.workers && after.cfg == st.cfg && (!step.Commit? ==> after.db == st.db)
  {
  }

  lemma SameTallied(st: State, after: State)
    requires Tallied(st) && after.workers == st.workers && after.cfg == st.cfg
    requires after.db.jobs == st.db.jobs && after.db.notices == st.db.notices
    requires st.db.bookings.Keys <= after.db.bookings.Keys
    ensures Tallied(after)
  {
  }

  lemma RequestTallied(st: State, rid: Id, step: RequestStep)
    requires Tallied(st) && Fit(st) && RequestEnabled(st, rid, step)
    ensures Tallied(RequestNext(st, rid, step))
  {
    if step.Commit? {
      CommitBounded(st, rid, step.bid, step.jid);
      CommitNoticed(st, rid, step.bid, step.jid);
    } else {
      RequestSame(st, rid, step);
      SameTallied(st, RequestNext(st, rid, step));
    }
  }

  lemma CancelTallied(st: State, cid: Id, step: CancelStep)
    requires Tallied(st) && CancelEnabled(st, cid, step)
    ensures Tallied(CancelNext(st, cid, step))
  {
    SameTallied(st, CancelNext(st, cid, step));
  }

  lemma WorldTallied(st: State, step: WorldStep)
    requires Tallied(st) && WorldEnabled(st, step)
    ensures Tallied(WorldNext(st, step))
  {
    SameTallied(st, WorldNext(st, step));
  }

  lemma TalliedStep(st: State, a: Action)
    requires Tallied(st) && Fit(st) && OneJobEach(st.db) && Enabled(st, a)
    ensures Tallied(Next(st, a))
  {
    match a
    case Processor(wid, Load) => LoadTallied(st, wid);
    case Processor(wid, Write(qr)) => WriteBounded(st, wid, qr); WriteNoticed(st, wid, qr);
    case Processor(wid, step) => StopTallied(st, wid, step);
    case Booker(rid, step) => RequestTallied(st, rid, step);
    case Canceller(cid, step) => CancelTallied(st, cid, step);
    case World(step) => WorldTallied(st, step);
    case _ => SameTallied(st, Next(st, a));
  }

  lemma {:induction false} RunTallied(st: State, actions: seq<Action>)
    requires Tallied(st) && Fit(st) && OneJobEach(st.db) && Run(st, actions, Any)
    ensures var end := Final(st, actions, Any); Tallied(end) && end.cfg == st.cfg && |end.workers| == |st.workers|
    decreases |actions|
  {
    if actions != [] {
      TalliedStep(st, actions[0]);
      FitStep(st, actions[0]);
      OneJobStep(st, actions[0]);
      CrewStep(st, actions[0]);
      RunTallied(Next(st, actions[0]), actions[1..]);
    }
  }

  lemma CrewStep(st: State, a: Action)
    requires Enabled(st, a)
    ensures Next(st, a).cfg == st.cfg && |Next(st, a).workers| == |st.workers|
  {
    match a
    case Processor(wid, step) => assert Next(st, a).workers.Keys == st.workers.Keys;
      assert |st.workers.Keys| == |st.workers|;
    case Booker(_, _) =>
    case Canceller(_, _) =>
    case World(_) =>
    case _ =>
  }

  /** However `W` processors interleave, crash and retry, a job is attempted at most `max + W - 1` times (so `max` times
      by a lone processor), its booking gets at most one notice per attempt, and a DONE job's booking has one. */
  lemma AttemptsAndNotices(st: State, actions: seq<Action>, j: Id)
    requires Init(st) && st.workers != map[] && Run(st, actions, Any) && j in Final(st, actions, Any).db.jobs
    ensures var end := Final(st, actions, Any);
      var job := end.db.jobs[j];
      && job.attempts <= st.cfg.maxAttempts + |st.workers| - 1
      && end.db.notices[job.booking] <= job.attempts
      && (job.status == JobDone ==> end.db.notices[job.booking] >= 1)
  {
    assert Tallied(st) by {
      var w :| w in st.workers;
      assert |st.workers| >= 1;
    }
    RunTallied(st, actions);
  }
}
