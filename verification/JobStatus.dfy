/** With one processor per job, the status of a job and the status of its booking agree. */
module JobStatuses {
  import opened Store
  import opened Protocol
  import opened Safety
  import opened Always

  /** A processor enters a job only when no other is inside it. */
  ghost predicate OneProcessor(st: State, a: Action, after: State) {
    a.Processor? && a.wstep.Load? && a.wid in st.workers && st.workers[a.wid].todo != [] ==>
      forall w :: w in st.workers ==> !Inside(st.workers[w], st.workers[a.wid].todo[0])
  }

  /** No processor dies between writing its job FAILED and writing the booking FAILED. */
  predicate WholeFailure(st: State, a: Action, after: State) {
    a.Processor? && a.wstep.Die? && a.wid in st.workers ==> !st.workers[a.wid].pc.FailingBooking?
  }

  ghost predicate Orderly(st: State, a: Action, after: State) {
    OneProcessor(st, a, after) && WholeFailure(st, a, after)
  }

  // ---- the invariant, job by job ---------------------------------------------------------

  predicate ConfirmedOrCancelled(s: BookingStatus) {
    s == Confirmed || s == Cancelled
  }

  predicate FailedOrCancelled(s: BookingStatus) {
    s == Failed || s == Cancelled
  }

  predicate PcAgrees(max: nat, job: Job, s: BookingStatus, pc: Pc) {
    match pc
    case Idle => true
    case FailingJob(_) => job.attempts >= max && job.status != JobDone
    case FailingBooking(_) => job.attempts >= max && job.status == JobFailed
    case Starting(_) => !Terminal(job) && job.attempts < max
    case Confirming(_) => !Terminal(job)
    case Notifying(_) => !Terminal(job) && ConfirmedOrCancelled(s)
    case Unlocking(_) => !Terminal(job) && ConfirmedOrCancelled(s)
    case Finishing(_) => !Terminal(job) && ConfirmedOrCancelled(s)
    case Catching(_) => !Terminal(job)
  }

  ghost predicate BusyFailing(workers: map<Id, Worker>, j: Id) {
    exists w :: w in workers && workers[w].pc == FailingBooking(j)
  }

  ghost predicate StatusAgrees(max: nat, workers: map<Id, Worker>, j: Id, job: Job, s: BookingStatus) {
    && (job.status == JobDone ==> ConfirmedOrCancelled(s))
    && (job.status == JobFailed ==> job.attempts >= max && (FailedOrCancelled(s) || BusyFailing(workers, j)))
    && (!Terminal(job) ==> s != Failed)
    && (forall w :: w in workers && Inside(workers[w], j) ==> PcAgrees(max, job, s, workers[w].pc))
  }

  ghost predicate Consistent(max: nat, workers: map<Id, Worker>, db: Db) {
    && AllAgree(max, workers, db)
    && (forall w :: w in workers && !workers[w].pc.Idle? ==> workers[w].pc.job in db.jobs)
    && Alone(workers)
  }

  ghost predicate Agree(st: State) {
    Consistent(st.cfg.maxAttempts, st.workers, st.db)
  }

  predicate Together(v: Worker, w: Worker) {
    !v.pc.Idle? && Inside(w, v.pc.job)
  }

  // ---- steps -----------------------------------------------------------------------------

  lemma JobWriteAgrees(db: Db, locks: Locks, pc: Pc, qr: Option<string>, max: nat)
    requires !pc.Idle? && JobPresent(db, pc.job)
    requires PcAgrees(max, db.jobs[pc.job], db.bookings[db.jobs[pc.job].booking].status, pc)
    requires !Terminal(db.jobs[pc.job]) ==> db.bookings[db.jobs[pc.job].booking].status != Failed
    ensures var (out, _, next) := JobWrite(db, locks, pc, qr);
      var j := pc.job;
      var b := db.jobs[j].booking;
      && OnlyThese(db, out, j, b) && out.jobs[j].booking == b
      && (next.Idle? || next.job == j)
      && PcAgrees(max, out.jobs[j], out.bookings[b].status, next)
      && (out.jobs[j].status == JobDone ==> ConfirmedOrCancelled(out.bookings[b].status))
      && (out.jobs[j].status == JobFailed ==>
            out.jobs[j].attempts >= max && (FailedOrCancelled(out.bookings[b].status) || next == FailingBooking(j)))
      && (!Terminal(out.jobs[j]) ==> out.bookings[b].status != Failed)
  {
  }

  ghost predicate Alone(workers: map<Id, Worker>) {
    forall v, w :: v in workers && w in workers && Together(workers[v], workers[w]) ==> v == w
  }

  lemma WriteAlone(workers: map<Id, Worker>, wid: Id, next: Pc)
    requires Alone(workers) && wid in workers && !workers[wid].pc.Idle?
    requires next.Idle? || next.job == workers[wid].pc.job
    ensures Alone(workers[wid := workers[wid].(pc := next)])
  {
    var crew := workers[wid := workers[wid].(pc := next)];
    forall u, v | u in crew && v in crew && Together(crew[u], crew[v]) ensures u == v {
      assert Together(workers[u], workers[v]);
    }
  }

  ghost predicate AllAgree(max: nat, workers: map<Id, Worker>, db: Db) {
    forall j :: j in db.jobs ==>
      db.jobs[j].booking in db.bookings
        && StatusAgrees(max, workers, j, db.jobs[j], db.bookings[db.jobs[j].booking].status)
  }

  /** The job that processor `wid` is inside agrees after the write, if nobody else is inside it. */
  lemma OwnJobAgrees(max: nat, workers: map<Id, Worker>, wid: Id, next: Pc, job: Job, s: BookingStatus)
    requires Alone(workers) && wid in workers && !workers[wid].pc.Idle? && PcAgrees(max, job, s, next)
    requires job.status == JobDone ==> ConfirmedOrCancelled(s)
    requires job.status == JobFailed ==>
      job.attempts >= max && (FailedOrCancelled(s) || next == FailingBooking(workers[wid].pc.job))
    requires !Terminal(job) ==> s != Failed
    ensures StatusAgrees(max, workers[wid := workers[wid].(pc := next)], workers[wid].pc.job, job, s)
  {
    var crew := workers[wid := workers[wid].(pc := next)];
    assert forall v :: v in crew && v != wid ==> !Together(workers[wid], workers[v]);
    assert crew[wid].pc == next;
  }

  /** A job that the processor neither leaves nor enters agrees as before. */
  lemma OtherJobAgrees(max: nat, workers: map<Id, Worker>, wid: Id, w: Worker, j: Id, job: Job, s: BookingStatus)
    requires StatusAgrees(max, workers, j, job, s) && wid in workers
    requires !Inside(w, j) && workers[wid].pc != FailingBooking(j)
    ensures StatusAgrees(max, workers[wid := w], j, job, s)
  {
    if BusyFailing(workers, j) {
      var v :| v in workers && workers[v].pc == FailingBooking(j);
      assert workers[wid := w][v].pc == FailingBooking(j);
    }
  }

  /** Only job `j` and booking `b` have changed. */
  ghost predicate OnlyThese(db: Db, out: Db, j: Id, b: Id) {
    && out.jobs.Keys == db.jobs.Keys && out.bookings.Keys == db.bookings.Keys
    && (forall k :: k in db.jobs && k != j ==> out.jobs[k] == db.jobs[k])
    && (forall c :: c in db.bookings && c != b ==> out.bookings[c] == db.bookings[c])
  }

  lemma OthersAgree(max: nat, workers: map<Id, Worker>, wid: Id, next: Pc, db: Db, out: Db)
    requires AllAgree(max, workers, db) && OneJobEach(db) && wid in workers && !workers[wid].pc.Idle?
    requires workers[wid].pc.job in db.jobs && (next.Idle? || next.job == workers[wid].pc.job)
    requires OnlyThese(db, out, workers[wid].pc.job, db.jobs[workers[wid].pc.job].booking)
    ensures forall j :: j in db.jobs && j != workers[wid].pc.job ==>
      out.jobs[j].booking in out.bookings &&
      StatusAgrees(max, workers[wid := workers[wid].(pc := next)], j, out.jobs[j],
        out.bookings[out.jobs[j].booking].status)
  {
    forall j | j in db.jobs && j != workers[wid].pc.job
      ensures out.jobs[j].booking in out.bookings
      ensures StatusAgrees(max, workers[wid := workers[wid].(pc := next)], j, out.jobs[j],
        out.bookings[out.jobs[j].booking].status)
    {
      assert db.jobs[j].booking != db.jobs[workers[wid].pc.job].booking;
      OtherJobAgrees(max, workers, wid, workers[wid].(pc := next), j, out.jobs[j],
        out.bookings[out.jobs[j].booking].status);
    }
  }

  /** The write of processor `wid` leaves every job agreeing with its booking, its own and any other. */
  lemma WriteAllAgree(st: State, wid: Id, qr: Option<string>)
    requires Agree(st) && OneJobEach(st.db) && WriteEnabled(st, wid)
    ensures var (out, _, next) := JobWrite(st.db, st.locks, st.workers[wid].pc, qr);
      && AllAgree(st.cfg.maxAttempts, st.workers[wid := st.workers[wid].(pc := next)], out)
      && out.jobs.Keys == st.db.jobs.Keys && (next.Idle? || next.job == st.workers[wid].pc.job)
  {
    var w, max := st.workers[wid], st.cfg.maxAttempts;
    JobWriteAgrees(st.db, st.locks, w.pc, qr, max);
    var (out, _, next) := JobWrite(st.db, st.locks, w.pc, qr);
    var job := out.jobs[w.pc.job];
    OwnJobAgrees(max, st.workers, wid, next, job, out.bookings[job.booking].status);
    OthersAgree(max, st.workers, wid, next, st.db, out);
  }

  /** Agreement of every job, and the crew's places, put together again. */
  lemma CrewConsistent(max: nat, workers: map<Id, Worker>, wid: Id, next: Pc, db: Db, out: Db)
    requires Consistent(max, workers, db) && wid in workers && !workers[wid].pc.Idle?
    requires next.Idle? || next.job == workers[wid].pc.job
    requires AllAgree(max, workers[wid := workers[wid].(pc := next)], out) && out.jobs.Keys == db.jobs.Keys
    ensures Consistent(max, workers[wid := workers[wid].(pc := next)], out)
  {
    WriteAlone(workers, wid, next);
  }

  lemma WriteAgrees(st: State, wid: Id, qr: Option<string>)
    requires Agree(st) && OneJobEach(st.db) && WriteEnabled(st, wid)
    ensures Agree(WriteNext(st, wid, qr))
  {
    var (out, _, next) := JobWrite(st.db, st.locks, st.workers[wid].pc, qr);
    WriteAllAgree(st, wid, qr);
    CrewConsistent(st.cfg.maxAttempts, st.workers, wid, next, st.db, out);
  }

  /** A processor that leaves its job, and one that enters a job nobody is inside. */
  lemma LeaveAgrees(max: nat, workers: map<Id, Worker>, wid: Id, w: Worker, db: Db)
    requires Consistent(max, workers, db) && wid in workers && w.pc.Idle? && !workers[wid].pc.FailingBooking?
    ensures Consistent(max, workers[wid := w], db)
  {
    forall j | j in db.jobs
      ensures StatusAgrees(max, workers[wid := w], j, db.jobs[j], db.bookings[db.jobs[j].booking].status)
    {
      OtherJobAgrees(max, workers, wid, w, j, db.jobs[j], db.bookings[db.jobs[j].booking].status);
    }
    forall u, v | u in workers && v in workers && Together(workers[wid := w][u], workers[wid := w][v]) ensures u == v {
      assert u != wid && v != wid ==> Together(workers[u], workers[v]);
    }
  }

  lemma EnterAgrees(max: nat, workers: map<Id, Worker>, wid: Id, w: Worker, db: Db)
    requires Consistent(max, workers, db) && wid in workers && workers[wid].pc.Idle? && !w.pc.Idle?
    requires w.pc.job in db.jobs && forall v :: v in workers ==> !Inside(workers[v], w.pc.job)
    requires PcAgrees(max, db.jobs[w.pc.job], db.bookings[db.jobs[w.pc.job].booking].status, w.pc)
    ensures Consistent(max, workers[wid := w], db)
  {
    var crew := workers[wid := w];
    forall j | j in db.jobs ensures StatusAgrees(max, crew, j, db.jobs[j], db.bookings[db.jobs[j].booking].status) {
      if j == w.pc.job {
        assert forall v :: v in crew && v != wid ==> crew[v] == workers[v];
      } else {
        OtherJobAgrees(max, workers, wid, w, j, db.jobs[j], db.bookings[db.jobs[j].booking].status);
      }
    }
    forall u, v | u in crew && v in crew && Together(crew[u], crew[v]) ensures u == v {
      assert u != wid && v != wid ==> Together(workers[u], workers[v]);
    }
  }

  lemma ThrowAgrees(st: State, wid: Id)
    requires Agree(st) && WorkerEnabled(st, wid, Throw)
    ensures Agree(WorkerNext(st, wid, Throw))
  {
    var pc := st.workers[wid].pc;
    var next := Catching(pc.job);
    forall j | j in st.db.jobs
      ensures StatusAgrees(st.cfg.maxAttempts, st.workers[wid := st.workers[wid].(pc := next)], j, st.db.jobs[j],
        st.db.bookings[st.db.jobs[j].booking].status)
    {
      if j == pc.job {
        OwnJobAgrees(st.cfg.maxAttempts, st.workers, wid, next, st.db.jobs[j],
          st.db.bookings[st.db.jobs[j].booking].status);
      } else {
        OtherJobAgrees(st.cfg.maxAttempts, st.workers, wid, st.workers[wid].(pc := next), j, st.db.jobs[j],
          st.db.bookings[st.db.jobs[j].booking].status);
      }
    }
    CrewConsistent(st.cfg.maxAttempts, st.workers, wid, next, st.db, st.db);
  }

  lemma LoadAgrees(st: State, wid: Id)
    requires Agree(st) && LoadEnabled(st, wid)
    requires forall w :: w in st.workers ==> !Inside(st.workers[w], st.workers[wid].todo[0])
    ensures Agree(LoadNext(st, wid))
  {
    var w := LoadNext(st, wid).workers[wid];
    if w.pc.Idle? {
      LeaveAgrees(st.cfg.maxAttempts, st.workers, wid, w, st.db);
    } else {
      EnterAgrees(st.cfg.maxAttempts, st.workers, wid, w, st.db);
    }
  }

  lemma MoveAgrees(st: State, wid: Id, step: WorkerStep)
    requires Agree(st) && WorkerEnabled(st, wid, step) && !step.Write?
    requires Orderly(st, Processor(wid, step), WorkerNext(st, wid, step))
    ensures Agree(WorkerNext(st, wid, step))
  {
    if step.Throw? {
      ThrowAgrees(st, wid);
    } else if step.Load? {
      LoadAgrees(st, wid);
    } else {
      LeaveAgrees(st.cfg.maxAttempts, st.workers, wid, WorkerNext(st, wid, step).workers[wid], st.db);
    }
  }

  lemma RequestAgrees(st: State, rid: Id, step: RequestStep)
    requires Agree(st) && IdsUsed(st) && RequestEnabled(st, rid, step)
    ensures Agree(RequestNext(st, rid, step))
  {
  }

  lemma CancelAgrees(st: State, cid: Id, step: CancelStep)
    requires Agree(st) && CancelEnabled(st, cid, step)
    ensures Agree(CancelNext(st, cid, step))
  {
  }

  lemma WorldAgrees(st: State, step: WorldStep)
    requires Agree(st) && WorldEnabled(st, step)
    ensures Agree(WorldNext(st, step))
  {
  }

  lemma AgreeStep(st: State, a: Action)
    requires Agree(st) && Fit(st) && OneJobEach(st.db) && Enabled(st, a) && Orderly(st, a, Next(st, a))
    ensures Agree(Next(st, a))
  {
    match a
    case Submit(_, _, _) =>
    case Booker(rid, step) => RequestAgrees(st, rid, step);
    case CheckCancel(_, _, _) =>
    case Canceller(cid, step) => CancelAgrees(st, cid, step);
    case Processor(wid, step) => if step.Write? { WriteAgrees(st, wid, step.qr); } else { MoveAgrees(st, wid, step); }
    case World(step) => WorldAgrees(st, step);
  }

  lemma {:induction false} RunAgrees(st: State, actions: seq<Action>)
    requires Agree(st) && Fit(st) && OneJobEach(st.db) && Run(st, actions, Orderly)
    ensures Agree(Final(st, actions, Orderly)) && Final(st, actions, Orderly).cfg == st.cfg
    decreases |actions|
  {
    if actions != [] {
      AgreeStep(st, actions[0]);
      FitStep(st, actions[0]);
      OneJobStep(st, actions[0]);
      ConfigStays(st, actions[0]);
      RunAgrees(Next(st, actions[0]), actions[1..]);
    }
  }

  lemma ConfigStays(st: State, a: Action)
    requires Enabled(st, a)
    ensures Next(st, a).cfg == st.cfg
  {
    match a
    case Booker(_, _) =>
    case Canceller(_, _) =>
    case Processor(_, _) =>
    case World(_) =>
    case _ =>
  }

  /** DONE means CONFIRMED or CANCELLED, FAILED (with nobody still inside) means FAILED or CANCELLED after `max`
      attempts, and an open job's booking has not failed. */
  lemma JobAndBookingAgree(st: State, actions: seq<Action>, j: Id)
    requires Init(st) && Run(st, actions, Orderly) && j in Final(st, actions, Orderly).db.jobs
    ensures var end := Final(st, actions, Orderly);
      var job := end.db.jobs[j];
      job.booking in end.db.bookings &&
      var status := end.db.bookings[job.booking].status;
      && (job.status == JobDone ==> status == Confirmed || status == Cancelled)
      && (job.status == JobFailed && (forall w :: w in end.workers ==> !Inside(end.workers[w], j)) ==>
            job.attempts >= st.cfg.maxAttempts && (status == Failed || status == Cancelled))
      && (!Terminal(job) ==> status != Failed)
  {
    RunAgrees(st, actions);
  }

  // ---- a cancelled booking whose job has ended stays cancelled ---------------------------

  ghost predicate Closed(st: State, j: Id) {
    && j in st.db.jobs && Terminal(st.db.jobs[j])
    && st.db.jobs[j].booking in st.db.bookings && !Active(st.db.bookings[st.db.jobs[j].booking])
    && forall w :: w in st.workers ==> !Inside(st.workers[w], j)
  }

  lemma WriteElsewhere(st: State, wid: Id, qr: Option<string>, j: Id)
    requires Closed(st, j) && OneJobEach(st.db) && WorkerEnabled(st, wid, Write(qr))
    ensures Closed(WorkerNext(st, wid, Write(qr)), j)
  {
    var pc := st.workers[wid].pc;
    assert Inside(st.workers[wid], pc.job);
    assert st.db.jobs[pc.job].booking != st.db.jobs[j].booking;
  }

  lemma WorkerClosed(st: State, wid: Id, step: WorkerStep, j: Id)
    requires Closed(st, j) && OneJobEach(st.db) && WorkerEnabled(st, wid, step)
    requires SweepChosen(st, Processor(wid, step), WorkerNext(st, wid, step))
    ensures Closed(WorkerNext(st, wid, step), j)
  {
    if step.Write? { WriteElsewhere(st, wid, step.qr, j); }
  }

  lemma RequestClosed(st: State, rid: Id, step: RequestStep, j: Id)
    requires Closed(st, j) && IdsUsed(st) && RequestEnabled(st, rid, step)
    ensures Closed(RequestNext(st, rid, step), j)
  {
  }

  lemma CancelClosed(st: State, cid: Id, step: CancelStep, j: Id)
    requires Closed(st, j) && CancelEnabled(st, cid, step)
    ensures Closed(CancelNext(st, cid, step), j)
  {
  }

  lemma WorldClosed(st: State, step: WorldStep, j: Id)
    requires Closed(st, j) && WorldEnabled(st, step)
    ensures Closed(WorldNext(st, step), j)
  {
  }

  lemma ClosedStep(st: State, a: Action, j: Id)
    requires Closed(st, j) && IdsUsed(st) && OneJobEach(st.db) && Enabled(st, a) && SweepChosen(st, a, Next(st, a))
    ensures Closed(Next(st, a), j)
  {
    match a
    case Processor(wid, step) => WorkerClosed(st, wid, step, j);
    case Booker(rid, step) => RequestClosed(st, rid, step, j);
    case Canceller(cid, step) => CancelClosed(st, cid, step, j);
    case World(step) => WorldClosed(st, step, j);
    case _ =>
  }

  /** As long as only the sweep's picks are processed, a cancel that comes after its job lasts for ever. */
  lemma {:induction false} CancelledStays(st: State, actions: seq<Action>, j: Id)
    requires Fit(st) && OneJobEach(st.db) && Closed(st, j) && Run(st, actions, SweepChosen)
    ensures Closed(Final(st, actions, SweepChosen), j)
    decreases |actions|
  {
    if actions != [] {
      ClosedStep(st, actions[0], j);
      FitStep(st, actions[0]);
      OneJobStep(st, actions[0]);
      CancelledStays(Next(st, actions[0]), actions[1..], j);
    }
  }
}
