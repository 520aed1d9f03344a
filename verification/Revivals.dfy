/** When a cancelled booking is cancelled for good: exactly when its job has ended and no processor is inside it.  From
    anywhere else the system itself brings the booking back. */
module Revivals {
  import opened Store
  import opened Protocol
  import opened Safety
  import opened Always
  import opened JobStatuses

  /** Booking `b` is there and live. */
  predicate Live(db: Db, b: Id) {
    b in db.bookings && Active(db.bookings[b])
  }

  /** However the run goes on, as long as processors take only what the sweep picks, booking `b` stays cancelled. */
  ghost predicate StaysCancelled(st: State, b: Id) {
    forall actions: seq<Action> :: Run(st, actions, SweepChosen) ==>
      !Live(Final(st, actions, SweepChosen).db, b)
  }

  // ---- a sweep that begins with a given job ----------------------------------------------

  /** `n` distinct members of `ids`, or all there are. */
  lemma {:induction false} Pick(ids: set<Id>, n: nat) returns (picked: seq<Id>)
    ensures Distinct(picked) && |picked| <= n && (forall j :: j in picked ==> j in ids)
    ensures |picked| < n ==> forall j :: j in ids ==> j in picked
    decreases n
  {
    picked := [];
    if n > 0 && ids != {} {
      var j :| j in ids;
      var rest := Pick(ids - {j}, n - 1);
      picked := [j] + rest;
      assert forall k :: k in picked <==> k == j || k in rest;
    }
  }

  lemma PickBatch(db: Db, threshold: nat, now: nat, j: Id) returns (ids: seq<Id>)
    requires Stuck(db, threshold, now, j)
    ensures Batch(db, threshold, now, ids) && ids != [] && ids[0] == j
  {
    var stuck := set k | k in db.jobs && Stuck(db, threshold, now, k);
    var rest := Pick(stuck - {j}, BATCH - 1);
    ids := [j] + rest;
    assert forall k :: k in ids <==> k == j || k in rest;
  }

  // ---- back to life ----------------------------------------------------------------------

  /** Job `j` and its booking `b` are there. */
  predicate Has(st: State, j: Id, b: Id) {
    j in st.db.jobs && st.db.jobs[j].booking == b && b in st.db.bookings
  }

  lemma WriteStep(st: State, w: Id, j: Id, b: Id) returns (end: State)
    requires Has(st, j, b) && w in st.workers && Inside(st.workers[w], j)
    ensures Leads(st, [Processor(w, Write(None))], SweepChosen, end) && Has(end, j, b) && w in end.workers
    ensures var pc := st.workers[w].pc;
      && (pc.FailingBooking? || pc.Confirming? ==> Live(end.db, b))
      && (pc.FailingJob? ==> end.workers[w].pc == FailingBooking(j))
      && (pc.Starting? ==> end.workers[w].pc == Confirming(j))
      && (pc.Catching? ==> !Terminal(end.db.jobs[j]))
  {
    end := WriteNext(st, w, None);
    LeadsOne(st, Processor(w, Write(None)), SweepChosen);
  }

  /** From the first write of an attempt, or of giving up, the second one changes the booking. */
  lemma TwoWrites(st: State, w: Id, j: Id, b: Id) returns (actions: seq<Action>, end: State)
    requires Has(st, j, b) && w in st.workers
    requires st.workers[w].pc == FailingJob(j) || st.workers[w].pc == Starting(j)
    ensures Leads(st, actions, SweepChosen, end) && Live(end.db, b)
  {
    var mid := WriteStep(st, w, j, b);
    end := WriteStep(mid, w, j, b);
    actions := [Processor(w, Write(None))] + [Processor(w, Write(None))];
    LeadsThen(st, [Processor(w, Write(None))], mid, [Processor(w, Write(None))], end, SweepChosen);
  }

  /** The processor dies, and time goes on until the job is stuck. */
  lemma Abandoned(st: State, w: Id, j: Id) returns (actions: seq<Action>, end: State)
    requires j in st.db.jobs && w in st.workers && !Terminal(st.db.jobs[j])
    ensures Leads(st, actions, SweepChosen, end) && end.db == st.db && end.cfg == st.cfg
    ensures w in end.workers && end.workers[w] == Worker([], Idle) && Stuck(end.db, end.cfg.threshold, end.now, j)
  {
    var mid := WorkerNext(st, w, Die);
    LeadsOne(st, Processor(w, Die), SweepChosen);
    var n := st.db.jobs[j].createdAt + st.cfg.threshold + 1;
    TicksLead(mid, n, SweepChosen);
    end := Elapsed(mid, n);
    actions := [Processor(w, Die)] + Ticks(n);
    LeadsThen(st, [Processor(w, Die)], mid, Ticks(n), end, SweepChosen);
  }

  /** A sweep with the job first, the load and two writes. */
  lemma StuckRevives(st: State, w: Id, j: Id, b: Id) returns (actions: seq<Action>, end: State)
    requires Has(st, j, b) && w in st.workers && st.workers[w] == Worker([], Idle)
    requires Stuck(st.db, st.cfg.threshold, st.now, j)
    ensures Leads(st, actions, SweepChosen, end) && Live(end.db, b)
  {
    var ids := PickBatch(st.db, st.cfg.threshold, st.now, j);
    var s1 := WorkerNext(st, w, Sweep(ids));
    LeadsOne(st, Processor(w, Sweep(ids)), SweepChosen);
    var s2 := LoadNext(s1, w);
    LeadsStep(st, [Processor(w, Sweep(ids))], s1, Processor(w, Load), s2, SweepChosen);
    var more;
    more, end := TwoWrites(s2, w, j, b);
    actions := [Processor(w, Sweep(ids))] + [Processor(w, Load)];
    LeadsThen(st, actions, s2, more, end, SweepChosen);
    actions := actions + more;
  }

  lemma OpenRevives(st: State, w: Id, j: Id, b: Id) returns (actions: seq<Action>, end: State)
    requires Has(st, j, b) && w in st.workers && !Terminal(st.db.jobs[j])
    ensures Leads(st, actions, SweepChosen, end) && Live(end.db, b)
  {
    var mid, more;
    actions, mid := Abandoned(st, w, j);
    more, end := StuckRevives(mid, w, j, b);
    LeadsThen(st, actions, mid, more, end, SweepChosen);
    actions := actions + more;
  }

  /** A processor past the booking's write throws, and its catch block opens the job again. */
  lemma ThrownRevives(st: State, w: Id, j: Id, b: Id) returns (actions: seq<Action>, end: State)
    requires Has(st, j, b) && w in st.workers && Inside(st.workers[w], j) && Guarded(st.workers[w].pc)
    ensures Leads(st, actions, SweepChosen, end) && Live(end.db, b)
  {
    var mid := WorkerNext(st, w, Throw);
    LeadsOne(st, Processor(w, Throw), SweepChosen);
    var more;
    more, end := CaughtRevives(mid, w, j, b);
    actions := [Processor(w, Throw)] + more;
    LeadsThen(st, [Processor(w, Throw)], mid, more, end, SweepChosen);
  }

  lemma CaughtRevives(st: State, w: Id, j: Id, b: Id) returns (actions: seq<Action>, end: State)
    requires Has(st, j, b) && w in st.workers && st.workers[w].pc == Catching(j)
    ensures Leads(st, actions, SweepChosen, end) && Live(end.db, b)
  {
    var mid := WriteStep(st, w, j, b);
    var more;
    more, end := OpenRevives(mid, w, j, b);
    actions := [Processor(w, Write(None))] + more;
    LeadsThen(st, [Processor(w, Write(None))], mid, more, end, SweepChosen);
  }

  lemma InsideRevives(st: State, w: Id, j: Id, b: Id) returns (actions: seq<Action>, end: State)
    requires Has(st, j, b) && w in st.workers && Inside(st.workers[w], j)
    ensures Leads(st, actions, SweepChosen, end) && Live(end.db, b)
  {
    match st.workers[w].pc {
      case FailingJob(_) => actions, end := TwoWrites(st, w, j, b);
      case Starting(_) => actions, end := TwoWrites(st, w, j, b);
      case FailingBooking(_) => end := WriteStep(st, w, j, b); actions := [Processor(w, Write(None))];
      case Catching(_) => actions, end := CaughtRevives(st, w, j, b);
      case _ => actions, end := ThrownRevives(st, w, j, b);
    }
  }

  // ---- the exact condition ---------------------------------------------------------------

  lemma ClosedStays(st: State, j: Id, b: Id)
    requires Fit(st) && OneJobEach(st.db) && Closed(st, j) && st.db.jobs[j].booking == b
    ensures StaysCancelled(st, b)
  {
    forall actions: seq<Action> | Run(st, actions, SweepChosen)
      ensures !Live(Final(st, actions, SweepChosen).db, b)
    {
      CancelledStays(st, actions, j);
      RunWeaken(st, actions, SweepChosen, Any);
      JobForEver(st, actions);
    }
  }

  lemma StaysExactly(st: State, j: Id)
    requires Fit(st) && OneJobEach(st.db) && st.workers != map[]
    requires j in st.db.jobs && st.db.jobs[j].booking in st.db.bookings
    requires !Active(st.db.bookings[st.db.jobs[j].booking])
    ensures StaysCancelled(st, st.db.jobs[j].booking) <==>
      Terminal(st.db.jobs[j]) && forall w :: w in st.workers ==> !Inside(st.workers[w], j)
  {
    var b := st.db.jobs[j].booking;
    if !Terminal(st.db.jobs[j]) {
      var w :| w in st.workers;
      var actions, end := OpenRevives(st, w, j, b);
    } else if w :| w in st.workers && Inside(st.workers[w], j) {
      var actions, end := InsideRevives(st, w, j, b);
    } else {
      ClosedStays(st, j, b);
    }
  }

  /** Wherever the services may be, with at least one processor: a cancelled booking stays cancelled, however they
      go on, if and only if its job is DONE or FAILED and no processor is inside the job. */
  lemma CancelledForGood(start: State, before: seq<Action>, j: Id)
    requires Init(start) && Run(start, before, Any)
    requires var st := Final(start, before, Any);
      && st.workers != map[] && j in st.db.jobs && st.db.jobs[j].booking in st.db.bookings
      && st.db.bookings[st.db.jobs[j].booking].status == Cancelled
    ensures var st := Final(start, before, Any);
      StaysCancelled(st, st.db.jobs[j].booking) <==>
        Terminal(st.db.jobs[j]) && forall w :: w in st.workers ==> !Inside(st.workers[w], j)
  {
    RunFit(start, before);
    JobForEver(start, before);
    StaysExactly(Final(start, before, Any), j);
  }
}
