/** None of the hypotheses of `NoDoubleBooking` and of `NoDoubleBookingInTime` can be dropped, and neither half of the
    fence: for each there is a run from the empty stores that meets all the others and books one seat twice.  But for
    the fence, which the bounds of `Timing` are for, there is one whatever the TTL, the threshold and `d`. */
module Necessity {
  import opened Store
  import opened Protocol
  import opened Safety
  import opened Timing
  import opened Always
  import opened Calls
  import opened Solo
  import opened Stage

  // ---- a cancel before its job has ended -------------------------------------------------

  /** Booking 3 is cancelled, and its lock deleted, with its job still open. */
  lemma EarlyCancelled(d: nat, start: State, first: seq<Action>, st: State) returns (actions: seq<Action>, end: State)
    requires Reached(LateCancel, d, start, first, st) && Sold(st, st.cfg, 0, 0)
    ensures Reached(LateCancel, d, start, actions, end)
    ensures end == st.(now := st.cfg.threshold + 1, db := end.db, locks := end.locks, cancels := end.cancels,
                       used := end.used) && IdsBelow(end, 7)
    ensures ForSale(end)
    ensures end.db.bookings.Keys == {3} && end.db.bookings[3].seats == {SEAT} && end.db.jobs == st.db.jobs
  {
    var mid;
    actions, mid := Cancels(LateCancel, d, start, first, st, 5, 3);
    ThenWait(LateCancel, d, start, actions, mid, st.cfg.threshold + 1);
    actions, end := actions + Ticks(st.cfg.threshold + 1), Elapsed(mid, st.cfg.threshold + 1);
  }

  /** The sweep picks its job up; the seat is sold as booking 8; two writes later booking 3 is live again. */
  lemma SweptAfterCancel(d: nat, start: State, first: seq<Action>, st: State) returns (actions: seq<Action>)
    requires Reached(LateCancel, d, start, first, st) && 0 in st.workers && st.workers[0] == Worker([], Idle)
    requires st.db.jobs == map[4 := Job(3, JobPending, 0, 0)] && Stuck(st.db, st.cfg.threshold, st.now, 4)
    requires ForSale(st)
    requires st.db.bookings.Keys == {3} && st.db.bookings[3].seats == {SEAT}
    requires IdsBelow(st, 7)
    ensures Run(start, actions, But(LateCancel, d)) && DoubleBooked(Final(start, actions, But(LateCancel, d)).db, SEAT)
  {
    TakesUp(st, 0);
    var s1 := st.(workers := st.workers[0 := Worker([], Loaded(st.cfg, st.db, 4))]);
    Then(LateCancel, d, start, first, st, [Processor(0, Sweep([4]))] + [Processor(0, Load)], s1);
    actions := first + ([Processor(0, Sweep([4]))] + [Processor(0, Load)]);
    var s2, more, s3;
    actions, s2 := BooksAgain(LateCancel, d, start, actions, s1, 7);
    more, s3 := Revives(s2, 0);
    Then(LateCancel, d, start, actions, s2, more, s3);
    actions := actions + more;
    TwoOwners(s3.db, SEAT, 3, 8);
  }

  lemma EarlyCancelRun(d: nat, cfg: Config) returns (actions: seq<Action>)
    ensures Run(Blank(cfg, CREW), actions, But(LateCancel, d))
    ensures DoubleBooked(Final(Blank(cfg, CREW), actions, But(LateCancel, d)).db, SEAT)
  {
    var first, s0 := SellsOnce(LateCancel, d, cfg);
    var s1;
    first, s1 := EarlyCancelled(d, Blank(cfg, CREW), first, s0);
    actions := SweptAfterCancel(d, Blank(cfg, CREW), first, s1);
  }

  // ---- a cancel between the two FAILED writes --------------------------------------------

  /** Booking 3 of the one seat and its job 4, and nobody else about. */
  predicate OneBooking(st: State) {
    && st.cancels == map[] && NobodyReads(st) && IdsBelow(st, 5) && EventOpen(st.db, 1) && SEAT in st.db.seats
    && st.db.bookings.Keys == {3} && Active(st.db.bookings[3]) && st.db.bookings[3].seats == {SEAT}
    && st.db.jobs.Keys == {4} && st.db.jobs[4].booking == 3
  }

  /** Its attempts used up, the job is swept and loaded by processor 0. */
  lemma LoadsSpent(x: Dropped, d: nat, start: State, first: seq<Action>, st: State)
    returns (actions: seq<Action>, end: State)
    requires Reached(x, d, start, first, st) && OneBooking(st) && Stuck(st.db, st.cfg.threshold, st.now, 4)
    requires st.db.jobs[4].attempts >= st.cfg.maxAttempts && 0 in st.workers && st.workers[0] == Worker([], Idle)
    ensures Reached(x, d, start, actions, end) && OneBooking(end)
    ensures end == st.(workers := st.workers[0 := Worker([], FailingJob(4))])
  {
    TakesUp(st, 0);
    end := st.(workers := st.workers[0 := Worker([], FailingJob(4))]);
    Then(x, d, start, first, st, [Processor(0, Sweep([4]))] + [Processor(0, Load)], end);
    actions := first + ([Processor(0, Sweep([4]))] + [Processor(0, Load)]);
  }

  /** The processor marks job 4 FAILED and not yet booking 3. */
  lemma BetweenWrites(x: Dropped, d: nat, start: State, first: seq<Action>, st: State)
    returns (actions: seq<Action>, end: State)
    requires Reached(x, d, start, first, st) && OneBooking(st) && 0 in st.workers
    requires st.workers[0] == Worker([], FailingJob(4))
    ensures Reached(x, d, start, actions, end) && OneBooking(end) && OnlyJobFour(st, end, 0)
    ensures end.workers[0] == Worker([], FailingBooking(4))
    ensures end.db.jobs[4] == st.db.jobs[4].(status := JobFailed)
  {
    end := MarksJob(st, 0);
    Then(x, d, start, first, st, [Processor(0, Write(None))], end);
    actions := first + [Processor(0, Write(None))];
  }

  /** The booking's FAILED write brings it back, although it was cancelled, and the free seat is sold again. */
  lemma WriteRevives(d: nat, start: State, first: seq<Action>, st: State) returns (actions: seq<Action>)
    requires Reached(EmptyJob, d, start, first, st) && WriteEnabled(st, 0)
    requires st.workers[0] == Worker([], FailingBooking(4)) && st.db.jobs[4].booking == 3
    requires ForSale(st)
    requires st.db.bookings.Keys == {3} && st.db.bookings[3].seats == {SEAT}
    requires IdsBelow(st, 7)
    ensures Run(start, actions, But(EmptyJob, d)) && DoubleBooked(Final(start, actions, But(EmptyJob, d)).db, SEAT)
  {
    var s1 := MarksBooking(st, 0);
    Then(EmptyJob, d, start, first, st, [Processor(0, Write(None))], s1);
    var s2;
    actions, s2 := BooksAgain(EmptyJob, d, start, first + [Processor(0, Write(None))], s1, 7);
    TwoOwners(s2.db, SEAT, 3, 8);
  }

  /** A cancel that looks at the job row only slips in; the second write revives the cancelled booking. */
  lemma EmptyJobRun(d: nat, cfg: Config) returns (actions: seq<Action>)
    ensures Run(Blank(cfg, CREW), actions, But(EmptyJob, d))
    ensures DoubleBooked(Final(Blank(cfg, CREW), actions, But(EmptyJob, d)).db, SEAT)
  {
    var s0, s1;
    actions, s0 := UsesUp(EmptyJob, d, cfg);
    actions, s1 := LoadsSpent(EmptyJob, d, Blank(cfg, CREW), actions, s0);
    actions := EmptyJobFrom(d, Blank(cfg, CREW), actions, s1);
  }

  lemma EmptyJobFrom(d: nat, start: State, first: seq<Action>, st: State) returns (actions: seq<Action>)
    requires Reached(EmptyJob, d, start, first, st) && OneBooking(st) && 0 in st.workers
    requires st.workers[0] == Worker([], FailingJob(4))
    ensures Run(start, actions, But(EmptyJob, d)) && DoubleBooked(Final(start, actions, But(EmptyJob, d)).db, SEAT)
  {
    var s1, s2;
    actions, s1 := BetweenWrites(EmptyJob, d, start, first, st);
    actions, s2 := Cancels(EmptyJob, d, start, actions, s1, 5, 3);
    actions := WriteRevives(d, start, actions, s2);
  }

  // ---- a cancel in pieces ----------------------------------------------------------------

  /** Job 4 and booking 3 are marked FAILED, and the processor is done. */
  lemma FailsWhole(x: Dropped, d: nat, start: State, first: seq<Action>, st: State)
    returns (actions: seq<Action>, end: State)
    requires Reached(x, d, start, first, st) && OneBooking(st) && 0 in st.workers
    requires st.workers[0] == Worker([], FailingJob(4))
    ensures Reached(x, d, start, actions, end) && OneBooking(end) && OnlyJobFour(st, end, 0)
    ensures end.workers[0] == Worker([], Idle) && end.db.jobs[4] == st.db.jobs[4].(status := JobFailed)
  {
    var mid;
    actions, mid := BetweenWrites(x, d, start, first, st);
    end := MarksBooking(mid, 0);
    Then(x, d, start, actions, mid, [Processor(0, Write(None))], end);
    actions := actions + [Processor(0, Write(None))];
  }

  /** Two cancels read booking 3's status, and one goes through. */
  lemma OneCancelBehind(d: nat, start: State, first: seq<Action>, st: State) returns (actions: seq<Action>, end: State)
    requires Reached(WholeCancel, d, start, first, st) && NobodyReads(st) && st.cancels == map[]
    requires CheckEnabled(st, 5, 3) && CheckEnabled(st, 6, 3) && MayCancel(WholeCancel, st, 3)
    requires st.db.bookings[3].seats == {SEAT} && SEAT in st.db.seats
    ensures Reached(WholeCancel, d, start, actions, end)
    ensures 5 in end.cancels && end.cancels[5] == Cancel(3, false, Checked)
    ensures end == st.(db := end.db, locks := st.locks - {SEAT}, cancels := end.cancels, used := end.used)
    ensures IdsBelow(st, 5) ==> IdsBelow(end, 7)
    ensures end.db == st.db.(bookings := end.db.bookings, seats := end.db.seats)
    ensures end.db.bookings == st.db.bookings[3 := st.db.bookings[3].(status := Cancelled)]
    ensures SEAT in end.db.seats && end.db.seats[SEAT] == Available
  {
    ThenCheck(WholeCancel, d, start, first, st, 5, 3);
    var mid := AfterCancel(st, 5, 3, Checked);
    actions, end := Cancels(WholeCancel, d, start, first + [CheckCancel(5, 3, false)], mid, 6, 3);
  }

  /** The other cancel goes through, and frees the seat under booking 8. */
  lemma OtherCancel(d: nat, start: State, first: seq<Action>, st: State) returns (actions: seq<Action>, end: State)
    requires Reached(WholeCancel, d, start, first, st) && NobodyReads(st) && Owns(st.db, 8, SEAT)
    requires 5 in st.cancels && st.cancels[5] == Cancel(3, false, Checked)
    requires 3 in st.db.bookings && st.db.bookings[3].seats == {SEAT} && MayCancel(WholeCancel, st, 3)
    ensures Reached(WholeCancel, d, start, actions, end)
    ensures end == st.(db := CancelRows(st.db, 3), locks := st.locks - {SEAT}, cancels := end.cancels)
    ensures Owns(end.db, 8, SEAT) && end.cancels.Keys == st.cancels.Keys
  {
    ThenWrite(WholeCancel, d, start, first, st, 5, 3);
    var mid := CancelNext(st, 5, WriteCancel);
    ThenRelease(WholeCancel, d, start, first + [Canceller(5, WriteCancel)], mid, 5, 3);
    actions := first + [Canceller(5, WriteCancel)] + [Canceller(5, ReleaseAfterCancel)];
    end := CancelNext(mid, 5, ReleaseAfterCancel);
  }

  /** The seat is sold as booking 8 and freed again. */
  lemma SoldAndFreed(d: nat, start: State, first: seq<Action>, st: State) returns (actions: seq<Action>, end: State)
    requires Reached(WholeCancel, d, start, first, st) && NobodyReads(st) && ForSale(st) && IdsBelow(st, 7)
    requires 5 in st.cancels && st.cancels[5] == Cancel(3, false, Checked)
    requires 3 in st.db.bookings && st.db.bookings[3].seats == {SEAT} && MayCancel(WholeCancel, st, 3)
    ensures Reached(WholeCancel, d, start, actions, end)
    ensures IdsBelow(end, 10)
    ensures ForSale(end) && Owns(end.db, 8, SEAT)
  {
    var second, mid := BooksAgain(WholeCancel, d, start, first, st, 7);
    assert MayCancel(WholeCancel, mid, 3);
    actions, end := OtherCancel(d, start, second, mid);
  }

  lemma FreedAndSold(d: nat, start: State, first: seq<Action>, st: State) returns (actions: seq<Action>)
    requires Reached(WholeCancel, d, start, first, st) && ForSale(st) && Owns(st.db, 8, SEAT) && IdsBelow(st, 10)
    ensures Run(start, actions, But(WholeCancel, d))
    ensures DoubleBooked(Final(start, actions, But(WholeCancel, d)).db, SEAT)
  {
    var end;
    actions, end := BooksAgain(WholeCancel, d, start, first, st, 10);
    TwoOwners(end.db, SEAT, 8, 11);
  }

  lemma WholeCancelFrom(d: nat, start: State, first: seq<Action>, st: State) returns (actions: seq<Action>)
    requires Reached(WholeCancel, d, start, first, st) && OneBooking(st) && st.workers.Keys == {0, 1}
    requires st.workers[0] == Worker([], FailingJob(4)) && st.workers[1] == Worker([], Idle)
    ensures Run(start, actions, But(WholeCancel, d))
    ensures DoubleBooked(Final(start, actions, But(WholeCancel, d)).db, SEAT)
  {
    var s0, s1, s2;
    actions, s0 := FailsWhole(WholeCancel, d, start, first, st);
    actions, s1 := OneCancelBehind(d, start, actions, s0);
    assert MayCancel(WholeCancel, s1, 3);
    actions, s2 := SoldAndFreed(d, start, actions, s1);
    actions := FreedAndSold(d, start, actions, s2);
  }

  lemma WholeCancelRun(d: nat, cfg: Config) returns (actions: seq<Action>)
    ensures Run(Blank(cfg, CREW), actions, But(WholeCancel, d))
    ensures DoubleBooked(Final(Blank(cfg, CREW), actions, But(WholeCancel, d)).db, SEAT)
  {
    var start := Blank(cfg, CREW);
    var s0, s1;
    actions, s0 := UsesUp(WholeCancel, d, cfg);
    actions, s1 := LoadsSpent(WholeCancel, d, start, actions, s0);
    actions := WholeCancelFrom(d, start, actions, s1);
  }

  // ---- a job that two sweeps have picked -------------------------------------------------

  /** Two processors sweep the job, and the first ends it and its booking. */
  lemma SweptTwice(d: nat, start: State, first: seq<Action>, st: State) returns (actions: seq<Action>, end: State)
    requires Reached(SweptJob, d, start, first, st) && OneBooking(st) && Stuck(st.db, st.cfg.threshold, st.now, 4)
    requires st.db.jobs[4].attempts >= st.cfg.maxAttempts && st.workers == CREW
    ensures Reached(SweptJob, d, start, actions, end) && OneBooking(end) && MayCancel(SweptJob, end, 3)
    ensures 1 in end.workers && end.workers[1] == Worker([4], Idle) && Loaded(end.cfg, end.db, 4) == FailingJob(4)
  {
    Sweeps(st, 1);
    var s1 := st.(workers := st.workers[1 := Worker([4], Idle)]);
    Then(SweptJob, d, start, first, st, [Processor(1, Sweep([4]))], s1);
    var s2;
    actions, s2 := LoadsSpent(SweptJob, d, start, first + [Processor(1, Sweep([4]))], s1);
    actions, end := FailsWhole(SweptJob, d, start, actions, s2);
    assert end.workers[1] == s1.workers[1];
  }

  /** The second processor loads the job that has ended meanwhile. */
  lemma LoadsEnded(d: nat, start: State, first: seq<Action>, st: State) returns (end: State)
    requires Reached(SweptJob, d, start, first, st) && 1 in st.workers && st.workers[1] == Worker([4], Idle)
    requires Loaded(st.cfg, st.db, 4) == FailingJob(4)
    ensures Reached(SweptJob, d, start, first + [Processor(1, Load)], end)
    ensures end == st.(workers := st.workers[1 := Worker([], FailingJob(4))])
  {
    assert [4][1..] == [];
    end := LoadNext(st, 1);
    ThenDo(SweptJob, d, start, first, st, Processor(1, Load), end);
  }

  /** The booking is cancelled, the second processor loads the job, its two writes revive the booking, and the seat is
      sold again. */
  lemma SweptJobFrom(d: nat, start: State, first: seq<Action>, st: State) returns (actions: seq<Action>)
    requires Reached(SweptJob, d, start, first, st) && OneBooking(st) && MayCancel(SweptJob, st, 3)
    requires 1 in st.workers && st.workers[1] == Worker([4], Idle) && Loaded(st.cfg, st.db, 4) == FailingJob(4)
    ensures Run(start, actions, But(SweptJob, d)) && DoubleBooked(Final(start, actions, But(SweptJob, d)).db, SEAT)
  {
    var s1;
    actions, s1 := Cancels(SweptJob, d, start, first, st, 5, 3);
    var s2 := LoadsEnded(d, start, actions, s1);
    actions := actions + [Processor(1, Load)];
    var more, s3 := Revives(s2, 1);
    Then(SweptJob, d, start, actions, s2, more, s3);
    actions := RevivedIsSold(d, start, actions + more, s3);
  }

  lemma RevivedIsSold(d: nat, start: State, first: seq<Action>, st: State) returns (actions: seq<Action>)
    requires Reached(SweptJob, d, start, first, st) && ForSale(st) && IdsBelow(st, 7)
    requires 3 in st.db.bookings && Active(st.db.bookings[3]) && SEAT in st.db.bookings[3].seats
    ensures Run(start, actions, But(SweptJob, d)) && DoubleBooked(Final(start, actions, But(SweptJob, d)).db, SEAT)
  {
    var end;
    actions, end := BooksAgain(SweptJob, d, start, first, st, 7);
    TwoOwners(end.db, SEAT, 3, 8);
  }

  lemma SweptJobRun(d: nat, cfg: Config) returns (actions: seq<Action>)
    ensures Run(Blank(cfg, CREW), actions, But(SweptJob, d))
    ensures DoubleBooked(Final(Blank(cfg, CREW), actions, But(SweptJob, d)).db, SEAT)
  {
    var s0, s1;
    actions, s0 := UsesUp(SweptJob, d, cfg);
    actions, s1 := SweptTwice(d, Blank(cfg, CREW), actions, s0);
    actions := SweptJobFrom(d, Blank(cfg, CREW), actions, s1);
  }

  // ---- a push that fails -----------------------------------------------------------------

  /** Request 5 reads the seat AVAILABLE; request 2 books it, its push fails and the catch block deletes its lock. */
  lemma PushFails(d: nat, start: State, first: seq<Action>, st: State) returns (actions: seq<Action>, end: State)
    requires Reached(GoodPush, d, start, first, st) && st.cancels == map[] && st.now == 0 && SEAT in st.locks
    requires st.requests == map[5 := Asked(1, CODES, 0, Locking(0)), 2 := Asked(1, CODES, 0, Written(3))]
    requires st.locks[SEAT].holder == 2
    ensures Reached(GoodPush, d, start, actions, end)
    ensures end == st.(locks := st.locks - {SEAT}, requests := st.requests[2 := Asked(1, CODES, 0, Rejected)])
  {
    CodesFacts();
    var s1 := RequestNext(st, 2, FailPush);
    ThenDo(GoodPush, d, start, first, st, Booker(2, FailPush), s1);
    end := RequestNext(s1, 2, Release);
    ThenDo(GoodPush, d, start, first + [Booker(2, FailPush)], s1, Booker(2, Release), end);
    actions := first + [Booker(2, FailPush)] + [Booker(2, Release)];
  }

  lemma RacedLock(cfg: Config)
    ensures Raced(cfg).locks == map[SEAT := Lock(2, cfg.ttl)]
  {
    CodesFacts();
  }

  lemma GoodPushRun(d: nat, cfg: Config) returns (actions: seq<Action>)
    ensures Run(Blank(cfg, CREW), actions, But(GoodPush, d))
    ensures DoubleBooked(Final(Blank(cfg, CREW), actions, But(GoodPush, d)).db, SEAT)
  {
    var first := Races(GoodPush, d, cfg);
    RacedFacts(cfg);
    RacedRows(cfg);
    RacedLock(cfg);
    var s0 := Raced(cfg);
    var s1;
    first, s1 := PushFails(d, Blank(cfg, CREW), first, s0);
    assert Owns(s1.db, 3, SEAT);
    actions := SellsAgain(GoodPush, d, Blank(cfg, CREW), first, s1, 0);
  }

  // ---- a message that names a job --------------------------------------------------------

  /** A message brings job 4 to a processor at once, and it starts, confirms and notifies. */
  lemma MessageTaken(d: nat, start: State, first: seq<Action>, st: State) returns (actions: seq<Action>, end: State)
    requires Reached(OwnMessages, d, start, first, st) && st.cancels == map[] && st.workers == CREW && st.queue == []
    requires st.db.jobs == map[4 := Job(3, JobPending, 0, 0)] && 3 in st.db.bookings && st.cfg.maxAttempts >= 1
    ensures Reached(OwnMessages, d, start, actions, end)
    ensures end == st.(workers := st.workers[0 := Worker([], Starting(4))])
  {
    var x := OwnMessages;
    var s1 := st.(queue := [4]);
    assert [4] + st.queue == [4];
    ThenDo(x, d, start, first, st, World(Inject(4)), s1);
    var s2 := st.(workers := st.workers[0 := Worker([4], Idle)]);
    assert s1.queue[..0] == [];
    ThenDo(x, d, start, first + [World(Inject(4))], s1, Processor(0, Deliver), s2);
    assert [4][1..] == [];
    end := st.(workers := st.workers[0 := Worker([], Starting(4))]);
    assert s2.workers[0 := Worker([], Starting(4))] == end.workers;
    ThenDo(x, d, start, first + [World(Inject(4))] + [Processor(0, Deliver)], s2, Processor(0, Load), end);
    actions := first + [World(Inject(4))] + [Processor(0, Deliver)] + [Processor(0, Load)];
  }

  /** The lock of a booking whose request has committed and not yet pushed. */
  lemma Unlocked(d: nat, start: State, first: seq<Action>, st: State) returns (actions: seq<Action>, end: State)
    requires Reached(OwnMessages, d, start, first, st) && WriteEnabled(st, 0)
    requires st.workers[0] == Worker([], Unlocking(4))
    requires st.db.jobs[4].booking == 3 && st.db.bookings[3].seats == {SEAT} && st.cancels == map[]
    requires SEAT in st.locks && st.locks[SEAT].holder in st.requests
    requires st.requests[st.locks[SEAT].holder].phase.Written?
    ensures Reached(OwnMessages, d, start, actions, end)
    ensures end == st.(workers := end.workers, locks := st.locks - {SEAT})
  {
    end := WriteNext(st, 0, None);
    ThenDo(OwnMessages, d, start, first, st, Processor(0, Write(None)), end);
    actions := first + [Processor(0, Write(None))];
  }

  lemma MessageSells(d: nat, start: State, first: seq<Action>, st: State) returns (actions: seq<Action>)
    requires Reached(OwnMessages, d, start, first, st) && st.cancels == map[] && st.workers == CREW && st.queue == []
    requires st.db.jobs == map[4 := Job(3, JobPending, 0, 0)] && st.cfg.maxAttempts >= 1
    requires st.db.bookings == map[3 := Booking(1, {SEAT}, Pending, None, 2)]
    requires st.requests == map[5 := Asked(1, CODES, 0, Locking(0)), 2 := Asked(1, CODES, 0, Written(3))]
    requires SEAT in st.locks && st.locks[SEAT].holder == 2 && st.used == {1, 2, 3, 4, 5}
    requires 1 in st.db.events && SEAT in st.db.seats
    ensures Run(start, actions, But(OwnMessages, d))
    ensures DoubleBooked(Final(start, actions, But(OwnMessages, d)).db, SEAT)
  {
    var s1, s2, s3;
    actions, s1 := MessageTaken(d, start, first, st);
    actions, s2 := UpToTheLock(OwnMessages, d, start, actions, s1);
    actions, s3 := Unlocked(d, start, actions, s2);
    actions := SellsAgain(OwnMessages, d, start, actions, s3, 0);
  }

  lemma OwnMessagesRun(d: nat, cfg: Config) returns (actions: seq<Action>)
    requires cfg.maxAttempts >= 1
    ensures Run(Blank(cfg, CREW), actions, But(OwnMessages, d))
    ensures DoubleBooked(Final(Blank(cfg, CREW), actions, But(OwnMessages, d)).db, SEAT)
  {
    var first := Races(OwnMessages, d, cfg);
    RacedFacts(cfg);
    RacedRows(cfg);
    RacedLock(cfg);
    actions := MessageSells(d, Blank(cfg, CREW), first, Raced(cfg));
  }

  // ---- a lock that expires under its own request -----------------------------------------

  lemma ThenLock(x: Dropped, d: nat, start: State, first: seq<Action>, st: State, ids: Ids)
    returns (actions: seq<Action>)
    requires Reached(x, d, start, first, st) && Bookable1(st, ids)
    ensures Reached(x, d, start, actions, Locked1(st, ids.token))
  {
    var more := LockTheSeat(st, ids);
    ThenGrow(x, d, start, first, st, ids.token, more, Locked1(st, ids.token));
    actions := first + more;
  }

  /** Request 2's lock has expired and request 5 has it now; both are about to commit. */
  lemma Overtakes(d: nat, start: State, first: seq<Action>, st: State) returns (actions: seq<Action>, end: State)
    requires Reached(HolderHalf, d, start, first, st) && ForSale(st) && IdsBelow(st, 2) && st.db.bookings == map[]
    requires d >= st.cfg.ttl && d >= 1 && st.now == 0 && st.requests == map[] && st.used == {1}
    ensures Reached(HolderHalf, d, start, actions, end)
    ensures 2 in end.requests && end.requests[2] == Asked(1, CODES, 0, Locking(1))
    ensures 5 in end.requests && end.requests[5] == Asked(1, CODES, d, Locking(1))
    ensures end.used == {1, 2, 5} && 1 in end.db.events && SEAT in end.db.seats
  {
    actions := ThenLock(HolderHalf, d, start, first, st, Ids(2, 3, 4));
    ThenWait(HolderHalf, d, start, actions, Locked1(st, 2), d);
    var mid := Elapsed(Locked1(st, 2), d);
    actions := ThenLock(HolderHalf, d, start, actions + Ticks(d), mid, Ids(5, 6, 7));
    end := Locked1(mid, 5);
  }

  /** Neither commit looks at the lock. */
  lemma HolderHalfRun(d: nat, cfg: Config) returns (actions: seq<Action>)
    requires d >= cfg.ttl && d >= 1
    ensures Run(Blank(cfg, CREW), actions, But(HolderHalf, d))
    ensures DoubleBooked(Final(Blank(cfg, CREW), actions, But(HolderHalf, d)).db, SEAT)
  {
    actions := Opens(HolderHalf, d, cfg, CREW);
    var mid;
    actions, mid := Overtakes(d, Blank(cfg, CREW), actions, OnSale(cfg, CREW));
    actions := BothCommit(d, Blank(cfg, CREW), actions, mid);
  }

  lemma BothCommit(d: nat, start: State, first: seq<Action>, st: State) returns (actions: seq<Action>)
    requires Reached(HolderHalf, d, start, first, st)
    requires 2 in st.requests && st.requests[2] == Asked(1, CODES, 0, Locking(1))
    requires 5 in st.requests && st.requests[5] == Asked(1, CODES, d, Locking(1))
    requires st.used == {1, 2, 5} && 1 in st.db.events && SEAT in st.db.seats
    ensures Run(start, actions, But(HolderHalf, d)) && DoubleBooked(Final(start, actions, But(HolderHalf, d)).db, SEAT)
  {
    var s1, s2;
    actions, s1 := CommitsSeat(HolderHalf, d, start, first, st, 2, 0, 3, 4);
    actions, s2 := CommitsSeat(HolderHalf, d, start, actions, s1, 5, d, 6, 7);
    TwoOwners(s2.db, SEAT, 3, 6);
  }

  // ---- theorems --------------------------------------------------------------------------

  /** Whatever the TTL, the threshold, the attempts and the time that requests take, no hypothesis but the fence can be
      done without.  A stray message needs a worker that makes attempts, and a lock that expires under its own request
      needs the time to. */
  lemma NoneDispensable(x: Dropped, d: nat, cfg: Config) returns (st: State, actions: seq<Action>)
    requires !x.TheFence? && (x.OwnMessages? ==> cfg.maxAttempts >= 1) && (x.HolderHalf? ==> d >= cfg.ttl && d >= 1)
    ensures SellsTwice(cfg, st, actions, But(x, d))
  {
    st := Blank(cfg, CREW);
    match x
    case LateCancel => actions := EarlyCancelRun(d, cfg);
    case EmptyJob => actions := EmptyJobRun(d, cfg);
    case WholeCancel => actions := WholeCancelRun(d, cfg);
    case SweptJob => actions := SweptJobRun(d, cfg);
    case GoodPush => actions := GoodPushRun(d, cfg);
    case OwnMessages => actions := OwnMessagesRun(d, cfg);
    case HolderHalf => actions := HolderHalfRun(d, cfg);
  }

  // ---- the four hypotheses of `NoDoubleBooking`, one by one ------------------------------

  ghost predicate AllButOwnerFence(st: State, a: Action, after: State) {
    HolderFence(st, a, after) && CancelAfterJob(st, a, after) && FreshCancel(st, a, after) && SweepChosen(st, a, after)
  }

  ghost predicate AllButHolderFence(st: State, a: Action, after: State) {
    OwnerFence(st, a, after) && CancelAfterJob(st, a, after) && FreshCancel(st, a, after) && SweepChosen(st, a, after)
  }

  ghost predicate AllButJob(st: State, a: Action, after: State) {
    Fence(st, a, after) && FreshCancel(st, a, after) && SweepChosen(st, a, after)
  }

  ghost predicate AllWithRowOnly(st: State, a: Action, after: State) {
    AllButJob(st, a, after) && CancelAfterRow(st, a, after)
  }

  ghost predicate AllButFresh(st: State, a: Action, after: State) {
    Fence(st, a, after) && CancelAfterJob(st, a, after) && SweepChosen(st, a, after)
  }

  ghost predicate AllButSweep(st: State, a: Action, after: State) {
    Fence(st, a, after) && CancelAfterJob(st, a, after) && FreshCancel(st, a, after)
  }

  lemma BothHalves(x: Dropped, d: nat, st: State, a: Action, after: State)
    requires AllBut(x, d, st, a, after) && !x.TheFence? && !x.HolderHalf? && !x.GoodPush? && !x.OwnMessages?
    ensures Fence(st, a, after)
  {
    FenceIsBoth(st, a, after);
  }

  /** The half of the fence about bookings: a push fails under an older reader. */
  lemma OwnerFenceNeeded(cfg: Config) returns (st: State, actions: seq<Action>)
    ensures SellsTwice(cfg, st, actions, AllButOwnerFence)
  {
    st, actions := NoneDispensable(GoodPush, 0, cfg);
    RunWeaken(st, actions, But(GoodPush, 0), AllButOwnerFence);
  }

  /** The half about holders: a lock expires under the request that took it. */
  lemma HolderFenceNeeded(cfg: Config) returns (st: State, actions: seq<Action>)
    ensures SellsTwice(cfg, st, actions, AllButHolderFence)
  {
    st, actions := NoneDispensable(HolderHalf, cfg.ttl + 1, cfg);
    RunWeaken(st, actions, But(HolderHalf, cfg.ttl + 1), AllButHolderFence);
  }

  /** `CancelAfterJob`, its half about the job: a cancel before the job has ended. */
  lemma EndedJobNeeded(cfg: Config) returns (st: State, actions: seq<Action>)
    ensures SellsTwice(cfg, st, actions, AllButJob)
  {
    st, actions := NoneDispensable(LateCancel, 0, cfg);
    forall s, a, t | But(LateCancel, 0)(s, a, t) ensures AllButJob(s, a, t) { BothHalves(LateCancel, 0, s, a, t); }
    RunWeaken(st, actions, But(LateCancel, 0), AllButJob);
  }

  /** `CancelAfterJob`, its half about processors: a cancel between the job's FAILED write and the booking's. */
  lemma NobodyInsideNeeded(cfg: Config) returns (st: State, actions: seq<Action>)
    ensures SellsTwice(cfg, st, actions, AllWithRowOnly)
  {
    st, actions := NoneDispensable(EmptyJob, 0, cfg);
    forall s, a, t | But(EmptyJob, 0)(s, a, t) ensures AllWithRowOnly(s, a, t) { BothHalves(EmptyJob, 0, s, a, t); }
    RunWeaken(st, actions, But(EmptyJob, 0), AllWithRowOnly);
  }

  /** `FreshCancel`: the second of two cancels frees the seat when it has been sold again. */
  lemma FreshCancelNeeded(cfg: Config) returns (st: State, actions: seq<Action>)
    ensures SellsTwice(cfg, st, actions, AllButFresh)
  {
    st, actions := NoneDispensable(WholeCancel, 0, cfg);
    forall s, a, t | But(WholeCancel, 0)(s, a, t) ensures AllButFresh(s, a, t) { BothHalves(WholeCancel, 0, s, a, t); }
    RunWeaken(st, actions, But(WholeCancel, 0), AllButFresh);
  }

  /** `SweepChosen`: of two processors that swept a job, the second loads it after the first has ended it and its
      booking was cancelled. */
  lemma SweepChosenNeeded(cfg: Config) returns (st: State, actions: seq<Action>)
    ensures SellsTwice(cfg, st, actions, AllButSweep)
  {
    st, actions := NoneDispensable(SweptJob, 0, cfg);
    forall s, a, t | But(SweptJob, 0)(s, a, t) ensures AllButSweep(s, a, t) { BothHalves(SweptJob, 0, s, a, t); }
    RunWeaken(st, actions, But(SweptJob, 0), AllButSweep);
  }
}
