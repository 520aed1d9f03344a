/** What the statements about processors are worth.  The bound of `Workers.AttemptsAndNotices` is reached: for every
    number of attempts allowed and of processors some run attempts one job `max + W - 1` times.  And neither
    hypothesis of `JobStatuses.JobAndBookingAgree` can be dropped. */
module Tightness {
  import opened Store
  import opened Protocol
  import opened Always
  import opened JobStatuses
  import opened Calls
  import opened Solo
  import opened Stage
  import opened Drain
  import opened Sweeping
  import opened SharedSweeping

  function Below(n: nat): (s: set<nat>)
    ensures forall w: nat :: w in s <==> w < n
  {
    if n == 0 then {} else Below(n - 1) + {n - 1}
  }

  /** `n` processors, the first `k` of them at one place and the others at another. */
  function Crew(n: nat, k: nat, here: Pc, rest: Pc): map<Id, Worker> {
    map w | w in Below(n) :: Worker([], if w < k then here else rest)
  }

  lemma {:induction false} CrewSize(n: nat, k: nat, here: Pc, rest: Pc)
    ensures |Crew(n, k, here, rest)| == n
  {
    if n > 0 {
      CrewSize(n - 1, k, here, rest);
      var last := Worker([], if n - 1 < k then here else rest);
      assert Crew(n, k, here, rest) == Crew(n - 1, k, here, rest)[n - 1 := last];
    }
  }

  /** Everybody at the first place is nobody at another. */
  lemma CrewMoved(n: nat, here: Pc, other: Pc, rest: Pc)
    ensures Crew(n, n, here, rest) == Crew(n, 0, other, here)
    ensures Crew(n, 0, here, rest) == Crew(n, 0, other, rest)
  {
  }

  lemma CrewNext(n: nat, k: nat, here: Pc, rest: Pc)
    requires k < n
    ensures k in Crew(n, k, here, rest) && Crew(n, k, here, rest)[k] == Worker([], rest)
    ensures Crew(n, k, here, rest)[k := Worker([], here)] == Crew(n, k + 1, here, rest)
  {
  }

  function Patient(max: nat): Config {
    Config(10, 0, max)
  }

  // ---- and all at once -------------------------------------------------------------------

  lemma ThenLoads(start: State, first: seq<Action>, st: State, crew: map<Id, Worker>, w: Id, a: nat)
    returns (actions: seq<Action>)
    requires Leads(start, first, Harmless, Worked(st, crew, a, JobPending))
    requires Waits(st) && a < st.cfg.maxAttempts && w in crew && crew[w] == Worker([], Idle)
    ensures Leads(start, actions, Harmless, Worked(st, crew[w := Worker([], Starting(4))], a, JobPending))
  {
    LoadsJob(st, crew, w, a);
    var more := [Processor(w, Sweep([4]))] + [Processor(w, Load)];
    LeadsThen(start, first, Worked(st, crew, a, JobPending), more,
      Worked(st, crew[w := Worker([], Starting(4))], a, JobPending), Harmless);
    actions := first + more;
  }

  /** The first `k` processors have loaded the job. */
  function LoadedBy(st: State, n: nat, k: nat, a: nat): State {
    Worked(st, Crew(n, k, Starting(4), Idle), a, JobPending)
  }

  lemma {:induction false} AllLoad(st: State, n: nat, k: nat, a: nat) returns (actions: seq<Action>)
    requires Waits(st) && a < st.cfg.maxAttempts && k <= n
    ensures Leads(LoadedBy(st, n, 0, a), actions, Harmless, LoadedBy(st, n, k, a))
  {
    actions := [];
    if k > 0 {
      actions := AllLoad(st, n, k - 1, a);
      actions := OneLoads(LoadedBy(st, n, 0, a), actions, st, n, k - 1, a);
    }
  }

  lemma OneLoads(start: State, first: seq<Action>, st: State, n: nat, k: nat, a: nat) returns (actions: seq<Action>)
    requires Waits(st) && a < st.cfg.maxAttempts && k < n && Leads(start, first, Harmless, LoadedBy(st, n, k, a))
    ensures Leads(start, actions, Harmless, LoadedBy(st, n, k + 1, a))
  {
    CrewNext(n, k, Starting(4), Idle);
    actions := ThenLoads(start, first, st, Crew(n, k, Starting(4), Idle), k, a);
  }

  lemma ThenStarts(start: State, first: seq<Action>, st: State, crew: map<Id, Worker>, w: Id, a: nat, s: JobStatus)
    requires Leads(start, first, Harmless, Worked(st, crew, a, s))
    requires Waits(st) && w in crew && crew[w] == Worker([], Starting(4))
    ensures Leads(start, first + [Processor(w, Write(None))], Harmless,
      Worked(st, crew[w := Worker([], Confirming(4))], a + 1, JobProcessing))
  {
    StartsJob(st, crew, w, a, s);
    LeadsThen(start, first, Worked(st, crew, a, s), [Processor(w, Write(None))],
      Worked(st, crew[w := Worker([], Confirming(4))], a + 1, JobProcessing), Harmless);
  }

  /** The first `k` of the loaded processors have counted their attempts. */
  function Started(st: State, n: nat, k: nat, a: nat): State {
    Worked(st, Crew(n, k, Confirming(4), Starting(4)), a + k, if k == 0 then JobPending else JobProcessing)
  }

  lemma {:induction false} AllStart(st: State, n: nat, k: nat, a: nat) returns (actions: seq<Action>)
    requires Waits(st) && k <= n
    ensures Leads(Started(st, n, 0, a), actions, Harmless, Started(st, n, k, a))
  {
    actions := [];
    if k > 0 {
      actions := AllStart(st, n, k - 1, a);
      OneStarts(Started(st, n, 0, a), actions, st, n, k - 1, a);
      actions := actions + [Processor(k - 1, Write(None))];
    }
  }

  lemma OneStarts(start: State, first: seq<Action>, st: State, n: nat, k: nat, a: nat)
    requires Waits(st) && k < n && Leads(start, first, Harmless, Started(st, n, k, a))
    ensures Leads(start, first + [Processor(k, Write(None))], Harmless, Started(st, n, k + 1, a))
  {
    CrewNext(n, k, Confirming(4), Starting(4));
    ThenStarts(start, first, st, Crew(n, k, Confirming(4), Starting(4)), k, a + k,
      if k == 0 then JobPending else JobProcessing);
    assert a + k + 1 == a + (k + 1);
  }

  lemma AllLoaded(st: State, n: nat) returns (actions: seq<Action>)
    requires Waits(st) && n >= 1 && st.cfg.maxAttempts >= 1
    ensures Leads(Worked(st, Crew(n, 0, Idle, Idle), 0, JobPending), actions, Harmless,
      Worked(st, Crew(n, n, Starting(4), Idle), st.cfg.maxAttempts - 1, JobPending))
  {
    var a := st.cfg.maxAttempts - 1;
    var idle := Crew(n, 0, Idle, Idle);
    actions := FailsOften(st, idle, a);
    CrewMoved(n, Idle, Starting(4), Idle);
    var more := AllLoad(st, n, n, a);
    LeadsThen(Worked(st, idle, 0, JobPending), actions, Worked(st, idle, a, JobPending), more,
      Worked(st, Crew(n, n, Starting(4), Idle), a, JobPending), Harmless);
    actions := actions + more;
  }

  /** All of them load the job at its last attempt, and then each counts its own. */
  lemma AllAtOnce(st: State, n: nat) returns (actions: seq<Action>, end: State)
    requires Waits(st) && n >= 1 && st.cfg.maxAttempts >= 1
    ensures Leads(Worked(st, Crew(n, 0, Idle, Idle), 0, JobPending), actions, Harmless, end)
    ensures 4 in end.db.jobs && end.db.jobs[4].attempts == st.cfg.maxAttempts + n - 1
  {
    var a := st.cfg.maxAttempts - 1;
    var loaded := Crew(n, n, Starting(4), Idle);
    actions := AllLoaded(st, n);
    CrewMoved(n, Starting(4), Confirming(4), Idle);
    var more := AllStart(st, n, n, a);
    end := Started(st, n, n, a);
    LeadsThen(Worked(st, Crew(n, 0, Idle, Idle), 0, JobPending), actions, Worked(st, loaded, a, JobPending), more,
      end, Harmless);
    actions := actions + more;
  }

  // ---- from the empty stores -------------------------------------------------------------

  lemma BookedIsWorked(max: nat, n: nat)
    ensures var st := Elapsed(Booked1(OnSale(Patient(max), Crew(n, 0, Idle, Idle)), Ids(2, 3, 4)), 1);
      Waits(st) && st == Worked(st, Crew(n, 0, Idle, Idle), 0, JobPending)
  {
    CodesFacts();
  }

  lemma BookedOnce(max: nat, n: nat, h: Hypothesis) returns (actions: seq<Action>)
    requires forall s, a: Action, t :: !a.Processor? ==> h(s, a, t)
    ensures Leads(Blank(Patient(max), Crew(n, 0, Idle, Idle)), actions, h,
      Elapsed(Booked1(OnSale(Patient(max), Crew(n, 0, Idle, Idle)), Ids(2, 3, 4)), 1))
  {
    var cfg, crew := Patient(max), Crew(n, 0, Idle, Idle);
    actions := OpenAnEvent(cfg, crew, h);
    actions := ThenBooks(Blank(cfg, crew), actions, OnSale(cfg, crew), h);
  }

  lemma ThenBooks(start: State, first: seq<Action>, st: State, h: Hypothesis) returns (actions: seq<Action>)
    requires forall s, a: Action, t :: !a.Processor? ==> h(s, a, t)
    requires Leads(start, first, h, st) && Bookable1(st, Ids(2, 3, 4))
    ensures Leads(start, actions, h, Elapsed(Booked1(st, Ids(2, 3, 4)), 1))
  {
    var more := BooksAlone(st, Ids(2, 3, 4));
    var end := Booked1(st, Ids(2, 3, 4));
    RunWeaken(st, more, Growing(2), h);
    LeadsThen(start, first, st, more, end, h);
    LeadsStep(start, first + more, end, World(Tick), Elapsed(end, 1), h);
    actions := first + more + [World(Tick)];
  }

  /** For every `max` and `W` of at least one, some run attempts a job `max + W - 1` times. */
  lemma AttemptsReached(max: nat, n: nat) returns (st: State, actions: seq<Action>)
    requires max >= 1 && n >= 1
    ensures Init(st) && st.cfg.maxAttempts == max && |st.workers| == n && Run(st, actions, Any)
    ensures var end := Final(st, actions, Any); 4 in end.db.jobs && end.db.jobs[4].attempts == max + n - 1
  {
    st := Blank(Patient(max), Crew(n, 0, Idle, Idle));
    CrewSize(n, 0, Idle, Idle);
    actions := BookedOnce(max, n, Any);
    BookedIsWorked(max, n);
    var mid := Elapsed(Booked1(OnSale(Patient(max), Crew(n, 0, Idle, Idle)), Ids(2, 3, 4)), 1);
    var more, end := AllAtOnce(mid, n);
    RunWeaken(mid, more, Harmless, Any);
    LeadsThen(st, actions, mid, more, end, Any);
    actions := actions + more;
  }

  // ---- one processor at a time, and no death between the FAILED writes ------------------

  /** The booking and its job stand like this, and the crew is here. */
  function Stands(st: State, crew: map<Id, Worker>, a: nat, s: JobStatus, b: BookingStatus): State {
    st.(workers := crew,
        db := st.db.(jobs := map[4 := Job(3, s, a, 0)], bookings := map[3 := Booking(1, {SEAT}, b, None, 2)]))
  }

  lemma BookedStands(max: nat, n: nat)
    ensures var st := Elapsed(Booked1(OnSale(Patient(max), Crew(n, 0, Idle, Idle)), Ids(2, 3, 4)), 1);
      st.now == 1 && st.cfg == Patient(max) && st == Stands(st, Crew(n, 0, Idle, Idle), 0, JobPending, Pending)
  {
    CodesFacts();
  }

  /** Sweep and load by processor `w`. */
  lemma ThenTakesUp(start: State, first: seq<Action>, st: State, crew: map<Id, Worker>, w: Id, a: nat, s: JobStatus,
                    pc: Pc, h: Hypothesis)
    requires var mid := Stands(st, crew, a, s, Pending);
      Leads(start, first, h, mid) && st.now == 1 && st.cfg == Patient(st.cfg.maxAttempts)
      && (s == JobPending || s == JobProcessing) && w in crew && crew[w] == Worker([], Idle)
      && pc == Loaded(st.cfg, mid.db, 4)
    requires var mid, end := Stands(st, crew[w := Worker([4], Idle)], a, s, Pending),
      Stands(st, crew[w := Worker([], pc)], a, s, Pending);
      && h(Stands(st, crew, a, s, Pending), Processor(w, Sweep([4])), mid) && h(mid, Processor(w, Load), end)
    ensures Leads(start, first + [Processor(w, Sweep([4]))] + [Processor(w, Load)], h,
      Stands(st, crew[w := Worker([], pc)], a, s, Pending))
  {
    var s0, s1 := Stands(st, crew, a, s, Pending), Stands(st, crew[w := Worker([4], Idle)], a, s, Pending);
    assert WorkerEnabled(s0, w, Sweep([4])) && WorkerNext(s0, w, Sweep([4])) == s1;
    LeadsStep(start, first, s0, Processor(w, Sweep([4])), s1, h);
    assert [4][1..] == [];
    assert s1.workers[w := Worker([], pc)] == crew[w := Worker([], pc)];
    LeadsStep(start, first + [Processor(w, Sweep([4]))], s1, Processor(w, Load),
      Stands(st, crew[w := Worker([], pc)], a, s, Pending), h);
  }

  /** What a write at `pc` leaves: attempts, job status, booking status and the next place. */
  function Written4(pc: Pc, a: nat, s: JobStatus, b: BookingStatus): (nat, JobStatus, BookingStatus, Pc)
    requires pc.FailingJob? || pc.FailingBooking? || pc.Starting? || pc.Catching?
  {
    match pc
    case FailingJob(_) => (a, JobFailed, b, FailingBooking(4))
    case FailingBooking(_) => (a, s, Failed, Idle)
    case Starting(_) => (a + 1, JobProcessing, b, Confirming(4))
    case Catching(_) => (a, JobPending, b, Idle)
  }

  lemma WriteStands(st: State, crew: map<Id, Worker>, a: nat, s: JobStatus, b: BookingStatus, pc: Pc)
    requires (pc.FailingJob? || pc.FailingBooking? || pc.Starting? || pc.Catching?) && pc.job == 4
    ensures var (a', s', b', next) := Written4(pc, a, s, b);
      JobWrite(Stands(st, crew, a, s, b).db, st.locks, pc, None) == (Stands(st, crew, a', s', b').db, st.locks, next)
  {
    var (a', s', b', next) := Written4(pc, a, s, b);
    assert map[4 := Job(3, s, a, 0)][4 := Job(3, s', a', 0)] == map[4 := Job(3, s', a', 0)];
    assert map[3 := Booking(1, {SEAT}, b, None, 2)][3 := Booking(1, {SEAT}, b', None, 2)]
      == map[3 := Booking(1, {SEAT}, b', None, 2)];
  }

  /** One write by processor `w`. */
  lemma ThenWrites(start: State, first: seq<Action>, st: State, crew: map<Id, Worker>, w: Id, a: nat, s: JobStatus,
                   b: BookingStatus, h: Hypothesis)
    requires w in crew && crew[w].todo == [] && !crew[w].pc.Idle? && crew[w].pc.job == 4
    requires crew[w].pc.FailingJob? || crew[w].pc.FailingBooking? || crew[w].pc.Starting? || crew[w].pc.Catching?
    requires Leads(start, first, h, Stands(st, crew, a, s, b))
    requires forall x, step: Action, y :: step.Processor? && step.wstep.Write? ==> h(x, step, y)
    ensures var (a', s', b', next) := Written4(crew[w].pc, a, s, b);
      Leads(start, first + [Processor(w, Write(None))], h, Stands(st, crew[w := Worker([], next)], a', s', b'))
  {
    var (a', s', b', next) := Written4(crew[w].pc, a, s, b);
    var s0, end := Stands(st, crew, a, s, b), Stands(st, crew[w := Worker([], next)], a', s', b');
    WriteStands(st, crew, a, s, b, crew[w].pc);
    assert WriteNext(s0, w, None) == end;
    LeadsStep(start, first, s0, Processor(w, Write(None)), end, h);
  }

  predicate FailedAlone(st: State) {
    && st.db.jobs == map[4 := Job(3, JobFailed, 0, 0)] && (forall w :: w in st.workers ==> !Inside(st.workers[w], 4))
    && 3 in st.db.bookings && st.db.bookings[3].status == Pending
  }

  lemma DiesBetween(start: State, first: seq<Action>, st: State, crew: map<Id, Worker>) returns (actions: seq<Action>)
    requires crew == map[0 := Worker([], Idle)] && st.now == 1 && st.cfg == Patient(0)
    requires Leads(start, first, OneProcessor, Stands(st, crew, 0, JobPending, Pending))
    ensures Run(start, actions, OneProcessor) && FailedAlone(Final(start, actions, OneProcessor))
  {
    var h := OneProcessor;
    ThenTakesUp(start, first, st, crew, 0, 0, JobPending, FailingJob(4), h);
    actions := first + [Processor(0, Sweep([4]))] + [Processor(0, Load)];
    var c1 := crew[0 := Worker([], FailingJob(4))];
    ThenWrites(start, actions, st, c1, 0, 0, JobPending, Pending, h);
    actions := actions + [Processor(0, Write(None))];
    DiesInside(start, actions, Stands(st, c1[0 := Worker([], FailingBooking(4))], 0, JobFailed, Pending));
    actions := actions + [Processor(0, Die)];
  }

  lemma DiesInside(start: State, first: seq<Action>, st: State)
    requires Leads(start, first, OneProcessor, st) && st.workers.Keys == {0}
    requires st.db.jobs == map[4 := Job(3, JobFailed, 0, 0)]
    requires 3 in st.db.bookings && st.db.bookings[3].status == Pending
    ensures Run(start, first + [Processor(0, Die)], OneProcessor)
    ensures FailedAlone(Final(start, first + [Processor(0, Die)], OneProcessor))
  {
    LeadsStep(start, first, st, Processor(0, Die), WorkerNext(st, 0, Die), OneProcessor);
  }

  /** Without `WholeFailure`: a processor dies between the FAILED writes, and the job is FAILED but the booking
      PENDING. */
  lemma WholeFailureNeeded() returns (st: State, actions: seq<Action>)
    ensures Init(st) && Run(st, actions, OneProcessor) && FailedAlone(Final(st, actions, OneProcessor))
  {
    var crew := Crew(1, 0, Idle, Idle);
    st := Blank(Patient(0), crew);
    var first := BookedOnce(0, 1, OneProcessor);
    BookedStands(0, 1);
    actions := DiesBetween(st, first, Elapsed(Booked1(OnSale(Patient(0), crew), Ids(2, 3, 4)), 1), crew);
  }

  predicate OpenUnderFailed(st: State) {
    && st.db.jobs == map[4 := Job(3, JobPending, 1, 0)]
    && 3 in st.db.bookings && st.db.bookings[3].status == Failed
  }

  /** Every step but a death meets `h`. */
  ghost predicate AllowsWork(h: Hypothesis) {
    forall st, a: Action, after :: a.Processor? && !a.wstep.Die? ==> h(st, a, after)
  }

  /** The crew of two once one is in the last attempt and the other is done with what it found used up. */
  function Beside(crew: map<Id, Worker>): map<Id, Worker>
    requires crew.Keys == {0, 1}
  {
    crew[0 := Worker([], Confirming(4))][1 := Worker([], Idle)]
  }

  /** Processor 1 finds the attempts used up while processor 0 is in the last, and marks both FAILED. */
  lemma FailsBeside(start: State, first: seq<Action>, st: State, crew: map<Id, Worker>, h: Hypothesis)
    returns (actions: seq<Action>)
    requires crew.Keys == {0, 1} && crew[0] == Worker([], Confirming(4)) && crew[1] == Worker([], FailingJob(4))
    requires AllowsWork(h) && Leads(start, first, h, Stands(st, crew, 1, JobProcessing, Pending))
    ensures Leads(start, actions, h, Stands(st, Beside(crew), 1, JobFailed, Failed))
  {
    ThenWrites(start, first, st, crew, 1, 1, JobProcessing, Pending, h);
    actions := first + [Processor(1, Write(None))];
    var c1 := crew[1 := Worker([], FailingBooking(4))];
    ThenWrites(start, actions, st, c1, 1, 1, JobFailed, Pending, h);
    actions := actions + [Processor(1, Write(None))];
    assert c1[1 := Worker([], Idle)] == Beside(crew);
  }

  /** Processor 0 throws, and its catch block opens the job again. */
  lemma ReopensBeside(start: State, first: seq<Action>, st: State, crew: map<Id, Worker>, h: Hypothesis)
    returns (actions: seq<Action>)
    requires crew.Keys == {0, 1} && crew[0] == Worker([], Confirming(4))
    requires AllowsWork(h) && Leads(start, first, h, Stands(st, crew, 1, JobFailed, Failed))
    ensures Leads(start, actions, h, Stands(st, crew[0 := Worker([], Idle)], 1, JobPending, Failed))
  {
    var s := Stands(st, crew, 1, JobFailed, Failed);
    var c1 := crew[0 := Worker([], Catching(4))];
    LeadsStep(start, first, s, Processor(0, Throw), Stands(st, c1, 1, JobFailed, Failed), h);
    actions := first + [Processor(0, Throw)];
    ThenWrites(start, actions, st, c1, 0, 1, JobFailed, Failed, h);
    actions := actions + [Processor(0, Write(None))];
    assert c1[0 := Worker([], Idle)] == crew[0 := Worker([], Idle)];
  }

  /** Processor 0 has counted the last attempt. */
  lemma LastAttempt(start: State, first: seq<Action>, st: State, crew: map<Id, Worker>, h: Hypothesis)
    returns (actions: seq<Action>)
    requires crew.Keys == {0, 1} && crew[0] == Worker([], Idle) && st.now == 1 && st.cfg == Patient(1)
    requires AllowsWork(h) && Leads(start, first, h, Stands(st, crew, 0, JobPending, Pending))
    ensures Leads(start, actions, h, Stands(st, crew[0 := Worker([], Confirming(4))], 1, JobProcessing, Pending))
  {
    ThenTakesUp(start, first, st, crew, 0, 0, JobPending, Starting(4), h);
    actions := first + [Processor(0, Sweep([4]))] + [Processor(0, Load)];
    var c1 := crew[0 := Worker([], Starting(4))];
    ThenWrites(start, actions, st, c1, 0, 0, JobPending, Pending, h);
    actions := actions + [Processor(0, Write(None))];
    assert c1[0 := Worker([], Confirming(4))] == crew[0 := Worker([], Confirming(4))];
  }

  lemma TwoInside(start: State, first: seq<Action>, st: State, crew: map<Id, Worker>, h: Hypothesis)
    returns (actions: seq<Action>)
    requires crew == map[0 := Worker([], Idle), 1 := Worker([], Idle)] && st.now == 1 && st.cfg == Patient(1)
    requires AllowsWork(h) && Leads(start, first, h, Stands(st, crew, 0, JobPending, Pending))
    ensures Leads(start, actions, h, Stands(st, Beside(crew), 1, JobFailed, Failed))
  {
    actions := LastAttempt(start, first, st, crew, h);
    var c1 := crew[0 := Worker([], Confirming(4))];
    ThenTakesUp(start, actions, st, c1, 1, 1, JobProcessing, FailingJob(4), h);
    actions := actions + [Processor(1, Sweep([4]))] + [Processor(1, Load)];
    var c2 := c1[1 := Worker([], FailingJob(4))];
    actions := FailsBeside(start, actions, st, c2, h);
    assert Beside(c2) == Beside(crew);
  }

  /** Without `OneProcessor`: while one processor is in its last attempt, another finds the attempts used up and
      writes both FAILED; the first then throws, and the job is open again under a FAILED booking. */
  lemma OneProcessorNeeded() returns (st: State, actions: seq<Action>)
    ensures Init(st) && Run(st, actions, WholeFailure) && OpenUnderFailed(Final(st, actions, WholeFailure))
  {
    var crew := Crew(2, 0, Idle, Idle);
    st := Blank(Patient(1), crew);
    var first := BookedOnce(1, 2, WholeFailure);
    BookedStands(1, 2);
    var mid := Elapsed(Booked1(OnSale(Patient(1), crew), Ids(2, 3, 4)), 1);
    actions := TwoInside(st, first, mid, crew, WholeFailure);
    actions := ReopensBeside(st, actions, mid, Beside(crew), WholeFailure);
  }

  // ---- sweeps that find nothing while somebody is inside ---------------------------------

  function EmptySweeps(n: nat): seq<Action> {
    seq(n, i => Processor(1, Sweep([])))
  }

  lemma {:induction false} EmptySweepsStay(st: State, n: nat, h: Hypothesis)
    requires AllowsWork(h) && WorkerEnabled(st, 1, Sweep([]))
    ensures Leads(st, EmptySweeps(n), h, st)
  {
    if n > 0 {
      EmptySweepsStay(st, n - 1, h);
      assert WorkerNext(st, 1, Sweep([])) == st;
      LeadsStep(st, EmptySweeps(n - 1), st, Processor(1, Sweep([])), st, h);
      assert EmptySweeps(n) == EmptySweeps(n - 1) + [Processor(1, Sweep([]))];
    }
  }

  lemma {:induction false} SweepCountSum(first: seq<Action>, more: seq<Action>, wid: Id)
    ensures SweepCount(first + more, wid) == SweepCount(first, wid) + SweepCount(more, wid)
  {
    if first == [] {
      assert first + more == more;
    } else {
      SweepCountSum(first[1..], more, wid);
      assert (first + more)[1..] == first[1..] + more;
    }
  }

  lemma {:induction false} EmptySweepsCount(n: nat)
    ensures SweepCount(EmptySweeps(n), 1) == n
  {
    if n > 0 {
      EmptySweepsCount(n - 1);
      assert EmptySweeps(n)[1..] == EmptySweeps(n - 1);
    }
  }

  predicate OpenAndIdle(st: State) {
    4 in st.db.jobs && !Terminal(st.db.jobs[4]) && forall w :: w in st.workers ==> st.workers[w] == Worker([], Idle)
  }

  /** No number of sweeps is enough of itself: with two processors a sweeper makes `n` sweeps that find nothing
      while the other is still inside the job, which that one then opens again and leaves. */
  lemma EmptySweepsDoNotDrain(n: nat) returns (start: State, earlier: seq<Action>, st: State, actions: seq<Action>)
    ensures Init(start) && Leads(start, earlier, Any, st) && AllOld(st) && |st.workers| == 2
    ensures Run(st, actions, Shared(1)) && SweepCount(actions, 1) >= n && OpenAndIdle(Final(st, actions, Shared(1)))
  {
    start, earlier, st := OneOldJob();
    actions := SweptAndReopened(st, st.workers, n);
  }

  lemma OneOldJob() returns (start: State, earlier: seq<Action>, st: State)
    ensures Init(start) && Leads(start, earlier, Any, st) && AllOld(st) && |st.workers| == 2
    ensures st.workers == map[0 := Worker([], Idle), 1 := Worker([], Idle)] && st.now == 1 && st.cfg == Patient(1)
    ensures st == Stands(st, st.workers, 0, JobPending, Pending)
  {
    var crew := Crew(2, 0, Idle, Idle);
    CrewSize(2, 0, Idle, Idle);
    start := Blank(Patient(1), crew);
    earlier := BookedOnce(1, 2, Any);
    BookedStands(1, 2);
    st := Elapsed(Booked1(OnSale(Patient(1), crew), Ids(2, 3, 4)), 1);
  }

  lemma SweptAndReopened(st: State, crew: map<Id, Worker>, n: nat) returns (actions: seq<Action>)
    requires crew == map[0 := Worker([], Idle), 1 := Worker([], Idle)] && st.now == 1 && st.cfg == Patient(1)
    requires st == Stands(st, crew, 0, JobPending, Pending)
    ensures Run(st, actions, Shared(1)) && SweepCount(actions, 1) >= n && OpenAndIdle(Final(st, actions, Shared(1)))
  {
    var h, failed := Shared(1), Stands(st, Beside(crew), 1, JobFailed, Failed);
    var first := TwoInside(st, [], st, crew, h);
    assert WorkerEnabled(failed, 1, Sweep([]));
    EmptySweepsStay(failed, n, h);
    EmptySweepsCount(n);
    LeadsThen(st, first, failed, EmptySweeps(n), failed, h);
    var more := ReopensBeside(failed, [], st, Beside(crew), h);
    var end := Stands(st, Beside(crew)[0 := Worker([], Idle)], 1, JobPending, Failed);
    LeadsThen(st, first + EmptySweeps(n), failed, more, end, h);
    actions := first + EmptySweeps(n) + more;
    SweepCountSum(first, EmptySweeps(n), 1);
    SweepCountSum(first + EmptySweeps(n), more, 1);
  }
}
