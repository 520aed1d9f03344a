/** The booking protocol as a step relation over both stores.

    One step is one `$transaction`, one single Prisma call or one Redis command; between two steps
    of a request, a cancel or a processor, any other may run.  What the code leaves open (which ids
    are fresh, which jobs a sweep picks, where a call throws or a process dies) is a parameter of
    the action, so that `Next` is a function. */
module Protocol {
  import opened Store

  const BATCH: nat := 25

  datatype Config = Config(ttl: nat, threshold: nat, maxAttempts: nat)

  /** Where `createBooking` stands.  `Locking(n)` has read its seats AVAILABLE and locked the first n;
      `Written` has committed but not yet pushed to the queue. */
  datatype Phase =
    | Submitted
    | EventFound
    | Locking(acquired: nat)
    | RollingBack(acquired: nat)
    | Written(booking: Id)
    | Releasing
    | Succeeded(booking: Id)
    | Rejected
    | Gone

  /** The request's id doubles as its holder token: both are fresh for every call. */
  datatype Request = Request(event: Id, seats: seq<Seat>, readAt: nat, phase: Phase)

  datatype CancelPhase = Checked | ReleaseDue | Ended

  datatype Cancel = Cancel(booking: Id, byAdmin: bool, phase: CancelPhase)

  /** The next write of `processJob`. */
  datatype Pc =
    | Idle
    | FailingJob(job: Id)
    | FailingBooking(job: Id)
    | Starting(job: Id)
    | Confirming(job: Id)
    | Notifying(job: Id)
    | Unlocking(job: Id)
    | Finishing(job: Id)
    | Catching(job: Id)

  datatype Worker = Worker(todo: seq<Id>, pc: Pc)

  datatype State = State(
    cfg: Config,
    now: nat,
    db: Db,
    locks: Locks,
    queue: seq<Id>,
    requests: map<Id, Request>,
    cancels: map<Id, Cancel>,
    workers: map<Id, Worker>,
    used: set<Id>)

  datatype RequestStep =
    | ReadEvent
    | ReadSeats
    | SetNx
    | RollBack
    | Commit(bid: Id, jid: Id)
    | FailTransaction
    | Push
    | FailPush
    | Release
    | Vanish

  datatype CancelStep = WriteCancel | ReleaseAfterCancel | VanishCancel

  datatype WorkerStep = Sweep(ids: seq<Id>) | Deliver | Load | Write(qr: Option<string>) | Throw | Die

  datatype WorldStep =
    | Tick
    | LoseQueue
    | Inject(jobId: Id)
    | CreateEvent(event: Id, codes: set<string>)
    | SetPublished(event: Id, published: bool)
    | DeleteEvent(event: Id)

  datatype Action =
    | Submit(rid: Id, event: Id, seats: seq<Seat>)
    | Booker(rid: Id, rstep: RequestStep)
    | CheckCancel(cid: Id, bid: Id, byAdmin: bool)
    | Canceller(cid: Id, cstep: CancelStep)
    | Processor(wid: Id, wstep: WorkerStep)
    | World(step: WorldStep)

  predicate Distinct<T(==)>(s: seq<T>) {
    forall i, j :: 0 <= i < j < |s| ==> s[i] != s[j]
  }

  function SetOf<T>(s: seq<T>): set<T> {
    set x | x in s
  }

  predicate Init(st: State) {
    && st.db == EMPTY_DB
    && st.locks == map[] && st.queue == [] && st.requests == map[] && st.cancels == map[] && st.used == {}
    && forall w :: w in st.workers ==> st.workers[w] == Worker([], Idle)
  }

  // ---- createBooking ---------------------------------------------------------------------

  predicate Bookable(db: Db, r: Request) {
    forall s :: s in r.seats ==> s in db.seats && db.seats[s] == Available
  }

  /** The request names 1 to 10 seats of one event, duplicates already removed. */
  predicate SubmitEnabled(st: State, rid: Id, event: Id, seats: seq<Seat>) {
    && rid !in st.used && rid !in st.requests
    && 1 <= |seats| <= 10 && Distinct(seats)
    && forall s :: s in seats ==> s.event == event
  }

  predicate AcquireEnabled(st: State, rid: Id) {
    rid in st.requests && st.requests[rid].phase.Locking? && st.requests[rid].phase.acquired < |st.requests[rid].seats|
  }

  /** Every lock is taken, the foreign keys of the booking and of its seats hold, and both ids are fresh. */
  predicate CommitEnabled(st: State, rid: Id, bid: Id, jid: Id) {
    rid in st.requests &&
    var r := st.requests[rid];
    && r.phase.Locking? && r.phase.acquired == |r.seats|
    && bid !in st.used && jid !in st.used && bid != jid
    && r.event in st.db.events && SetOf(r.seats) <= st.db.seats.Keys
  }

  predicate RequestEnabled(st: State, rid: Id, step: RequestStep) {
    rid in st.requests &&
    var r := st.requests[rid];
    match step
    case ReadEvent => r.phase.Submitted?
    case ReadSeats => r.phase.EventFound?
    case SetNx => AcquireEnabled(st, rid)
    case RollBack => r.phase.RollingBack?
    case Commit(bid, jid) => CommitEnabled(st, rid, bid, jid)
    case FailTransaction => r.phase.Locking? && r.phase.acquired == |r.seats|
    case Push => r.phase.Written?
    case FailPush => r.phase.Written?
    case Release => r.phase.Releasing?
    case Vanish => !r.phase.Succeeded? && !r.phase.Rejected?
  }

  function SetPhase(st: State, rid: Id, phase: Phase): State
    requires rid in st.requests
  {
    st.(requests := st.requests[rid := st.requests[rid].(phase := phase)])
  }

  function ReadNext(st: State, rid: Id): State
    requires rid in st.requests
  {
    var r := st.requests[rid];
    if Bookable(st.db, r) then st.(requests := st.requests[rid := r.(readAt := st.now, phase := Locking(0))])
    else SetPhase(st, rid, Rejected)
  }

  function AcquireNext(st: State, rid: Id): State
    requires AcquireEnabled(st, rid)
  {
    var r := st.requests[rid];
    var n := r.phase.acquired;
    if r.seats[n] in st.locks then SetPhase(st, rid, RollingBack(n))
    else SetPhase(st, rid, Locking(n + 1)).(locks := st.locks[r.seats[n] := Lock(rid, st.now + st.cfg.ttl)])
  }

  function CommitNext(st: State, rid: Id, bid: Id, jid: Id): State
    requires CommitEnabled(st, rid, bid, jid)
  {
    var r := st.requests[rid];
    var b := Booking(r.event, SetOf(r.seats), Pending, None, rid);
    SetPhase(st, rid, Written(bid)).(db := InsertBooking(st.db, bid, jid, b, st.now), used := st.used + {bid, jid})
  }

  function RequestNext(st: State, rid: Id, step: RequestStep): State
    requires RequestEnabled(st, rid, step)
  {
    var r := st.requests[rid];
    match step
    case ReadEvent =>
      SetPhase(st, rid, if r.event in st.db.events && st.db.events[r.event].published then EventFound else Rejected)
    case ReadSeats => ReadNext(st, rid)
    case SetNx => AcquireNext(st, rid)
    case RollBack =>
      SetPhase(st, rid, Rejected).(locks := st.locks - SetOf(Acquired(r)))
    case Commit(bid, jid) => CommitNext(st, rid, bid, jid)
    case FailTransaction => SetPhase(st, rid, Releasing)
    case Push =>
      // the message names the booking's id as its job id
      SetPhase(st, rid, Succeeded(r.phase.booking)).(queue := [r.phase.booking] + st.queue)
    case FailPush => SetPhase(st, rid, Releasing)
    case Release =>
      SetPhase(st, rid, Rejected).(locks := st.locks - SetOf(r.seats))
    case Vanish => SetPhase(st, rid, Gone)
  }

  /** The seats locked so far by a request that is acquiring, or undoing its acquisition. */
  function Acquired(r: Request): seq<Seat> {
    if (r.phase.Locking? || r.phase.RollingBack?) && r.phase.acquired <= |r.seats|
    then r.seats[..r.phase.acquired] else []
  }

  // ---- cancelBooking and admin cancel ----------------------------------------------------

  predicate CheckEnabled(st: State, cid: Id, bid: Id) {
    cid !in st.used && cid !in st.cancels && bid in st.db.bookings && Active(st.db.bookings[bid])
  }

  predicate CancelEnabled(st: State, cid: Id, step: CancelStep) {
    cid in st.cancels &&
    var c := st.cancels[cid];
    match step
    case WriteCancel => c.phase.Checked? && c.booking in st.db.bookings
    case ReleaseAfterCancel => c.phase.ReleaseDue? && c.booking in st.db.bookings
    case VanishCancel => !c.phase.Ended?
  }

  function CancelNext(st: State, cid: Id, step: CancelStep): State
    requires CancelEnabled(st, cid, step)
  {
    var c := st.cancels[cid];
    match step
    case WriteCancel =>
      st.(db := CancelRows(st.db, c.booking),
          cancels := st.cancels[cid := c.(phase := if c.byAdmin then Ended else ReleaseDue)])
    case ReleaseAfterCancel =>
      st.(locks := st.locks - st.db.bookings[c.booking].seats, cancels := st.cancels[cid := c.(phase := Ended)])
    case VanishCancel => st.(cancels := st.cancels[cid := c.(phase := Ended)])
  }

  // ---- the worker ------------------------------------------------------------------------

  /** What the sweep's query matches. */
  predicate Stuck(db: Db, threshold: nat, now: nat, j: Id) {
    j in db.jobs && !Terminal(db.jobs[j]) && db.jobs[j].createdAt + threshold < now
  }

  /** A batch the sweep's query may return: distinct stuck jobs, all of them unless 25 were found. */
  predicate Batch(db: Db, threshold: nat, now: nat, ids: seq<Id>) {
    && Distinct(ids) && |ids| <= BATCH
    && (forall j :: j in ids ==> Stuck(db, threshold, now, j))
    && (|ids| < BATCH ==> forall j :: j in db.jobs && Stuck(db, threshold, now, j) ==> j in ids)
  }

  /** The job that a processor is inside, if any. */
  predicate Inside(w: Worker, j: Id) {
    !w.pc.Idle? && w.pc.job == j
  }

  /** In the try block: a throw here lands in the catch. */
  predicate Guarded(pc: Pc) {
    pc.Confirming? || pc.Notifying? || pc.Unlocking? || pc.Finishing?
  }

  predicate JobPresent(db: Db, j: Id) {
    j in db.jobs && db.jobs[j].booking in db.bookings
  }

  predicate LoadEnabled(st: State, wid: Id) {
    wid in st.workers && st.workers[wid].pc.Idle? && st.workers[wid].todo != []
  }

  predicate WriteEnabled(st: State, wid: Id) {
    wid in st.workers && !st.workers[wid].pc.Idle? && JobPresent(st.db, st.workers[wid].pc.job)
  }

  predicate WorkerEnabled(st: State, wid: Id, step: WorkerStep) {
    wid in st.workers &&
    var w := st.workers[wid];
    match step
    case Sweep(ids) => w.pc.Idle? && w.todo == [] && Batch(st.db, st.cfg.threshold, st.now, ids)
    case Deliver => w.pc.Idle? && w.todo == [] && st.queue != []
    case Load => LoadEnabled(st, wid)
    case Write(_) => WriteEnabled(st, wid)
    case Throw => Guarded(w.pc)
    case Die => true
  }

  function SetPc(st: State, wid: Id, pc: Pc): State
    requires wid in st.workers
  {
    st.(workers := st.workers[wid := st.workers[wid].(pc := pc)])
  }

  function Loaded(cfg: Config, db: Db, j: Id): Pc {
    if j !in db.jobs || db.jobs[j].status == JobDone then Idle
    else if db.jobs[j].attempts >= cfg.maxAttempts then FailingJob(j)
    else Starting(j)
  }

  /** The single write that `processJob` makes at `pc`, and where it stands afterwards. */
  function JobWrite(db: Db, locks: Locks, pc: Pc, qr: Option<string>): (Db, Locks, Pc)
    requires !pc.Idle? && JobPresent(db, pc.job)
  {
    var j := pc.job;
    var b := db.jobs[j].booking;
    match pc
    case FailingJob(_) => (SetJobStatus(db, j, JobFailed), locks, FailingBooking(j))
    case FailingBooking(_) => (SetBookingStatus(db, b, Failed), locks, Idle)
    case Starting(_) => (StartAttempt(db, j), locks, Confirming(j))
    case Confirming(_) => (ConfirmBooking(db, b, qr), locks, Notifying(j))
    case Notifying(_) => (AddNotice(db, b), locks, Unlocking(j))
    case Unlocking(_) => (db, locks - db.bookings[b].seats, Finishing(j))
    case Finishing(_) => (SetJobStatus(db, j, JobDone), locks, Idle)
    case Catching(_) => (SetJobStatus(db, j, JobPending), locks, Idle)
  }

  /** No row of `db` is missing from `out`, and no job has moved to another booking. */
  ghost predicate RowsKept(db: Db, out: Db) {
    && db.bookings.Keys <= out.bookings.Keys && db.jobs.Keys <= out.jobs.Keys
    && (forall b :: b in db.bookings ==>
          out.bookings[b].event == db.bookings[b].event && out.bookings[b].seats == db.bookings[b].seats)
    && (forall j :: j in db.jobs ==> out.jobs[j].booking == db.jobs[j].booking)
  }

  lemma JobWriteKeepsRows(db: Db, locks: Locks, pc: Pc, qr: Option<string>)
    requires !pc.Idle? && JobPresent(db, pc.job)
    ensures var out := JobWrite(db, locks, pc, qr).0;
      RowsKept(db, out) && out.bookings.Keys == db.bookings.Keys && out.jobs.Keys == db.jobs.Keys
        && out.events == db.events
  {
  }

  function LoadNext(st: State, wid: Id): State
    requires LoadEnabled(st, wid)
  {
    var w := st.workers[wid];
    st.(workers := st.workers[wid := Worker(w.todo[1..], Loaded(st.cfg, st.db, w.todo[0]))])
  }

  function WriteNext(st: State, wid: Id, qr: Option<string>): State
    requires WriteEnabled(st, wid)
  {
    var (db, locks, pc) := JobWrite(st.db, st.locks, st.workers[wid].pc, qr);
    SetPc(st, wid, pc).(db := db, locks := locks)
  }

  function WorkerNext(st: State, wid: Id, step: WorkerStep): State
    requires WorkerEnabled(st, wid, step)
  {
    var w := st.workers[wid];
    match step
    case Sweep(ids) => st.(workers := st.workers[wid := w.(todo := ids)])
    case Deliver =>
      // a message whose job id names no job row is dropped with a warning
      var last := |st.queue| - 1;
      var j := st.queue[last];
      st.(queue := st.queue[..last], workers := st.workers[wid := w.(todo := if j in st.db.jobs then [j] else [])])
    case Load => LoadNext(st, wid)
    case Write(qr) => WriteNext(st, wid, qr)
    case Throw => SetPc(st, wid, Catching(w.pc.job))
    case Die => st.(workers := st.workers[wid := Worker([], Idle)])
  }

  // ---- everything else -------------------------------------------------------------------

  predicate WorldEnabled(st: State, step: WorldStep) {
    match step
    case CreateEvent(e, _) => e !in st.used && e !in st.db.events
    case SetPublished(e, _) => e in st.db.events
    case DeleteEvent(e) => e in st.db.events && forall b :: b in st.db.bookings ==> st.db.bookings[b].event != e
    case _ => true
  }

  function WorldNext(st: State, step: WorldStep): State
    requires WorldEnabled(st, step)
  {
    match step
    case Tick =>
      var now := st.now + 1;
      st.(now := now, locks := map s | s in st.locks && now < st.locks[s].expiresAt :: st.locks[s])
    case LoseQueue => st.(queue := [])
    case Inject(j) => st.(queue := [j] + st.queue)
    case CreateEvent(e, codes) => st.(db := AddEvent(st.db, e, codes), used := st.used + {e})
    case SetPublished(e, p) => st.(db := st.db.(events := st.db.events[e := st.db.events[e].(published := p)]))
    case DeleteEvent(e) => st.(db := DropEvent(st.db, e))
  }

  predicate Enabled(st: State, a: Action) {
    match a
    case Submit(rid, event, seats) => SubmitEnabled(st, rid, event, seats)
    case Booker(rid, step) => RequestEnabled(st, rid, step)
    case CheckCancel(cid, bid, _) => CheckEnabled(st, cid, bid)
    case Canceller(cid, step) => CancelEnabled(st, cid, step)
    case Processor(wid, step) => WorkerEnabled(st, wid, step)
    case World(step) => WorldEnabled(st, step)
  }

  function Next(st: State, a: Action): State
    requires Enabled(st, a)
  {
    match a
    case Submit(rid, event, seats) =>
      st.(requests := st.requests[rid := Request(event, seats, 0, Submitted)], used := st.used + {rid})
    case Booker(rid, step) => RequestNext(st, rid, step)
    case CheckCancel(cid, bid, byAdmin) =>
      st.(cancels := st.cancels[cid := Cancel(bid, byAdmin, Checked)], used := st.used + {cid})
    case Canceller(cid, step) => CancelNext(st, cid, step)
    case Processor(wid, step) => WorkerNext(st, wid, step)
    case World(step) => WorldNext(st, step)
  }

  // ---- runs ------------------------------------------------------------------------------

  /** What a run may assume of each of its steps. */
  type Hypothesis = (State, Action, State) -> bool

  /** From `st` the actions are enabled one after the other, and each step meets `h`. */
  ghost predicate Run(st: State, actions: seq<Action>, h: Hypothesis)
    decreases |actions|
  {
    actions == [] ||
    (Enabled(st, actions[0]) && h(st, actions[0], Next(st, actions[0])) && Run(Next(st, actions[0]), actions[1..], h))
  }

  ghost function Final(st: State, actions: seq<Action>, h: Hypothesis): State
    requires Run(st, actions, h)
    decreases |actions|
  {
    if actions == [] then st else Final(Next(st, actions[0]), actions[1..], h)
  }

  // ---- putting runs together -------------------------------------------------------------

  ghost predicate Leads(st: State, actions: seq<Action>, h: Hypothesis, end: State) {
    Run(st, actions, h) && Final(st, actions, h) == end
  }

  lemma {:induction false} LeadsThen(st: State, first: seq<Action>, mid: State, more: seq<Action>, end: State,
                                     h: Hypothesis)
    requires Leads(st, first, h, mid) && Leads(mid, more, h, end)
    ensures Leads(st, first + more, h, end)
    decreases |first|
  {
    if first == [] {
      assert first + more == more;
    } else {
      LeadsThen(Next(st, first[0]), first[1..], mid, more, end, h);
      assert (first + more)[1..] == first[1..] + more;
    }
  }

  lemma LeadsOne(st: State, a: Action, h: Hypothesis)
    requires Enabled(st, a) && h(st, a, Next(st, a))
    ensures Leads(st, [a], h, Next(st, a))
  {
    assert [a][1..] == [];
  }

  lemma LeadsStep(start: State, first: seq<Action>, st: State, a: Action, end: State, h: Hypothesis)
    requires Leads(start, first, h, st) && Enabled(st, a) && Next(st, a) == end && h(st, a, end)
    ensures Leads(start, first + [a], h, end)
  {
    LeadsOne(st, a, h);
    LeadsThen(start, first, st, [a], end, h);
  }

  /** `st` after `n` ticks: the locks that expire by then are gone. */
  function Elapsed(st: State, n: nat): State {
    if n == 0 then st
    else
      var now := st.now + n;
      st.(now := now, locks := map s | s in st.locks && now < st.locks[s].expiresAt :: st.locks[s])
  }

  function Ticks(n: nat): seq<Action> {
    seq(n, i => World(Tick))
  }

  lemma ElapsedTick(st: State, n: nat)
    ensures WorldNext(Elapsed(st, n), Tick) == Elapsed(st, n + 1)
  {
  }

  lemma {:induction false} TicksLead(st: State, n: nat, h: Hypothesis)
    requires forall k: nat :: k < n ==> h(Elapsed(st, k), World(Tick), Elapsed(st, k + 1))
    ensures Leads(st, Ticks(n), h, Elapsed(st, n))
  {
    if n > 0 {
      TicksLead(st, n - 1, h);
      ElapsedTick(st, n - 1);
      LeadsStep(st, Ticks(n - 1), Elapsed(st, n - 1), World(Tick), Elapsed(st, n), h);
      assert Ticks(n) == Ticks(n - 1) + [World(Tick)];
    }
  }

  /** A run that meets `h` meets anything `h` implies. */
  lemma {:induction false} RunWeaken(st: State, actions: seq<Action>, h: Hypothesis, weaker: Hypothesis)
    requires Run(st, actions, h)
    requires forall s, a, t :: h(s, a, t) ==> weaker(s, a, t)
    ensures Run(st, actions, weaker) && Final(st, actions, weaker) == Final(st, actions, h)
    decreases |actions|
  {
    if actions != [] {
      RunWeaken(Next(st, actions[0]), actions[1..], h, weaker);
    }
  }
}
