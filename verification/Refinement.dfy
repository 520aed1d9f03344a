/** The protocol refines a machine with no locks and no concurrency, which books all the seats of a request at once
    if all are AVAILABLE and refuses otherwise. */
module Refinement {
  import opened Store
  import opened Protocol
  import opened Safety

  datatype Command =
    | BookAll(bid: Id, jid: Id, booking: Booking, at: nat)
    | CancelOne(bid: Id)
    | Work(pc: Pc, qr: Option<string>)
    | Open(event: Id, codes: set<string>)
    | Show(event: Id, published: bool)
    | Remove(event: Id)

  /** The sequential machine.  It refuses (`None`) a booking unless every seat is AVAILABLE, and a cancel of a booking
      that is cancelled already. */
  function Atomic(db: Db, c: Command): Option<Db> {
    match c
    case BookAll(bid, jid, b, at) =>
      if Free(db, b.seats) then Some(InsertBooking(db, bid, jid, b, at)) else None
    case CancelOne(bid) => if bid in db.bookings && Active(db.bookings[bid]) then Some(CancelRows(db, bid)) else None
    case Work(pc, qr) => if !pc.Idle? && JobPresent(db, pc.job) then Some(JobWrite(db, map[], pc, qr).0) else None
    case Open(e, codes) => if e in db.events then None else Some(AddEvent(db, e, codes))
    case Show(e, p) =>
      if e in db.events then Some(db.(events := db.events[e := db.events[e].(published := p)])) else None
    case Remove(e) =>
      if e in db.events && Unbooked(db, e) then Some(DropEvent(db, e)) else None
  }

  predicate Free(db: Db, seats: set<Seat>) {
    forall s :: s in seats ==> s in db.seats && db.seats[s] == Available
  }

  /** What the machine accepts, and what it makes of the rows: a booking exactly when every seat of it is AVAILABLE,
      and then just those seats are BOOKED, with one new booking and one open job; a cancel exactly of a booking
      that is there and not CANCELLED, and then just its seats are AVAILABLE. */
  lemma MachineExactly(db: Db, bid: Id, jid: Id, b: Booking, at: nat)
    ensures var out := Atomic(db, BookAll(bid, jid, b, at));
      && (out.Some? <==> forall s :: s in b.seats ==> s in db.seats && db.seats[s] == Available)
      && (out.Some? ==>
            && out.value == db.(bookings := db.bookings[bid := b], seats := out.value.seats,
                                jobs := db.jobs[jid := Job(bid, JobPending, 0, at)])
            && out.value.seats.Keys == db.seats.Keys
            && forall s :: s in db.seats ==> out.value.seats[s] == if s in b.seats then Booked else db.seats[s])
    ensures var out := Atomic(db, CancelOne(bid));
      && (out.Some? <==> bid in db.bookings && db.bookings[bid].status != Cancelled)
      && (out.Some? ==>
            var seats := db.bookings[bid].seats;
            && out.value == db.(seats := out.value.seats,
                                bookings := db.bookings[bid := db.bookings[bid].(status := Cancelled)])
            && out.value.seats.Keys == db.seats.Keys
            && forall s :: s in db.seats ==> out.value.seats[s] == if s in seats then Available else db.seats[s])
  {
  }

  /** An event is created only once, unpublished and with its seats AVAILABLE, published and unpublished while it is
      there, and removed with its seats exactly when it is there and has no booking. */
  lemma MachineOpensExactly(db: Db, e: Id, codes: set<string>, published: bool)
    ensures Atomic(db, Open(e, codes)).Some? <==> e !in db.events
    ensures var out := Atomic(db, Open(e, codes));
      out.Some? ==>
        && out.value == db.(events := db.events[e := Event(false, |codes|)], seats := out.value.seats)
        && (forall s :: s in out.value.seats <==> s in db.seats || (s.event == e && s.code in codes))
        && forall s :: s in out.value.seats ==>
             out.value.seats[s] == if s.event == e && s.code in codes then Available else db.seats[s]
    ensures Atomic(db, Show(e, published)) == if e !in db.events then None
      else Some(db.(events := db.events[e := Event(published, db.events[e].totalSeats)]))
    ensures Atomic(db, Remove(e)).Some? <==>
      e in db.events && forall b :: b in db.bookings ==> db.bookings[b].event != e
    ensures var out := Atomic(db, Remove(e));
      out.Some? ==>
        && out.value == db.(events := db.events - {e}, seats := out.value.seats)
        && (forall s :: s in out.value.seats <==> s in db.seats && s.event != e)
        && forall s :: s in out.value.seats ==> out.value.seats[s] == db.seats[s]
  {
  }

  predicate Unbooked(db: Db, e: Id) {
    forall b :: b in db.bookings ==> db.bookings[b].event != e
  }

  function Replay(db: Db, cs: seq<Command>): Option<Db>
    decreases |cs|
  {
    if cs == [] then Some(db)
    else match Atomic(db, cs[0])
      case None => None
      case Some(next) => Replay(next, cs[1..])
  }

  /** The command a step commits, if it commits any: one per booking transaction, cancel transaction, processor write or
      event write; reads, locks, queue traffic, rejections and rollbacks leave no command. */
  function Committed(st: State, a: Action): seq<Command>
    requires Enabled(st, a)
  {
    match a
    case Booker(rid, Commit(bid, jid)) =>
      var r := st.requests[rid];
      [BookAll(bid, jid, Booking(r.event, SetOf(r.seats), Pending, None, rid), st.now)]
    case Canceller(cid, WriteCancel) => [CancelOne(st.cancels[cid].booking)]
    case Processor(wid, Write(qr)) => [Work(st.workers[wid].pc, qr)]
    case World(CreateEvent(e, codes)) => [Open(e, codes)]
    case World(SetPublished(e, p)) => [Show(e, p)]
    case World(DeleteEvent(e)) => [Remove(e)]
    case _ => []
  }

  ghost function CommitLog(st: State, actions: seq<Action>): seq<Command>
    requires Run(st, actions, Guards)
    decreases |actions|
  {
    if actions == [] then [] else Committed(st, actions[0]) + CommitLog(Next(st, actions[0]), actions[1..])
  }

  ghost predicate Commits(db: Db, cs: seq<Command>, after: Db) {
    if cs == [] then after == db else |cs| == 1 && Atomic(db, cs[0]) == Some(after)
  }

  lemma RequestRefines(st: State, rid: Id, step: RequestStep)
    requires Safe(st) && RequestEnabled(st, rid, step)
    ensures Commits(st.db, Committed(st, Booker(rid, step)), RequestNext(st, rid, step).db)
  {
    if step.Commit? { CommitFindsAvailable(st, rid, step.bid, step.jid); }
  }

  lemma CancelRefines(st: State, cid: Id, step: CancelStep)
    requires CancelEnabled(st, cid, step)
    requires FreshCancel(st, Canceller(cid, step), CancelNext(st, cid, step))
    ensures Commits(st.db, Committed(st, Canceller(cid, step)), CancelNext(st, cid, step).db)
  {
  }

  lemma WorkerRefines(st: State, wid: Id, step: WorkerStep)
    requires WorkerEnabled(st, wid, step)
    ensures Commits(st.db, Committed(st, Processor(wid, step)), WorkerNext(st, wid, step).db)
  {
    if step.Write? { WriteIgnoresLocks(st.db, st.locks, st.workers[wid].pc, step.qr); }
  }

  lemma WriteIgnoresLocks(db: Db, locks: Locks, pc: Pc, qr: Option<string>)
    requires !pc.Idle? && JobPresent(db, pc.job)
    ensures JobWrite(db, locks, pc, qr).0 == JobWrite(db, map[], pc, qr).0
  {
  }

  lemma WorldRefines(st: State, step: WorldStep)
    requires WorldEnabled(st, step)
    ensures Commits(st.db, Committed(st, World(step)), WorldNext(st, step).db)
  {
  }

  lemma {:induction false} StepRefines(st: State, a: Action)
    requires Safe(st) && Enabled(st, a) && Guards(st, a, Next(st, a))
    ensures Commits(st.db, Committed(st, a), Next(st, a).db)
  {
    match a
    case Booker(rid, step) => RequestRefines(st, rid, step);
    case Canceller(cid, step) => CancelRefines(st, cid, step);
    case Processor(wid, step) => WorkerRefines(st, wid, step);
    case World(step) => WorldRefines(st, step);
    case _ =>
  }

  /** Replaying what the run committed, in commit order, on the sequential machine is never refused and ends in the
      same events, seats, bookings, jobs and notices. */
  lemma {:induction false} RunRefines(st: State, actions: seq<Action>)
    requires Safe(st) && Run(st, actions, Guards)
    ensures Replay(st.db, CommitLog(st, actions)) == Some(Final(st, actions, Guards).db)
    decreases |actions|
  {
    if actions != [] {
      var a := actions[0];
      var rest := CommitLog(Next(st, a), actions[1..]);
      StepRefines(st, a);
      SafeStep(st, a);
      RunRefines(Next(st, a), actions[1..]);
      if Committed(st, a) == [] {
        assert CommitLog(st, actions) == rest;
      } else {
        assert CommitLog(st, actions)[1..] == rest;
      }
    }
  }

  lemma ProtocolRefinesAtomicBooking(st: State, actions: seq<Action>)
    requires Init(st) && Run(st, actions, Guards)
    ensures Replay(EMPTY_DB, CommitLog(st, actions)) == Some(Final(st, actions, Guards).db)
  {
    InitSafe(st);
    RunRefines(st, actions);
  }
}
