/** The rows that the three services share, and each Postgres write as a function on them.

    A seat is named by its (eventId, seatCode) pair, which the schema keeps unique.  Every id is
    a uuid, drawn from one pool, so that no id is ever given out twice. */
module Store {

  type Id = nat

  datatype Option<+T> = None | Some(value: T)

  datatype Seat = Seat(event: Id, code: string)

  datatype SeatStatus = Available | Held | Booked

  datatype BookingStatus = Pending | Confirmed | Cancelled | Failed

  datatype JobStatus = JobPending | JobProcessing | JobDone | JobFailed

  datatype Event = Event(published: bool, totalSeats: nat)

  /** `holder` is the lock token of the request that wrote the row.  The table has no such
      column; it is history, which only hypotheses and proofs read. */
  datatype Booking = Booking(event: Id, seats: set<Seat>, status: BookingStatus, qr: Option<string>, holder: Id)

  datatype Job = Job(booking: Id, status: JobStatus, attempts: nat, createdAt: nat)

  datatype Db = Db(
    events: map<Id, Event>,
    seats: map<Seat, SeatStatus>,
    bookings: map<Id, Booking>,
    jobs: map<Id, Job>,
    notices: multiset<Id>)

  const EMPTY_DB := Db(map[], map[], map[], map[], multiset{})

  datatype Lock = Lock(holder: Id, expiresAt: nat)

  type Locks = map<Seat, Lock>

  predicate Active(b: Booking) {
    b.status != Cancelled
  }

  predicate Terminal(j: Job) {
    j.status == JobDone || j.status == JobFailed
  }

  /** Booking `b` is not cancelled and contains seat `s`. */
  predicate Owns(db: Db, b: Id, s: Seat) {
    b in db.bookings && Active(db.bookings[b]) && s in db.bookings[b].seats
  }

  function SetSeats(seats: map<Seat, SeatStatus>, which: set<Seat>, status: SeatStatus): map<Seat, SeatStatus> {
    map s | s in seats :: if s in which then status else seats[s]
  }

  /** The booking transaction: booking, booking seats, seat statuses and job row together. */
  function InsertBooking(db: Db, bid: Id, jid: Id, b: Booking, now: nat): Db {
    db.(bookings := db.bookings[bid := b],
        seats := SetSeats(db.seats, b.seats, Booked),
        jobs := db.jobs[jid := Job(bid, JobPending, 0, now)])
  }

  function SetBookingStatus(db: Db, bid: Id, status: BookingStatus): Db
    requires bid in db.bookings
  {
    db.(bookings := db.bookings[bid := db.bookings[bid].(status := status)])
  }

  /** The cancel transaction, the same for customers and for admins. */
  function CancelRows(db: Db, bid: Id): Db
    requires bid in db.bookings
  {
    SetBookingStatus(db, bid, Cancelled).(seats := SetSeats(db.seats, db.bookings[bid].seats, Available))
  }

  function SetJobStatus(db: Db, jid: Id, status: JobStatus): Db
    requires jid in db.jobs
  {
    db.(jobs := db.jobs[jid := db.jobs[jid].(status := status)])
  }

  function StartAttempt(db: Db, jid: Id): Db
    requires jid in db.jobs
  {
    db.(jobs := db.jobs[jid := db.jobs[jid].(status := JobProcessing, attempts := db.jobs[jid].attempts + 1)])
  }

  /** CONFIRMED, and a QR url unless none could be made: a missing one leaves the column alone. */
  function ConfirmBooking(db: Db, bid: Id, qr: Option<string>): Db
    requires bid in db.bookings
  {
    var b := db.bookings[bid];
    db.(bookings := db.bookings[bid := b.(status := Confirmed, qr := if qr.Some? then qr else b.qr)])
  }

  function AddNotice(db: Db, bid: Id): Db {
    db.(notices := db.notices + multiset{bid})
  }

  function AddEvent(db: Db, e: Id, codes: set<string>): Db {
    db.(events := db.events[e := Event(false, |codes|)],
        seats := db.seats + map c | c in codes :: Seat(e, c) := Available)
  }

  /** Deleting an event cascades to its seats. */
  function DropEvent(db: Db, e: Id): Db {
    db.(events := db.events - {e}, seats := map s | s in db.seats && s.event != e :: db.seats[s])
  }
}
