/** The availability that an event's page shows. */
module AvailabilityCounts {
  import opened Store
  import opened Protocol
  import opened Always
  import opened Calls
  import opened Outcomes

  datatype StatusCount = StatusCount(status: SeatStatus, count: nat)

  datatype Availability = Availability(available: nat, held: nat, booked: nat)

  function Counts(db: Db, e: Id): Availability {
    Availability(|SeatsWith(db, e, Available)|, |SeatsWith(db, e, Held)|, |SeatsWith(db, e, Booked)|)
  }

  /** What grouping the event's seats by status returns: a row for every status that occurs, in any order. */
  ghost predicate GroupedByStatus(db: Db, e: Id, rows: seq<StatusCount>) {
    && (forall i, j :: 0 <= i < j < |rows| ==> rows[i].status != rows[j].status)
    && (forall i :: 0 <= i < |rows| ==> rows[i].count == |SeatsWith(db, e, rows[i].status)|)
    && (forall status :: SeatsWith(db, e, status) != {} ==> exists i :: 0 <= i < |rows| && rows[i].status == status)
  }

  function CountIn(rows: seq<StatusCount>, status: SeatStatus): nat {
    if rows == [] then 0
    else if rows[|rows| - 1].status == status then rows[|rows| - 1].count
    else CountIn(rows[..|rows| - 1], status)
  }

  lemma {:induction false} CountFound(rows: seq<StatusCount>, i: nat)
    requires i < |rows| && forall k :: i < k < |rows| ==> rows[k].status != rows[i].status
    ensures CountIn(rows, rows[i].status) == rows[i].count
  {
    if i < |rows| - 1 {
      CountFound(rows[..|rows| - 1], i);
    }
  }

  lemma {:induction false} CountMissing(rows: seq<StatusCount>, status: SeatStatus)
    requires forall i :: 0 <= i < |rows| ==> rows[i].status != status
    ensures CountIn(rows, status) == 0
  {
    if rows != [] {
      CountMissing(rows[..|rows| - 1], status);
    }
  }

  lemma GroupedCounts(db: Db, e: Id, rows: seq<StatusCount>, status: SeatStatus)
    requires GroupedByStatus(db, e, rows)
    ensures CountIn(rows, status) == |SeatsWith(db, e, status)|
  {
    if i :| 0 <= i < |rows| && rows[i].status == status {
      CountFound(rows, i);
    } else {
      CountMissing(rows, status);
      assert SeatsWith(db, e, status) == {};
    }
  }

  /** A published event's numbers of AVAILABLE, HELD and BOOKED seats.  The event is read from `db`; its seats are
      grouped a moment later, in `later`. */
  method FindOne(db: Db, later: Db, e: Id, rows: seq<StatusCount>) returns (r: Option<Availability>)
    requires GroupedByStatus(later, e, rows)
    ensures r.Some? <==> e in db.events && db.events[e].published
    ensures r.Some? ==> r.value == Counts(later, e)
    ensures r.Some? ==>
      && r.value.available == |set s | s in later.seats && s.event == e && later.seats[s] == Available|
      && r.value.held == |set s | s in later.seats && s.event == e && later.seats[s] == Held|
      && r.value.booked == |set s | s in later.seats && s.event == e && later.seats[s] == Booked|
  {
    if e !in db.events || !db.events[e].published { return None; }
    var a := Availability(0, 0, 0);
    for i := 0 to |rows|
      invariant a == Availability(CountIn(rows[..i], Available), CountIn(rows[..i], Held), CountIn(rows[..i], Booked))
    {
      assert rows[..i + 1][..i] == rows[..i];
      match rows[i].status {
        case Available => a := a.(available := rows[i].count);
        case Held => a := a.(held := rows[i].count);
        case Booked => a := a.(booked := rows[i].count);
      }
    }
    assert rows[..|rows|] == rows;
    GroupedCounts(later, e, rows, Available);
    GroupedCounts(later, e, rows, Held);
    GroupedCounts(later, e, rows, Booked);
    return Some(a);
  }

  // ---- the numbers and the calls ---------------------------------------------------------

  /** Whatever has happened, the page of an event shows nobody holding a seat, and numbers that add up to its seats. */
  lemma ShownAddUp(st: State, actions: seq<Action>, e: Id)
    requires Init(st) && Run(st, actions, Any) && e in Final(st, actions, Any).db.events
    ensures var end := Final(st, actions, Any).db;
      var a := Counts(end, e);
      a.held == 0 && a.available + a.booked == end.events[e].totalSeats
  {
    SeatsAddUp(st, actions, e);
  }

  lemma {:induction false} AsManyKeys(event: Id, codes: seq<string>)
    requires Distinct(codes)
    ensures |Keys(event, codes)| == |codes|
  {
    if codes == [] {
      assert Keys(event, codes) == {};
    } else {
      var n := |codes| - 1;
      AsManyKeys(event, codes[..n]);
      assert codes == codes[..n] + [codes[n]];
      assert codes[n] !in codes[..n];
      assert Keys(event, codes) == Keys(event, codes[..n]) + {Seat(event, codes[n])};
    }
  }

  lemma Moves(before: set<Seat>, after: set<Seat>, seats: set<Seat>)
    requires seats <= before && after == before - seats
    ensures |after| == |before| - |seats|
  {
  }

  /** `sold` is `db` with these seats of one event, all AVAILABLE before, BOOKED. */
  predicate Sells(db: Db, sold: Db, event: Id, seats: set<Seat>) {
    && sold.seats.Keys == db.seats.Keys
    && (forall s :: s in seats ==> s.event == event && s in db.seats && db.seats[s] == Available)
    && (forall s :: s in db.seats ==> sold.seats[s] == if s in seats then Booked else db.seats[s])
  }

  lemma NoLongerAvailable(db: Db, sold: Db, event: Id, seats: set<Seat>, e: Id)
    requires Sells(db, sold, event, seats)
    ensures var moved := if e == event then seats else {};
      moved <= SeatsWith(db, e, Available) && SeatsWith(sold, e, Available) == SeatsWith(db, e, Available) - moved
  {
  }

  lemma NowBooked(db: Db, sold: Db, event: Id, seats: set<Seat>, e: Id)
    requires Sells(db, sold, event, seats)
    ensures var moved := if e == event then seats else {};
      moved <= SeatsWith(sold, e, Booked) && SeatsWith(db, e, Booked) == SeatsWith(sold, e, Booked) - moved
  {
  }

  lemma AvailableMove(db: Db, sold: Db, event: Id, seats: set<Seat>, e: Id)
    requires Sells(db, sold, event, seats)
    ensures |SeatsWith(db, e, Available)| ==
      |SeatsWith(sold, e, Available)| + if e == event then |seats| else 0
  {
    NoLongerAvailable(db, sold, event, seats, e);
    Moves(SeatsWith(db, e, Available), SeatsWith(sold, e, Available), if e == event then seats else {});
  }

  lemma BookedMove(db: Db, sold: Db, event: Id, seats: set<Seat>, e: Id)
    requires Sells(db, sold, event, seats)
    ensures |SeatsWith(sold, e, Booked)| == |SeatsWith(db, e, Booked)| + if e == event then |seats| else 0
  {
    NowBooked(db, sold, event, seats, e);
    Moves(SeatsWith(sold, e, Booked), SeatsWith(db, e, Booked), if e == event then seats else {});
  }

  lemma CountsMove(db: Db, sold: Db, event: Id, seats: set<Seat>, e: Id)
    requires Sells(db, sold, event, seats)
    ensures var n := if e == event then |seats| else 0;
      && Counts(db, e).available == Counts(sold, e).available + n
      && Counts(sold, e).booked == Counts(db, e).booked + n
      && Counts(sold, e).held == Counts(db, e).held
  {
    AvailableMove(db, sold, event, seats, e);
    BookedMove(db, sold, event, seats, e);
    assert SeatsWith(sold, e, Held) == SeatsWith(db, e, Held);
  }

  lemma CreatedSells(w: Snapshot, now: nat, ttl: nat, event: Id, seatCodes: seq<string>, ids: Ids, trouble: Trouble)
    requires CreateBooking(w, now, ttl, event, seatCodes, ids, trouble).1.Created?
    ensures Sells(w.db, CreateBooking(w, now, ttl, event, seatCodes, ids, trouble).0.db, event,
      Keys(event, Unique(seatCodes)))
  {
    CreatedLeaves(w, now, ttl, event, seatCodes, ids, trouble);
    CreateAnswers(w, now, ttl, event, seatCodes, ids, trouble);
    assert forall s :: s in Keys(event, Unique(seatCodes)) <==> s.event == event && s.code in seatCodes;
  }

  /** A booking moves as many seats of its event as it names from AVAILABLE to BOOKED, and none of any other event. */
  lemma BookingMovesCounts(w: Snapshot, now: nat, ttl: nat, event: Id, seatCodes: seq<string>, ids: Ids,
                           trouble: Trouble, e: Id)
    requires CreateBooking(w, now, ttl, event, seatCodes, ids, trouble).1.Created?
    ensures var after := CreateBooking(w, now, ttl, event, seatCodes, ids, trouble).0;
      var n := if e == event then |Unique(seatCodes)| else 0;
      && Counts(w.db, e).available == Counts(after.db, e).available + n
      && Counts(after.db, e).booked == Counts(w.db, e).booked + n
      && Counts(after.db, e).held == Counts(w.db, e).held
  {
    var sold := CreateBooking(w, now, ttl, event, seatCodes, ids, trouble).0.db;
    CreatedSells(w, now, ttl, event, seatCodes, ids, trouble);
    AsManyKeys(event, Unique(seatCodes));
    CountsMove(w.db, sold, event, Keys(event, Unique(seatCodes)), e);
  }

  /** A cancel moves the seats of its booking back, if they are BOOKED. */
  lemma CancelMovesCounts(w: Snapshot, bid: Id, byAdmin: bool, e: Id)
    requires bid in w.db.bookings && w.db.bookings[bid].status != Cancelled
    requires forall s :: s in w.db.bookings[bid].seats ==>
      s.event == w.db.bookings[bid].event && s in w.db.seats && w.db.seats[s] == Booked
    ensures var after := CancelBooking(w, bid, byAdmin).0;
      var n := if e == w.db.bookings[bid].event then |w.db.bookings[bid].seats| else 0;
      && Counts(after.db, e).available == Counts(w.db, e).available + n
      && Counts(w.db, e).booked == Counts(after.db, e).booked + n
      && Counts(after.db, e).held == Counts(w.db, e).held
  {
    CancelExactly(w, bid, byAdmin);
    var b := w.db.bookings[bid];
    CountsMove(CancelBooking(w, bid, byAdmin).0.db, w.db, b.event, b.seats, e);
  }
}
