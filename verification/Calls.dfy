/** What one call of a service does to both stores when nothing else runs meanwhile, as functions. */
module Calls {
  import opened Store
  import opened Protocol

  /** Both stores at one moment. */
  datatype Snapshot = Snapshot(db: Db, locks: Locks, queue: seq<Id>)

  function Repeated<T(==)>(s: seq<T>, i: nat): bool
    requires i < |s|
  {
    s[i] in s[..i]
  }

  /** The first code at or after `from` that is locked or that the list names a second time; `|codes|` if there is
      none. */
  function FirstConflict(locks: Locks, event: Id, codes: seq<string>, from: nat): (i: nat)
    requires from <= |codes|
    ensures from <= i <= |codes|
    ensures forall k :: from <= k < i ==> Seat(event, codes[k]) !in locks && !Repeated(codes, k)
    ensures i < |codes| ==> Seat(event, codes[i]) in locks || Repeated(codes, i)
    decreases |codes| - from
  {
    if from == |codes| || Seat(event, codes[from]) in locks || Repeated(codes, from) then from
    else FirstConflict(locks, event, codes, from + 1)
  }

  function Keys(event: Id, codes: seq<string>): set<Seat> {
    set c | c in codes :: Seat(event, c)
  }

  function Locked(locks: Locks, seats: set<Seat>, l: Lock): Locks {
    locks + map s | s in seats :: l
  }

  /** `locks` is `before` and, besides, `mine` on the seats with these codes, none of which was locked. */
  ghost predicate Extends(locks: Locks, before: Locks, event: Id, codes: seq<string>, mine: Lock) {
    && (forall s :: s in before ==> s in locks && locks[s] == before[s])
    && (forall c :: c in codes ==>
          Seat(event, c) !in before && Seat(event, c) in locks && locks[Seat(event, c)] == mine)
    && (forall s :: s in locks && s !in before ==> s.event == event && s.code in codes)
  }

  lemma ExtendsMeans(locks: Locks, before: Locks, event: Id, codes: seq<string>, mine: Lock)
    requires Extends(locks, before, event, codes, mine)
    ensures locks == Locked(before, Keys(event, codes), mine)
    ensures locks - Keys(event, codes) == before
  {
  }

  lemma ExtendsOneMore(locks: Locks, before: Locks, event: Id, codes: seq<string>, code: string, mine: Lock)
    requires Extends(locks, before, event, codes, mine) && Seat(event, code) !in locks
    ensures Extends(locks[Seat(event, code) := mine], before, event, codes + [code], mine)
  {
  }

  datatype LockResult = AllLocked | Conflict(code: string)

  /** All or nothing: these seats locked alike, or the first conflict and every lock as it was. */
  function LockAll(locks: Locks, event: Id, codes: seq<string>, l: Lock): (Locks, LockResult) {
    var i := FirstConflict(locks, event, codes, 0);
    if i == |codes| then (Locked(locks, Keys(event, codes), l), AllLocked) else (locks, Conflict(codes[i]))
  }

  /** Success sets just these keys; failure leaves every lock alone and names the first code that was held, or that
      the list repeats.  It succeeds exactly when no code is held and none is repeated. */
  lemma LockAllOrNothing(locks: Locks, event: Id, codes: seq<string>, l: Lock)
    ensures var (after, r) := LockAll(locks, event, codes, l);
      && (r == AllLocked <==> Distinct(codes) && forall c :: c in codes ==> Seat(event, c) !in locks)
      && (r == AllLocked ==> forall s: Seat ::
            if s.event == event && s.code in codes then s in after && after[s] == l
            else (s in after <==> s in locks) && (s in locks ==> after[s] == locks[s]))
      && (r.Conflict? ==> after == locks && exists i: nat :: FirstHeld(locks, event, codes, i) && r.code == codes[i])
  {
  }

  predicate FirstHeld(locks: Locks, event: Id, codes: seq<string>, i: nat) {
    && i < |codes| && (Seat(event, codes[i]) in locks || Repeated(codes, i))
    && forall k :: 0 <= k < i ==> Seat(event, codes[k]) !in locks && !Repeated(codes, k)
  }

  /** `acquireLocks` after its first `n` steps. */
  ghost predicate Acquiring(locks: Locks, before: Locks, event: Id, codes: seq<string>, n: nat, mine: Lock)
    requires n <= |codes|
  {
    && Extends(locks, before, event, codes[..n], mine)
    && FirstConflict(before, event, codes, 0) == FirstConflict(before, event, codes, n)
  }

  lemma AcquiringDone(locks: Locks, before: Locks, event: Id, codes: seq<string>, mine: Lock)
    requires Acquiring(locks, before, event, codes, |codes|, mine)
    ensures LockAll(before, event, codes, mine) == (locks, AllLocked)
  {
    assert codes[..|codes|] == codes;
    ExtendsMeans(locks, before, event, codes, mine);
  }

  lemma AcquiringNext(locks: Locks, before: Locks, event: Id, codes: seq<string>, n: nat, mine: Lock)
    requires n < |codes| && Acquiring(locks, before, event, codes, n, mine)
    ensures codes[..n + 1] == codes[..n] + [codes[n]]
    ensures
      if Seat(event, codes[n]) in locks then
        LockAll(before, event, codes, mine) == (locks - Keys(event, codes[..n]), Conflict(codes[n]))
      else Acquiring(locks[Seat(event, codes[n]) := mine], before, event, codes, n + 1, mine)
  {
    ExtendsNext(locks, before, event, codes, n, mine);
  }

  /** Having locked the first `n` codes, the next one is either the first conflict, and taking those locks back
      leaves what was there, or locked like them. */
  lemma ExtendsNext(locks: Locks, before: Locks, event: Id, codes: seq<string>, n: nat, mine: Lock)
    requires n < |codes| && Extends(locks, before, event, codes[..n], mine)
    ensures
      if Seat(event, codes[n]) in locks then
        FirstConflict(before, event, codes, n) == n && locks - Keys(event, codes[..n]) == before
      else
        && FirstConflict(before, event, codes, n) == FirstConflict(before, event, codes, n + 1)
        && Extends(locks[Seat(event, codes[n]) := mine], before, event, codes[..n + 1], mine)
  {
    ExtendsMeans(locks, before, event, codes[..n], mine);
    if Seat(event, codes[n]) !in locks {
      ExtendsOneMore(locks, before, event, codes[..n], codes[n], mine);
      assert codes[..n + 1] == codes[..n] + [codes[n]];
    }
  }

  /** Of distinct codes, the next one is free if it was to begin with. */
  lemma StillFree(locks: Locks, before: Locks, event: Id, codes: seq<string>, n: nat, mine: Lock)
    requires n < |codes| && Distinct(codes) && Extends(locks, before, event, codes[..n], mine)
    ensures Seat(event, codes[n]) in locks <==> Seat(event, codes[n]) in before
  {
    assert codes[n] !in codes[..n];
  }


  /** The distinct elements of `s`, each where it first occurs. */
  function Unique(s: seq<string>): (u: seq<string>)
    ensures Distinct(u)
    ensures forall x :: x in u <==> x in s
  {
    if s == [] then []
    else
      var front := Unique(s[..|s| - 1]);
      var last := s[|s| - 1];
      assert s == s[..|s| - 1] + [last];
      if last in front then front else front + [last]
  }

  datatype Ids = Ids(token: Id, booking: Id, job: Id)

  datatype Trouble = NoTrouble | TransactionFails | PushFails

  datatype Outcome =
    | NotFound
    | UnknownSeats(missing: seq<string>)
    | AlreadyTaken(seats: set<string>)
    | HeldByAnother(code: string)
    | ServerError
    | Created(booking: Id)

  function NewBooking(event: Id, codes: seq<string>, token: Id): Booking {
    Booking(event, Keys(event, codes), Pending, None, token)
  }

  /** `createBooking` from the lock attempt on. */
  function Reserve(w: Snapshot, now: nat, ttl: nat, event: Id, codes: seq<string>, ids: Ids,
                   trouble: Trouble): (Snapshot, Outcome) {
    var conflict := FirstConflict(w.locks, event, codes, 0);
    var db := InsertBooking(w.db, ids.booking, ids.job, NewBooking(event, codes, ids.token), now);
    var locks := Locked(w.locks, Keys(event, codes), Lock(ids.token, now + ttl));
    if conflict < |codes| then (w, HeldByAnother(codes[conflict]))
    else if trouble == TransactionFails then (w, ServerError)
    else if trouble == PushFails then (w.(db := db), ServerError)
    else (Snapshot(db, locks, [ids.booking] + w.queue), Created(ids.booking))
  }

  /** The codes that name no seat of the event, in the order asked for. */
  function Missing(db: Db, event: Id, codes: seq<string>): (m: seq<string>)
    ensures forall c :: c in m <==> c in codes && Seat(event, c) !in db.seats
  {
    if codes == [] then []
    else
      var front, last := Missing(db, event, codes[..|codes| - 1]), codes[|codes| - 1];
      assert codes == codes[..|codes| - 1] + [last];
      if Seat(event, last) in db.seats then front else front + [last]
  }

  /** What `createBooking` does when nothing else runs meanwhile. */
  function CreateBooking(w: Snapshot, now: nat, ttl: nat, event: Id, seatCodes: seq<string>, ids: Ids, trouble: Trouble)
    : (Snapshot, Outcome)
  {
    var codes := Unique(seatCodes);
    var missing := Missing(w.db, event, codes);
    var taken := set c | c in codes && Seat(event, c) in w.db.seats && w.db.seats[Seat(event, c)] != Available;
    if event !in w.db.events || !w.db.events[event].published then (w, NotFound)
    else if missing != [] then (w, UnknownSeats(missing))
    else if taken != {} then (w, AlreadyTaken(taken))
    else Reserve(w, now, ttl, event, codes, ids, trouble)
  }

  predicate EventOpen(db: Db, event: Id) {
    event in db.events && db.events[event].published
  }

  predicate AllFree(db: Db, event: Id, codes: seq<string>) {
    forall c :: c in codes ==> Seat(event, c) in db.seats && db.seats[Seat(event, c)] == Available
  }

  lemma ReadsAgree(w: Snapshot, now: nat, ttl: nat, event: Id, seatCodes: seq<string>, ids: Ids, trouble: Trouble)
    ensures var codes := Unique(seatCodes);
      var (after, r) := CreateBooking(w, now, ttl, event, seatCodes, ids, trouble);
      if EventOpen(w.db, event) && AllFree(w.db, event, codes)
        then (after, r) == Reserve(w, now, ttl, event, codes, ids, trouble)
      else after == w && !r.Created?
  {
    var codes := Unique(seatCodes);
    var missing := Missing(w.db, event, codes);
    var taken := set c | c in codes && Seat(event, c) in w.db.seats && w.db.seats[Seat(event, c)] != Available;
    if missing != [] {
      assert missing[0] in missing;
      assert !AllFree(w.db, event, codes);
    } else if taken != {} {
      var c :| c in taken;
      assert !AllFree(w.db, event, codes);
    } else {
      forall c | c in codes ensures Seat(event, c) in w.db.seats && w.db.seats[Seat(event, c)] == Available {
        assert c !in missing && c !in taken;
      }
    }
  }

  datatype CancelOutcome = NoSuchBooking | AlreadyCancelled | CancelDone

  /** A customer's cancel also deletes the locks; an admin's does not. */
  function CancelBooking(w: Snapshot, bid: Id, byAdmin: bool): (Snapshot, CancelOutcome) {
    if bid !in w.db.bookings then (w, NoSuchBooking)
    else if !Active(w.db.bookings[bid]) then (w, AlreadyCancelled)
    else (w.(db := CancelRows(w.db, bid), locks := if byAdmin then w.locks else w.locks - w.db.bookings[bid].seats),
      CancelDone)
  }

  /** How one call of `processJob` may go wrong: its `n`-th write throws or the process dies before it. */
  datatype Mishap = Fine | ThrowAt(n: nat) | DieAt(n: nat)

  function Later(m: Mishap): Mishap {
    match m
    case Fine => Fine
    case ThrowAt(n) => if n == 0 then Fine else ThrowAt(n - 1)
    case DieAt(n) => if n == 0 then Fine else DieAt(n - 1)
  }

  function Remaining(pc: Pc): nat {
    match pc
    case Idle => 0
    case FailingJob(_) => 2
    case FailingBooking(_) => 1
    case Starting(_) => 5
    case Confirming(_) => 4
    case Notifying(_) => 3
    case Unlocking(_) => 2
    case Finishing(_) => 1
    case Catching(_) => 1
  }

  /** Every job's booking exists. */
  predicate JobsPresent(db: Db) {
    forall j :: j in db.jobs ==> db.jobs[j].booking in db.bookings
  }

  /** The rest of `processJob` from `pc`: its writes one after the other, with the catch block on a throw in the try.  A
      throw elsewhere, like a death, just ends it. */
  function Drive(db: Db, locks: Locks, pc: Pc, qr: Option<string>, m: Mishap): (Db, Locks)
    requires pc.Idle? || JobPresent(db, pc.job)
    decreases Remaining(pc)
  {
    if pc.Idle? || m == DieAt(0) then (db, locks)
    else if m == ThrowAt(0) then (if Guarded(pc) then SetJobStatus(db, pc.job, JobPending) else db, locks)
    else
      var (db', locks', next) := JobWrite(db, locks, pc, qr);
      Drive(db', locks', next, qr, Later(m))
  }

  /** `Drive` past one write that goes well. */
  lemma DriveOn(db: Db, locks: Locks, pc: Pc, qr: Option<string>, m: Mishap)
    requires !pc.Idle? && JobPresent(db, pc.job) && m != DieAt(0) && m != ThrowAt(0)
    ensures var (db', locks', next) := JobWrite(db, locks, pc, qr);
      (next.Idle? || JobPresent(db', next.job)) && Drive(db, locks, pc, qr, m) == Drive(db', locks', next, qr, Later(m))
  {
  }

  function ProcessJob(db: Db, locks: Locks, max: nat, j: Id, qr: Option<string>, m: Mishap): (Db, Locks)
    requires JobsPresent(db)
  {
    Drive(db, locks, Loaded(Config(0, 0, max), db, j), qr, m)
  }

  /** One call of `processJob` and what goes wrong in it. */
  datatype JobCall = JobCall(job: Id, qr: Option<string>, m: Mishap)

  function JobsOf(calls: seq<JobCall>): seq<Id> {
    seq(|calls|, i requires 0 <= i < |calls| => calls[i].job)
  }

  /** The call returns normally: nothing goes wrong, or only inside the try block. */
  predicate Returns(pc: Pc, m: Mishap) {
    match m
    case Fine => true
    case ThrowAt(n) => n >= Remaining(pc) || Guarded(pc) || (pc.Starting? && n >= 1)
    case DieAt(n) => n >= Remaining(pc)
  }

  lemma {:induction false} DriveKeepsRows(db: Db, locks: Locks, pc: Pc, qr: Option<string>, m: Mishap)
    requires pc.Idle? || JobPresent(db, pc.job)
    ensures var out := Drive(db, locks, pc, qr, m).0;
      RowsKept(db, out) && out.jobs.Keys == db.jobs.Keys && out.bookings.Keys == db.bookings.Keys
    decreases Remaining(pc)
  {
    if !pc.Idle? && m != DieAt(0) && m != ThrowAt(0) {
      var (db', locks', next) := JobWrite(db, locks, pc, qr);
      JobWriteKeepsRows(db, locks, pc, qr);
      DriveKeepsRows(db', locks', next, qr, Later(m));
      RowsKeptTwice(db, db', Drive(db', locks', next, qr, Later(m)).0);
    }
  }

  lemma RowsKeptTwice(a: Db, b: Db, c: Db)
    requires RowsKept(a, b) && RowsKept(b, c)
    ensures RowsKept(a, c)
  {
  }

  /** The calls one after the other; one that does not return ends the batch. */
  function ProcessAll(db: Db, locks: Locks, max: nat, calls: seq<JobCall>): (Db, Locks)
    requires JobsPresent(db)
    decreases |calls|
  {
    if calls == [] then (db, locks)
    else
      var c := calls[0];
      var pc := Loaded(Config(0, 0, max), db, c.job);
      var (db', locks') := ProcessJob(db, locks, max, c.job, c.qr, c.m);
      DriveKeepsRows(db, locks, pc, c.qr, c.m);
      if Returns(pc, c.m) then ProcessAll(db', locks', max, calls[1..]) else (db', locks')
  }

  /** A request that does not succeed leaves seats, bookings, jobs, locks and queue as they were, unless its push failed
      after the commit: then the booking stays, its seats BOOKED, and only its locks are gone. */
  lemma FailureLeavesStores(w: Snapshot, now: nat, ttl: nat, event: Id, seatCodes: seq<string>, ids: Ids,
                            trouble: Trouble)
    requires ids.booking !in w.db.bookings
    ensures var (after, r) := CreateBooking(w, now, ttl, event, seatCodes, ids, trouble);
      var codes := Unique(seatCodes);
      var committed := EventOpen(w.db, event) && AllFree(w.db, event, codes)
        && FirstConflict(w.locks, event, codes, 0) == |codes| && trouble != TransactionFails;
      && (after == w <==> !committed)
      && (r.Created? <==> committed && trouble == NoTrouble)
      && (after.locks == w.locks || r.Created?)
      && (committed ==> forall c :: c in codes ==> after.db.seats[Seat(event, c)] == Booked)
  {
    ReadsAgree(w, now, ttl, event, seatCodes, ids, trouble);
    var (after, r) := CreateBooking(w, now, ttl, event, seatCodes, ids, trouble);
    assert ids.booking in after.db.bookings ==> after != w;
    assert forall c :: c in Unique(seatCodes) ==> Seat(event, c) in Keys(event, Unique(seatCodes));
  }
}
