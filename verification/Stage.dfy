/** The stage for runs that go wrong: one event with one seat, the hypotheses they meet, and their moves. */
module Stage {
  import opened Store
  import opened Protocol
  import opened Safety
  import opened Timing
  import opened Always
  import opened Calls
  import opened Solo

  predicate DoubleBooked(db: Db, s: Seat) {
    |Owners(db, s)| > 1
  }

  lemma TwoOwners(db: Db, s: Seat, b: Id, c: Id)
    requires b != c && Owns(db, b, s) && Owns(db, c, s)
    ensures DoubleBooked(db, s)
  {
    assert {b, c} <= Owners(db, s);
    assert |Owners(db, s) - {b, c}| == |Owners(db, s)| - 2;
  }

  // ---- the hypotheses, all but one -------------------------------------------------------

  /** The half of the fence about whoever has taken the lock. */
  ghost predicate HolderFence(st: State, a: Action, after: State) {
    forall s :: s in st.locks && s !in after.locks ==> HolderIdle(st, s)
  }

  /** The half of the fence about whoever has booked the seat. */
  ghost predicate OwnerFence(st: State, a: Action, after: State) {
    forall s :: s in st.locks && s !in after.locks ==> ReadersOver(st, after, s)
  }

  lemma FenceIsBoth(st: State, a: Action, after: State)
    ensures Fence(st, a, after) <==> HolderFence(st, a, after) && OwnerFence(st, a, after)
  {
    if Fence(st, a, after) {
      assert forall s :: s in st.locks && s !in after.locks ==> Unfenced(st, after, s);
    }
  }

  /** `CancelAfterJob` as far as the job row shows: a processor may still be inside. */
  ghost predicate CancelAfterRow(st: State, a: Action, after: State) {
    a.Canceller? && a.cstep.WriteCancel? && a.cid in st.cancels ==>
      forall j :: j in st.db.jobs && st.db.jobs[j].booking == st.cancels[a.cid].booking ==> Terminal(st.db.jobs[j])
  }

  /** What a run does without: the fence, or its half about holders; pushes that succeed; cancels that follow the
      job, or that follow it further than its row shows; cancels in one piece; jobs that the sweep would pick; a
      queue that holds only what was pushed. */
  datatype Dropped = TheFence | HolderHalf | GoodPush | LateCancel | EmptyJob | WholeCancel | SweptJob | OwnMessages

  /** All that `Timing` assumes of a step and all that `Safety` does, without that one.  A lock that goes where a failed
      push or a stray message takes it is what the fence forbids, so there the half about bookings goes too. */
  ghost predicate AllBut(x: Dropped, d: nat, st: State, a: Action, after: State) {
    && Timely(after, d)
    && (x.GoodPush? || PushWorks(st, a, after))
    && (x.OwnMessages? || OwnQueue(st, a, after))
    && (x.WholeCancel? || (AtomicCancel(st, a, after) && FreshCancel(st, a, after)))
    && (x.LateCancel? || CancelAfterRow(st, a, after))
    && (x.LateCancel? || x.EmptyJob? || CancelAfterJob(st, a, after))
    && (x.SweptJob? || SweepChosen(st, a, after))
    && (x.TheFence? || x.HolderHalf? || HolderFence(st, a, after))
    && (x.TheFence? || x.GoodPush? || x.OwnMessages? || OwnerFence(st, a, after))
  }

  /** To drop none is to meet all that `Timing` assumes and all that `Safety` does. */
  lemma DroppingNone(d: nat, st: State, a: Action, after: State)
    ensures (forall x :: AllBut(x, d, st, a, after)) <==> InTime(d, st, a, after) && Guards(st, a, after)
  {
    FenceIsBoth(st, a, after);
    if forall x :: AllBut(x, d, st, a, after) {
      assert AllBut(TheFence, d, st, a, after) && AllBut(LateCancel, d, st, a, after);
    }
  }

  ghost function But(x: Dropped, d: nat): Hypothesis {
    (st, a, after) => AllBut(x, d, st, a, after)
  }

  // ---- the cast --------------------------------------------------------------------------

  const SEAT := Seat(1, "A")
  const CODES: seq<string> := ["A"]

  /** The empty stores with this configuration and crew. */
  function Blank(cfg: Config, workers: map<Id, Worker>): State {
    State(cfg, 0, EMPTY_DB, map[], [], map[], map[], workers, {})
  }

  function OnSale(cfg: Config, workers: map<Id, Worker>): State {
    Blank(cfg, workers).(db := EMPTY_DB.(events := map[1 := Event(true, 1)], seats := map[SEAT := Available]),
      used := {1})
  }

  const CREATE := World(CreateEvent(1, {"A"}))
  const PUBLISH := World(SetPublished(1, true))

  /** The event is created with its one seat and published. */
  lemma OpenAnEvent(cfg: Config, workers: map<Id, Worker>, h: Hypothesis) returns (actions: seq<Action>)
    requires var st := Blank(cfg, workers);
      h(st, CREATE, Next(st, CREATE)) && h(Next(st, CREATE), PUBLISH, OnSale(cfg, workers))
    ensures Leads(Blank(cfg, workers), actions, h, OnSale(cfg, workers))
  {
    var st := Blank(cfg, workers);
    var mid := Next(st, CREATE);
    assert mid.db.seats == map[SEAT := Available];
    LeadsOne(st, CREATE, h);
    assert Next(mid, PUBLISH) == OnSale(cfg, workers);
    LeadsStep(st, [CREATE], mid, PUBLISH, OnSale(cfg, workers), h);
    actions := [CREATE] + [PUBLISH];
  }

  const CREW: map<Id, Worker> := map[0 := Worker([], Idle), 1 := Worker([], Idle)]

  /** What booking the seat adds to a state. */
  function Booked1(st: State, ids: Ids): State {
    AfterRequest(st, ids.token, Asked(1, CODES, st.now, Succeeded(ids.booking)),
      Persisted(st, 1, CODES, ids).(queue := [ids.booking] + st.queue), {ids.token} + {ids.booking, ids.job} + {})
  }

  predicate Bookable1(st: State, ids: Ids) {
    && CanSubmit(st, CODES, ids) && EventOpen(st.db, 1)
    && SEAT in st.db.seats && st.db.seats[SEAT] == Available && SEAT !in st.locks
  }

  lemma CodesFacts()
    ensures Keys(1, CODES) == {SEAT} && SetOf(SeatSeq(1, CODES)) == {SEAT} && SeatSeq(1, CODES)[0] == SEAT
    ensures |SeatSeq(1, CODES)| == 1
  {
    assert CODES[0] in CODES;
    assert forall c :: c in CODES ==> c == "A";
    SeatSeqKeys(1, CODES);
  }

  lemma BooksAlone(st: State, ids: Ids) returns (actions: seq<Action>)
    requires Bookable1(st, ids)
    ensures Leads(st, actions, Growing(ids.token), Booked1(st, ids))
  {
    FreeSeat(st, ids);
    actions := SoloBooks(st, 1, CODES, ids);
  }

  lemma FreeSeat(st: State, ids: Ids)
    requires Bookable1(st, ids)
    ensures AllFree(st.db, 1, CODES) && FirstConflict(st.locks, 1, CODES, 0) == |CODES|
  {
    assert forall c :: c in CODES ==> c == "A";
  }

  /** What reading the seat AVAILABLE, and what locking it too, adds to a state. */
  function Read1(st: State, rid: Id): State {
    AfterRequest(st, rid, Asked(1, CODES, st.now, Locking(0)), SnapshotOf(st), {rid})
  }

  function Locked1(st: State, rid: Id): State {
    AfterRequest(st, rid, Asked(1, CODES, st.now, Locking(1)),
      SnapshotOf(st).(locks := st.locks[SEAT := Lock(rid, st.now + st.cfg.ttl)]), {rid})
  }

  lemma ReadTheSeat(st: State, ids: Ids) returns (actions: seq<Action>)
    requires Bookable1(st.(locks := map[]), ids)
    ensures Leads(st, actions, Growing(ids.token), Read1(st, ids.token))
  {
    FreeSeat(st.(locks := map[]), ids);
    actions := SoloReads(st, 1, CODES, ids);
  }

  lemma LockTheSeat(st: State, ids: Ids) returns (actions: seq<Action>)
    requires Bookable1(st, ids)
    ensures Leads(st, actions, Growing(ids.token), Locked1(st, ids.token))
  {
    CodesFacts();
    FreeSeat(st, ids);
    var locks;
    actions, locks := SoloToLocks(st, 1, CODES, ids);
    assert CODES[..1] == CODES;
    ExtendsMeans(locks, st.locks, 1, CODES, Lock(ids.token, st.now + st.cfg.ttl));
  }

  lemma CommitTheSeat(st: State, rid: Id, readAt: nat, bid: Id, jid: Id)
    requires rid in st.requests && st.requests[rid] == Asked(1, CODES, readAt, Locking(1))
    requires bid !in st.used && jid !in st.used && bid != jid && 1 in st.db.events && SEAT in st.db.seats
    ensures CommitEnabled(st, rid, bid, jid)
    ensures Owns(CommitNext(st, rid, bid, jid).db, bid, SEAT)
    ensures forall b :: b != bid && Owns(st.db, b, SEAT) ==> Owns(CommitNext(st, rid, bid, jid).db, b, SEAT)
  {
    CodesFacts();
  }

  /** A run from the empty stores with this configuration that meets `h` and books the seat twice. */
  ghost predicate SellsTwice(cfg: Config, st: State, actions: seq<Action>, h: Hypothesis) {
    Init(st) && st.cfg == cfg && Run(st, actions, h) && DoubleBooked(Final(st, actions, h).db, SEAT)
  }

  // ---- steps that no hypothesis objects to -----------------------------------------------

  /** No time passes, no lock goes, nothing of a cancel happens, and a request that becomes pending has just read. */
  ghost predicate Harmless(st: State, a: Action, after: State) {
    && !a.CheckCancel? && !a.Canceller?
    && PushWorks(st, a, after) && OwnQueue(st, a, after) && SweepChosen(st, a, after)
    && after.now == st.now && after.cancels == st.cancels && st.locks.Keys <= after.locks.Keys
    && forall r :: r in after.requests && Timing.Pending(after.requests[r]) ==> JustRead(st, after, r)
  }

  predicate JustRead(st: State, after: State, r: Id)
    requires r in after.requests
  {
    || after.requests[r].readAt == after.now
    || (r in st.requests && Timing.Pending(st.requests[r]) && after.requests[r].readAt == st.requests[r].readAt)
  }

  /** Every request is in time, and no cancel is under way unless cancels come in pieces. */
  ghost predicate Calm(x: Dropped, st: State, d: nat) {
    Timely(st, d) && (x.WholeCancel? || forall c :: c in st.cancels ==> st.cancels[c].phase.Ended?)
  }

  lemma HarmlessStep(x: Dropped, st: State, a: Action, after: State, d: nat)
    requires Calm(x, st, d) && Harmless(st, a, after)
    ensures AllBut(x, d, st, a, after) && Calm(x, after, d)
  {
    forall r | r in after.requests && Timing.Pending(after.requests[r])
      ensures after.now <= after.requests[r].readAt + d
    {
      assert JustRead(st, after, r);
    }
  }

  lemma {:induction false} HarmlessRun(x: Dropped, st: State, actions: seq<Action>, d: nat, end: State)
    requires Calm(x, st, d) && Leads(st, actions, Harmless, end)
    ensures Leads(st, actions, But(x, d), end) && Calm(x, end, d)
    decreases |actions|
  {
    if actions != [] {
      HarmlessStep(x, st, actions[0], Next(st, actions[0]), d);
      HarmlessRun(x, Next(st, actions[0]), actions[1..], d, end);
    }
  }

  lemma RequestHarmless(st: State, rid: Id, step: RequestStep)
    requires RequestEnabled(st, rid, step) && !step.FailPush? && st.locks.Keys <= RequestNext(st, rid, step).locks.Keys
    ensures Harmless(st, Booker(rid, step), RequestNext(st, rid, step))
  {
  }

  lemma {:induction false} GrowingHarmless(st: State, actions: seq<Action>, rid: Id, end: State)
    requires Leads(st, actions, Growing(rid), end)
    ensures Leads(st, actions, Harmless, end)
    decreases |actions|
  {
    if actions != [] {
      if actions[0].Booker? {
        RequestHarmless(st, rid, actions[0].rstep);
      } else {
        assert Harmless(st, actions[0], Next(st, actions[0]));
      }
      GrowingHarmless(Next(st, actions[0]), actions[1..], rid, end);
    }
  }

  // ---- attempts --------------------------------------------------------------------------

  /** Job 4 of booking 3 has been attempted `a` times, and the crew is here. */
  function Worked(st: State, crew: map<Id, Worker>, a: nat, s: JobStatus): State {
    st.(workers := crew, db := st.db.(jobs := map[4 := Job(3, s, a, 0)]))
  }

  predicate Waits(st: State) {
    3 in st.db.bookings && st.cfg.threshold < st.now
  }

  // ---- one failed attempt after another --------------------------------------------------

  lemma LoadsJob(st: State, crew: map<Id, Worker>, w: Id, a: nat)
    requires Waits(st) && a < st.cfg.maxAttempts && w in crew && crew[w] == Worker([], Idle)
    ensures var mid := Worked(st, crew, a, JobPending);
      Leads(mid, [Processor(w, Sweep([4]))] + [Processor(w, Load)], Harmless,
        Worked(st, crew[w := Worker([], Starting(4))], a, JobPending))
  {
    var s0 := Worked(st, crew, a, JobPending);
    var s1 := Worked(st, crew[w := Worker([4], Idle)], a, JobPending);
    var s2 := Worked(st, crew[w := Worker([], Starting(4))], a, JobPending);
    assert WorkerEnabled(s0, w, Sweep([4])) && WorkerNext(s0, w, Sweep([4])) == s1;
    LeadsOne(s0, Processor(w, Sweep([4])), Harmless);
    assert [4][1..] == [];
    assert s1.workers[w := Worker([], Starting(4))] == s2.workers;
    assert LoadNext(s1, w) == s2;
    LeadsStep(s0, [Processor(w, Sweep([4]))], s1, Processor(w, Load), s2, Harmless);
  }

  lemma StartsJob(st: State, crew: map<Id, Worker>, w: Id, a: nat, s: JobStatus)
    requires Waits(st) && w in crew && crew[w] == Worker([], Starting(4))
    ensures Leads(Worked(st, crew, a, s), [Processor(w, Write(None))], Harmless,
      Worked(st, crew[w := Worker([], Confirming(4))], a + 1, JobProcessing))
  {
    var s0 := Worked(st, crew, a, s);
    assert StartAttempt(s0.db, 4).jobs == map[4 := Job(3, JobProcessing, a + 1, 0)];
    assert WriteNext(s0, w, None) == Worked(st, crew[w := Worker([], Confirming(4))], a + 1, JobProcessing);
    LeadsOne(s0, Processor(w, Write(None)), Harmless);
  }

  lemma DropsJob(st: State, crew: map<Id, Worker>, w: Id, a: nat)
    requires Waits(st) && w in crew && crew[w] == Worker([], Confirming(4))
    ensures Leads(Worked(st, crew, a, JobProcessing), [Processor(w, Throw)] + [Processor(w, Write(None))], Harmless,
      Worked(st, crew[w := Worker([], Idle)], a, JobPending))
  {
    var s0 := Worked(st, crew, a, JobProcessing);
    var s1 := Worked(st, crew[w := Worker([], Catching(4))], a, JobProcessing);
    var s2 := Worked(st, crew[w := Worker([], Idle)], a, JobPending);
    LeadsOne(s0, Processor(w, Throw), Harmless);
    assert SetJobStatus(s1.db, 4, JobPending).jobs == map[4 := Job(3, JobPending, a, 0)];
    assert s1.workers[w := Worker([], Idle)] == s2.workers;
    assert WriteNext(s1, w, None) == s2;
    LeadsStep(s0, [Processor(w, Throw)], s1, Processor(w, Write(None)), s2, Harmless);
  }

  lemma FailsOnce(st: State, crew: map<Id, Worker>, a: nat) returns (actions: seq<Action>)
    requires Waits(st) && a < st.cfg.maxAttempts && 0 in crew && crew[0] == Worker([], Idle)
    ensures Leads(Worked(st, crew, a, JobPending), actions, Harmless, Worked(st, crew, a + 1, JobPending))
  {
    var c1, c2 := crew[0 := Worker([], Starting(4))], crew[0 := Worker([], Confirming(4))];
    LoadsJob(st, crew, 0, a);
    StartsJob(st, c1, 0, a, JobPending);
    assert c1[0 := Worker([], Confirming(4))] == c2;
    DropsJob(st, c2, 0, a + 1);
    assert c2[0 := Worker([], Idle)] == crew;
    actions := [Processor(0, Sweep([4]))] + [Processor(0, Load)];
    LeadsThen(Worked(st, crew, a, JobPending), actions, Worked(st, c1, a, JobPending), [Processor(0, Write(None))],
      Worked(st, c2, a + 1, JobProcessing), Harmless);
    actions := actions + [Processor(0, Write(None))];
    LeadsThen(Worked(st, crew, a, JobPending), actions, Worked(st, c2, a + 1, JobProcessing),
      [Processor(0, Throw)] + [Processor(0, Write(None))], Worked(st, crew, a + 1, JobPending), Harmless);
    actions := actions + ([Processor(0, Throw)] + [Processor(0, Write(None))]);
  }

  lemma {:induction false} FailsOften(st: State, crew: map<Id, Worker>, a: nat) returns (actions: seq<Action>)
    requires Waits(st) && a <= st.cfg.maxAttempts && 0 in crew && crew[0] == Worker([], Idle)
    ensures Leads(Worked(st, crew, 0, JobPending), actions, Harmless, Worked(st, crew, a, JobPending))
  {
    actions := [];
    if a > 0 {
      actions := FailsOften(st, crew, a - 1);
      var more := FailsOnce(st, crew, a - 1);
      LeadsThen(Worked(st, crew, 0, JobPending), actions, Worked(st, crew, a - 1, JobPending), more,
        Worked(st, crew, a, JobPending), Harmless);
      actions := actions + more;
    }
  }

  // ---- moves -----------------------------------------------------------------------------

  ghost predicate Reached(x: Dropped, d: nat, start: State, actions: seq<Action>, st: State) {
    Leads(start, actions, But(x, d), st) && Calm(x, st, d)
  }

  lemma Opens(x: Dropped, d: nat, cfg: Config, crew: map<Id, Worker>) returns (actions: seq<Action>)
    ensures Reached(x, d, Blank(cfg, crew), actions, OnSale(cfg, crew))
  {
    actions := OpenAnEvent(cfg, crew, But(x, d));
  }

  lemma Then(x: Dropped, d: nat, start: State, first: seq<Action>, st: State, more: seq<Action>, end: State)
    requires Reached(x, d, start, first, st) && Leads(st, more, Harmless, end)
    ensures Reached(x, d, start, first + more, end)
  {
    HarmlessRun(x, st, more, d, end);
    LeadsThen(start, first, st, more, end, But(x, d));
  }

  lemma ThenGrow(x: Dropped, d: nat, start: State, first: seq<Action>, st: State, rid: Id, more: seq<Action>,
                 end: State)
    requires Reached(x, d, start, first, st) && Leads(st, more, Growing(rid), end)
    ensures Reached(x, d, start, first + more, end)
  {
    GrowingHarmless(st, more, rid, end);
    Then(x, d, start, first, st, more, end);
  }

  /** Nobody has read the seat and has yet to commit. */
  predicate NobodyReads(st: State) {
    forall r :: r in st.requests ==> !st.requests[r].phase.Locking?
  }

  /** Time goes on, as long as that leaves every request in time and no reader without its lock. */
  lemma ThenWait(x: Dropped, d: nat, start: State, first: seq<Action>, st: State, n: nat)
    requires Reached(x, d, start, first, st) && Timely(Elapsed(st, n), d)
    requires x.TheFence? || NobodyReads(st) || (x.HolderHalf? && st.db.bookings == map[])
    ensures Reached(x, d, start, first + Ticks(n), Elapsed(st, n))
  {
    forall k: nat | k < n ensures AllBut(x, d, Elapsed(st, k), World(Tick), Elapsed(st, k + 1)) {
      assert Timely(Elapsed(st, k + 1), d);
    }
    TicksLead(st, n, But(x, d));
    LeadsThen(start, first, st, Ticks(n), Elapsed(st, n), But(x, d));
  }

  /** One step that the caller vouches for. */
  lemma ThenDo(x: Dropped, d: nat, start: State, first: seq<Action>, st: State, a: Action, end: State)
    requires Reached(x, d, start, first, st) && Enabled(st, a) && Next(st, a) == end
    requires AllBut(x, d, st, a, end) && Calm(x, end, d)
    ensures Reached(x, d, start, first + [a], end)
  {
    LeadsStep(start, first, st, a, end, But(x, d));
  }

  /** The transaction of a request that has locked the seat, now or long ago. */
  lemma CommitsSeat(x: Dropped, d: nat, start: State, first: seq<Action>, st: State, rid: Id, readAt: nat, bid: Id,
                    jid: Id)
    returns (actions: seq<Action>, end: State)
    requires Reached(x, d, start, first, st)
    requires rid in st.requests && st.requests[rid] == Asked(1, CODES, readAt, Locking(1))
    requires bid !in st.used && jid !in st.used && bid != jid && 1 in st.db.events && SEAT in st.db.seats
    ensures Reached(x, d, start, actions, end)
    ensures end == st.(db := end.db, requests := st.requests[rid := Asked(1, CODES, readAt, Written(bid))],
                       used := st.used + {bid, jid})
    ensures Owns(end.db, bid, SEAT) && forall b :: b != bid && Owns(st.db, b, SEAT) ==> Owns(end.db, b, SEAT)
    ensures 1 in end.db.events && SEAT in end.db.seats
  {
    CommitTheSeat(st, rid, readAt, bid, jid);
    end := CommitNext(st, rid, bid, jid);
    RequestHarmless(st, rid, Commit(bid, jid));
    LeadsOne(st, Booker(rid, Commit(bid, jid)), Harmless);
    Then(x, d, start, first, st, [Booker(rid, Commit(bid, jid))], end);
    actions := first + [Booker(rid, Commit(bid, jid))];
  }

  // ---- a cancel from beginning to end ----------------------------------------------------

  /** What the hypotheses that are left ask of the transaction of a cancel. */
  ghost predicate MayCancel(x: Dropped, st: State, bid: Id) {
    x.LateCancel? ||
    forall j :: j in st.db.jobs && st.db.jobs[j].booking == bid ==>
      (Terminal(st.db.jobs[j]) && (x.EmptyJob? || forall w :: w in st.workers ==> !Inside(st.workers[w], j)))
  }

  function AfterCancel(st: State, cid: Id, bid: Id, phase: CancelPhase): State
    requires bid in st.db.bookings
  {
    st.(cancels := st.cancels[cid := Cancel(bid, false, phase)], used := st.used + {cid},
        db := if phase.Checked? then st.db else CancelRows(st.db, bid),
        locks := if phase.Ended? then st.locks - st.db.bookings[bid].seats else st.locks)
  }

  lemma ThenCheck(x: Dropped, d: nat, start: State, first: seq<Action>, st: State, cid: Id, bid: Id)
    requires Leads(start, first, But(x, d), st) && Calm(x, st, d) && CheckEnabled(st, cid, bid)
    ensures Leads(start, first + [CheckCancel(cid, bid, false)], But(x, d), AfterCancel(st, cid, bid, Checked))
  {
    LeadsStep(start, first, st, CheckCancel(cid, bid, false), AfterCancel(st, cid, bid, Checked), But(x, d));
  }

  /** The cancel's transaction and its release; other cancels may be under way when cancels come in pieces. */
  lemma ThenWrite(x: Dropped, d: nat, start: State, first: seq<Action>, st: State, cid: Id, bid: Id)
    requires Leads(start, first, But(x, d), st) && Timely(st, d) && bid in st.db.bookings && MayCancel(x, st, bid)
    requires cid in st.cancels && st.cancels[cid] == Cancel(bid, false, Checked)
    requires x.WholeCancel? ||
      (Active(st.db.bookings[bid]) && forall c :: c in st.cancels && c != cid ==> st.cancels[c].phase.Ended?)
    ensures var end := CancelNext(st, cid, WriteCancel);
      && Leads(start, first + [Canceller(cid, WriteCancel)], But(x, d), end)
      && end == st.(db := CancelRows(st.db, bid), cancels := st.cancels[cid := Cancel(bid, false, ReleaseDue)])
  {
    LeadsStep(start, first, st, Canceller(cid, WriteCancel), CancelNext(st, cid, WriteCancel), But(x, d));
  }

  lemma ThenRelease(x: Dropped, d: nat, start: State, first: seq<Action>, st: State, cid: Id, bid: Id)
    requires Leads(start, first, But(x, d), st) && Timely(st, d) && bid in st.db.bookings && NobodyReads(st)
    requires cid in st.cancels && st.cancels[cid] == Cancel(bid, false, ReleaseDue)
    requires x.WholeCancel? || forall c :: c in st.cancels && c != cid ==> st.cancels[c].phase.Ended?
    ensures var end := CancelNext(st, cid, ReleaseAfterCancel);
      && Reached(x, d, start, first + [Canceller(cid, ReleaseAfterCancel)], end)
      && end == st.(locks := st.locks - st.db.bookings[bid].seats,
                    cancels := st.cancels[cid := Cancel(bid, false, Ended)])
  {
    var end := CancelNext(st, cid, ReleaseAfterCancel);
    LeadsStep(start, first, st, Canceller(cid, ReleaseAfterCancel), end, But(x, d));
  }

  lemma ThenCancel(x: Dropped, d: nat, start: State, first: seq<Action>, st: State, cid: Id, bid: Id)
    returns (actions: seq<Action>)
    requires Reached(x, d, start, first, st) && NobodyReads(st) && CheckEnabled(st, cid, bid) && MayCancel(x, st, bid)
    ensures Reached(x, d, start, actions, AfterCancel(st, cid, bid, Ended))
  {
    ThenCheck(x, d, start, first, st, cid, bid);
    actions := first + [CheckCancel(cid, bid, false)];
    var s1 := AfterCancel(st, cid, bid, Checked);
    ThenWrite(x, d, start, actions, s1, cid, bid);
    actions := actions + [Canceller(cid, WriteCancel)];
    var s2 := CancelNext(s1, cid, WriteCancel);
    ThenRelease(x, d, start, actions, s2, cid, bid);
    actions := actions + [Canceller(cid, ReleaseAfterCancel)];
    CancelsTwice(st, cid, bid);
  }

  /** What is left of a cancel for those who only look at the outcome. */
  ghost predicate CancelledSeat(st: State, end: State, cid: Id, bid: Id)
    requires bid in st.db.bookings
  {
    && end == st.(db := end.db, locks := st.locks - {SEAT}, cancels := st.cancels[cid := Cancel(bid, false, Ended)],
                  used := end.used)
    && (IdsBelow(st, cid) ==> IdsBelow(end, cid + 1))
    && end.db == st.db.(bookings := end.db.bookings, seats := end.db.seats)
    && end.db.bookings == st.db.bookings[bid := st.db.bookings[bid].(status := Cancelled)]
    && SEAT in end.db.seats && end.db.seats[SEAT] == Available
  }

  lemma Cancels(x: Dropped, d: nat, start: State, first: seq<Action>, st: State, cid: Id, bid: Id)
    returns (actions: seq<Action>, end: State)
    requires Reached(x, d, start, first, st) && NobodyReads(st) && CheckEnabled(st, cid, bid) && MayCancel(x, st, bid)
    requires st.db.bookings[bid].seats == {SEAT} && SEAT in st.db.seats
    ensures Reached(x, d, start, actions, end) && CancelledSeat(st, end, cid, bid)
  {
    actions := ThenCancel(x, d, start, first, st, cid, bid);
    end := AfterCancel(st, cid, bid, Ended);
  }

  lemma CancelsTwice(st: State, cid: Id, bid: Id)
    requires bid in st.db.bookings
    ensures AfterCancel(st, cid, bid, Ended) == AfterCancel(st, cid, bid, Checked).(db := CancelRows(st.db, bid),
      cancels := AfterCancel(st, cid, bid, Checked).cancels[cid := Cancel(bid, false, ReleaseDue)]
        [cid := Cancel(bid, false, Ended)],
      locks := st.locks - st.db.bookings[bid].seats)
  {
  }

  // ---- a processor -----------------------------------------------------------------------

  /** The sweep that finds just job 4, and the load. */
  lemma TakesUp(st: State, w: Id)
    requires w in st.workers && st.workers[w] == Worker([], Idle) && st.db.jobs.Keys == {4}
    requires Stuck(st.db, st.cfg.threshold, st.now, 4)
    ensures Leads(st, [Processor(w, Sweep([4]))] + [Processor(w, Load)], Harmless,
      st.(workers := st.workers[w := Worker([], Loaded(st.cfg, st.db, 4))]))
  {
    Sweeps(st, w);
    var mid := st.(workers := st.workers[w := Worker([4], Idle)]);
    var end := st.(workers := st.workers[w := Worker([], Loaded(st.cfg, st.db, 4))]);
    assert [4][1..] == [];
    assert mid.workers[w := end.workers[w]] == end.workers;
    LeadsStep(st, [Processor(w, Sweep([4]))], mid, Processor(w, Load), end, Harmless);
  }

  lemma Sweeps(st: State, w: Id)
    requires w in st.workers && st.workers[w] == Worker([], Idle) && st.db.jobs.Keys == {4}
    requires Stuck(st.db, st.cfg.threshold, st.now, 4)
    ensures Leads(st, [Processor(w, Sweep([4]))], Harmless, st.(workers := st.workers[w := Worker([4], Idle)]))
  {
    assert WorkerEnabled(st, w, Sweep([4]));
    LeadsOne(st, Processor(w, Sweep([4])), Harmless);
  }

  lemma Writes(st: State, w: Id)
    requires WriteEnabled(st, w) && !st.workers[w].pc.Unlocking?
    ensures Leads(st, [Processor(w, Write(None))], Harmless, WriteNext(st, w, None))
  {
    var (db, locks, pc) := JobWrite(st.db, st.locks, st.workers[w].pc, None);
    assert locks == st.locks;
    LeadsOne(st, Processor(w, Write(None)), Harmless);
  }

  /** What the writes of processor `w` on job 4 leave alone. */
  ghost predicate OnlyJobFour(st: State, end: State, w: Id) {
    && end == st.(db := end.db, workers := end.workers)
    && end.db.events == st.db.events && end.db.seats == st.db.seats
    && end.db.bookings.Keys == st.db.bookings.Keys && 3 in st.db.bookings
    && end.db.bookings[3].seats == st.db.bookings[3].seats
    && (forall b :: b in st.db.bookings && b != 3 ==> end.db.bookings[b] == st.db.bookings[b])
    && end.db.jobs.Keys == st.db.jobs.Keys
    && (forall j :: j in st.db.jobs && j != 4 ==> end.db.jobs[j] == st.db.jobs[j])
    && 4 in st.db.jobs && end.db.jobs[4].booking == st.db.jobs[4].booking
    && end.db.jobs[4].createdAt == st.db.jobs[4].createdAt
    && end.workers.Keys == st.workers.Keys
    && (forall v :: v in st.workers && v != w ==> end.workers[v] == st.workers[v])
  }

  /** The first write of a processor that has found the attempts used up. */
  lemma MarksJob(st: State, w: Id) returns (end: State)
    requires WriteEnabled(st, w) && st.workers[w] == Worker([], FailingJob(4)) && st.db.jobs[4].booking == 3
    ensures Leads(st, [Processor(w, Write(None))], Harmless, end) && OnlyJobFour(st, end, w)
    ensures end.workers[w] == Worker([], FailingBooking(4)) && end.db.jobs[4].status == JobFailed
    ensures end.db.bookings == st.db.bookings
  {
    end := WriteNext(st, w, None);
    Writes(st, w);
  }

  lemma MarksBooking(st: State, w: Id) returns (end: State)
    requires WriteEnabled(st, w) && st.workers[w] == Worker([], FailingBooking(4)) && st.db.jobs[4].booking == 3
    ensures Leads(st, [Processor(w, Write(None))], Harmless, end) && OnlyJobFour(st, end, w)
    ensures end.workers[w] == Worker([], Idle) && end.db.jobs == st.db.jobs && end.db.bookings[3].status == Failed
  {
    end := WriteNext(st, w, None);
    Writes(st, w);
  }

  /** Two writes after a load, whichever way it went, the booking is live, whatever it was. */
  lemma Revives(st: State, w: Id) returns (actions: seq<Action>, end: State)
    requires WriteEnabled(st, w)
    requires st.workers[w] == Worker([], FailingJob(4)) || st.workers[w] == Worker([], Starting(4))
    requires st.db.jobs[4].booking == 3
    ensures Leads(st, actions, Harmless, end) && OnlyJobFour(st, end, w) && Active(end.db.bookings[3])
    ensures st.workers[w].pc.FailingJob? ==> end.workers[w] == Worker([], Idle) && end.db.jobs[4].status == JobFailed
  {
    var mid := WriteNext(st, w, None);
    Writes(st, w);
    end := WriteNext(mid, w, None);
    Writes(mid, w);
    actions := [Processor(w, Write(None))] + [Processor(w, Write(None))];
    LeadsThen(st, [Processor(w, Write(None))], mid, [Processor(w, Write(None))], end, Harmless);
  }

  /** The writes up to the lock. */
  lemma UpToTheLock(x: Dropped, d: nat, start: State, first: seq<Action>, st: State)
    returns (actions: seq<Action>, end: State)
    requires Reached(x, d, start, first, st) && WriteEnabled(st, 0) && st.workers[0] == Worker([], Starting(4))
    requires st.db.jobs[4].booking == 3
    ensures Reached(x, d, start, actions, end)
    ensures end == st.(db := end.db, workers := end.workers) && end.db.events == st.db.events
    ensures WriteEnabled(end, 0) && end.workers[0] == Worker([], Unlocking(4)) && end.db.jobs[4].booking == 3
    ensures 3 in end.db.bookings && Active(end.db.bookings[3]) && end.db.bookings[3].seats == st.db.bookings[3].seats
    ensures end.db.seats == st.db.seats
  {
    var w := Processor(0, Write(None));
    var s1 := WriteNext(st, 0, None);
    Writes(st, 0);
    Then(x, d, start, first, st, [w], s1);
    var s2 := WriteNext(s1, 0, None);
    Writes(s1, 0);
    Then(x, d, start, first + [w], s1, [w], s2);
    end := WriteNext(s2, 0, None);
    Writes(s2, 0);
    Then(x, d, start, first + [w] + [w], s2, [w], end);
    actions := first + [w] + [w] + [w];
  }

  // ---- two requests for the seat ---------------------------------------------------------

  /** Request 5 has read the seat, and request 2 has booked it. */
  function Raced(cfg: Config): State {
    var s1 := Read1(OnSale(cfg, CREW), 5);
    AfterRequest(s1, 2, Asked(1, CODES, 0, Written(3)), Persisted(s1, 1, CODES, Ids(2, 3, 4)), {2} + {3, 4})
  }

  lemma Races(x: Dropped, d: nat, cfg: Config) returns (actions: seq<Action>)
    ensures Reached(x, d, Blank(cfg, CREW), actions, Raced(cfg))
  {
    var start, s0 := Blank(cfg, CREW), OnSale(cfg, CREW);
    actions := Opens(x, d, cfg, CREW);
    var more := ReadTheSeat(s0, Ids(5, 6, 7));
    var s1 := Read1(s0, 5);
    ThenGrow(x, d, start, actions, s0, 5, more, s1);
    actions := actions + more;
    FreeSeat(s1, Ids(2, 3, 4));
    more := SoloPersists(s1, 1, CODES, Ids(2, 3, 4));
    ThenGrow(x, d, start, actions, s1, 2, more, Raced(cfg));
    actions := actions + more;
  }

  lemma RacedFacts(cfg: Config)
    ensures var st := Raced(cfg);
      && st.now == 0 && st.cfg == cfg && st.workers == CREW && st.used == {1, 2, 3, 4, 5} && st.cancels == map[]
      && st.requests == map[5 := Asked(1, CODES, 0, Locking(0)), 2 := Asked(1, CODES, 0, Written(3))]
  {
  }

  lemma RacedRows(cfg: Config)
    ensures var db := Raced(cfg).db;
      && db.bookings == map[3 := Booking(1, {SEAT}, Pending, None, 2)] && db.jobs == map[4 := Job(3, JobPending, 0, 0)]
      && db.events == map[1 := Event(true, 1)] && db.seats == map[SEAT := Booked]
  {
    CodesFacts();
  }

  /** The older reader, request 5, locks the seat that is booked but no longer locked, and books it again. */
  lemma SellsAgain(x: Dropped, d: nat, start: State, first: seq<Action>, st: State, readAt: nat)
    returns (actions: seq<Action>)
    requires Reached(x, d, start, first, st) && SEAT !in st.locks && Owns(st.db, 3, SEAT)
    requires 5 in st.requests && st.requests[5] == Asked(1, CODES, readAt, Locking(0))
    requires 6 !in st.used && 7 !in st.used && 1 in st.db.events && SEAT in st.db.seats
    ensures Run(start, actions, But(x, d)) && DoubleBooked(Final(start, actions, But(x, d)).db, SEAT)
  {
    CodesFacts();
    var s1 := AcquireNext(st, 5);
    RequestHarmless(st, 5, SetNx);
    LeadsOne(st, Booker(5, SetNx), Harmless);
    Then(x, d, start, first, st, [Booker(5, SetNx)], s1);
    var s2;
    actions, s2 := CommitsSeat(x, d, start, first + [Booker(5, SetNx)], s1, 5, readAt, 6, 7);
    TwoOwners(s2.db, SEAT, 3, 6);
  }

  // ---- one booking -----------------------------------------------------------------------

  /** Request 2 has booked the seat as booking 3; job 4 has been attempted `a` times. */
  predicate Sold(st: State, cfg: Config, now: nat, a: nat) {
    && st.cfg == cfg && st.now == now && st.workers == CREW && st.cancels == map[] && st.used == {1, 2, 3, 4}
    && st.db.events == map[1 := Event(true, 1)] && st.db.seats == map[SEAT := Booked]
    && st.db.bookings == map[3 := Booking(1, {SEAT}, Pending, None, 2)]
    && st.db.jobs == map[4 := Job(3, JobPending, a, 0)]
    && st.requests == map[2 := Asked(1, CODES, 0, Succeeded(3))]
  }

  lemma BookedSold(cfg: Config)
    ensures Sold(Booked1(OnSale(cfg, CREW), Ids(2, 3, 4)), cfg, 0, 0)
  {
    CodesFacts();
  }

  lemma SellsOnce(x: Dropped, d: nat, cfg: Config) returns (actions: seq<Action>, st: State)
    ensures Reached(x, d, Blank(cfg, CREW), actions, st) && Sold(st, cfg, 0, 0)
  {
    var s0 := OnSale(cfg, CREW);
    actions := Opens(x, d, cfg, CREW);
    var more := BooksAlone(s0, Ids(2, 3, 4));
    st := Booked1(s0, Ids(2, 3, 4));
    ThenGrow(x, d, Blank(cfg, CREW), actions, s0, 2, more, st);
    actions := actions + more;
    BookedSold(cfg);
  }

  /** Time goes on until the job is stuck, and attempt after attempt fails until none is left. */
  lemma UsesUp(x: Dropped, d: nat, cfg: Config) returns (actions: seq<Action>, st: State)
    ensures Reached(x, d, Blank(cfg, CREW), actions, st) && Sold(st, cfg, cfg.threshold + 1, cfg.maxAttempts)
  {
    var first, s0 := SellsOnce(x, d, cfg);
    ThenWait(x, d, Blank(cfg, CREW), first, s0, cfg.threshold + 1);
    var s1 := Elapsed(s0, cfg.threshold + 1);
    assert s1 == Worked(s1, CREW, 0, JobPending);
    var more := FailsOften(s1, CREW, cfg.maxAttempts);
    st := Worked(s1, CREW, cfg.maxAttempts, JobPending);
    Then(x, d, Blank(cfg, CREW), first + Ticks(cfg.threshold + 1), s1, more, st);
    actions := first + Ticks(cfg.threshold + 1) + more;
  }

  /** Every id given out so far is below `n`. */
  predicate IdsBelow(st: State, n: Id) {
    && (forall i :: i in st.used ==> i < n) && (forall r :: r in st.requests ==> r < n)
    && (forall c :: c in st.cancels ==> c < n)
  }

  predicate ForSale(st: State) {
    EventOpen(st.db, 1) && SEAT in st.db.seats && st.db.seats[SEAT] == Available && SEAT !in st.locks
  }

  /** What a booking of the free seat, with the ids from `t` on, changes. */
  ghost predicate SoldAgain(st: State, end: State, t: Id) {
    && end == st.(db := end.db, locks := end.locks, queue := end.queue,
                  requests := st.requests[t := Asked(1, CODES, st.now, Succeeded(t + 1))], used := end.used)
    && IdsBelow(end, t + 3)
    && end.db.bookings == st.db.bookings[t + 1 := Booking(1, {SEAT}, Pending, None, t)]
    && end.db.seats == st.db.seats[SEAT := Booked] && end.db.events == st.db.events
    && end.db.jobs == st.db.jobs[t + 2 := Job(t + 1, JobPending, 0, st.now)]
  }

  lemma BookedSoldAgain(st: State, t: Id)
    requires ForSale(st) && IdsBelow(st, t)
    ensures SoldAgain(st, Booked1(st, Ids(t, t + 1, t + 2)), t)
  {
    CodesFacts();
  }

  lemma BooksAgain(x: Dropped, d: nat, start: State, first: seq<Action>, st: State, t: Id)
    returns (actions: seq<Action>, end: State)
    requires Reached(x, d, start, first, st) && ForSale(st) && IdsBelow(st, t)
    ensures Reached(x, d, start, actions, end) && SoldAgain(st, end, t)
  {
    var ids := Ids(t, t + 1, t + 2);
    var more := BooksAlone(st, ids);
    end := Booked1(st, ids);
    ThenGrow(x, d, start, first, st, t, more, end);
    actions := first + more;
    BookedSoldAgain(st, t);
  }
}
