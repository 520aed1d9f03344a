/** The bounds of `Timing` are exact: a configuration that meets `Settings` never double-books in a run that meets
    `Within(d)`, and any other does in some such run from the empty stores.

    `Within(d)` is more than requests that take at most `d`: every push to the queue succeeds, the queue holds only
    what was pushed, processors take jobs only from the sweep, and a cancel goes through in one piece, after its
    booking's job has ended and every processor has left it.  Those no TTL and no threshold makes up for: without any
    one of them a seat is booked twice under every configuration that allows an attempt, and for every `d`
    (`Necessity.NoneDispensable`). */
module Bounds {
  import opened Store
  import opened Protocol
  import opened Safety
  import opened Timing
  import opened Calls
  import opened Solo
  import opened Stage

  /** What is left without the fence is all that `Within(d)` asks for. */
  lemma InTimeToo(cfg: Config, d: nat, st: State, actions: seq<Action>)
    requires SellsTwice(cfg, st, actions, But(TheFence, d))
    ensures SellsTwice(cfg, st, actions, Within(d))
  {
    RunWeaken(st, actions, But(TheFence, d), Within(d));
  }

  // ---- a lock that does not outlive the older reader -------------------------------------

  /** Request 2 has read and locked the seat at 0; at `d` request 5 reads it and request 2 commits. */
  function Overlapping(cfg: Config, d: nat): State {
    Read1(Elapsed(Locked1(OnSale(cfg, CREW), 2), d), 5)
  }

  lemma Overlaps(d: nat, cfg: Config) returns (actions: seq<Action>)
    ensures Reached(TheFence, d, Blank(cfg, CREW), actions, Overlapping(cfg, d))
  {
    var start, s0 := Blank(cfg, CREW), OnSale(cfg, CREW);
    actions := Opens(TheFence, d, cfg, CREW);
    var more := LockTheSeat(s0, Ids(2, 3, 4));
    var s1 := Locked1(s0, 2);
    ThenGrow(TheFence, d, start, actions, s0, 2, more, s1);
    ThenWait(TheFence, d, start, actions + more, s1, d);
    actions := actions + more + Ticks(d);
    more := ReadTheSeat(Elapsed(s1, d), Ids(5, 6, 7));
    ThenGrow(TheFence, d, start, actions, Elapsed(s1, d), 5, more, Overlapping(cfg, d));
    actions := actions + more;
  }

  lemma OverlappingFacts(cfg: Config, d: nat)
    ensures var st := Overlapping(cfg, d);
      && st.requests == map[2 := Asked(1, CODES, 0, Locking(1)), 5 := Asked(1, CODES, d, Locking(0))]
      && st.used == {1, 2, 5} && 1 in st.db.events && SEAT in st.db.seats && st.now == d
      && (SEAT in st.locks ==> st.locks[SEAT].expiresAt == cfg.ttl)
  {
  }

  /** Request 2 commits and, when its lock is gone, request 5 books the seat again. */
  lemma CommitThenSell(d: nat, start: State, first: seq<Action>, st: State) returns (actions: seq<Action>)
    requires Reached(TheFence, d, start, first, st) && st.now == d >= 1
    requires st.requests == map[2 := Asked(1, CODES, 0, Locking(1)), 5 := Asked(1, CODES, d, Locking(0))]
    requires st.used == {1, 2, 5} && 1 in st.db.events && SEAT in st.db.seats
    requires SEAT in st.locks ==> st.locks[SEAT].expiresAt <= 2 * d
    ensures Run(start, actions, But(TheFence, d)) && DoubleBooked(Final(start, actions, But(TheFence, d)).db, SEAT)
  {
    var second, s1 := CommitsSeat(TheFence, d, start, first, st, 2, 0, 3, 4);
    ThenWait(TheFence, d, start, second, s1, d);
    actions := SellsAgain(TheFence, d, start, second + Ticks(d), Elapsed(s1, d), d);
  }

  /** A TTL of at most `2 * d` is too short: a lock taken at 0 is gone at `2 * d`, when a request that read at `d`,
      before the commit, may still lock and commit. */
  lemma ShortTtlDoubleBooks(cfg: Config, d: nat) returns (st: State, actions: seq<Action>)
    requires d >= 1 && cfg.ttl <= 2 * d
    ensures SellsTwice(cfg, st, actions, Within(d))
  {
    st := Blank(cfg, CREW);
    var first := Overlaps(d, cfg);
    OverlappingFacts(cfg, d);
    actions := CommitThenSell(d, st, first, Overlapping(cfg, d));
    InTimeToo(cfg, d, st, actions);
  }

  // ---- a worker that does not wait for the older reader ----------------------------------

  /** The worker takes the stuck job as far as the lock, and deletes it. */
  lemma ProcessInTime(d: nat, start: State, first: seq<Action>, st: State) returns (actions: seq<Action>, end: State)
    requires Reached(TheFence, d, start, first, st) && 0 in st.workers && st.workers[0] == Worker([], Idle)
    requires st.db.jobs == map[4 := Job(3, JobPending, 0, 0)] && st.cfg.threshold < st.now && st.cfg.maxAttempts >= 1
    requires 3 in st.db.bookings && st.db.bookings[3].seats == {SEAT}
    ensures Reached(TheFence, d, start, actions, end)
    ensures end == st.(db := end.db, locks := st.locks - {SEAT}, workers := end.workers)
    ensures end.db.events == st.db.events && end.db.seats == st.db.seats && Owns(end.db, 3, SEAT)
  {
    TakesUp(st, 0);
    var s1 := st.(workers := st.workers[0 := Worker([], Starting(4))]);
    Then(TheFence, d, start, first, st, [Processor(0, Sweep([4]))] + [Processor(0, Load)], s1);
    var s2;
    actions, s2 := UpToTheLock(TheFence, d, start, first + ([Processor(0, Sweep([4]))] + [Processor(0, Load)]), s1);
    end := WriteNext(s2, 0, None);
    ThenDo(TheFence, d, start, actions, s2, Processor(0, Write(None)), end);
    actions := actions + [Processor(0, Write(None))];
  }

  /** The worker deletes the lock once the job is stuck, and request 5 books the seat again. */
  lemma ProcessThenSell(d: nat, start: State, first: seq<Action>, st: State) returns (actions: seq<Action>)
    requires Reached(TheFence, d, start, first, st) && st.now == 0 && st.workers == CREW
    requires st.cfg.threshold < d && st.cfg.maxAttempts >= 1 && st.used == {1, 2, 3, 4, 5}
    requires st.requests == map[5 := Asked(1, CODES, 0, Locking(0)), 2 := Asked(1, CODES, 0, Written(3))]
    requires st.db.bookings == map[3 := Booking(1, {SEAT}, Pending, None, 2)]
    requires st.db.jobs == map[4 := Job(3, JobPending, 0, 0)] && 1 in st.db.events && SEAT in st.db.seats
    ensures Run(start, actions, But(TheFence, d)) && DoubleBooked(Final(start, actions, But(TheFence, d)).db, SEAT)
  {
    var n := st.cfg.threshold + 1;
    ThenWait(TheFence, d, start, first, st, n);
    var second, end := ProcessInTime(d, start, first + Ticks(n), Elapsed(st, n));
    actions := SellsAgain(TheFence, d, start, second, end, 0);
  }

  lemma RacesBooked(d: nat, cfg: Config) returns (actions: seq<Action>, end: State)
    ensures Reached(TheFence, d, Blank(cfg, CREW), actions, end)
    ensures end.now == 0 && end.cfg == cfg && end.workers == CREW && end.used == {1, 2, 3, 4, 5}
    ensures end.requests == map[5 := Asked(1, CODES, 0, Locking(0)), 2 := Asked(1, CODES, 0, Written(3))]
    ensures end.db.bookings == map[3 := Booking(1, {SEAT}, Pending, None, 2)]
    ensures end.db.jobs == map[4 := Job(3, JobPending, 0, 0)] && 1 in end.db.events && SEAT in end.db.seats
  {
    actions := Races(TheFence, d, cfg);
    RacedFacts(cfg);
    RacedRows(cfg);
    end := Raced(cfg);
  }

  /** A threshold under `d` is too short, if the worker makes any attempt: it deletes the lock of a booking while a
      request that read the seat before it is still in time. */
  lemma ShortThresholdDoubleBooks(cfg: Config, d: nat) returns (st: State, actions: seq<Action>)
    requires cfg.threshold < d && cfg.maxAttempts >= 1
    ensures SellsTwice(cfg, st, actions, Within(d))
  {
    st := Blank(cfg, CREW);
    var first, mid := RacesBooked(d, cfg);
    actions := ProcessThenSell(d, st, first, mid);
    InTimeToo(cfg, d, st, actions);
  }

  // ---- the exact condition ---------------------------------------------------------------

  /** With this configuration no run that meets `Within(d)`, from any start, books a seat twice. */
  ghost predicate NeverDoubleBooks(cfg: Config, d: nat) {
    forall st: State, actions: seq<Action>, s: Seat ::
      Init(st) && st.cfg == cfg && Run(st, actions, Within(d)) ==> !DoubleBooked(Final(st, actions, Within(d)).db, s)
  }

  lemma SoleOwnerCounts(db: Db, s: Seat)
    requires SoleOwner(db)
    ensures !DoubleBooked(db, s)
  {
    if b: Id :| Owns(db, b, s) {
      assert Owners(db, s) == {b};
    } else {
      assert Owners(db, s) == {};
    }
  }

  /** Requests take at most `d`, pushes succeed, only the sweep picks jobs and only pushed messages are queued, cancels
      are in one piece and follow the job: no such run books a seat twice, exactly when the configuration meets
      `Settings`. */
  lemma SettingsExactly(cfg: Config, d: nat)
    ensures NeverDoubleBooks(cfg, d) <==> Settings(cfg, d)
  {
    if Settings(cfg, d) {
      forall st: State, actions: seq<Action>, s: Seat | Init(st) && st.cfg == cfg && Run(st, actions, Within(d))
        ensures !DoubleBooked(Final(st, actions, Within(d)).db, s)
      {
        TimingGivesFence(st, d, actions);
        InitSafe(st);
        RunSafe(st, actions);
        SoleOwnerCounts(Final(st, actions, Guards).db, s);
      }
    } else if d >= 1 && cfg.ttl <= 2 * d {
      var st, actions := ShortTtlDoubleBooks(cfg, d);
    } else {
      var st, actions := ShortThresholdDoubleBooks(cfg, d);
    }
  }

  /** With the shipped defaults, a TTL of 600 s, a threshold of 120 s and 5 attempts, no run that meets `Within(d)`
      double-books, exactly as long as `d` is at most two minutes.  A cancel in the first two minutes, whose job is
      still open, is no such run, and books a seat twice whatever `d`. */
  lemma DefaultsExactly(d: nat)
    ensures NeverDoubleBooks(Config(600, 120, 5), d) <==> d <= 120
  {
    SettingsExactly(Config(600, 120, 5), d);
  }
}
