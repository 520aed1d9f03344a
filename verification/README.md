# Seat booking, verified

A Dafny model of a ticketing system: the booking protocol that spans `events-api`, `bookings-worker` and the admin API over
Postgres and Redis, the rotation of refresh tokens between `admin-api` and the dashboard, and the generation, parsing and
pricing of seats. `dafny verify dfyconfig.toml` verifies the whole project.

## The booking protocol

`Store` holds the rows and each Postgres transaction as a function on them. `Protocol` is a step relation: one step is one
`$transaction`, one single Prisma call or one Redis command, and between two steps of a request, a cancel or a processor any
other may run. The state has both stores, a clock, the queue and a program counter for every request, cancel and processor.
Processes may die anywhere; transactions, pushes and the writes in the worker's try block may fail; locks expire; the queue
may lose, repeat or invent messages; events are created, published and deleted. All of the theorems below are about every
run of that relation, or about every run that meets a hypothesis named here:

- **Fence**: a step that removes the lock of a seat finds no request that took this lock and has yet to commit, and, if
  a live booking of the lock's holder contains the seat, no request that read the seat AVAILABLE and has yet to commit.
  Each half is needed besides the other (`Necessity.HolderFenceNeeded`, `Necessity.OwnerFenceNeeded`): a lock that
  expires under its own waiting request is as harmful as one deleted after the commit.
- **CancelAfterJob**: a cancel commits only when its booking's job is DONE or FAILED and no processor is inside the job.
  Neither half can go (`Necessity.EndedJobNeeded`, `Necessity.NobodyInsideNeeded`).
- **FreshCancel**: the booking is still not CANCELLED when the cancel's transaction commits. It is what atomic cancels
  (`Timing.AtomicCancel`: status test, transaction and release with nothing in between) are needed for, and weaker.
- **SweepChosen**: `processJob` is never given a job that is FAILED. Several processors may be inside one job.
- **PushWorks**, **OwnQueue** (`Timing` only): pushes to the queue succeed, and the queue holds only what was pushed.
- **OneProcessor**, **WholeFailure** (`JobStatuses` and `Sweeping`): a processor enters a job only when no other is
  inside it, and none dies between writing the job FAILED and the booking FAILED. `Tightness` has a run that needs each.

`Safety` proves that no seat is sold twice and `Refinement` that the protocol is a refinement of one that books
atomically; `Timing` replaces the fence by bounds on durations, and `Bounds` proves that these are exact. `Stage` sets
up runs that go wrong, and `Necessity` shows with them that none of the other hypotheses can be dropped, under any
configuration that allows an attempt and however little time requests take. `Always` and `Workers` need no hypothesis,
and `Tightness` reaches the bound of `Workers`. `Calls` says what one undisturbed call does, and `Outcomes` when it
gives which answer and what it leaves, row by row; `Services` has the services as classes with their loops, each proved
to be that call, and `Solo` proves that the steps of `Protocol`, run without interference, are that call too, a whole
sweep included. `Histories` says what the queue, the published events and the locks owe to the steps before. `Commute`,
`Drain` and `Convergence` are about sequences of calls; `Sweeping` carries the drain over to runs of the step relation
with one processor inside a job at a time, `SharedSweeping` to any number of them. `Revivals` says when a cancelled
booking is cancelled for good.

The bounds: let every request take at most d from its availability read to the end of its transaction or rollback, let
pushes succeed and the queue hold only what was pushed, let processors take jobs only from the sweep, and let cancels be
in one piece and come after the job has ended and every processor has left it. Then no run sells a seat twice if and
only if d is 0, or the TTL exceeds 2d and either the stuck-job threshold is at least d or no attempt is allowed. When d
is 0 no time passes between a read and its commit, so no lock is removed in between and neither bound matters. When no
attempt is allowed, a worker only marks jobs and bookings FAILED and never deletes a lock, so the threshold does not
matter; the TTL still does. With the shipped defaults (TTL 600 s, threshold 120 s, 5 attempts) the limit is d = 120 s;
nothing in the code bounds how long a request takes, and nothing in it sees to the other conditions either.

What the model shows of the code as it stands:

- The transaction does not look at the seats again, and locks are deleted without asking who holds them
  (`releaseIfOwnedBy` is never called), so "zero double-bookings" holds under the fence and not without it. Bounded
  request times give the fence exactly when the TTL and the threshold allow for them, and only while pushes succeed, the
  queue holds only what was pushed, processors take jobs only from the sweep, and cancels are in one piece and follow
  the job. No TTL and no threshold makes up for any of these: without one of them a seat is sold twice under every
  configuration that allows an attempt, even if requests take no time (`Necessity.NoneDispensable`). With the defaults,
  a cancel in the first two minutes is enough.
- The queue message gives the booking's id as `jobId`, while a job row has an id of its own. Pushed messages therefore never
  find a job, although the repository's README calls the list a fast path: every job waits for the sweep.
- A failed push answers with an error but leaves the booking committed and its seats BOOKED, without locks.
- The comment in `cancelBooking` that a booking is cancelled only after its job has completed is enforced nowhere; it is
  the hypothesis CancelAfterJob. Until then the worker itself may bring the booking back (`Revivals.CancelledForGood`).
- FAILED bookings keep their seats BOOKED; a booking is live unless it is CANCELLED.

## Tokens, seats and prices

`Tokens` is `AuthService` as a state machine with its class. `Accounts` reads the tables off the journal of the calls:
whether a registration, a login or a refresh is granted follows from the earlier calls and their replies alone.
`SingleFlight` composes the browser's interceptor with the server's `refresh`, whose two reads and two writes are
separate steps: together they never redeem a token twice. `Interceptor` says what becomes of each request: it is sent
again only after a refresh has arrived, and fails if the refresh is lost. `OneAccount` shows that the server's steps made
in a row are the call of `Tokens`. `ServerAlone` has the server with any number of clients: it can be brought to pay a token
out twice exactly when a call finds it live while another call of it stands between that read and the revocation, and a
session outlives a logout from all devices exactly when a refresh stands between the read of its row and its answer.
`Logouts` says the same of a plain logout, which a session also outlives when it has moved on to another token. That
happens to a tab whose access token has expired when it logs out: the logout gets a 401, the interceptor refreshes and
repeats it with the spent token, and the tab clears a token that stays valid. `SeatMap` builds seat codes from sections
as sequences of UTF-16 code units, says exactly when the unique index accepts them, and reads them back as the seat map
does. `Pricing` is exact arithmetic on scaled integers. `AvailabilityCounts` is the loop behind an event's availability.

## Model

| member | source | states |
|---|---|---|
| Safety.NoDoubleBooking | apps/events-api/src/bookings/bookings.service.ts:41-165 | Over every run that meets Fence, CancelAfterJob, FreshCancel and SweepChosen, from empty stores and in every interleaving: a seat is BOOKED exactly when one and only one non-CANCELLED booking contains it, and AVAILABLE exactly when none does |
| Safety.CommitFindsAvailable | apps/events-api/src/bookings/bookings.service.ts:97-121 | The transaction does not look at seat statuses again; in every safe state it nevertheless finds all the seats of the request AVAILABLE |
| Safety.SafeStep | apps/events-api/src/bookings/bookings.service.ts:41-165 | Each step of a request, cancel, processor or of the world keeps the inductive invariant: BOOKED means owned by one booking, a waiting request still holds the locks it took, a seat that was booked after a waiting request read it is locked by whoever booked it, open jobs belong to live bookings |
| Refinement.StepRefines | apps/events-api/src/bookings/bookings.service.ts:97-128 | A step that commits something does to the rows exactly what the sequential machine does, which books only if every seat is AVAILABLE and cancels only a live booking; every other step leaves the rows alone |
| Refinement.ProtocolRefinesAtomicBooking | apps/events-api/src/bookings/bookings.service.ts:41-165 | Replaying the committed bookings, cancels, processor writes and event writes in commit order on the machine that has no locks and no concurrency is never refused and ends in the same events, seats, bookings, jobs and notices |
| Refinement.MachineExactly | apps/events-api/src/bookings/bookings.service.ts:59-128 | That machine accepts a booking exactly when every seat of it is AVAILABLE, and a cancel exactly of a booking that is there and not CANCELLED; then just those seats change status, with one booking and one open job inserted, or one booking CANCELLED |
| Refinement.MachineOpensExactly | apps/admin-api/src/events/events.service.ts:16-129 | It creates an event only once, unpublished and with its seats AVAILABLE, and removes it with just its seats exactly when it is there and has no booking; publishing changes that one field |
| Timing.NobodyWaits | apps/bookings-worker/src/bookings-processor/reconciliation-sweep.service.ts:30-41 | By the time a job is old enough for the sweep, every request that read one of its booking's seats before the booking is over |
| Timing.TimingGivesFence | apps/events-api/src/bookings/seat-lock.service.ts:39-57 | If requests take at most d from their availability read and the configuration meets Settings (d is 0, or the TTL exceeds 2d and the stuck-job threshold is at least d or no attempt is allowed), no push fails, only pushed messages are queued, cancels are atomic and follow the job, and only the sweep picks jobs, then every step meets Fence (and the other hypotheses) |
| Timing.NoDoubleBookingInTime | apps/events-api/src/bookings/bookings.service.ts:67-76 | Under those assumptions alone, a seat is BOOKED exactly when one live booking contains it and AVAILABLE exactly when none does; Bounds.SettingsExactly has the converse |
| Bounds.SettingsExactly | apps/events-api/src/bookings/seat-lock.service.ts:39-57 | For every configuration and every d, take the runs in which requests take at most d, pushes succeed, only pushed messages are queued, processors take jobs only from the sweep, and cancels are in one piece and come after their booking's job has ended and every processor has left it: none of them books a seat twice, from any start, if and only if the configuration meets Settings. For the other conditions no TTL and no threshold makes up (Necessity.NoneDispensable) |
| Bounds.ShortTtlDoubleBooks | apps/events-api/src/bookings/seat-lock.service.ts:41-48 | Whenever d is at least 1 and the TTL at most 2d, a run from the empty stores that meets all of those conditions books one seat twice: the lock taken at the first read is gone when a later reader, who read before the commit, locks and commits |
| Bounds.ShortThresholdDoubleBooks | apps/bookings-worker/src/bookings-processor/reconciliation-sweep.service.ts:30-41 | Whenever the threshold is under d and an attempt is allowed, so does a run in which the sweep unlocks a booking while an older reader is still in time |
| Bounds.DefaultsExactly | apps/bookings-worker/src/config/configuration.ts:33-37 | With the default TTL of 600 s, threshold of 120 s and 5 attempts: no run that meets those conditions (requests take at most d, pushes succeed, only pushed messages are queued, processors take jobs only from the sweep, and cancels are in one piece and come after their booking's job has ended and every processor has left it) double-books, exactly as long as d is at most 120 s |
| Necessity.NoneDispensable | apps/events-api/src/bookings/bookings.service.ts:41-165 | For every configuration and every d, zero included: drop any one of the conditions on pushes, messages, cancels (in one piece; after the job has ended; with no processor inside), batches or the half of Fence about holders, keep all the others with requests that take at most d, and some run from the empty stores books one seat twice. A failed push and a stray message take the half of Fence about bookings with them; a stray message needs an attempt to be allowed, and the lock that expires under its own request needs d to be at least the TTL and 1 |
| Stage.DroppingNone | apps/events-api/src/bookings/bookings.service.ts:41-165 | A step that meets all that is kept whichever condition is dropped meets exactly the hypotheses of Timing and those of Safety |
| Necessity.OwnerFenceNeeded | apps/events-api/src/bookings/bookings.service.ts:159-163 | For every configuration a run from the empty stores that meets every hypothesis but the half of Fence about bookings books one seat twice: a failed push deletes the lock of a committed booking while an older reader waits |
| Necessity.HolderFenceNeeded | apps/events-api/src/bookings/seat-lock.service.ts:41-48 | For every configuration a run from the empty stores that meets every hypothesis but the half of Fence about holders books one seat twice: a lock expires under the request that took it, another locks the seat, and both commit |
| Necessity.EndedJobNeeded | apps/events-api/src/bookings/bookings.service.ts:206-227 | For every configuration: a cancel commits while its booking's job is still open, the seat is sold again, the sweep takes the job up and the worker's writes make the cancelled booking live again |
| Stage.FenceIsBoth | apps/events-api/src/bookings/seat-lock.service.ts:62-66 | Fence is exactly those two halves |
| Necessity.NobodyInsideNeeded | apps/bookings-worker/src/bookings-processor/bookings-processor.service.ts:77-90 | For every configuration: it is not enough that the job row is terminal when a cancel commits. Between the two FAILED writes a cancel slips in, the second write revives the booking, and the seat is sold twice |
| Necessity.SweepChosenNeeded | apps/bookings-worker/src/bookings-processor/reconciliation-sweep.service.ts:35-55 | For every configuration: two processors sweep the same job, the first writes it and its booking FAILED, a cancel commits, and the second, which still has the job in its batch, loads it; the booking is live again and the seat is sold twice |
| Necessity.FreshCancelNeeded | apps/events-api/src/bookings/bookings.service.ts:206-227 | For every configuration: two cancels of one booking both pass the status test; the second commits after the seat was booked again and frees it, and it is sold twice |
| Always.NeverStranded | apps/events-api/src/bookings/bookings.service.ts:218-227 | With no hypothesis at all, every BOOKED seat belongs to some booking that is not CANCELLED |
| Always.JobForEver | apps/events-api/src/bookings/bookings.service.ts:97-128 | Every committed booking has exactly one job row, for ever, and no booking or job row ever disappears or moves |
| Always.PushedMessagesFindNoJob | apps/events-api/src/bookings/bookings.service.ts:134-146 | The message carries the booking's id where the consumer looks up a job's: in no run does delivering a pushed message give a processor anything to do |
| Histories.FirstInFirstOut | apps/bookings-worker/src/bookings-processor/queue-consumer.service.ts:59-69 | Until messages are lost they come out in the order in which they went in, each to the processor that asks, as the job of that id if there is one: what was queued and then pushed is what was delivered and is still queued |
| Histories.LostForGood | apps/bookings-worker/src/bookings-processor/queue-consumer.service.ts:59-69 | What was queued when messages are lost is never delivered: only what has been pushed since |
| Always.SeatsAddUp | apps/admin-api/src/events/events.service.ts:21-37 | While an event exists its AVAILABLE and BOOKED seats add up to totalSeats and none is HELD |
| Always.BookedEventStays | packages/prisma/prisma/migrations/20260629063818_init/migration.sql:184 | Once an event has any booking, cancelled ones included, it exists for ever and its delete is never possible |
| Histories.PublishedAsSaid | apps/admin-api/src/events/events.service.ts:108-129 | After any run an event is published exactly if the last word on it since it was created was to publish it |
| Histories.OnlyPublishedBooked | apps/events-api/src/bookings/bookings.service.ts:41-46 | A request gets past its first read exactly when its event exists and the last word on it was to publish it |
| Histories.DeletedIsGone | packages/prisma/prisma/schema.prisma:117 | A deleted event is gone with its seats, and no other seat and no booking changes |
| Histories.RefusedHoldsNothing | apps/events-api/src/bookings/bookings.service.ts:159-164 | After any run whoever holds a lock has locked that seat and has not been refused: a refusal leaves no lock behind |
| Histories.VanishedIsGone | apps/events-api/src/bookings/bookings.service.ts:94-96 | A request whose process died takes no further step, so its locks are left to their TTL |
| Always.LockExcludes | apps/events-api/src/bookings/seat-lock.service.ts:39-60 | As long as the lock of a seat is neither deleted nor expired, its holder stays and no other SET NX on it succeeds |
| Always.AcquisitionsSeparated | apps/events-api/src/bookings/seat-lock.service.ts:39-66 | Between two successful acquisitions of one key, by whomever, some step deleted or expired it |
| Workers.AttemptsAndNotices | apps/bookings-worker/src/bookings-processor/bookings-processor.service.ts:77-117 | With W processors interleaving, dying and retrying, attempts never exceed max + W - 1, a booking's notices never exceed its job's attempts, and a DONE job's booking has at least one |
| Tightness.AttemptsReached | apps/bookings-worker/src/bookings-processor/bookings-processor.service.ts:77-95 | For every max and W of at least 1 a run from the empty stores with W processors attempts one job max + W - 1 times |
| JobStatuses.JobAndBookingAgree | apps/bookings-worker/src/bookings-processor/bookings-processor.service.ts:73-128 | With one processor inside a job at a time and no death between the two FAILED writes: DONE means CONFIRMED or CANCELLED, FAILED means FAILED or CANCELLED with the attempts used up, and an open job's booking is not FAILED |
| Tightness.OneProcessorNeeded | apps/bookings-worker/src/bookings-processor/bookings-processor.service.ts:77-95 | With two processors in one job, a run ends with an open job under a FAILED booking |
| Tightness.WholeFailureNeeded | apps/bookings-worker/src/bookings-processor/bookings-processor.service.ts:81-88 | With one processor that dies between the FAILED writes, a run ends with a FAILED job nobody is inside under a PENDING booking |
| JobStatuses.CancelledStays | apps/bookings-worker/src/bookings-processor/reconciliation-sweep.service.ts:35-55 | When only jobs that the sweep would pick are processed, a CANCELLED booking with a terminal job stays CANCELLED in every run |
| Revivals.CancelledForGood | apps/bookings-worker/src/bookings-processor/bookings-processor.service.ts:73-155 | In every state the services can be in, with at least one processor: a CANCELLED booking stays CANCELLED in every run in which processors take only what the sweep picks if and only if its job is DONE or FAILED and no processor is inside the job; otherwise the system itself brings it back |
| Drain.BatchIsSweepBatch | apps/bookings-worker/src/bookings-processor/reconciliation-sweep.service.ts:35-41 | When every job is older than the threshold, the query's batch is at most 25 distinct open jobs, and all of them if fewer |
| Drain.RoundEffect | apps/bookings-worker/src/bookings-processor/reconciliation-sweep.service.ts:53-55 | One sweep lowers the sum of max + 1 - attempts over open jobs by the size of its batch, and by one per open job if the batch is not full |
| Drain.SweepsDrain | apps/bookings-worker/src/bookings-processor/reconciliation-sweep.service.ts:35-55 | For whole calls of processJob one after the other: n open jobs are all DONE or FAILED after n(max + 1)/25 (rounded down) + max + 1 sweeps, whichever 25 jobs each sweep picks and whatever else the queue delivers between sweeps |
| Sweeping.SweepsDrainRuns | apps/bookings-worker/src/bookings-processor/reconciliation-sweep.service.ts:35-55 | The same over runs of the step relation, from any point of an orderly run at which all jobs are old: once one sweeper has completed that many sweeps every job is DONE or FAILED, however requests, cancels, messages, other processors and their single writes interleave, if no booking commits, no processor dies and one processor is inside a job at a time |
| Sweeping.StepLightens | apps/bookings-worker/src/bookings-processor/bookings-processor.service.ts:73-128 | No step of such a run makes a job heavier, adds one or loses one |
| SharedSweeping.SweepFindsNothing | apps/bookings-worker/src/bookings-processor/reconciliation-sweep.service.ts:35-55 | With any number W of processors in the same jobs at once, any of which but the sweeper may die: from any reachable state whose jobs are all old and n of them open or in an attempt, of more than n(2 max + 3W + 1) sweeps by one sweeper some sweep finds nothing, if no booking commits |
| SharedSweeping.NothingFoundEnds | apps/bookings-worker/src/bookings-processor/reconciliation-sweep.service.ts:35-47 | If a sweep finds nothing while nobody is in an attempt, every job is DONE or FAILED from then on, in every run without a new booking |
| SharedSweeping.StepHeat | apps/bookings-worker/src/bookings-processor/bookings-processor.service.ts:73-155 | No step raises the measure behind that bound: two for each attempt that may still be counted, one for each under way and one while the job is open |
| Tightness.EmptySweepsDoNotDrain | apps/bookings-worker/src/bookings-processor/reconciliation-sweep.service.ts:35-55 | No number of sweeps is enough without that: for every n, a run of two processors has n sweeps that find nothing while the other is inside the job, which that one then opens again and leaves |
| Drain.SweepsMayStart | apps/bookings-worker/src/bookings-processor/bookings-processor.service.ts:77-95 | After any run, with any number of processors, every job's booking exists and a FAILED job has used up its attempts: what SweepsDrain starts from |
| Convergence.UndisturbedRun | apps/bookings-worker/src/bookings-processor/bookings-processor.service.ts:92-128 | One undisturbed run with attempts left makes the job DONE and the booking CONFIRMED, adds one attempt and one notice, deletes the booking's locks, and changes nothing else |
| Convergence.CrashConvergence | apps/bookings-worker/src/bookings-processor/bookings-processor.service.ts:55-155 | After any sequence of runs, each stopped or thrown off before any write, one undisturbed run while attempts remain ends in the rows and locks that an undisturbed run alone would have left, up to attempts, notices and the QR url |
| Convergence.QrSurvives | apps/bookings-worker/src/bookings-processor/bookings-processor.service.ts:105-108 | A stored QR url survives any runs, including those that could make none |
| Convergence.DoneUntouched | apps/bookings-worker/src/bookings-processor/bookings-processor.service.ts:73-75 | A DONE job's run changes no row and no lock |
| Calls.Unique | apps/events-api/src/bookings/bookings.service.ts:39 | The distinct codes, each once |
| Calls.FirstConflict | apps/events-api/src/bookings/seat-lock.service.ts:39-57 | The first code that is locked or repeated: everything before it is neither |
| Calls.Missing | apps/events-api/src/bookings/bookings.service.ts:51-57 | The codes that name no seat of the event, and no other |
| Calls.LockAllOrNothing | apps/events-api/src/bookings/seat-lock.service.ts:32-60 | Acquiring succeeds exactly when no code is held or repeated; then exactly those keys are set to the token; otherwise the lock map is as it was and the answer names the first code held |
| Calls.FailureLeavesStores | apps/events-api/src/bookings/bookings.service.ts:85-164 | The stores are left exactly as they were unless the transaction committed; the request succeeds exactly when it committed and was pushed; locks are kept only on success; a failed push leaves the booking and its BOOKED seats without locks |
| Outcomes.CreateAnswers | apps/events-api/src/bookings/bookings.service.ts:38-83 | Which answer is given and what it names, in terms of the stores and the codes as asked for: not found exactly when the event is absent or unpublished; else unknown seats exactly when a code names no seat, with just those codes, each once, in the order asked; else taken exactly when a seat is not AVAILABLE, with just those codes; else held exactly when a seat is locked, with the first such code; else a server error exactly when transaction or push fails; else created |
| Outcomes.CreatedLeaves | apps/events-api/src/bookings/bookings.service.ts:97-146 | A booking that succeeds inserts one PENDING booking of just these seats and one PENDING job, makes just these seats BOOKED, locks just their keys for the TTL, puts one message at the head of the queue, and changes nothing else |
| Outcomes.UniqueInOrder | apps/events-api/src/bookings/bookings.service.ts:39 | Deduplication keeps each code where it first occurs |
| Outcomes.ConflictIsFirstLocked | apps/events-api/src/bookings/seat-lock.service.ts:39-57 | Locking the deduplicated codes fails exactly when some code asked for is locked, at the first such |
| Outcomes.CancelExactly | apps/events-api/src/bookings/bookings.service.ts:206-235 | Not found exactly when there is no such booking, already cancelled exactly when it is CANCELLED; otherwise the booking is CANCELLED, just its seats are AVAILABLE, and just its keys are deleted, by a customer only |
| Outcomes.GivesUp | apps/bookings-worker/src/bookings-processor/bookings-processor.service.ts:77-90 | A job that is not DONE and whose attempts are used up is FAILED and so is its booking; nothing else changes |
| Outcomes.BrokenOff | apps/bookings-worker/src/bookings-processor/bookings-processor.service.ts:92-155 | An attempt that throws at, or dies before, its write n keeps the writes before it, of attempt count, CONFIRMED with its QR url, notice and unlocking; after a throw the job is PENDING, after a death PROCESSING |
| Services.Stores.SetNx | apps/events-api/src/bookings/seat-lock.service.ts:41-48 | Sets the key with its expiry if it is absent, and says whether it did |
| Services.SeatLockService.AcquireLocks | apps/events-api/src/bookings/seat-lock.service.ts:32-60 | The loop over the codes, with its rollback, has the outcome whose meaning Calls.LockAllOrNothing states |
| Services.SeatLockService.ReleaseLocks | apps/events-api/src/bookings/seat-lock.service.ts:62-66 | Deletes exactly these keys, whoever holds them |
| Services.BookingsService.UniqueCodes | apps/events-api/src/bookings/bookings.service.ts:39 | The loop yields each distinct code once |
| Services.BookingsService.CreateBooking | apps/events-api/src/bookings/bookings.service.ts:38-83 | The call in place on the stores is Calls.CreateBooking: not found, unknown seats, already taken, held by another, server error or created |
| Services.BookingsService.Reserve | apps/events-api/src/bookings/bookings.service.ts:67-83 | Conflict leaves the stores alone and names the code; otherwise the booking is persisted |
| Services.BookingsService.Persist | apps/events-api/src/bookings/bookings.service.ts:85-165 | What the try block and its catch leave in rows, locks and queue when nothing, the transaction or the push fails |
| Services.BookingsService.RollBack | apps/events-api/src/bookings/bookings.service.ts:159-164 | The catch block deletes the request's keys and nothing else |
| Services.BookingsService.CancelBooking | apps/events-api/src/bookings/bookings.service.ts:206-235 | Unknown and already CANCELLED bookings are refused unchanged; otherwise CANCELLED, its seats AVAILABLE, its locks deleted |
| Services.AdminBookingsService.Cancel | apps/admin-api/src/bookings/bookings.service.ts:82-105 | The same rows as the customer's cancel; no lock is touched |
| Services.BookingsProcessorService.ProcessMessage | apps/bookings-worker/src/bookings-processor/bookings-processor.service.ts:37-48 | A message that names no job changes nothing; otherwise the job is processed |
| Services.BookingsProcessorService.ProcessJob | apps/bookings-worker/src/bookings-processor/bookings-processor.service.ts:55-95 | One call, with at most one write that throws or is never reached, leaves the stores of Calls.ProcessJob and says whether it returned |
| Services.BookingsProcessorService.Attempt | apps/bookings-worker/src/bookings-processor/bookings-processor.service.ts:97-155 | What the try block and its catch leave, and whether the call returned |
| Services.BookingsProcessorService.TryBlock | apps/bookings-worker/src/bookings-processor/bookings-processor.service.ts:100-128 | The try block alone: what its writes leave and whether it completed, threw or died |
| Services.BookingsProcessorService.TryRest | apps/bookings-worker/src/bookings-processor/bookings-processor.service.ts:119-128 | Its second half, the release and the DONE |
| Services.ReconciliationSweepService.Sweep | apps/bookings-worker/src/bookings-processor/reconciliation-sweep.service.ts:29-56 | The loop over the batch is the calls one after the other, ended by one that does not return |
| Solo.CallIsARun | apps/events-api/src/bookings/bookings.service.ts:36-165 | The steps of one request, with none between them, end in exactly the stores that the sequential call computes, and it succeeds exactly when the call does |
| Solo.CancelIsARun | apps/events-api/src/bookings/bookings.service.ts:206-235 | The same for a customer's or an admin's cancel; one that the call refuses takes no step |
| Solo.ProcessIsARun | apps/bookings-worker/src/bookings-processor/bookings-processor.service.ts:55-155 | The same for one call of processJob, deaths and throws included; the processor goes on with its batch exactly when the call returns |
| Solo.SweepIsARun | apps/bookings-worker/src/bookings-processor/reconciliation-sweep.service.ts:29-56 | The steps of one sweep, from its query to the end of its batch, are the loop over the batch: call after call, and none after one that does not return |
| Commute.OpLocal | apps/events-api/src/bookings/bookings.service.ts:118-121 | A call reads and writes only its own seats, their locks and its own rows |
| Commute.AppliedIsCalled | apps/events-api/src/bookings/bookings.service.ts:36-165 | The operations are the calls, whatever the queue holds, and expiry takes away just the locks of its seats |
| Commute.DisjointOpsCommute | apps/events-api/src/bookings/bookings.service.ts:36-165 | Booking, cancelling, processing and expiry on disjoint seats and rows commute, on every row and lock |
| Commute.CancelUndoesBooking | apps/events-api/src/bookings/bookings.service.ts:206-235 | Booking then cancelling, with any sequential operations on other seats in between, leaves every seat status and lock as those operations alone would |
| Commute.CancelsAgreeOnceExpired | apps/admin-api/src/bookings/bookings.service.ts:96-102 | An admin's cancel and a customer's, each followed by the same ticks of the clock, end in the same rows, and in the same locks if and only if the locks of the booking's seats have expired by then |
| AvailabilityCounts.FindOne | apps/events-api/src/events/events.service.ts:58-84 | An event unpublished or absent at the first read is not found; otherwise the loop over the grouped counts, in any order and with empty groups missing, reports the numbers of the event's AVAILABLE, HELD and BOOKED seats at the second read |
| AvailabilityCounts.ShownAddUp | apps/events-api/src/events/events.service.ts:58-84 | After any run the numbers shown for an event have nobody holding a seat and add up to totalSeats |
| AvailabilityCounts.BookingMovesCounts | apps/events-api/src/bookings/bookings.service.ts:118-121 | A booking moves as many seats of its event from available to booked as it names distinct codes, and none of any other event |
| AvailabilityCounts.CancelMovesCounts | apps/events-api/src/bookings/bookings.service.ts:222-225 | A cancel of a booking whose seats are BOOKED moves them all back |
| Tokens.AuthService.DoRegister | apps/admin-api/src/auth/auth.service.ts:33-65 | A known address is refused unchanged; otherwise a user and one token are stored |
| Tokens.AuthService.DoLogin | apps/admin-api/src/auth/auth.service.ts:67-90 | Only an active account with the right password gets a token |
| Tokens.AuthService.DoRefresh | apps/admin-api/src/auth/auth.service.ts:92-127 | A verified, stored, unrevoked, unexpired token of an active user is revoked and replaced; any other is refused unchanged |
| Tokens.AuthService.DoLogout | apps/admin-api/src/auth/auth.service.ts:129-136 | Revokes the caller's own token, if stored |
| Tokens.AuthService.DoLogoutAll | apps/admin-api/src/auth/auth.service.ts:138-144 | Revokes every token of the user and no other |
| Tokens.AuthService.IssueTokenPair | apps/admin-api/src/auth/auth.service.ts:148-184 | Stores one new unrevoked token with its expiry |
| Accounts.LoginGranted | apps/admin-api/src/auth/auth.service.ts:67-90 | With unique addresses, a login is granted exactly when the password matches and an active account has the address, and its token is that account's, stored unrevoked for the refresh TTL; a refused one changes nothing |
| Accounts.LoginExactly | apps/admin-api/src/auth/auth.service.ts:67-90 | In any sequence of calls from empty tables, a login is granted exactly when the password matches and an account registered under the address by then is active by the last word on it |
| Accounts.RegisterExactly | apps/admin-api/src/auth/auth.service.ts:33-65 | A registration is granted exactly when no earlier one under its address was |
| Accounts.RefreshExactly | apps/admin-api/src/auth/auth.service.ts:92-127 | A refresh is granted exactly when its token verifies, was the reply of an earlier call at most the refresh TTL ago, has since been neither refreshed, nor logged out by its owner, nor ended by a logout from all devices, and its account is registered and active by the last word on it |
| Tokens.EmailsStayUnique | packages/prisma/prisma/schema.prisma:55 | No call gives two users one address |
| Tokens.RefreshedOnce | apps/admin-api/src/auth/auth.service.ts:92-127 | Over any sequence of calls, a refresh token that yielded a pair is refused ever after |
| Tokens.LogoutAllEndsTokens | apps/admin-api/src/auth/auth.service.ts:138-144 | No token that existed at a logout from all devices ever refreshes after it |
| Tokens.RefreshKeepsCount | apps/admin-api/src/auth/auth.service.ts:121-126 | A refresh, granted or refused, leaves every user's number of unrevoked tokens as it was; a granted one swaps the spent token for the new one |
| SingleFlight.ApiClient.Rejected | apps/dashboard/src/lib/apiClient.ts:40-52 | A 401 on a retried request is an error; otherwise the request joins the shared promise, and starts a call only if there is none and a token is stored |
| SingleFlight.ApiClient.Answered | apps/dashboard/src/lib/apiClient.ts:15-24 | An answer stores the new pair, a failure clears both tokens; the promise is cleared and every request parked on it goes on or fails |
| Interceptor.RejectionParks | apps/dashboard/src/lib/apiClient.ts:40-52 | A 401 fails a request that was tried again, and parks any other on the promise, a new one posting the stored token if there is one; no other request changes |
| Interceptor.PromiseSettles | apps/dashboard/src/lib/apiClient.ts:15-24 | When the promise settles just the requests parked on it change: they go on if a refresh has arrived, with the new pair stored, and fail if it was lost, with both tokens cleared, or if there was no token |
| Interceptor.LostRefreshFails | apps/dashboard/src/lib/apiClient.ts:52-60 | A request that waits when the refresh is lost, or when there is no token, fails for ever and is never sent again |
| Interceptor.ResentAfterRefresh | apps/dashboard/src/lib/apiClient.ts:52-57 | In every run from the start, before a request is sent again it has had a 401 and after that a refresh has arrived |
| Interceptor.TokensTogether | apps/dashboard/src/lib/apiClient.ts:15-24 | The tab has an access token exactly when it has a refresh token |
| SingleFlight.NeverRedeemedTwice | apps/dashboard/src/lib/apiClient.ts:9-62 | In one tab: however the tab, logins, logouts and the separate reads and writes of the server interleave, no two calls present one token, the server pays out at most once per token, and no request is sent more than twice |
| SingleFlight.OneRefreshAtATime | apps/dashboard/src/lib/apiClient.ts:46-50 | A call starts only when none is awaited, and presents a stored token that no refresh has revoked and no call has presented |
| SingleFlight.RefusedForCause | apps/admin-api/src/auth/auth.service.ts:107-115 | A call of the tab is refused at the read of its row only for expiry or a logout, and at the read of the user only for a deactivated account: never because an earlier refresh had spent the token |
| ServerAlone.SerialExactly | apps/admin-api/src/auth/auth.service.ts:102-126 | Whoever presents tokens, in every run from the start: at no point of the run can the calls under way be finished so that a token is paid out twice, if and only if no call found its token live while another call of it stood between that read and the revocation |
| ServerAlone.TwoPassedPayTwice | apps/admin-api/src/auth/auth.service.ts:107-126 | Once two calls of one token have found it live and neither was turned away, the server need only finish them to pay that token out twice |
| ServerAlone.TwoClientsRedeemTwice | apps/admin-api/src/auth/auth.service.ts:102-126 | From any start, a login and two clients that present its token get two pairs for one token |
| ServerAlone.LogoutAllExactly | apps/admin-api/src/auth/auth.service.ts:138-144 | After a logout from all devices some unrevoked token can come to be without a new login if and only if at that moment a refresh stood between the read of its row and its answer |
| Logouts.LogoutExactly | apps/admin-api/src/auth/auth.service.ts:129-136 | In every run from the start, whoever presents tokens: after a logout of token t the session of t, that is t and whatever refreshes made of it, can have an unrevoked token if and only if it has another one already, or a refresh of it stands between the read of its row and its answer |
| Logouts.PromptLogoutEnds | apps/dashboard/src/store/authStore.ts:36-49 | A tab that logs out the token it holds while no refresh is pending ends its session for good |
| Logouts.ExpiredLogoutOutlived | apps/dashboard/src/lib/apiClient.ts:40-56 | From every start with a live token: the logout request gets a 401, the interceptor refreshes and sends it again with the spent token, it is answered, and the tab clears its store; the session still has a live token |
| OneAccount.RefreshInARow | apps/admin-api/src/auth/auth.service.ts:92-127 | The two reads and two writes of refresh made in a row are the call that Tokens reasons about: the same rows of the account, and the same reply |
| OneAccount.OneStep | apps/admin-api/src/auth/auth.service.ts:67-146 | So is each granted login, logout, logout from all devices and change of the account, as one step |
| OneAccount.NoStep | apps/admin-api/src/auth/auth.service.ts:67-146 | Refused calls, and calls that concern other accounts, leave the account's rows alone |
| OneAccount.WaitIsTicks | apps/admin-api/src/auth/auth.service.ts:107-109 | A wait is as many ticks as it has seconds |
| OneAccount.RegistrationIsTwoSteps | apps/admin-api/src/auth/auth.service.ts:33-65 | The account's registration is its activation and a login |
| OneAccount.LoginStepIsACall | apps/admin-api/src/auth/auth.service.ts:67-90 | Every login step is a granted login of the account with its address and a matching password |
| SeatMap.BuildSeatRows | apps/admin-api/src/events/events.service.ts:140-155 | The three nested loops yield the seats section by section, row by row |
| SeatMap.Create | apps/admin-api/src/events/events.service.ts:16-37 | An end not after the start is refused; otherwise the insert succeeds exactly when no code repeats, with totalSeats the number of seats and of distinct codes, and just the rows that StoredExactly speaks of |
| SeatMap.StoredExactly | apps/admin-api/src/events/events.service.ts:140-155 | A row is built if and only if some section, row r below rows and seat s from 1 to seatsPerRow give it: the section's name and tier, and as code the first unit of the name (undefined for an empty one), the unit 65 + r modulo 65536, and the decimal digits of s without a zero in front |
| SeatMap.StoredInOrder | apps/admin-api/src/events/events.service.ts:140-155 | The row of seat s in row r of section i comes after those of the sections before, of the rows before and of the seats before |
| SeatMap.CountsSeats | apps/admin-api/src/events/events.service.ts:140-155 | The number of seats is the sum of rows times seats per row |
| SeatMap.CodeInjective | apps/admin-api/src/events/events.service.ts:147 | Two codes are equal exactly when initials, row units and seat numbers are, empty names included |
| SeatMap.CodesUniqueExactly | packages/prisma/prisma/schema.prisma:127 | The codes meet the unique index exactly when the sections' initials are pairwise distinct and none has more than 65536 rows |
| SeatMap.RowLetterRecovered | apps/dashboard/src/components/booking/SeatMapView.tsx:25 | Exactly when the parser reads a row's own letter back: a non-empty name whose first unit is no line terminator, and one of 26 rows (or, by accident, the row whose unit is the question mark) |
| SeatMap.PushSeat | apps/dashboard/src/components/booking/SeatMapView.tsx:24-28 | One pass of the loop appends the seat to its own group and leaves the others |
| SeatMap.GroupSeats | apps/dashboard/src/components/booking/SeatMapView.tsx:22-30 | Every group is the seats of its section and letter in the order given, none is empty, and the keys of both maps are in the order of their first occurrence |
| SeatMap.KeysInOrder | apps/dashboard/src/components/booking/SeatMapView.tsx:22-30 | The sections come in the order in which the seats first name them, and the rows of a section likewise |
| SeatMap.ShownInOrder | apps/dashboard/src/components/booking/SeatMapView.tsx:24-28 | A group is all the seats of its section and letter, in the order given |
| SeatMap.ShownOnce | apps/dashboard/src/components/booking/SeatMapView.tsx:22-30 | A seat is in its own group as often as it was given and in no other |
| SeatMap.RowsShownAsBuilt | apps/dashboard/src/components/booking/SeatMapView.tsx:21-31 | For a created event with readable names and at most 26 rows a section, in whatever order its seats come back, the map shows under each section and letter exactly the seats built as that row |
| Pricing.Nearest | packages/prisma/prisma/schema.prisma:145 | Rounding to the nearest cent is off by half a cent at most |
| Pricing.StoredPriceExactly | apps/events-api/src/bookings/bookings.service.ts:109-112 | A stored price is base price times tier to the nearest cent, half a cent up, and the base price itself for a tier of 1.00 |
| Pricing.TotalsExactly | apps/events-api/src/bookings/bookings.service.ts:87-91 | The server's total before rounding and the panel's are both 1.05 times the base price times the sum of the tiers, and the stored total is that to the nearest cent, half a cent up |
| Pricing.StoredTotalNearStoredPrices | apps/events-api/src/bookings/bookings.service.ts:87-112 | The stored total differs from 1.05 times the sum of the n stored prices by at most 0.5 + 0.525 n cents |
| Pricing.HalfCentsAddUp | packages/prisma/prisma/schema.prisma:167 | That bound has to grow with n: prices that end in half a cent make the difference at least 0.525 n - 0.5 cents |
| Pricing.PanelShowsServerTotal | apps/dashboard/src/components/booking/BookingPanel.tsx:14-16 | The panel's subtotal plus fee is the server's total before rounding, for any ordering of the same seats |

## Left out

- Services.BookingsService.CreateBooking: leaves out the booking reference, the customer's data and the total (`Pricing` has it); a reference that collides is one way for the transaction to fail; and it names the taken seats as a set, because the query that finds them has no order
- Services.BookingsProcessorService.ProcessJob: leaves out `lastError` and `processedAt`, and takes the QR result (a url or none) and the place of the one failing write as parameters
- Services.ReconciliationSweepService.Sweep: takes the batch as a parameter, because the query has no order; any batch it may return is allowed
- Drain.SweepsDrain: the calls between two sweeps run one after the other; `Sweeping.SweepsDrainRuns` has them interleave
- Sweeping.SweepsDrainRuns: no booking arrives; with new bookings the unordered query of 25 may starve a job
- SharedSweeping.SweepFindsNothing: no booking arrives and the sweeper itself does not die
- Convergence.CrashConvergence: the runs of the job follow one another; several processors inside one job are the subject of `Workers`
- Commute.CancelUndoesBooking: leaves the order of the queue aside, where the pushed message remains
- SeatMap.CodesUniqueExactly: compares codes as sequences of code units; how the database encodes a lone surrogate is not modelled
- SingleFlight.NeverRedeemedTwice: settling the shared promise is one step with clearing it; a 401 that arrives between the two joins the settled promise, as if it had come before
- SingleFlight.RefusedForCause: starts after the session restore, which refreshes on its own without the shared promise (`useSessionRestore`), and covers one tab; `ServerAlone` has other tabs and the restore, as clients that present any stored token at any time
- ServerAlone.LogoutAllExactly: the state is that of one account; `OneAccount.NoStep` shows that the calls of other accounts leave it alone
- Logouts.LogoutExactly: the guard of the logout route, which wants a valid access token, is left out: a logout may reach the server at any time
- OneAccount.RefreshInARow: is about tokens whose signature and own expiry check out; any other is refused before the first read
- Seat ids: a seat is named by its event and code, which the schema keeps unique; lock keys are the same pairs
- The delete guard of an event counts PENDING and CONFIRMED bookings first; the model has only the foreign key, which is stricter
- The status HELD is never written by the code; it is in the model only to be shown absent
- JWT, bcrypt, SHA-256, QR codes and uuids: a token is its subject and id, the hash stands for the token, a QR result may be missing, ids are never repeated
- Decimal inputs: base prices are whole cents and tiers whole hundredths, as the columns keep them; floating point is not modelled
- Role guards, input validation beyond 1 to 10 seats and at least one row and seat, throttling, logging, health probes: plumbing around the core
- Pages, forms and routing of the dashboard, profile and category listings, dashboard totals, pagination, seed data: each is one query or one expression, with no state that outlives it
