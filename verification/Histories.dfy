/** What the state of the queue and of an event owes to the steps so far: messages are delivered first in, first
    out, and an event can be booked exactly while the last word on it was to publish it. */
module Histories {
  import opened Store
  import opened Protocol
  import opened Safety
  import opened Always

  function Reversed(s: seq<Id>): (r: seq<Id>)
    ensures |r| == |s| && forall i :: 0 <= i < |s| ==> r[i] == s[|s| - 1 - i]
  {
    seq(|s|, i requires 0 <= i < |s| => s[|s| - 1 - i])
  }

  // ---- runs by their last step -----------------------------------------------------------

  lemma {:induction false} LastStep(st: State, actions: seq<Action>, a: Action)
    requires Run(st, actions + [a], Any)
    ensures Run(st, actions, Any) && Enabled(Final(st, actions, Any), a)
    ensures Final(st, actions + [a], Any) == Next(Final(st, actions, Any), a)
    decreases |actions|
  {
    if actions == [] {
      assert [] + [a] == [a] && [a][1..] == [];
    } else {
      assert (actions + [a])[1..] == actions[1..] + [a];
      LastStep(Next(st, actions[0]), actions[1..], a);
    }
  }

  // ---- the queue -------------------------------------------------------------------------

  /** What the steps pushed, in order: a request its booking's id, the world whatever it injects. */
  ghost function Pushed(st: State, actions: seq<Action>): seq<Id>
    requires Run(st, actions, Any)
    decreases |actions|
  {
    if actions == [] then []
    else PushedBy(st, actions[0]) + Pushed(Next(st, actions[0]), actions[1..])
  }

  function PushedBy(st: State, a: Action): seq<Id>
    requires Enabled(st, a)
  {
    match a
    case Booker(rid, Push) => [st.requests[rid].phase.booking]
    case World(Inject(j)) => [j]
    case _ => []
  }

  /** Step `a` hands message `m` to its processor: the job of that id, if there is one. */
  predicate Delivers(st: State, a: Action, m: Id)
    requires Enabled(st, a)
  {
    && a.Processor? && a.wstep.Deliver?
    && Next(st, a).workers == st.workers[a.wid := Worker(if m in st.db.jobs then [m] else [], Idle)]
  }

  /** `delivered` are the messages handed out, in order. */
  ghost predicate Delivered(st: State, actions: seq<Action>, delivered: seq<Id>)
    requires Run(st, actions, Any)
    decreases |actions|
  {
    if actions == [] then delivered == []
    else
      var after := Next(st, actions[0]);
      if actions[0].Processor? && actions[0].wstep.Deliver? then
        && delivered != [] && Delivers(st, actions[0], delivered[0])
        && Delivered(after, actions[1..], delivered[1..])
      else Delivered(after, actions[1..], delivered)
  }

  predicate NothingLost(actions: seq<Action>) {
    World(LoseQueue) !in actions
  }

  lemma ReversedJoin(a: seq<Id>, b: seq<Id>)
    ensures Reversed(Reversed(a) + b) == Reversed(b) + a
  {
    var joined := Reversed(a) + b;
    forall i | 0 <= i < |joined| ensures Reversed(joined)[i] == (Reversed(b) + a)[i] {
      assert Reversed(joined)[i] == joined[|joined| - 1 - i];
    }
  }

  lemma HeadStep(st: State, a: Action)
    requires Enabled(st, a) && a != World(LoseQueue) && !(a.Processor? && a.wstep.Deliver?)
    ensures Next(st, a).queue == PushedBy(st, a) + st.queue && |PushedBy(st, a)| <= 1
  {
    match a
    case Booker(rid, step) =>
    case Canceller(_, _) =>
    case Processor(_, Write(qr)) =>
    case Processor(_, _) =>
    case World(_) =>
    case _ =>
  }

  lemma QueueStep(st: State, a: Action)
    requires Enabled(st, a) && a != World(LoseQueue) && !(a.Processor? && a.wstep.Deliver?)
    ensures Reversed(Next(st, a).queue) == Reversed(st.queue) + PushedBy(st, a)
  {
    HeadStep(st, a);
    assert Reversed(PushedBy(st, a)) == PushedBy(st, a);
    ReversedJoin(PushedBy(st, a), st.queue);
  }

  lemma DeliverStep(st: State, a: Action) returns (m: Id)
    requires Enabled(st, a) && a.Processor? && a.wstep.Deliver?
    ensures Delivers(st, a, m) && PushedBy(st, a) == []
    ensures Reversed(st.queue) == [m] + Reversed(Next(st, a).queue)
  {
    m := st.queue[|st.queue| - 1];
  }

  /** Until messages are lost they come out in the order in which they went in: what was queued, then what was
      pushed, is what was delivered, then what is still queued. */
  lemma {:induction false} FirstInFirstOut(st: State, actions: seq<Action>) returns (delivered: seq<Id>)
    requires Run(st, actions, Any) && NothingLost(actions)
    ensures Delivered(st, actions, delivered)
    ensures Reversed(st.queue) + Pushed(st, actions) == delivered + Reversed(Final(st, actions, Any).queue)
    decreases |actions|
  {
    if actions == [] {
      delivered := [];
    } else {
      var a, after := actions[0], Next(st, actions[0]);
      assert a in actions && forall b :: b in actions[1..] ==> b in actions;
      delivered := FirstInFirstOut(after, actions[1..]);
      var rest, left := Pushed(after, actions[1..]), Reversed(Final(st, actions, Any).queue);
      if a.Processor? && a.wstep.Deliver? {
        var m := DeliverStep(st, a);
        DeliveredFirst(m, Reversed(st.queue), Reversed(after.queue), rest, delivered, left);
        delivered := [m] + delivered;
      } else {
        QueueStep(st, a);
        PushedLast(Reversed(st.queue), PushedBy(st, a), rest);
      }
    }
  }

  /** What was queued when the messages were lost is never delivered: only what has been pushed since. */
  lemma LostForGood(st: State, actions: seq<Action>) returns (delivered: seq<Id>)
    requires Run(Next(st, World(LoseQueue)), actions, Any) && NothingLost(actions)
    ensures var after := Next(st, World(LoseQueue));
      && Delivered(after, actions, delivered)
      && Pushed(after, actions) == delivered + Reversed(Final(after, actions, Any).queue)
  {
    var after := Next(st, World(LoseQueue));
    delivered := FirstInFirstOut(after, actions);
    assert Reversed(after.queue) == [];
  }

  lemma DeliveredFirst(m: Id, queue: seq<Id>, after: seq<Id>, rest: seq<Id>, delivered: seq<Id>, left: seq<Id>)
    requires queue == [m] + after && after + rest == delivered + left
    ensures queue + ([] + rest) == ([m] + delivered) + left
    ensures ([m] + delivered)[0] == m && ([m] + delivered)[1..] == delivered
  {
    assert queue + ([] + rest) == [m] + (after + rest);
  }

  lemma PushedLast(queue: seq<Id>, pushed: seq<Id>, rest: seq<Id>)
    ensures queue + (pushed + rest) == (queue + pushed) + rest
  {
  }

  // ---- publication -----------------------------------------------------------------------

  /** The last word on event `e`: whether it was to publish it.  A new event is not published. */
  function LastWord(actions: seq<Action>, e: Id): bool {
    if actions == [] then false
    else
      match actions[|actions| - 1]
      case World(SetPublished(x, p)) => if x == e then p else LastWord(actions[..|actions| - 1], e)
      case World(CreateEvent(x, _)) => x != e && LastWord(actions[..|actions| - 1], e)
      case _ => LastWord(actions[..|actions| - 1], e)
  }

  lemma EventsKept(st: State, a: Action)
    requires Enabled(st, a) && !a.World?
    ensures Next(st, a).db.events == st.db.events
  {
    match a
    case Booker(rid, step) => OwnRequestOnly(st, rid, step);
    case Canceller(_, _) =>
    case Processor(wid, step) => if step.Write? { JobWriteKeepsRows(st.db, st.locks, st.workers[wid].pc, step.qr); }
    case _ =>
  }

  lemma PublishedStep(st: State, step: WorldStep, e: Id, before: bool)
    requires WorldEnabled(st, step) && (e in st.db.events ==> st.db.events[e].published == before)
    requires e in WorldNext(st, step).db.events
    ensures WorldNext(st, step).db.events[e].published == match step
      case SetPublished(x, p) => if x == e then p else before
      case CreateEvent(x, _) => x != e && before
      case _ => before
  {
  }

  lemma {:induction false} PublishedAsSaid(st: State, actions: seq<Action>, e: Id)
    requires Init(st) && Run(st, actions, Any) && e in Final(st, actions, Any).db.events
    ensures Final(st, actions, Any).db.events[e].published == LastWord(actions, e)
    decreases |actions|
  {
    if actions != [] {
      var n := |actions| - 1;
      assert actions == actions[..n] + [actions[n]];
      LastStep(st, actions[..n], actions[n]);
      var mid := Final(st, actions[..n], Any);
      if e in mid.db.events {
        PublishedAsSaid(st, actions[..n], e);
      }
      if actions[n].World? {
        PublishedStep(mid, actions[n].step, e, LastWord(actions[..n], e));
      } else {
        EventsKept(mid, actions[n]);
      }
    }
  }

  /** A request gets past its first read exactly when its event exists and the last word on it was to publish it. */
  lemma OnlyPublishedBooked(st: State, actions: seq<Action>, rid: Id)
    requires Init(st) && Run(st, actions, Any) && Enabled(Final(st, actions, Any), Booker(rid, ReadEvent))
    ensures var end := Final(st, actions, Any);
      var e := end.requests[rid].event;
      Next(end, Booker(rid, ReadEvent)).requests[rid].phase
        == if e in end.db.events && LastWord(actions, e) then EventFound else Rejected
  {
    var end := Final(st, actions, Any);
    var e := end.requests[rid].event;
    if e in end.db.events { PublishedAsSaid(st, actions, e); }
  }

  /** A deleted event is gone, with its seats and no others. */
  lemma DeletedIsGone(st: State, e: Id)
    requires Enabled(st, World(DeleteEvent(e)))
    ensures var after := Next(st, World(DeleteEvent(e)));
      && after.db.events == st.db.events - {e} && (forall s :: s in after.db.seats ==> s.event != e)
      && (forall s :: s in st.db.seats && s.event != e ==> s in after.db.seats && after.db.seats[s] == st.db.seats[s])
      && after.db.bookings == st.db.bookings
  {
  }

  // ---- locks left behind -----------------------------------------------------------------

  /** The request may have a lock on `s`: it has locked it and has not been refused since. */
  predicate MayHold(r: Request, s: Seat) {
    match r.phase
    case Submitted => false
    case EventFound => false
    case Rejected => false
    case Locking(_) => s in Acquired(r)
    case RollingBack(_) => s in Acquired(r)
    case _ => s in r.seats
  }

  ghost predicate LocksHeld(st: State) {
    forall s :: s in st.locks ==>
      st.locks[s].holder in st.requests && MayHold(st.requests[st.locks[s].holder], s)
  }

  lemma RequestLocksHeld(st: State, rid: Id, step: RequestStep)
    requires LocksHeld(st) && RequestEnabled(st, rid, step)
    ensures LocksHeld(RequestNext(st, rid, step))
  {
    var r, after := st.requests[rid], RequestNext(st, rid, step);
    forall s | s in after.locks
      ensures after.locks[s].holder in after.requests && MayHold(after.requests[after.locks[s].holder], s)
    {
      if step.SetNx? && after.requests[rid].phase.Locking? {
        var n := r.phase.acquired;
        assert r.seats[..n + 1] == r.seats[..n] + [r.seats[n]];
      }
    }
  }

  /** A step that no request takes leaves the requests alone and sets no lock. */
  lemma OthersSetNoLock(st: State, a: Action)
    requires Enabled(st, a) && !a.Booker? && !a.Submit?
    ensures Next(st, a).requests == st.requests
    ensures forall s :: s in Next(st, a).locks ==> s in st.locks && Next(st, a).locks[s] == st.locks[s]
  {
    match a
    case CheckCancel(_, _, _) =>
    case Canceller(_, _) =>
    case Processor(wid, step) => if step.Write? { WriteSetsNoLock(st, wid, step.qr); }
    case World(_) =>
  }

  lemma WriteSetsNoLock(st: State, wid: Id, qr: Option<string>)
    requires WriteEnabled(st, wid)
    ensures WriteNext(st, wid, qr).requests == st.requests
    ensures forall s :: s in WriteNext(st, wid, qr).locks ==>
      s in st.locks && WriteNext(st, wid, qr).locks[s] == st.locks[s]
  {
  }

  lemma LocksHeldStep(st: State, a: Action)
    requires LocksHeld(st) && Enabled(st, a)
    ensures LocksHeld(Next(st, a))
  {
    if a.Booker? {
      RequestLocksHeld(st, a.rid, a.rstep);
    } else if !a.Submit? {
      OthersSetNoLock(st, a);
    }
  }

  lemma {:induction false} RunLocksHeld(st: State, actions: seq<Action>)
    requires LocksHeld(st) && Run(st, actions, Any)
    ensures LocksHeld(Final(st, actions, Any))
    decreases |actions|
  {
    if actions != [] {
      LocksHeldStep(st, actions[0]);
      RunLocksHeld(Next(st, actions[0]), actions[1..]);
    }
  }

  /** After any run, the holder of a lock is a request for that seat that has read it and has not been refused: a
      refusal leaves no lock behind. */
  lemma RefusedHoldsNothing(st: State, actions: seq<Action>, s: Seat)
    requires Init(st) && Run(st, actions, Any) && s in Final(st, actions, Any).locks
    ensures var end := Final(st, actions, Any);
      var holder := end.locks[s].holder;
      && holder in end.requests && s in end.requests[holder].seats
      && end.requests[holder].phase != Submitted && end.requests[holder].phase != EventFound
      && end.requests[holder].phase != Rejected
  {
    RunLocksHeld(st, actions);
  }

  /** A request that vanished stays so and takes no further step. */
  lemma VanishedIsGone(st: State, actions: seq<Action>, rid: Id)
    requires Enabled(st, Booker(rid, Vanish)) && Run(Next(st, Booker(rid, Vanish)), actions, Any)
    ensures var end := Final(Next(st, Booker(rid, Vanish)), actions, Any);
      rid in end.requests && end.requests[rid] == st.requests[rid].(phase := Gone)
  {
    GoneStays(Next(st, Booker(rid, Vanish)), actions, rid);
  }

  lemma {:induction false} GoneStays(st: State, actions: seq<Action>, rid: Id)
    requires rid in st.requests && st.requests[rid].phase == Gone && Run(st, actions, Any)
    ensures rid in Final(st, actions, Any).requests && Final(st, actions, Any).requests[rid] == st.requests[rid]
    decreases |actions|
  {
    if actions != [] {
      GoneStep(st, actions[0], rid);
      GoneStays(Next(st, actions[0]), actions[1..], rid);
    }
  }

  lemma GoneStep(st: State, a: Action, rid: Id)
    requires rid in st.requests && st.requests[rid].phase == Gone && Enabled(st, a)
    ensures rid in Next(st, a).requests && Next(st, a).requests[rid] == st.requests[rid]
  {
    if a.Booker? {
      OwnRequestOnly(st, a.rid, a.rstep);
    } else if !a.Submit? {
      OthersSetNoLock(st, a);
    }
  }

  lemma OwnRequestOnly(st: State, rid: Id, step: RequestStep)
    requires RequestEnabled(st, rid, step)
    ensures var after := RequestNext(st, rid, step);
      && after.requests.Keys == st.requests.Keys && after.db.events == st.db.events
      && forall r :: r in st.requests && r != rid ==> after.requests[r] == st.requests[r]
  {
  }
}
