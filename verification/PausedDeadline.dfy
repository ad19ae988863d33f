/**
  Deadlines that are suspended while the shared clock is paused. The registry only
  ever sees samples of the pause; over any interleaving a deadline has used up
  exactly the time for which the latest sample was unpaused.
 */
module PausedDeadline {
  import opened Prelude

  type Id = nat

  datatype Tracker = Tracker(deadline: real, pausedAt: Option<real>, pausedDuration: real, terminal: bool)

  /** The length of the open suspension, closed by this call. */
  function Suspension(t: Tracker, now: real): real {
    match t.pausedAt
    case None => 0.0
    case Some(since) => if now - since > 0.0 then now - since else 0.0
  }

  function Settle(t: Tracker, now: real, extend: bool): Tracker {
    Tracker(if extend then t.deadline + Suspension(t, now) else t.deadline, None,
            t.pausedDuration + Suspension(t, now), t.terminal)
  }

  function Suspend(t: Tracker, now: real): Tracker {
    if t.pausedAt.Some? then t else t.(pausedAt := Some(now))
  }

  datatype State = State(pauseStartedAt: Option<real>, trackers: map<Id, Tracker>)

  /** What a sample of the pause does to one tracker; terminal ones are left alone. */
  function Sampled(t: Tracker, now: real, paused: bool): Tracker {
    if t.terminal then t else if paused then Suspend(t, now) else Settle(t, now, true)
  }

  predicate AnySuspended(s: State) {
    exists id :: id in s.trackers && !s.trackers[id].terminal && s.trackers[id].pausedAt.Some?
  }

  function AfterSynchronize(s: State, now: real, paused: bool): State {
    if !paused && s.pauseStartedAt.None? && !AnySuspended(s) then s
    else State(if !paused then None else if s.pauseStartedAt.Some? then s.pauseStartedAt else Some(now),
               map id | id in s.trackers :: Sampled(s.trackers[id], now, paused))
  }

  /** A tracker that a host hands over for the first time. */
  function AfterRegister(s: State, id: Id, deadline: real, now: real): State {
    s.(trackers := s.trackers[id := Tracker(deadline, if s.pauseStartedAt.Some? then Some(now) else None, 0.0, false)])
  }

  function AfterReset(s: State, id: Id, timeout: real, now: real): State
    requires id in s.trackers
  {
    var t := Settle(s.trackers[id], now, false).(deadline := now + timeout);
    s.(trackers := s.trackers[id := if s.pauseStartedAt.Some? then t.(pausedAt := Some(now)) else t])
  }

  function AfterComplete(s: State, id: Id, now: real): State
    requires id in s.trackers
  {
    s.(trackers := s.trackers[id := Settle(s.trackers[id], now, false).(terminal := true)])
  }

  // ---------------------------------------------------------------- runs

  datatype Event = Sample(paused: bool) | Registers(id: Id, deadline: real) | Resets(id: Id) | Completes(id: Id)

  datatype Timed = Timed(event: Event, now: real)

  function Step(s: State, timeout: real, e: Timed): State {
    match e.event
    case Sample(paused) => AfterSynchronize(s, e.now, paused)
    case Registers(id, deadline) => if id in s.trackers then s else AfterRegister(s, id, deadline, e.now)
    case Resets(id) => if id in s.trackers && !s.trackers[id].terminal then AfterReset(s, id, timeout, e.now) else s
    case Completes(id) => if id in s.trackers && !s.trackers[id].terminal then AfterComplete(s, id, e.now) else s
  }

  function Run(timeout: real, events: seq<Timed>): State {
    if events == [] then State(None, map[]) else Step(Run(timeout, events[..|events| - 1]), timeout, events[|events| - 1])
  }

  predicate Monotone(events: seq<Timed>) { forall i, j :: 0 <= i < j < |events| ==> events[i].now <= events[j].now }

  /** The time of the latest event. */
  function Clock(events: seq<Timed>): real { if events == [] then 0.0 else events[|events| - 1].now }

  /** Whether the latest sample was paused. */
  function Paused(events: seq<Timed>): bool {
    if events == [] then false
    else match events[|events| - 1].event
      case Sample(p) => p
      case _ => Paused(events[..|events| - 1])
  }

  /** What a stopwatch shows for one tracker: time since it was last set, and paused time since registration. */
  datatype Watch = Idle | Watching(budget: real, running: real, paused: real) | Stopped(paused: real)

  /** The stopwatch knows only the events: between two events it counts by the latest sample. */
  function Measure(timeout: real, events: seq<Timed>, id: Id): Watch {
    if events == [] then Idle else
    var before, e := events[..|events| - 1], events[|events| - 1];
    var gap := if before == [] then 0.0 else e.now - Clock(before);
    var counted := match Measure(timeout, before, id)
      case Watching(b, r, p) => if Paused(before) then Watching(b, r, p + gap) else Watching(b, r + gap, p)
      case other => other;
    match e.event
    case Registers(i, deadline) => if i == id && counted.Idle? then Watching(deadline - e.now, 0.0, 0.0) else counted
    case Resets(i) => if i == id && counted.Watching? then Watching(timeout, 0.0, counted.paused) else counted
    case Completes(i) => if i == id && counted.Watching? then Stopped(counted.paused) else counted
    case _ => counted
  }

  /** What is left until the deadline, not counting an open suspension. */
  function Budget(t: Tracker, now: real): real { t.deadline - (if t.pausedAt.Some? then t.pausedAt.value else now) }

  /** The tracker agrees with its stopwatch at this time. */
  predicate Agrees(s: State, id: Id, w: Watch, paused: bool, now: real) {
    match w
    case Idle => id !in s.trackers
    case Watching(budget, running, total) =>
      && id in s.trackers && !s.trackers[id].terminal
      && (s.trackers[id].pausedAt.Some? <==> paused)
      && (s.trackers[id].pausedAt.Some? ==> s.trackers[id].pausedAt.value <= now)
      && Budget(s.trackers[id], now) == budget - running
      && s.trackers[id].pausedDuration + Suspension(s.trackers[id], now) == total
    case Stopped(total) => id in s.trackers && s.trackers[id].terminal && s.trackers[id].pausedDuration == total
  }

  /** Even a clock that goes back never takes paused time away, and completion leaves the deadline as it was. */
  lemma SettlingIsFair(s: State, id: Id, now: real)
    requires id in s.trackers
    ensures s.trackers[id].pausedDuration <= AfterComplete(s, id, now).trackers[id].pausedDuration
    ensures AfterComplete(s, id, now).trackers[id].deadline == s.trackers[id].deadline
    ensures !s.trackers[id].terminal ==> Sampled(s.trackers[id], now, false).deadline >= s.trackers[id].deadline
  {
  }

  /** The pause is open exactly while the latest sample was paused, for the registry and every pending tracker. */
  predicate PauseIsOpen(s: State, paused: bool) {
    && (s.pauseStartedAt.Some? <==> paused)
    && forall id :: id in s.trackers && !s.trackers[id].terminal ==> (s.trackers[id].pausedAt.Some? <==> paused)
  }

  lemma {:induction false} RunTracksPause(timeout: real, events: seq<Timed>)
    ensures PauseIsOpen(Run(timeout, events), Paused(events))
  {
    if events != [] { RunTracksPause(timeout, events[..|events| - 1]); }
  }

  /** The passing of time is counted by the budget exactly as by the stopwatch. */
  lemma TimePasses(s: State, id: Id, budget: real, running: real, total: real, paused: bool, from: real, now: real)
    requires Agrees(s, id, Watching(budget, running, total), paused, from) && from <= now
    ensures Agrees(s, id, if paused then Watching(budget, running, total + (now - from))
                          else Watching(budget, running + (now - from), total), paused, now)
  {
  }

  lemma StepAgrees(s: State, timeout: real, id: Id, w: Watch, paused: bool, e: Timed)
    requires PauseIsOpen(s, paused) && Agrees(s, id, w, paused, e.now)
    ensures var after := match e.event
        case Registers(i, deadline) => if i == id && w.Idle? then Watching(deadline - e.now, 0.0, 0.0) else w
        case Resets(i) => if i == id && w.Watching? then Watching(timeout, 0.0, w.paused) else w
        case Completes(i) => if i == id && w.Watching? then Stopped(w.paused) else w
        case _ => w;
      Agrees(Step(s, timeout, e), id, after, if e.event.Sample? then e.event.paused else paused, e.now)
  {
  }

  /** Over every interleaving, each tracker has used up exactly the unpaused time and counted the paused time. */
  lemma {:induction false} DeadlinesCountUnpausedTime(timeout: real, events: seq<Timed>, id: Id)
    requires Monotone(events)
    ensures Agrees(Run(timeout, events), id, Measure(timeout, events, id), Paused(events), Clock(events))
  {
    if events != [] {
      var before, e := events[..|events| - 1], events[|events| - 1];
      DeadlinesCountUnpausedTime(timeout, before, id);
      RunTracksPause(timeout, before);
      var s, w := Run(timeout, before), Measure(timeout, before, id);
      if before != [] {
        assert Clock(before) <= e.now;
        if w.Watching? { TimePasses(s, id, w.budget, w.running, w.paused, Paused(before), Clock(before), e.now); }
        var gap := e.now - Clock(before);
        var counted := match w
          case Watching(b, r, p) => if Paused(before) then Watching(b, r, p + gap) else Watching(b, r + gap, p)
          case other => other;
        StepAgrees(s, timeout, id, counted, Paused(before), e);
      } else {
        StepAgrees(s, timeout, id, w, Paused(before), e);
      }
    }
  }

  // ---------------------------------------------------------------- the registry

  predicate NotBefore(events: seq<Timed>, now: real) { events == [] || Clock(events) <= now }

  /** One more event: the next state of the run, and every tracker still agrees with its stopwatch. */
  lemma RunExtends(timeout: real, events: seq<Timed>, e: Timed)
    requires Monotone(events) && NotBefore(events, e.now)
    ensures Monotone(events + [e]) && Run(timeout, events + [e]) == Step(Run(timeout, events), timeout, e)
  {
    assert (events + [e])[..|events|] == events;
    forall i, j | 0 <= i < j < |events| + 1 ensures (events + [e])[i].now <= (events + [e])[j].now {
      if j == |events| { assert i == |events| - 1 || events[i].now <= events[|events| - 1].now; }
    }
  }

  lemma ExtendedAgrees(timeout: real, events: seq<Timed>, e: Timed, id: Id)
    requires Monotone(events) && NotBefore(events, e.now)
    ensures Agrees(Run(timeout, events + [e]), id, Measure(timeout, events + [e], id), Paused(events + [e]), e.now)
  {
    RunExtends(timeout, events, e);
    DeadlinesCountUnpausedTime(timeout, events + [e], id);
  }

  /** What the stopwatch of a tracker shows right after it was registered, reset or completed. */
  lemma WatchRestarts(timeout: real, events: seq<Timed>, now: real, id: Id)
    requires Monotone(events) && NotBefore(events, now)
    ensures Measure(timeout, events + [Timed(Resets(id), now)], id).Watching? ==>
              Measure(timeout, events + [Timed(Resets(id), now)], id).budget == timeout
              && Measure(timeout, events + [Timed(Resets(id), now)], id).running == 0.0
    ensures id !in Run(timeout, events).trackers ==>
              forall deadline {:trigger Registers(id, deadline)} ::
                Measure(timeout, events + [Timed(Registers(id, deadline), now)], id) == Watching(deadline - now, 0.0, 0.0)
  {
    DeadlinesCountUnpausedTime(timeout, events, id);
    var w := Measure(timeout, events, id);
    assert (events + [Timed(Resets(id), now)])[..|events|] == events;
    forall deadline ensures Measure(timeout, events + [Timed(Registers(id, deadline), now)], id)
        == if w.Idle? then Watching(deadline - now, 0.0, 0.0) else Measure(timeout, events + [Timed(Registers(id, deadline), now)], id) {
      assert (events + [Timed(Registers(id, deadline), now)])[..|events|] == events;
    }
  }

  class PausedDeadlineRegistry {
    const timeout: real
    var pauseStartedAt: Option<real>
    var trackers: map<Id, Tracker>

    ghost var events: seq<Timed>

    ghost function View(): State
      reads this
    {
      State(pauseStartedAt, trackers)
    }

    /** The registry is where the events that reached it lead, in the order of their times. */
    ghost predicate Valid()
      reads this
    {
      View() == Run(timeout, events) && Monotone(events)
    }

    constructor (timeout: real)
      ensures Valid() && events == [] && this.timeout == timeout
    {
      this.timeout := timeout;
      pauseStartedAt, trackers, events := None, map[], [];
    }

    /** Visit every pending tracker once. */
    method SampleAll(now: real, paused: bool)
      modifies this`trackers
      ensures trackers == map id | id in old(trackers) :: Sampled(old(trackers)[id], now, paused)
    {
      ghost var before := trackers;
      var left := trackers.Keys;
      while left != {}
        invariant left <= before.Keys && trackers.Keys == before.Keys
        invariant forall id :: id in left ==> trackers[id] == before[id]
        invariant forall id :: id in before && id !in left ==> trackers[id] == Sampled(before[id], now, paused)
        decreases |left|
      {
        var id :| id in left;
        var t := trackers[id];
        if !t.terminal {
          if !paused {
            trackers := trackers[id := Settle(t, now, true)];
          } else if t.pausedAt.None? {
            trackers := trackers[id := t.(pausedAt := Some(now))];
          }
        }
        left := left - {id};
      }
    }

    /** A sample of the pause: afterwards every pending tracker is suspended exactly if it was paused. */
    method Synchronize(now: real, paused: bool)
      requires Valid() && NotBefore(events, now)
      modifies this
      ensures Valid() && events == old(events) + [Timed(Sample(paused), now)]
      ensures View() == AfterSynchronize(old(View()), now, paused) && PauseIsOpen(View(), paused)
    {
      RunExtends(timeout, events, Timed(Sample(paused), now));
      RunTracksPause(timeout, events + [Timed(Sample(paused), now)]);
      events := events + [Timed(Sample(paused), now)];
      if paused {
        if pauseStartedAt.None? { pauseStartedAt := Some(now); }
        SampleAll(now, true);
      } else if pauseStartedAt.Some? || exists id :: id in trackers && !trackers[id].terminal && trackers[id].pausedAt.Some? {
        SampleAll(now, false);
        pauseStartedAt := None;
      }
    }

    /** A new tracker has its whole budget, and is suspended from the start during a pause. */
    method Register(id: Id, deadline: real, now: real)
      requires Valid() && NotBefore(events, now)
      modifies this`trackers, this`events
      ensures Valid() && events == old(events) + [Timed(Registers(id, deadline), now)]
      ensures forall other :: other in old(trackers) ==> other in trackers && trackers[other] == old(trackers)[other]
      ensures id !in old(trackers) ==>
                id in trackers && Agrees(View(), id, Watching(deadline - now, 0.0, 0.0), pauseStartedAt.Some?, now)
    {
      ghost var e := Timed(Registers(id, deadline), now);
      RunExtends(timeout, events, e);
      ExtendedAgrees(timeout, events, e, id);
      RunTracksPause(timeout, events + [e]);
      WatchRestarts(timeout, events, now, id);
      events := events + [e];
      if id !in trackers {
        var t := Tracker(deadline, None, 0.0, false);
        if pauseStartedAt.Some? { t := t.(pausedAt := Some(now)); }
        trackers := trackers[id := t];
      }
    }

    /** A reset gives a pending tracker its full timeout again and keeps what it has counted as paused. */
    method Reset(id: Id, now: real)
      requires Valid() && NotBefore(events, now) && id in trackers && !trackers[id].terminal
      modifies this`trackers, this`events
      ensures Valid() && events == old(events) + [Timed(Resets(id), now)]
      ensures id in trackers && Budget(trackers[id], now) == timeout && (trackers[id].pausedAt.Some? <==> Paused(events))
      ensures Measure(timeout, events, id).Watching?
              && trackers[id].pausedDuration + Suspension(trackers[id], now) == Measure(timeout, events, id).paused
      ensures forall other :: other in old(trackers) && other != id ==>
                other in trackers && trackers[other] == old(trackers)[other]
    {
      ghost var e := Timed(Resets(id), now);
      RunExtends(timeout, events, e);
      ExtendedAgrees(timeout, events, e, id);
      WatchRestarts(timeout, events, now, id);
      events := events + [e];
      var t := Settle(trackers[id], now, false).(deadline := now + timeout);
      if pauseStartedAt.Some? { t := t.(pausedAt := Some(now)); }
      trackers := trackers[id := t];
    }

    /** Completion reports exactly the paused time since registration, as a stopwatch would show it. */
    method Complete(id: Id, now: real) returns (duration: real)
      requires Valid() && NotBefore(events, now) && id in trackers && !trackers[id].terminal
      modifies this`trackers, this`events
      ensures Valid() && events == old(events) + [Timed(Completes(id), now)]
      ensures Measure(timeout, events, id) == Stopped(duration) && id in trackers && trackers[id].terminal
      ensures forall other :: other in old(trackers) && other != id ==>
                other in trackers && trackers[other] == old(trackers)[other]
    {
      ghost var e := Timed(Completes(id), now);
      RunExtends(timeout, events, e);
      ExtendedAgrees(timeout, events, e, id);
      events := events + [e];
      var t := Settle(trackers[id], now, false);
      trackers := trackers[id := t.(terminal := true)];
      duration := t.pausedDuration;
    }
  }
}
