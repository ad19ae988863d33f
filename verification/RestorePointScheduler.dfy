/** What the automatic scheduler achieves: when it prepares, how it cancels, and that it always gives the clock back. */
module RestorePointScheduler {
  import opened Prelude
  import opened OrderedLog
  import opened RestorePoint
  import opened RestorePointReady

  /** With nothing under way a free scheduler orders an automatic preparation, unless it is refused; a busy one does nothing. */
  lemma PreparesExactly(s: State, env: Env)
    requires Idle(s)
    ensures var k := SchedulerPrepare(s, env);
      if s.scheduler.preparation.Some? || s.scheduler.issued.Some? then k == s
      else if env.physical || env.refuses then
        k.log == s.log && k.scheduler == Scheduler(None, None, env.speed)
      else
        && k.log == s.log + [Committed(s.host, true, Prepare(true))]
        && k.scheduler == Scheduler(None, Some(|k.log|), env.speed)
        && k.current.Some? && k.current.value.automatic && k.current.value.status.Draining? && k.current.value.seqNo == |k.log|
  {
    ClosedExactly(s);
  }

  /** The scheduler remembers the preparation that it was given. */
  lemma NotesExactly(s: State)
    ensures SchedulerNote(s) == match s.scheduler.issued
      case None => s
      case Some(p) => s.(scheduler := Scheduler(Some(p), None, s.scheduler.resumeSpeed))
  {
  }

  /** The clock runs again, if it ran before and nothing is against it. */
  ghost predicate Released(s: State, k: State, log: seq<Entry>, env: Env) {
    && k.scheduler == s.scheduler.(preparation := None, resumeSpeed := 0)
    && k.log == (if s.scheduler.resumeSpeed > 0 && !s.fault && !env.resumeRefused
                 then log + [Committed(s.host, true, SetClock(s.scheduler.resumeSpeed))] else log)
  }

  lemma ReleasesExactly(s: State, env: Env)
    requires s.current.Some? ==> !Pending(s.current.value.status)
    ensures Released(s, SchedulerRelease(s, env), s.log, env)
  {
  }

  /** A finished preparation is forgotten and the clock given back. */
  lemma FinishesExactly(s: State, env: Env)
    requires s.current.Some? ==> !Pending(s.current.value.status)
    ensures if s.scheduler.preparation.Some? && s.scheduler.issued.None?
            then Released(s, SchedulerFinish(s, env), s.log, env) else SchedulerFinish(s, env) == s
  {
    ReleasesExactly(s.(scheduler := s.scheduler.(preparation := None)), env);
  }

  /** The scheduler can always cancel its own preparation: it fails, and the clock is given back. */
  lemma CancelsExactly(s: State, c: Preparation, env: Env)
    requires s.current == Some(c) && s.scheduler.preparation == Some(c.seqNo) && s.scheduler.issued.None?
    ensures var k := SchedulerCancel(s, env);
      if env.cancelRefused then k == s
      else Released(s, k, s.log + [Committed(s.host, true, Cancel(c.seqNo, false))], env)
           && (k.current.Some? ==> k.current.value.status.Failed?)
  {
    var i, e := ByHost(s, Cancel(c.seqNo, false)), Refusing(env, env.cancelRefused);
    assert OwnStep(s, c, i) && !Yields(s, i) && PastFence(s, i) == s;
    if !env.cancelRefused {
      assert Submit(s, i, e) == Reply(Commit(s, i, e), true);
      ReleasesExactly(Commit(s, i, e), env);
    }
  }
}
