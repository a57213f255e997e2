/** Every step of a worker's session keeps the invariant. */
module SessionSteps {
  import opened Wrappers
  import opened Tables
  import opened Protocol
  import opened Invariants
  import opened TableLemmas
  import opened Preservation

  lemma WriteOk(s: State, h: Holder)
    requires WorkersOk(s) && h in s.sessions
    requires s.sessions[h].phase == Stepping && s.sessions[h].writesLeft > 0
    ensures var x := s.sessions[h];
            WorkersOk(Put(s, h, x.(writesLeft := x.writesLeft - 1)))
  {
    var x := s.sessions[h];
    var next := Put(s, h, x.(writesLeft := x.writesLeft - 1));
    assert SessionOk(s, h);
    assert Held(next, h) == Held(s, h);
    assert SessionOk(next, h);
    LocalStepOk(s, next, h);
  }

  /** Passing an assert, or the check of the audit row before any write. */
  lemma AdvanceOk(s: State, h: Holder)
    requires WorkersOk(s) && h in s.sessions
    requires s.sessions[h].phase == Stepping && s.sessions[h].writesLeft == 0 && s.sessions[h].todo != []
    ensures WorkersOk(Put(s, h, Advance(s.sessions[h])))
  {
    var x := s.sessions[h];
    var next := Put(s, h, Advance(x));
    assert SessionOk(s, h);
    assert x.todo[0] in x.todo;
    assert forall g <- x.todo[1..] :: g in x.todo;
    assert Held(next, h) == Held(s, h);
    assert SessionOk(next, h);
    LocalStepOk(s, next, h);
  }

  lemma LeaseIsHeld(s: State, h: Holder)
    requires SessionsOk(s) && h in s.sessions
    ensures LeaseMatches(s.db, h.job, s.sessions[h].token) <==> Held(s, h)
    ensures PassesAssert(s, h) ==> Held(s, h)
    ensures Held(s, h) ==> h.job in s.db.jobs && s.db.jobs[h.job].token.Some?
  {
    assert SessionOk(s, h);
  }

  /** The job row with a fresh heartbeat. */
  function Beaten(s: State, h: Holder): Job
    requires h.job in s.db.jobs
  {
    s.db.jobs[h.job].(heartbeatAt := Some(s.clock))
  }

  lemma ProgressOk(s: State, h: Holder)
    requires WorkersOk(s) && h in s.sessions && Held(s, h)
    requires s.sessions[h].phase == Stepping && s.sessions[h].writesLeft == 0 && s.sessions[h].todo != []
    ensures var next := Put(s.(db := Heartbeat(s.db, h.job, s.sessions[h].token, s.clock)), h, Advance(s.sessions[h]));
            WorkersOk(next) && JobsEvolve(s.db, next.db)
  {
    var x := s.sessions[h];
    LeaseIsHeld(s, h);
    var next := Put(s.(db := Heartbeat(s.db, h.job, x.token, s.clock)), h, Advance(x));
    assert SessionOk(s, h) && RowOk(s.db.jobs[h.job]);
    assert x.todo[0] in x.todo;
    assert forall g <- x.todo[1..] :: g in x.todo;
    assert SessionOk(next, h);
    OneRowEvolves(s.db, next.db, h.job, Beaten(s, h));
    OwnRowOk(s, next, h, Beaten(s, h));
  }

  lemma BackgroundBeatOk(s: State, h: Holder)
    requires WorkersOk(s) && h in s.sessions
    ensures WorkersOk(BackgroundBeat(s, h)) && JobsEvolve(s.db, BackgroundBeat(s, h).db)
  {
    LeaseIsHeld(s, h);
    assert SessionOk(s, h);
    var next := BackgroundBeat(s, h);
    assert Held(next, h) == Held(s, h);
    if Held(s, h) {
      assert RowOk(s.db.jobs[h.job]);
      assert SessionOk(next, h);
      OwnRowOk(s, next, h, Beaten(s, h));
    } else {
      assert SessionOk(next, h);
      LocalStepOk(s, next, h);
    }
  }

  /** The executor's closing update; without the lease it only moves on to the event. */
  lemma FinishJobOk(s: State, h: Holder)
    requires WorkersOk(s) && h in s.sessions && s.sessions[h].phase == Stepping && s.sessions[h].kind != AuditRun
    ensures var next := Put(s.(db := CompleteJob(s.db, h.job, s.sessions[h].token, s.clock)), h,
                            s.sessions[h].(phase := EventPending));
            WorkersOk(next) && JobsEvolve(s.db, next.db)
  {
    var x := s.sessions[h];
    LeaseIsHeld(s, h);
    var next := Put(s.(db := CompleteJob(s.db, h.job, x.token, s.clock)), h, x.(phase := EventPending));
    assert SessionOk(s, h);
    assert Held(next, h) == Held(s, h);
    if Held(s, h) {
      assert RowOk(s.db.jobs[h.job]);
      assert SessionOk(next, h);
      OwnRowOk(s, next, h, Beaten(s, h).(status := Completed));
    } else {
      assert SessionOk(next, h);
      LocalStepOk(s, next, h);
    }
  }

  lemma FailedRowOk(s: State, next: State, h: Holder, row: Job, exhausted: bool)
    requires WorkersOk(s) && h in s.sessions && h.job in s.db.jobs && Held(s, h)
    requires s.sessions[h].phase == ExecutorFailing || s.sessions[h].phase.ReleaseJob?
    requires row in {AfterFailure(s.db.jobs[h.job], exhausted),
                     AfterFailure(s.db.jobs[h.job], exhausted).(heartbeatAt := Some(s.clock))}
    requires next.db == PutJob(s.db, h.job, row)
    requires next.claims == s.claims && next.sessions == s.sessions - {h}
    ensures WorkersOk(next) && JobsEvolve(s.db, next.db)
  {
    assert SessionOk(s, h) && RowOk(s.db.jobs[h.job]);
    OwnRowOk(s, next, h, row);
  }

  /** Both error paths: the row is failed or requeued and the session ends. */
  lemma FailureOk(s: State, next: State, h: Holder, row: Job)
    requires WorkersOk(s) && h in s.sessions && h.job in s.db.jobs
    requires s.sessions[h].phase == ExecutorFailing || s.sessions[h].phase.ReleaseJob?
    requires exists exhausted :: row in {AfterFailure(s.db.jobs[h.job], exhausted),
                                         AfterFailure(s.db.jobs[h.job], exhausted).(heartbeatAt := Some(s.clock))}
    requires next.db == if Held(s, h) then PutJob(s.db, h.job, row) else s.db
    requires next.claims == s.claims && next.sessions == s.sessions - {h}
    ensures WorkersOk(next) && JobsEvolve(s.db, next.db)
  {
    if Held(s, h) {
      var exhausted :| row in {AfterFailure(s.db.jobs[h.job], exhausted),
                               AfterFailure(s.db.jobs[h.job], exhausted).(heartbeatAt := Some(s.clock))};
      FailedRowOk(s, next, h, row, exhausted);
    } else {
      SessionsMayEnd(s, next);
    }
  }

  lemma ReleaseJobOk(s: State, h: Holder, exhausted: bool)
    requires WorkersOk(s) && h in s.sessions && s.sessions[h].phase == ReleaseJob(exhausted)
    ensures var next := Put(s.(db := FailEngineJob(s.db, h.job, s.sessions[h].token, exhausted)), h,
                            s.sessions[h].(phase := ReadStatus));
            WorkersOk(next) && JobsEvolve(s.db, next.db)
  {
    var x := s.sessions[h];
    LeaseIsHeld(s, h);
    assert SessionOk(s, h);
    var next := Put(s.(db := FailEngineJob(s.db, h.job, x.token, exhausted)), h, x.(phase := ReadStatus));
    assert !Held(next, h);
    assert SessionOk(next, h);
    ReleaseOrStay(s, next, h, exhausted);
  }

  lemma ReleaseOrStay(s: State, next: State, h: Holder, exhausted: bool)
    requires WorkersOk(s) && h in s.sessions && s.sessions[h].phase == ReleaseJob(exhausted)
    requires next == Put(s.(db := FailEngineJob(s.db, h.job, s.sessions[h].token, exhausted)), h,
                         s.sessions[h].(phase := ReadStatus))
    requires LeaseMatches(s.db, h.job, s.sessions[h].token) <==> Held(s, h)
    requires !Held(next, h) && SessionOk(s, h) && SessionOk(next, h)
    ensures WorkersOk(next) && JobsEvolve(s.db, next.db)
  {
    if Held(s, h) {
      ReleaseHeld(s, next, h, exhausted);
    } else {
      LocalStepOk(s, next, h);
    }
  }

  lemma ReleaseHeld(s: State, next: State, h: Holder, exhausted: bool)
    requires WorkersOk(s) && h in s.sessions && s.sessions[h].phase == ReleaseJob(exhausted)
    requires next == Put(s.(db := FailEngineJob(s.db, h.job, s.sessions[h].token, exhausted)), h,
                         s.sessions[h].(phase := ReadStatus))
    requires LeaseMatches(s.db, h.job, s.sessions[h].token) && Held(s, h)
    requires !Held(next, h) && SessionOk(s, h) && SessionOk(next, h)
    ensures WorkersOk(next) && JobsEvolve(s.db, next.db)
  {
    assert s.db.jobs[h.job].status == Running;
    var row := AfterFailure(s.db.jobs[h.job], exhausted);
    OneRowEvolves(s.db, next.db, h.job, row);
    OwnRowOk(s, next, h, row);
  }

  /** Moving to another statement of a catch block; audits may have been written. */
  lemma PhaseOnlyOk(s: State, next: State, h: Holder, phase: Phase)
    requires WorkersOk(s) && h in s.sessions && next.db.jobs == s.db.jobs && next.claims == s.claims
    requires next.sessions == s.sessions[h := s.sessions[h].(phase := phase)]
    requires phase != Stepping && phase != EventPending && !(s.sessions[h].phase.ReleaseJob?)
    requires phase == ExecutorFailing <==> s.sessions[h].kind != AuditRun
    requires phase.ReleaseJob? ==>
      h.job !in s.db.jobs || phase.exhausted == (s.db.jobs[h.job].attempt >= s.db.jobs[h.job].maxAttempts)
    ensures WorkersOk(next)
  {
    assert SessionOk(s, h);
    assert Held(next, h) == Held(s, h);
    assert SessionOk(next, h);
    LocalStepOk(s, next, h);
  }
}
