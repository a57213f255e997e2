/** The invariant holds in every state that any interleaving can reach. */
module Reachability {
  import opened Wrappers
  import opened Tables
  import opened Programs
  import opened Protocol
  import opened Invariants
  import opened TableLemmas
  import opened DecisionLemmas
  import opened Preservation
  import opened SessionSteps

  // ---------- sessions ----------

  lemma SessionHasRunJob(s: State, h: Holder)
    requires SessionsOk(s) && h in s.sessions && s.sessions[h].kind == AuditRun && s.sessions[h].audit.Some?
    ensures HasRunJob(s.db, s.sessions[h].audit.value)
  {
    assert SessionOk(s, h);
    assert RunJob(s.db, h.job, s.sessions[h].audit.value);
  }

  /** Job rows moved, the sessions are in order, everything else stayed. */
  ghost predicate WorkersMoved(s: State, next: State) {
    && WorkersOk(next) && JobsEvolve(s.db, next.db)
    && next.clock >= s.clock && next.calls == s.calls && next.sweeps == s.sweeps
  }

  lemma EvolvedInv(s: State, next: State)
    requires LocalsOk(s) && TablesOk(s.db) && WorkersMoved(s, next)
    ensures Inv(next)
  {
    EvolveKeepsTables(s.db, next.db);
    EvolveKeepsRunJobs(s.db, next.db);
    LocalsKept(s, next);
  }

  lemma EndedMoved(s: State, h: Holder)
    requires WorkersOk(s)
    ensures WorkersMoved(s, Close(s, h))
  {
    SessionsMayEnd(s, Close(s, h));
  }

  lemma FenceMoved(s: State, h: Holder, approval: ApprovalId)
    requires WorkersOk(s) && h in s.sessions && s.sessions[h].phase == Stepping && s.sessions[h].writesLeft == 0
    requires s.sessions[h].todo != [] && s.sessions[h].todo[0].fence != FinishAudit
    ensures WorkersMoved(s, PassFence(s, h, approval))
  {
    var x := s.sessions[h];
    LeaseIsHeld(s, h);
    assert SessionOk(s, h);
    assert x.todo[0] in x.todo;
    EndedMoved(s, h);
    match x.todo[0].fence
    case CheckAudit => AdvanceOk(s, h);
    case Assert => if PassesAssert(s, h) { AdvanceOk(s, h); }
    case Progress => if Held(s, h) { ProgressOk(s, h); }
    case FinishJob => FinishJobOk(s, h);
  }

  lemma SteppingMoved(s: State, h: Holder, approval: ApprovalId)
    requires WorkersOk(s) && h in s.sessions && s.sessions[h].phase == Stepping
    requires s.sessions[h].writesLeft > 0 || s.sessions[h].todo == [] || s.sessions[h].todo[0].fence != FinishAudit
    ensures WorkersMoved(s, StepSession(s, h, approval))
  {
    if s.sessions[h].writesLeft > 0 {
      WriteMoved(s, h, approval);
    } else if s.sessions[h].todo != [] {
      FenceMoved(s, h, approval);
    }
  }

  lemma WriteMoved(s: State, h: Holder, approval: ApprovalId)
    requires WorkersOk(s) && h in s.sessions && s.sessions[h].phase == Stepping && s.sessions[h].writesLeft > 0
    ensures WorkersMoved(s, StepSession(s, h, approval))
  {
    WriteOk(s, h);
  }

  /** What a finalize step can do: the four writes together, or nothing but end the session. */
  lemma FinalizeStep(s: State, h: Holder, approval: ApprovalId)
    requires WorkersOk(s) && ShapeOk(s.db) && h in s.sessions && approval !in s.db.approvals
    requires s.sessions[h].phase == Stepping && s.sessions[h].writesLeft == 0
    requires s.sessions[h].todo != [] && s.sessions[h].todo[0].fence == FinishAudit
    ensures var next := StepSession(s, h, approval);
            && WorkersOk(next) && next == s.(db := next.db, sessions := s.sessions - {h})
            && s.sessions[h].audit.Some?
            && (if Held(s, h) then Finalized(s.db, next.db, s.sessions[h].audit.value, h.job, approval, s.clock)
                else next.db == s.db)
  {
    var x := s.sessions[h];
    var next := StepSession(s, h, approval);
    LeaseIsHeld(s, h);
    assert SessionOk(s, h);
    assert x.todo[0] in x.todo;
    assert RowOk(s.db.jobs[h.job]);
    assert RunJob(s.db, h.job, x.audit.value);
    if Held(s, h) {
      OwnRowOk(s, next, h, Beaten(s, h).(status := Completed));
    } else {
      SessionsMayEnd(s, next);
    }
  }

  lemma FinalizedLocals(s: State, next: State, a: AuditId, job: JobId, approval: ApprovalId)
    requires LocalsOk(s) && Finalized(s.db, next.db, a, job, approval, s.clock) && Grows(s.db, next.db)
    requires next == s.(db := next.db, sessions := next.sessions)
    ensures LocalsOk(next)
  {
    LocalsKept(s, next);
  }

  lemma FinalizeKeeps(s: State, h: Holder, approval: ApprovalId)
    requires Inv(s) && h in s.sessions && approval !in s.db.approvals
    requires s.sessions[h].phase == Stepping && s.sessions[h].writesLeft == 0
    requires s.sessions[h].todo != [] && s.sessions[h].todo[0].fence == FinishAudit
    ensures Inv(StepSession(s, h, approval))
  {
    var next := StepSession(s, h, approval);
    FinalizeStep(s, h, approval);
    if Held(s, h) {
      var a := s.sessions[h].audit.value;
      FinalizedKeepsTables(s.db, next.db, a, h.job, approval, s.clock);
      FinalizedLocals(s, next, a, h.job, approval);
    } else {
      EndedMoved(s, h);
      EvolvedInv(s, next);
    }
  }

  ghost predicate SweepsShrink(s: State, next: State) {
    forall w <- next.sweeps ::
      (w in s.sweeps
       && next.sweeps[w].timedOut <= s.sweeps[w].timedOut
       && next.sweeps[w].requeued <= s.sweeps[w].requeued)
  }

  /** An audit whose job exists is marked running or failed, and `h`'s session moves on. */
  lemma AuditWriteKeeps(s: State, next: State, a: AuditId, status: AuditStatus)
    requires Inv(s) && HasRunJob(s.db, a) && status in {AuditRunning, AuditFailed}
    requires SetAuditStatus(s.db, a, status).Done?
    requires next.db == SetAuditStatus(s.db, a, status).db
    requires WorkersOk(next) && next.clock == s.clock && next.calls == s.calls
    requires SweepsShrink(s, next)
    ensures Inv(next)
  {
    StatusKeepsTables(s.db, a, status);
    LocalsKept(s, next.(sweeps := s.sweeps));
  }

  lemma CatchBlockMoved(s: State, h: Holder, approval: ApprovalId)
    requires WorkersOk(s) && h in s.sessions && s.sessions[h].phase !in {Stepping, MarkAuditFailed, ResetAudit}
    ensures WorkersMoved(s, StepSession(s, h, approval))
  {
    var x := s.sessions[h];
    var next := StepSession(s, h, approval);
    LeaseIsHeld(s, h);
    assert SessionOk(s, h);
    match x.phase
    case EventPending =>
    case ExecutorFailing => ExecutorFailureMoved(s, next, h);
    case ReadAttempts => PhaseOnlyOk(s, next, h, next.sessions[h].phase);
    case ReleaseJob(exhausted) =>
      if exhausted {
        FailureOk(s, next, h, AfterFailure(s.db.jobs[h.job], exhausted));
      } else {
        ReleaseJobOk(s, h, exhausted);
      }
    case ReadStatus =>
      if h in next.sessions { PhaseOnlyOk(s, next, h, ResetAudit); } else { SessionsMayEnd(s, next); }
  }

  lemma ExecutorFailureMoved(s: State, next: State, h: Holder)
    requires WorkersOk(s) && h in s.sessions && s.sessions[h].phase == ExecutorFailing
    requires var x := s.sessions[h];
      next == Close(s.(db := FailExecutorJob(s.db, h.job, x.token, x.attempt >= x.maxAttempts, s.clock)), h)
    ensures WorkersMoved(s, next)
  {
    var x := s.sessions[h];
    LeaseIsHeld(s, h);
    assert SessionOk(s, h);
    var row := AfterFailure(s.db.jobs[h.job], x.attempt >= x.maxAttempts);
    FailureOk(s, next, h, row.(heartbeatAt := Some(s.clock)));
  }

  lemma MarkKeeps(s: State, h: Holder, approval: ApprovalId)
    requires Inv(s) && h in s.sessions && s.sessions[h].phase == MarkAuditFailed
    ensures Inv(StepSession(s, h, approval))
  {
    var x := s.sessions[h];
    var next := StepSession(s, h, approval);
    assert SessionOk(s, h);
    SessionHasRunJob(s, h);
    MarkWriteKeeps(s, next, h);
  }

  lemma MarkWriteKeeps(s: State, next: State, h: Holder)
    requires Inv(s) && h in s.sessions && s.sessions[h].phase == MarkAuditFailed && s.sessions[h].audit.Some?
    requires HasRunJob(s.db, s.sessions[h].audit.value) && s.sessions[h].kind == AuditRun
    requires var written := SetAuditStatus(s.db, s.sessions[h].audit.value, AuditFailed);
      written.Done? && next == Put(s.(db := written.db), h, s.sessions[h].(phase := ReadAttempts))
    ensures Inv(next)
  {
    PhaseOnlyOk(s, next, h, ReadAttempts);
    AuditWriteKeeps(s, next, s.sessions[h].audit.value, AuditFailed);
  }

  lemma ResetKeeps(s: State, h: Holder, approval: ApprovalId)
    requires Inv(s) && h in s.sessions && s.sessions[h].phase == ResetAudit
    ensures Inv(StepSession(s, h, approval))
  {
    var x := s.sessions[h];
    var closed := Close(s, h);
    var next := StepSession(s, h, approval);
    assert SessionOk(s, h);
    SessionHasRunJob(s, h);
    EndedMoved(s, h);
    EvolvedInv(s, closed);
    if next != closed {
      ResetWriteKeeps(closed, next, x.audit.value);
    }
  }

  lemma ResetWriteKeeps(closed: State, next: State, a: AuditId)
    requires Inv(closed) && HasRunJob(closed.db, a) && a in closed.db.audits
    requires SetAuditStatus(closed.db, a, AuditRunning) == Done(next.db) && next == closed.(db := next.db)
    ensures Inv(next)
  {
    SessionsAfterAuditWrite(closed, next);
    AuditWriteKeeps(closed, next, a, AuditRunning);
  }

  lemma SessionsAfterAuditWrite(s: State, next: State)
    requires WorkersOk(s) && next.db.jobs == s.db.jobs && next.claims == s.claims && next.sessions == s.sessions
    ensures WorkersOk(next)
  {
    assert forall j <- s.db.jobs :: RowClaimed(s, j) ==> RowClaimed(next, j);
    forall h | h in next.sessions
      ensures SessionOk(next, h)
    {
      assert SessionOk(s, h);
    }
  }

  lemma RaiseMoved(s: State, h: Holder)
    requires WorkersOk(s) && h in s.sessions
    ensures WorkersMoved(s, RaiseIn(s, h))
  {
    var next := RaiseIn(s, h);
    assert SessionOk(s, h);
    if h in next.sessions {
      PhaseOnlyOk(s, next, h, next.sessions[h].phase);
    } else {
      EndedMoved(s, h);
    }
  }

  // ---------- supervisor ----------

  lemma SweptAuditsHaveJobs(db: Db, now: Time)
    ensures forall a <- TimedOutAudits(db, now) :: HasRunJob(db, a)
    ensures forall a <- RequeuedAudits(db, now) :: HasRunJob(db, a)
  {
    forall a | a in TimedOutAudits(db, now) || a in RequeuedAudits(db, now)
      ensures HasRunJob(db, a)
    {
      var j :| j in db.jobs && db.jobs[j].kind == AuditRun && db.jobs[j].audit == Some(a);
      assert RunJob(db, j, a);
    }
  }

  ghost predicate SweepTargetsOk(db: Db, next: State, sweep: nat) {
    sweep in next.sweeps ==>
      forall a :: a in next.sweeps[sweep].timedOut || a in next.sweeps[sweep].requeued ==> HasRunJob(db, a)
  }

  lemma SweepKeeps(s: State, next: State, sweep: nat)
    requires Inv(s) && SweepFrame(s, next, sweep)
    ensures Inv(next)
  {
    var released := next.(sweeps := s.sweeps);
    RowsReleasedInv(s, released);
    SweepsReplaced(released, next);
  }

  lemma RowsReleasedInv(s: State, next: State)
    requires Inv(s) && RowsReleased(s, next)
    requires next.clock == s.clock && next.calls == s.calls && next.sweeps == s.sweeps
    ensures Inv(next)
    ensures forall a :: HasRunJob(s.db, a) ==> HasRunJob(next.db, a)
  {
    ReleaseOk(s, next);
    EvolvedInv(s, next);
    EvolveKeepsRunJobs(s.db, next.db);
  }

  lemma SweepsReplaced(s: State, next: State)
    requires Inv(s) && next == s.(sweeps := next.sweeps) && SweepsOk(next)
    ensures Inv(next)
  {
    SessionsMayEnd(s, next);
  }

  lemma FollowUpLocal(s: State, next: State)
    requires Inv(s) && next.db == s.db && next.claims == s.claims && next.sessions == s.sessions
    requires next.clock == s.clock && next.calls == s.calls && SweepsShrink(s, next)
    ensures Inv(next)
  {
    SessionsMayEnd(s, next);
    LocalsKept(s, next.(sweeps := s.sweeps));
  }

  /** A follow-up writes one audit status, or only shrinks the supervisor's own list. */
  lemma FollowUpStep(s: State, sweep: nat, audit: AuditId)
    requires sweep in s.sweeps
    ensures var next := FollowUp(s, sweep, audit);
            && next == s.(db := next.db, sweeps := next.sweeps) && SweepsShrink(s, next)
            && next.db.jobs == s.db.jobs
            && (next.db == s.db
                || exists status ::
                     && status in {AuditRunning, AuditFailed}
                     && SetAuditStatus(s.db, audit, status).Done? && next.db == SetAuditStatus(s.db, audit, status).db
                     && (audit in s.sweeps[sweep].timedOut || audit in s.sweeps[sweep].requeued))
  {
    var next := FollowUp(s, sweep, audit);
    if audit in s.sweeps[sweep].timedOut {
      assert next.db == s.db || next.db == SetAuditStatus(s.db, audit, AuditFailed).db;
    } else {
      assert next.db == s.db || next.db == SetAuditStatus(s.db, audit, AuditRunning).db;
    }
  }

  lemma FollowUpKeeps(s: State, next: State, sweep: nat, audit: AuditId)
    requires Inv(s) && sweep in s.sweeps && next == FollowUp(s, sweep, audit)
    ensures Inv(next)
  {
    FollowUpStep(s, sweep, audit);
    FollowUpOutcome(s, next, sweep, audit);
  }

  lemma FollowUpOutcome(s: State, next: State, sweep: nat, audit: AuditId)
    requires Inv(s) && sweep in s.sweeps
    requires next == s.(db := next.db, sweeps := next.sweeps) && SweepsShrink(s, next) && next.db.jobs == s.db.jobs
    requires next.db == s.db
             || exists status ::
                  && status in {AuditRunning, AuditFailed}
                  && SetAuditStatus(s.db, audit, status).Done? && next.db == SetAuditStatus(s.db, audit, status).db
                  && (audit in s.sweeps[sweep].timedOut || audit in s.sweeps[sweep].requeued)
    ensures Inv(next)
  {
    if next.db == s.db {
      FollowUpLocal(s, next);
    } else {
      var status :| status in {AuditRunning, AuditFailed}
        && SetAuditStatus(s.db, audit, status).Done? && next.db == SetAuditStatus(s.db, audit, status).db;
      SessionsAfterAuditWrite(s, next);
      AuditWriteKeeps(s, next, audit, status);
    }
  }

  // ---------- requests ----------

  lemma StartKeeps(s: State, next: State, call: nat, audit: AuditId, approval: ApprovalId, job: JobId)
    requires Inv(s) && StartAdds(s.db, next.db, audit, approval, job, s.clock) && AuditsUnique(next.db)
    requires next == s.(db := next.db, calls := next.calls)
    requires call in next.calls && next.calls == s.calls[call := next.calls[call]] && CallOk(next.db, next.calls[call])
    ensures Inv(next)
  {
    StartKeepsTables(s.db, next.db, audit, approval, job, s.clock);
    StartLocals(s, next, call, audit, approval, job);
    InsertedWorkers(s, next);
  }

  lemma StartLocals(s: State, next: State, call: nat, audit: AuditId, approval: ApprovalId, job: JobId)
    requires LocalsOk(s) && StartAdds(s.db, next.db, audit, approval, job, s.clock) && Grows(s.db, next.db)
    requires next == s.(db := next.db, calls := next.calls)
    requires call in next.calls && next.calls == s.calls[call := next.calls[call]] && CallOk(next.db, next.calls[call])
    ensures LocalsOk(next)
  {
    LocalsKept(s, next.(calls := s.calls));
  }

  /** New job rows are queued and belong to nobody. */
  lemma InsertedWorkers(s: State, next: State)
    requires WorkersOk(s) && next.claims == s.claims && next.sessions == s.sessions
    requires forall j <- s.db.jobs :: j in next.db.jobs && next.db.jobs[j] == s.db.jobs[j]
    requires forall j <- next.db.jobs :: j !in s.db.jobs ==>
      RowOk(next.db.jobs[j]) && next.db.jobs[j].token.None?
    ensures WorkersOk(next)
  {
    assert forall j <- s.db.jobs :: RowClaimed(s, j) ==> RowClaimed(next, j);
    forall h | h in next.sessions
      ensures SessionOk(next, h)
    {
      assert SessionOk(s, h);
    }
  }

  /** A call's own state changes, the tables do not. */
  lemma CallLocalKeeps(s: State, next: State, call: nat)
    requires Inv(s) && next == s.(calls := next.calls)
    requires next.calls.Keys <= s.calls.Keys + {call}
    requires forall c <- next.calls :: (c in s.calls && next.calls[c] == s.calls[c]) || CallOk(s.db, next.calls[c])
    ensures Inv(next)
  {
    SessionsMayEnd(s, next);
  }

  lemma StartFails(s: State, call: nat, audit: AuditId, approval: ApprovalId, job: JobId, keyFirst: bool)
    requires call in s.calls && s.calls[call].pc == Insert
    requires var c := s.calls[call];
             !StartTx(s.db, c.production, c.key, c.actor, s.clock, audit, approval, job, keyFirst).Done?
    ensures var next := StepCall(s, call, 0, audit, approval, job, keyFirst);
            && next == s.(calls := next.calls) && next.calls.Keys <= s.calls.Keys
            && forall c <- next.calls :: (c in s.calls && next.calls[c] == s.calls[c]) || CallOk(s.db, next.calls[c])
  {
  }

  /** The transaction of a `startAudit` call. */
  lemma InsertStep(s: State, call: nat, audit: AuditId, approval: ApprovalId, job: JobId, keyFirst: bool)
    requires Inv(s) && call in s.calls && s.calls[call].pc == Insert
    requires audit !in s.db.audits && approval !in s.db.approvals && job !in s.db.jobs
    ensures Inv(StepCall(s, call, 0, audit, approval, job, keyFirst))
  {
    var c := s.calls[call];
    var next := StepCall(s, call, 0, audit, approval, job, keyFirst);
    if StartTx(s.db, c.production, c.key, c.actor, s.clock, audit, approval, job, keyFirst).Done? {
      StartKeeps(s, next, call, audit, approval, job);
    } else {
      StartFails(s, call, audit, approval, job, keyFirst);
      CallLocalKeeps(s, next, call);
    }
  }

  lemma AnswersMatchKey(db: Db, c: Call, pick: nat)
    requires CallOk(db, c) && NextPc(db, c, pick).Some?
    ensures CallOk(db, c.(pc := NextPc(db, c, pick).value))
  {
  }

  /** Every other step of a call reads the tables and moves its own state. */
  lemma CallKeeps(s: State, call: nat, pick: nat, audit: AuditId, approval: ApprovalId, job: JobId, keyFirst: bool)
    requires Inv(s) && call in s.calls && s.calls[call].pc != Insert
    ensures Inv(StepCall(s, call, pick, audit, approval, job, keyFirst))
  {
    var c := s.calls[call];
    assert CallOk(s.db, c);
    if NextPc(s.db, c, pick).Some? {
      AnswersMatchKey(s.db, c, pick);
      CallLocalKeeps(s, Goto(s, call, NextPc(s.db, c, pick).value), call);
    }
  }

  lemma DecidedRowsOk(db: Db, id: ApprovalId, verdict: Verdict, actor: Actor, reason: Option<string>, now: Time,
                      job: JobId)
    requires job !in db.jobs && forall ap <- db.approvals :: ApprovalOk(db.approvals[ap], now)
    ensures var after := DecideTx(db, id, verdict, actor, reason, now, job).0;
            && (forall ap <- after.approvals :: ApprovalOk(after.approvals[ap], now))
            && (forall j <- db.jobs :: j in after.jobs && after.jobs[j] == db.jobs[j])
            && (forall j <- after.jobs :: j !in db.jobs ==> RowOk(after.jobs[j]) && after.jobs[j].token.None?)
  {
  }

  lemma DecideKeeps(s: State, id: ApprovalId, verdict: Verdict, actor: Actor, reason: Option<string>, job: JobId)
    requires Inv(s) && job !in s.db.jobs
    ensures Inv(s.(db := DecideTx(s.db, id, verdict, actor, reason, s.clock, job).0))
  {
    var next := s.(db := DecideTx(s.db, id, verdict, actor, reason, s.clock, job).0);
    DecidedRowsOk(s.db, id, verdict, actor, reason, s.clock, job);
    DecideKeepsTables(s.db, id, verdict, actor, reason, s.clock, job);
    DecidedInv(s, next);
  }

  lemma DecidedInv(s: State, next: State)
    requires WorkersOk(s) && LocalsOk(s) && next == s.(db := next.db) && TablesOk(next.db) && Grows(s.db, next.db)
    requires forall ap <- next.db.approvals :: ApprovalOk(next.db.approvals[ap], s.clock)
    requires forall j <- s.db.jobs :: j in next.db.jobs && next.db.jobs[j] == s.db.jobs[j]
    requires forall j <- next.db.jobs :: j !in s.db.jobs ==> RowOk(next.db.jobs[j]) && next.db.jobs[j].token.None?
    ensures Inv(next)
  {
    InsertedWorkers(s, next);
    LocalsKept(s, next);
  }

  lemma EnqueueKeeps(s: State, kind: JobKind, job: JobId)
    requires Inv(s) && kind != AuditRun && job !in s.db.jobs
    ensures Inv(s.(db := PutJob(s.db, job, NewJob(kind, None, s.clock))))
  {
    var next := s.(db := PutJob(s.db, job, NewJob(kind, None, s.clock)));
    EnqueueKeepsTables(s.db, job, kind, s.clock);
    DecidedInv(s, next);
  }

  // ---------- every action, every interleaving ----------

  lemma SessionActionKeeps(s: State, h: Holder, approval: ApprovalId)
    requires Inv(s) && h in s.sessions && approval !in s.db.approvals
    ensures Inv(StepSession(s, h, approval))
  {
    var x := s.sessions[h];
    if x.phase == MarkAuditFailed {
      MarkKeeps(s, h, approval);
    } else if x.phase == ResetAudit {
      ResetKeeps(s, h, approval);
    } else if x.phase != Stepping {
      CatchBlockMoved(s, h, approval);
      EvolvedInv(s, StepSession(s, h, approval));
    } else if x.writesLeft == 0 && x.todo != [] && x.todo[0].fence == FinishAudit {
      FinalizeKeeps(s, h, approval);
    } else {
      SteppingMoved(s, h, approval);
      EvolvedInv(s, StepSession(s, h, approval));
    }
  }

  lemma StepKeeps(s: State, h: Holder, approval: ApprovalId)
    requires Inv(s)
    ensures Inv(Next(s, Step(h, approval)))
  {
    if h in s.sessions && approval !in s.db.approvals {
      SessionActionKeeps(s, h, approval);
    }
  }

  lemma SweepTimeoutsKeeps(s: State, sweep: nat)
    requires Inv(s)
    ensures Inv(Next(s, SweepTimeouts(sweep)))
  {
    if sweep !in s.sweeps {
      SweepTimeoutsRows(s, sweep);
      SweepKeeps(s, Next(s, SweepTimeouts(sweep)), sweep);
    }
  }

  /** What the supervisor's statements and the shutdown release may change, as SweepKeeps needs it. */
  ghost predicate SweepFrame(s: State, next: State, sweep: nat) {
    && RowsReleased(s, next) && next.clock == s.clock && next.calls == s.calls
    && next.sweeps.Keys <= s.sweeps.Keys + {sweep}
    && (forall w <- next.sweeps :: w != sweep ==> next.sweeps[w] == s.sweeps[w])
    && SweepTargetsOk(s.db, next, sweep)
  }

  lemma SweepTimeoutsRows(s: State, sweep: nat)
    requires sweep !in s.sweeps
    ensures SweepFrame(s, Next(s, SweepTimeouts(sweep)), sweep)
  {
    SweptAuditsHaveJobs(s.db, s.clock);
  }

  lemma SweepRequeuesKeeps(s: State, sweep: nat)
    requires Inv(s)
    ensures Inv(Next(s, SweepRequeues(sweep)))
  {
    if sweep in s.sweeps && !s.sweeps[sweep].swept {
      SweepRequeuesRows(s, sweep);
      SweepKeeps(s, Next(s, SweepRequeues(sweep)), sweep);
    }
  }

  lemma SweepRequeuesRows(s: State, sweep: nat)
    requires SweepsOk(s) && sweep in s.sweeps && !s.sweeps[sweep].swept
    ensures SweepFrame(s, Next(s, SweepRequeues(sweep)), sweep)
  {
    SweptAuditsHaveJobs(s.db, s.clock);
  }

  lemma ShutdownRows(s: State, worker: WorkerId)
    requires SweepsOk(s)
    ensures SweepFrame(s, Next(s, Shutdown(worker)), 0)
  {
  }

  lemma ShutdownKeeps(s: State, worker: WorkerId)
    requires Inv(s)
    ensures Inv(Next(s, Shutdown(worker)))
  {
    ShutdownRows(s, worker);
    SweepKeeps(s, Next(s, Shutdown(worker)), 0);
  }

  lemma SweepFollowKeeps(s: State, sweep: nat, audit: AuditId)
    requires Inv(s)
    ensures Inv(Next(s, SweepFollow(sweep, audit)))
  {
    if sweep in s.sweeps && s.sweeps[sweep].swept {
      FollowUpKeeps(s, Next(s, SweepFollow(sweep, audit)), sweep, audit);
    }
  }

  lemma SweepAbortKeeps(s: State, sweep: nat)
    requires Inv(s)
    ensures Inv(Next(s, SweepAbort(sweep)))
  {
    FollowUpLocal(s, Next(s, SweepAbort(sweep)));
  }

  lemma OpenCallKeeps(s: State, action: Action)
    requires Inv(s) && action.OpenCall?
    ensures Inv(Next(s, action))
  {
    if action.call !in s.calls {
      CallLocalKeeps(s, Next(s, action), action.call);
    }
  }

  lemma CallStepKeeps(s: State, call: nat, pick: nat, audit: AuditId, approval: ApprovalId, job: JobId, keyFirst: bool)
    requires Inv(s)
    ensures Inv(Next(s, CallStep(call, pick, audit, approval, job, keyFirst)))
  {
    if call in s.calls && audit !in s.db.audits && approval !in s.db.approvals && job !in s.db.jobs {
      if s.calls[call].pc == Insert {
        InsertStep(s, call, audit, approval, job, keyFirst);
      } else {
        CallKeeps(s, call, pick, audit, approval, job, keyFirst);
      }
    }
  }

  lemma DecideActionKeeps(s: State, id: ApprovalId, verdict: Verdict, actor: Actor, reason: Option<string>, job: JobId)
    requires Inv(s)
    ensures Inv(Next(s, Decide(id, verdict, actor, reason, job)))
  {
    if job !in s.db.jobs {
      DecideKeeps(s, id, verdict, actor, reason, job);
    }
  }

  lemma EnqueueActionKeeps(s: State, kind: JobKind, job: JobId)
    requires Inv(s)
    ensures Inv(Next(s, Enqueue(kind, job)))
  {
    if kind != AuditRun && job !in s.db.jobs {
      EnqueueKeeps(s, kind, job);
    }
  }

  lemma EndingKeeps(s: State, action: Action)
    requires Inv(s) && (action.Elapse? || action.EventStored? || action.Abandon?)
    ensures Inv(Next(s, action))
  {
    EndingMoved(s, action);
    EvolvedInv(s, Next(s, action));
  }

  lemma EndingMoved(s: State, action: Action)
    requires WorkersOk(s) && (action.Elapse? || action.EventStored? || action.Abandon?)
    ensures WorkersMoved(s, Next(s, action))
  {
    SessionsMayEnd(s, Next(s, action));
  }

  lemma ClaimKeeps(s: State, worker: WorkerId, job: JobId, token: Token)
    requires Inv(s)
    ensures Inv(Next(s, ClaimJob(worker, job, token)))
  {
    if job in s.db.jobs && Claimable(s.db.jobs[job]) && token !in s.claims {
      ClaimMoved(s, worker, job, token);
      EvolvedInv(s, Next(s, ClaimJob(worker, job, token)));
    }
  }

  lemma ClaimMoved(s: State, worker: WorkerId, job: JobId, token: Token)
    requires WorkersOk(s) && job in s.db.jobs && Claimable(s.db.jobs[job]) && token !in s.claims
    ensures WorkersMoved(s, Next(s, ClaimJob(worker, job, token)))
  {
    ClaimRowOk(s, Next(s, ClaimJob(worker, job, token)), worker, job, token);
  }

  lemma OpenActionKeeps(s: State, action: Action)
    requires Inv(s) && action.Open?
    ensures Inv(Next(s, action))
  {
    if Next(s, action) != s {
      OpenMoved(s, action);
      EvolvedInv(s, Next(s, action));
    }
  }

  lemma OpenMoved(s: State, action: Action)
    requires WorkersOk(s) && Next(s, action) != s && action.Open?
    ensures WorkersMoved(s, Next(s, action))
  {
    OpenKeeps(s, Next(s, action), Holder(action.worker, action.job), action.scanners, action.findings);
  }

  lemma BeatKeeps(s: State, h: Holder)
    requires Inv(s)
    ensures Inv(Next(s, Beat(h)))
  {
    if h in s.sessions {
      BeatMoved(s, h);
      EvolvedInv(s, Next(s, Beat(h)));
    }
  }

  lemma BeatMoved(s: State, h: Holder)
    requires WorkersOk(s) && h in s.sessions
    ensures WorkersMoved(s, Next(s, Beat(h)))
  {
    BackgroundBeatOk(s, h);
  }

  lemma RaiseKeeps(s: State, h: Holder)
    requires Inv(s)
    ensures Inv(Next(s, Raise(h)))
  {
    if h in s.sessions {
      RaiseMoved(s, h);
      EvolvedInv(s, RaiseIn(s, h));
    }
  }

  /** Every action keeps the invariant. */
  lemma StepKeepsInv(s: State, action: Action)
    requires Inv(s)
    ensures Inv(Next(s, action))
  {
    match action
    case Elapse(_) => EndingKeeps(s, action);
    case OpenCall(_, _, _, _) => OpenCallKeeps(s, action);
    case CallStep(call, pick, audit, approval, job, keyFirst) =>
      CallStepKeeps(s, call, pick, audit, approval, job, keyFirst);
    case Decide(id, verdict, actor, reason, job) => DecideActionKeeps(s, id, verdict, actor, reason, job);
    case Enqueue(kind, job) => EnqueueActionKeeps(s, kind, job);
    case ClaimJob(worker, job, token) => ClaimKeeps(s, worker, job, token);
    case Open(_, _, _, _) => OpenActionKeeps(s, action);
    case Step(h, approval) => StepKeeps(s, h, approval);
    case Beat(h) => BeatKeeps(s, h);
    case Raise(h) => RaiseKeeps(s, h);
    case EventStored(_) => EndingKeeps(s, action);
    case Abandon(_) => EndingKeeps(s, action);
    case SweepTimeouts(sweep) => SweepTimeoutsKeeps(s, sweep);
    case SweepRequeues(sweep) => SweepRequeuesKeeps(s, sweep);
    case SweepFollow(sweep, audit) => SweepFollowKeeps(s, sweep, audit);
    case SweepAbort(sweep) => SweepAbortKeeps(s, sweep);
    case Shutdown(worker) => ShutdownKeeps(s, worker);
  }

  lemma {:induction false} RunKeepsInv(s: State, actions: seq<Action>)
    requires Inv(s)
    ensures Inv(Run(s, actions))
    decreases |actions|
  {
    if actions != [] {
      StepKeepsInv(s, actions[0]);
      RunKeepsInv(Next(s, actions[0]), actions[1..]);
    }
  }

  /** The invariant holds after every interleaving of any number of processes. */
  lemma ReachableInv(actions: seq<Action>)
    ensures Inv(Run(INITIAL, actions))
  {
    RunKeepsInv(INITIAL, actions);
  }
}
