/** What can set an audit running that is not, and that nothing else ever does. */
module RevivalMeans {
  import opened Wrappers
  import opened Tables
  import opened Programs
  import opened Protocol
  import opened Frames
  import opened Invariants
  import opened Reachability
  import opened Fencing
  import opened Retry
  import opened UndisturbedRuns
  import opened StuckAudits

  /** The catch block would give the job another attempt. */
  predicate MayRetry(db: Db, j: JobId) {
    j in db.jobs && db.jobs[j].attempt < db.jobs[j].maxAttempts && db.jobs[j].status != TimedOut
  }

  predicate HasTimedOut(db: Db, j: JobId) {
    j in db.jobs && db.jobs[j].status == TimedOut
  }

  predicate EngineOf(x: Session, a: AuditId) {
    x.kind == AuditRun && x.audit == Some(a)
  }

  /** The session's catch block comes to the reset of its audit if nobody interferes, once the operation has thrown. */
  predicate Resets(db: Db, j: JobId, x: Session) {
    match x.phase
    case Stepping => !AtCheck(x) && MayRetry(db, j)
    case MarkAuditFailed => MayRetry(db, j)
    case ReadAttempts => MayRetry(db, j)
    case ReleaseJob(exhausted) => !exhausted && !HasTimedOut(db, j)
    case ReadStatus => !HasTimedOut(db, j)
    case ResetAudit => true
    case _ => false
  }

  ghost predicate Resetter(s: State, h: Holder, a: AuditId) {
    h in s.sessions && EngineOf(s.sessions[h], a) && Resets(s.db, h.job, s.sessions[h])
  }

  /** An engine session that can still mark its audit as failed. */
  ghost predicate Marker(s: State, h: Holder, a: AuditId) {
    h in s.sessions && MayEnd(s.sessions[h], a) && !AtCheck(s.sessions[h])
  }

  ghost predicate FailedOrMarked(s: State, a: AuditId) {
    (a in s.db.audits && s.db.audits[a].status == AuditFailed) || exists h :: Marker(s, h, a)
  }

  /** A supervisor run has requeued the job and has yet to set the audit running. */
  ghost predicate Promised(s: State, w: nat, a: AuditId) {
    w in s.sweeps && a in s.sweeps[w].requeued
  }

  /** Once stale the job is requeued rather than timed out. */
  predicate WillRequeue(db: Db, j: JobId) {
    && j in db.jobs
    && (|| (db.jobs[j].status == Running && db.jobs[j].attempt < db.jobs[j].maxAttempts)
        || (db.jobs[j].status == Queued && db.jobs[j].attempt + 1 < db.jobs[j].maxAttempts))
  }

  /** Somebody has, or will have, the statement that sets `a`, with run job `j`, running again. */
  ghost predicate Means(s: State, a: AuditId, j: JobId) {
    || (exists w :: Promised(s, w, a))
    || WillRequeue(s.db, j)
    || (FailedOrMarked(s, a) && exists h :: Resetter(s, h, a))
  }

  // ---------- nothing adds to the means ----------

  /** Attempts only grow, and a timed-out job stays so. */
  lemma RetryOnlyFades(s: State, action: Action, j: JobId)
    requires WorkersOk(s) && j in s.db.jobs
    ensures j in Next(s, action).db.jobs
    ensures MayRetry(Next(s, action).db, j) ==> MayRetry(s.db, j)
    ensures HasTimedOut(s.db, j) ==> HasTimedOut(Next(s, action).db, j)
  {
    ActionTransition(s, action);
    assert RowTransition(s.db.jobs[j], Next(s, action).db.jobs[j]);
  }

  lemma RequeueOnlyFades(s: State, action: Action, a: AuditId, j: JobId)
    requires WorkersOk(s) && RunJob(s.db, j, a)
    ensures RunJob(Next(s, action).db, j, a)
    ensures WillRequeue(Next(s, action).db, j) ==> WillRequeue(s.db, j)
  {
    ActionTransition(s, action);
    assert RowTransition(s.db.jobs[j], Next(s, action).db.jobs[j]);
  }

  lemma RequeuedWillRequeue(db: Db, a: AuditId, j: JobId, now: Time)
    requires ShapeOk(db) && RunJob(db, j, a) && a in RequeuedAudits(db, now)
    ensures WillRequeue(db, j)
  {
    var k :| k in db.jobs && Requeues(db.jobs[k], now) && db.jobs[k].kind == AuditRun && db.jobs[k].audit == Some(a);
    assert RunJob(db, k, a);
  }

  lemma PromisedFades(s: State, action: Action, w: nat, a: AuditId, j: JobId)
    requires ShapeOk(s.db) && RunJob(s.db, j, a) && Promised(Next(s, action), w, a)
    ensures Promised(s, w, a) || WillRequeue(s.db, j)
  {
    if action.SweepRequeues? {
      if action.sweep == w && a in RequeuedAudits(s.db, s.clock) {
        RequeuedWillRequeue(s.db, a, j, s.clock);
      }
    } else if !action.SweepFollow? && !action.SweepTimeouts? {
      SweepsFrame(s, action);
    }
  }

  /** A new engine session stands at its check. */
  lemma NewSessionAtCheck(row: Job, scanners: nat, findings: nat)
    requires row.kind == AuditRun
    ensures AtCheck(NewSession(row, scanners, findings))
  {
    assert NewSession(row, scanners, findings).todo == EngineProgram(scanners, findings);
  }

  /** An engine session whose audit is not running does not get past its check. */
  lemma StaysAtCheck(s: State, h: Holder, approval: ApprovalId, a: AuditId)
    requires h in s.sessions && EngineOf(s.sessions[h], a) && EngineSessionOk(s, h) && AtCheck(s.sessions[h])
    requires !AuditIsRunning(s.db, a)
    ensures StepSession(s, h, approval) == Close(s, h)
  {
  }

  lemma CatchBlockResets(s: State, next: State, h: Holder, approval: ApprovalId)
    requires h in s.sessions && s.sessions[h].phase != Stepping && next == StepSession(s, h, approval)
    requires MayRetry(next.db, h.job) ==> MayRetry(s.db, h.job)
    requires HasTimedOut(s.db, h.job) ==> HasTimedOut(next.db, h.job)
    requires h in next.sessions && Resets(next.db, h.job, next.sessions[h])
    ensures Resets(s.db, h.job, s.sessions[h])
  {
  }

  lemma OwnStepResets(s: State, next: State, h: Holder, approval: ApprovalId, a: AuditId)
    requires h in s.sessions && EngineSessionOk(s, h) && next == StepSession(s, h, approval) && !AuditIsRunning(s.db, a)
    requires MayRetry(next.db, h.job) ==> MayRetry(s.db, h.job)
    requires HasTimedOut(s.db, h.job) ==> HasTimedOut(next.db, h.job)
    requires Resetter(next, h, a)
    ensures Resetter(s, h, a)
  {
    StepContinues(s, h, approval);
    if AtCheck(s.sessions[h]) {
      StaysAtCheck(s, h, approval, a);
    } else if s.sessions[h].phase == Stepping {
      SteppingPhase(s, h, approval);
    } else {
      CatchBlockResets(s, next, h, approval);
    }
  }

  lemma SteppingPhase(s: State, h: Holder, approval: ApprovalId)
    requires h in s.sessions && s.sessions[h].phase == Stepping
    ensures var next := StepSession(s, h, approval);
      h in next.sessions ==> next.sessions[h].phase in {Stepping, EventPending}
  {
    if s.sessions[h].writesLeft == 0 && s.sessions[h].todo != [] {
      FenceLeaves(s, h, approval);
    }
  }

  lemma RaiseResets(s: State, h: Holder, a: AuditId)
    requires h in s.sessions && Resetter(RaiseIn(s, h), h, a)
    ensures Resetter(s, h, a)
  {
  }

  lemma CallbackResets(s: State, action: Action, h: Holder, a: AuditId)
    requires h in s.sessions && ActsFor(action, h) && !action.Step? && h.job in s.db.jobs
    requires Resetter(Next(s, action), h, a)
    ensures Resetter(s, h, a)
  {
    if action.Raise? {
      RaiseResets(s, h, a);
    }
  }

  lemma ResetterFades(s: State, next: State, action: Action, h: Holder, a: AuditId)
    requires WorkersOk(s) && EngineSessionsOk(s) && next == Next(s, action) && !AuditIsRunning(s.db, a)
    requires Resetter(next, h, a)
    ensures Resetter(s, h, a)
  {
    if h !in s.sessions {
      OpenedSession(s, action, h);
      NewSessionAtCheck(s.db.jobs[h.job], action.scanners, action.findings);
    } else {
      assert SessionOk(s, h) && EngineSessionOk(s, h);
      RetryOnlyFades(s, action, h.job);
      OldResetterFades(s, next, action, h, a);
    }
  }

  lemma OldResetterFades(s: State, next: State, action: Action, h: Holder, a: AuditId)
    requires h in s.sessions && EngineSessionOk(s, h) && next == Next(s, action) && !AuditIsRunning(s.db, a)
    requires MayRetry(next.db, h.job) ==> MayRetry(s.db, h.job)
    requires HasTimedOut(s.db, h.job) ==> HasTimedOut(next.db, h.job)
    requires Resetter(next, h, a) && h.job in s.db.jobs
    ensures Resetter(s, h, a)
  {
    if !ActsFor(action, h) {
      OthersKeepSession(s, action, h);
    } else if !action.Step? {
      CallbackResets(s, action, h, a);
    } else if action.approval !in s.db.approvals {
      OwnStepResets(s, next, h, action.approval, a);
    }
  }

  lemma MarkerFades(s: State, next: State, action: Action, h: Holder, a: AuditId)
    requires EngineSessionsOk(s) && next == Next(s, action) && !AuditIsRunning(s.db, a)
    requires Marker(next, h, a)
    ensures Marker(s, h, a)
  {
    if h !in s.sessions {
      OpenedSession(s, action, h);
      NewSessionAtCheck(s.db.jobs[h.job], action.scanners, action.findings);
    } else {
      assert EngineSessionOk(s, h);
      OldMarkerFades(s, next, action, h, a);
    }
  }

  lemma OldMarkerFades(s: State, next: State, action: Action, h: Holder, a: AuditId)
    requires h in s.sessions && EngineSessionOk(s, h) && next == Next(s, action) && !AuditIsRunning(s.db, a)
    requires Marker(next, h, a)
    ensures Marker(s, h, a)
  {
    MayEndFades(s, action, h, a);
    if !ActsFor(action, h) {
      OthersKeepSession(s, action, h);
    } else if action.Step? && action.approval !in s.db.approvals && AtCheck(s.sessions[h]) {
      StaysAtCheck(s, h, action.approval, a);
    }
  }

  // ---------- without means the audit's row stays out of the running status ----------

  /** The row of `a` is not set running, and set failed only by an engine's catch block or from running. */
  ghost predicate NotRevived(s: State, next: State, a: AuditId) {
    && !AuditIsRunning(next.db, a)
    && (a in next.db.audits && next.db.audits[a].status == AuditFailed ==> FailedOrMarked(s, a))
  }

  lemma FenceRevivesNothing(s: State, h: Holder, approval: ApprovalId, a: AuditId)
    requires h in s.sessions && s.sessions[h].todo != [] && !AuditIsRunning(s.db, a)
    ensures NotRevived(s, PassFence(s, h, approval), a)
  {
    FenceStatements(s, h, approval);
  }

  lemma StepRevivesNothing(s: State, h: Holder, approval: ApprovalId, a: AuditId)
    requires h in s.sessions && SessionOk(s, h) && !AuditIsRunning(s.db, a)
    requires FailedOrMarked(s, a) ==> !Resetter(s, h, a)
    ensures NotRevived(s, StepSession(s, h, approval), a)
  {
    var x := s.sessions[h];
    if x.phase == Stepping && x.writesLeft == 0 && x.todo != [] {
      FenceRevivesNothing(s, h, approval, a);
    } else if x.phase == MarkAuditFailed && x.audit == Some(a) {
      assert Marker(s, h, a);
    }
  }

  lemma CallRevivesNothing(s: State, action: Action, a: AuditId)
    requires action.CallStep? && a in s.db.audits && !AuditIsRunning(s.db, a)
    ensures NotRevived(s, Next(s, action), a)
  {
    if action.call in s.calls {
      var c := s.calls[action.call];
    }
  }

  lemma DecideRevivesNothing(s: State, action: Action, a: AuditId)
    requires GateOk(s.db) && ShapeOk(s.db) && HasRunJob(s.db, a) && a in s.db.audits && action.Decide?
    requires !AuditIsRunning(s.db, a)
    ensures NotRevived(s, Next(s, action), a)
  {
    var id := action.approval;
    if id in s.db.approvals && s.db.approvals[id].status == Pending && s.db.approvals[id].action == RunAudit {
      assert RunGate(s.db, id, s.db.approvals[id].target);
    }
    DecideLeavesOtherAudits(s.db, id, action.verdict, action.actor, action.reason, s.clock, action.job, a);
  }

  lemma FollowRevivesNothing(s: State, action: Action, a: AuditId)
    requires action.SweepFollow? && !AuditIsRunning(s.db, a) && !Promised(s, action.sweep, a)
    ensures NotRevived(s, Next(s, action), a)
  {
  }

  lemma NothingRevives(s: State, action: Action, a: AuditId, j: JobId)
    requires Inv(s) && RunJob(s.db, j, a) && !AuditIsRunning(s.db, a) && !Means(s, a, j)
    ensures NotRevived(s, Next(s, action), a)
  {
    assert a in s.db.audits && HasRunJob(s.db, a);
    if action.Step? {
      if action.holder in s.sessions {
        assert SessionOk(s, action.holder);
        StepRevivesNothing(s, action.holder, action.approval, a);
      }
    } else if action.CallStep? {
      CallRevivesNothing(s, action, a);
    } else if action.Decide? {
      DecideRevivesNothing(s, action, a);
    } else if action.SweepFollow? {
      FollowRevivesNothing(s, action, a);
    } else {
      AuditsFrame(s, action);
    }
  }

  // ---------- without means an audit never runs again ----------

  lemma ResetPairFades(s: State, next: State, action: Action, a: AuditId)
    requires WorkersOk(s) && EngineSessionsOk(s) && next == Next(s, action) && !AuditIsRunning(s.db, a)
    requires NotRevived(s, next, a)
    requires FailedOrMarked(next, a) && exists h :: Resetter(next, h, a)
    ensures FailedOrMarked(s, a) && exists h :: Resetter(s, h, a)
  {
    var h :| Resetter(next, h, a);
    ResetterFades(s, next, action, h, a);
    if k :| Marker(next, k, a) {
      MarkerFades(s, next, action, k, a);
    }
  }

  lemma MeansFade(s: State, next: State, action: Action, a: AuditId, j: JobId)
    requires Inv(s) && EngineSessionsOk(s) && next == Next(s, action) && RunJob(s.db, j, a)
    requires !AuditIsRunning(s.db, a) && !Means(s, a, j)
    ensures RunJob(next.db, j, a) && !AuditIsRunning(next.db, a) && !Means(next, a, j)
  {
    NothingRevives(s, action, a, j);
    RequeueOnlyFades(s, action, a, j);
    if w :| Promised(next, w, a) {
      PromisedFades(s, action, w, a, j);
    }
    if FailedOrMarked(next, a) && exists h :: Resetter(next, h, a) {
      ResetPairFades(s, next, action, a);
    }
  }

  lemma {:induction false} NeverWithoutMeans(s: State, actions: seq<Action>, a: AuditId, j: JobId)
    requires Inv(s) && EngineSessionsOk(s) && RunJob(s.db, j, a) && !AuditIsRunning(s.db, a) && !Means(s, a, j)
    ensures !AuditIsRunning(Run(s, actions).db, a)
    decreases |actions|
  {
    if actions != [] {
      MeansFade(s, Next(s, actions[0]), actions[0], a, j);
      StepKeepsInv(s, actions[0]);
      StepKeepsEngineSessions(s, actions[0]);
      NeverWithoutMeans(Next(s, actions[0]), actions[1..], a, j);
    }
  }
}
