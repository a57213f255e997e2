/** When a completed audit leaves that status, and what follows from it. */
module CompletedAudits {
  import opened Wrappers
  import opened Tables
  import opened Programs
  import opened Protocol
  import opened Frames
  import opened Invariants
  import opened Reachability
  import opened Fencing
  import opened Lifecycle
  import opened UndisturbedRuns
  import opened StuckAudits

  // ---------- a completed audit is not final ----------

  /** The supervisor's reset after a requeue; it needs the active slot. */
  ghost predicate ResetsCompleted(s: State, action: Action, a: AuditId) {
    action.SweepFollow? && action.audit == a && action.sweep in s.sweeps && s.sweeps[action.sweep].swept
    && s.sweeps[action.sweep].timedOut == {} && a in s.sweeps[action.sweep].requeued && !ActiveTaken(s.db, a)
  }

  /** The first write of the engine's catch block. */
  ghost predicate FailsCompleted(s: State, action: Action, a: AuditId) {
    action.Step? && action.holder in s.sessions && action.approval !in s.db.approvals
    && s.sessions[action.holder].phase == MarkAuditFailed && s.sessions[action.holder].audit == Some(a)
  }

  /**
   Exactly two statements take a completed audit out of that status, and neither is filtered
   by a token: the supervisor's reset after a requeue and the engine's error path.
   */
  lemma CompletedAuditLeaves(actions: seq<Action>, action: Action, a: AuditId)
    requires var db := Run(INITIAL, actions).db; a in db.audits && db.audits[a].status == AuditCompleted
    ensures var s := Run(INITIAL, actions);
            var next := Next(s, action);
            a in next.db.audits
            && (next.db.audits[a].status != AuditCompleted
                <==> ResetsCompleted(s, action, a) || FailsCompleted(s, action, a))
  {
    ReachableInv(actions);
    LeavesFrom(Run(INITIAL, actions), action, a);
  }

  lemma LeavesFrom(s: State, action: Action, a: AuditId)
    requires ShapeOk(s.db) && GateOk(s.db) && a in s.db.audits && s.db.audits[a].status == AuditCompleted
    ensures var next := Next(s, action);
      a in next.db.audits
      && (next.db.audits[a].status != AuditCompleted <==> ResetsCompleted(s, action, a) || FailsCompleted(s, action, a))
  {
    if action.Step? {
      StepLeaves(s, action, a);
    } else if action.Decide? {
      DecideOnCompleted(s, action.approval, action.verdict, action.actor, action.reason, action.job, a);
    } else if action.CallStep? {
      CallOnCompleted(s, action, a);
    } else {
      OthersOnCompleted(s, action, a);
    }
  }

  lemma StepLeaves(s: State, action: Action, a: AuditId)
    requires a in s.db.audits && s.db.audits[a].status == AuditCompleted && action.Step?
    ensures var next := Next(s, action);
      a in next.db.audits && (next.db.audits[a].status != AuditCompleted <==> FailsCompleted(s, action, a))
  {
    if action.holder in s.sessions {
      StepOnCompleted(s, action.holder, action.approval, a);
    }
  }

  lemma OthersOnCompleted(s: State, action: Action, a: AuditId)
    requires a in s.db.audits && s.db.audits[a].status == AuditCompleted
    requires !action.Step? && !action.Decide? && !action.CallStep?
    ensures var next := Next(s, action);
            a in next.db.audits && (next.db.audits[a].status != AuditCompleted <==> ResetsCompleted(s, action, a))
  {
    if !action.SweepFollow? {
      AuditsFrame(s, action);
    }
  }

  lemma CallOnCompleted(s: State, action: Action, a: AuditId)
    requires a in s.db.audits && s.db.audits[a].status == AuditCompleted && action.CallStep?
    ensures var next := Next(s, action);
            a in next.db.audits && next.db.audits[a].status == AuditCompleted
  {
    if action.call in s.calls {
      var c := s.calls[action.call];
    }
  }

  lemma FenceOnCompleted(s: State, h: Holder, approval: ApprovalId, a: AuditId)
    requires h in s.sessions && s.sessions[h].todo != []
    requires a in s.db.audits && s.db.audits[a].status == AuditCompleted
    ensures var next := PassFence(s, h, approval);
            a in next.db.audits && next.db.audits[a].status == AuditCompleted
  {
    FenceStatements(s, h, approval);
  }

  lemma StepOnCompleted(s: State, h: Holder, approval: ApprovalId, a: AuditId)
    requires h in s.sessions && a in s.db.audits && s.db.audits[a].status == AuditCompleted
    ensures var next := StepSession(s, h, approval);
            a in next.db.audits
            && (next.db.audits[a].status != AuditCompleted <==>
                  s.sessions[h].phase == MarkAuditFailed && s.sessions[h].audit == Some(a))
  {
    var x := s.sessions[h];
    if x.phase == Stepping && x.writesLeft == 0 && x.todo != [] {
      FenceOnCompleted(s, h, approval, a);
    }
  }

  lemma DecideOnCompleted(s: State, id: ApprovalId, verdict: Verdict, actor: Actor, reason: Option<string>,
                          job: JobId, a: AuditId)
    requires ShapeOk(s.db) && GateOk(s.db) && a in s.db.audits && s.db.audits[a].status == AuditCompleted
    ensures var after := DecideTx(s.db, id, verdict, actor, reason, s.clock, job).0;
            a in after.audits && after.audits[a].status == AuditCompleted
  {
    if id in s.db.approvals && s.db.approvals[id].status == Pending && s.db.approvals[id].action == RunAudit {
      assert RunGate(s.db, id, s.db.approvals[id].target);
    }
    DecideLeavesOtherAudits(s.db, id, verdict, actor, reason, s.clock, job, a);
  }

  // ---------- an interleaving that reopens a completed audit ----------

  /** An audit outside production is started; its job is claimed and its worker dies. */
  const ABANDONED := State(
    Db(map[0 := Claimed(NewJob(AuditRun, Some(0), 0), 1, 1, 0)],
       map[0 := Audit(AuditRunning, false, "operator", None)], map[], {}),
    0, map[1 := Claim(1, 0, 1)], map[], map[],
    map[0 := Call(None, false, "operator", Returned(Started(0, false)))])

  lemma AbandonedRun() returns (actions: seq<Action>)
    ensures Run(INITIAL, actions) == ABANDONED && forall action <- actions :: !action.Open?
  {
    var open := OpenCall(0, None, false, "operator");
    var step := CallStep(0, 0, 0, 0, 0, true);
    var claim := ClaimJob(1, 0, 1);
    var s1 := INITIAL.(calls := map[0 := Call(None, false, "operator", CheckActive)]);
    assert Next(INITIAL, open) == s1;
    var s2 := INITIAL.(calls := map[0 := Call(None, false, "operator", Insert)]);
    assert Next(s1, step) == s2;
    var s3 := ABANDONED.(db := ABANDONED.db.(jobs := map[0 := NewJob(AuditRun, Some(0), 0)]), claims := map[]);
    assert StartTx(EMPTY_DB, false, None, "operator", 0, 0, 0, 0, true) == Done(s3.db);
    assert Next(s2, step) == s3;
    assert Next(s3, claim) == ABANDONED;
    RunOne(s3, claim, []);
    RunOne(s2, step, [claim]);
    RunOne(s1, step, [step, claim]);
    RunOne(INITIAL, open, [step, step, claim]);
    actions := [open, step, step, claim];
  }

  lemma ReachAbandoned()
    ensures exists actions :: Run(INITIAL, actions) == ABANDONED
  {
    var actions := AbandonedRun();
  }

  /** 45s later a supervisor requeues the job, and a second worker takes it before the supervisor resets the audit. */
  const REQUEUED := ABANDONED.(
    db := ABANDONED.db.(jobs := map[0 := ReleasedRow(ABANDONED.db.jobs[0])]),
    clock := 45_001,
    sweeps := map[0 := Sweep({}, {0}, true)])

  const RETAKEN_ROW := Claimed(REQUEUED.db.jobs[0], 2, 2, 45_001)

  const RETAKEN := REQUEUED.(
    db := REQUEUED.db.(jobs := map[0 := RETAKEN_ROW]),
    claims := map[1 := Claim(1, 0, 1), 2 := Claim(2, 0, 2)],
    sessions := map[Holder(2, 0) := NewSession(RETAKEN_ROW, 0, 0)])

  lemma AbandonedIsStale(db: Db)
    requires db == ABANDONED.db
    ensures TimeOutStale(db, 45_001) == db && TimedOutAudits(db, 45_001) == {}
    ensures RequeueStale(db, 45_001) == REQUEUED.db && RequeuedAudits(db, 45_001) == {0}
  {
    var row := db.jobs[0];
    assert Requeues(row, 45_001) && !TimesOut(row, 45_001);
    assert TimeOutStale(db, 45_001).jobs == db.jobs;
    assert RequeueStale(db, 45_001).jobs == REQUEUED.db.jobs;
    assert 0 in db.jobs && row.audit.value == 0;
  }

  lemma AbandonedSwept(s1: State, s2: State)
    requires s1 == ABANDONED.(clock := 45_001) && s2 == s1.(sweeps := map[0 := Sweep({}, {}, false)])
    ensures Next(s1, SweepTimeouts(0)) == s2 && Next(s2, SweepRequeues(0)) == REQUEUED
  {
    AbandonedIsStale(s1.db);
  }

  lemma ReachRequeued()
    ensures exists actions :: Run(ABANDONED, actions) == REQUEUED
  {
    var s1 := ABANDONED.(clock := 45_001);
    var s2 := s1.(sweeps := map[0 := Sweep({}, {}, false)]);
    AbandonedSwept(s1, s2);
    RunOne(s2, SweepRequeues(0), []);
    RunOne(s1, SweepTimeouts(0), [SweepRequeues(0)]);
    RunOne(ABANDONED, Elapse(45_001), [SweepTimeouts(0), SweepRequeues(0)]);
  }

  lemma ReachRetaken()
    ensures exists actions :: Run(REQUEUED, actions) == RETAKEN
  {
    var s1 := RETAKEN.(sessions := map[]);
    assert Next(REQUEUED, ClaimJob(2, 0, 2)) == s1;
    assert Next(s1, Open(2, 0, 0, 0)) == RETAKEN;
    RunOne(s1, Open(2, 0, 0, 0), []);
    RunOne(REQUEUED, ClaimJob(2, 0, 2), [Open(2, 0, 0, 0)]);
  }

  /** A completed audit that a supervisor has yet to reset. */
  ghost predicate Reopenable(s: State) {
    && s.sweeps == map[0 := Sweep({}, {0}, true)] && s.sessions == map[]
    && s.db.audits.Keys == {0} && s.db.audits[0].status == AuditCompleted
    && RunJob(s.db, 0, 0) && s.db.jobs[0].status == Completed && 0 in s.db.reports
  }

  /** The second worker is about to run the audit, the reset is still to come. */
  ghost predicate Ready(s: State) {
    && s.sweeps == map[0 := Sweep({}, {0}, true)] && s.sessions.Keys == {Holder(2, 0)}
    && s.db.audits.Keys == {0} && 0 !in s.db.approvals
    && RunJob(s.db, 0, 0) && OnTrack(s, Holder(2, 0), 0)
  }

  lemma RetakenIsReady()
    ensures Ready(RETAKEN)
  {
    assert RETAKEN.sessions[Holder(2, 0)].todo == EngineProgram(0, 0);
  }

  lemma FinishReady(s: State)
    requires Inv(s) && Ready(s)
    ensures exists actions :: Reopenable(Run(s, actions))
  {
    var h := Holder(2, 0);
    var actions := Steps(h, 0, Cost(s.sessions[h].writesLeft, s.sessions[h].todo));
    UndisturbedEngineFinishes(s, h, 0, 0);
    RunJobStays(s, actions, 0, 0);
    assert s.sessions - {h} == map[];
    assert Reopenable(Run(s, actions));
  }

  lemma {:induction false} Chain(s: State, t: State, u: State)
    requires (exists actions :: Run(s, actions) == t) && exists actions :: Run(t, actions) == u
    ensures exists actions :: Run(s, actions) == u
  {
    var first :| Run(s, first) == t;
    var second :| Run(t, second) == u;
    RunConcat(s, first, second);
    assert Run(s, first + second) == u;
  }

  lemma ReachReopenable()
    ensures exists actions :: Reopenable(Run(INITIAL, actions))
  {
    ReachAbandoned();
    ReachRequeued();
    Chain(INITIAL, ABANDONED, REQUEUED);
    ReachRetaken();
    Chain(INITIAL, REQUEUED, RETAKEN);
    RetakenIsReady();
    FinishFromReachable(RETAKEN);
  }

  lemma FinishFromReachable(s: State)
    requires Ready(s) && exists actions :: Run(INITIAL, actions) == s
    ensures exists actions :: Reopenable(Run(INITIAL, actions))
  {
    var past :| Run(INITIAL, past) == s;
    ReachableInv(past);
    FinishReady(s);
    var rest :| Reopenable(Run(s, rest));
    RunConcat(INITIAL, past, rest);
    assert Reopenable(Run(INITIAL, past + rest));
  }

  lemma DelayedReset(s: State)
    requires Reopenable(s)
    ensures var next := Next(s, SweepFollow(0, 0));
            && Stuck(next, 0, 0) && next.db.jobs == s.db.jobs && next.db.reports == s.db.reports
  {
  }

  /**
   The delayed reset: an interleaving from the start in which a completed audit is set running again,
   although its job stays completed and its report stays, and then blocks every other audit for ever.
   */
  lemma CompletedAuditReopens()
    ensures exists actions, last, a ::
      var before := Run(INITIAL, actions);
      var after := Next(before, last);
      && a in before.db.audits && before.db.audits[a].status == AuditCompleted
      && a in after.db.audits && after.db.audits[a].status == AuditRunning
      && after.db.jobs == before.db.jobs && a in after.db.reports
      && forall future :: Blocks(after, future, a)
  {
    ReachReopenable();
    var actions :| Reopenable(Run(INITIAL, actions));
    ReachableInv(actions);
    ReopenedBlocks(Run(INITIAL, actions));
  }

  lemma ReopenedBlocks(before: State)
    requires Inv(before) && Reopenable(before)
    ensures var after := Next(before, SweepFollow(0, 0));
      && 0 in before.db.audits && before.db.audits[0].status == AuditCompleted
      && 0 in after.db.audits && after.db.audits[0].status == AuditRunning
      && after.db.jobs == before.db.jobs && 0 in after.db.reports
      && forall future :: Blocks(after, future, 0)
  {
    var after := Next(before, SweepFollow(0, 0));
    DelayedReset(before);
    StepKeepsInv(before, SweepFollow(0, 0));
    forall future ensures Blocks(after, future, 0) {
      StuckRun(after, future, 0, 0);
    }
  }

  // ---------- an interleaving in which a stale worker fails a completed audit ----------

  /** The first worker has read the audit row when it is shut down; it has lost its lease but is still there. */
  const STALE_SESSION := Advance(NewSession(ABANDONED.db.jobs[0], 0, 0))

  const RELEASED := ABANDONED.(
    db := ABANDONED.db.(jobs := map[0 := ReleasedRow(ABANDONED.db.jobs[0])]),
    sessions := map[Holder(1, 0) := STALE_SESSION])

  const OVERTAKEN_ROW := Claimed(RELEASED.db.jobs[0], 2, 2, 0)

  /** A second worker has taken the job over. */
  const OVERTAKEN := RELEASED.(
    db := RELEASED.db.(jobs := map[0 := OVERTAKEN_ROW]),
    claims := map[1 := Claim(1, 0, 1), 2 := Claim(2, 0, 2)],
    sessions := map[Holder(1, 0) := STALE_SESSION, Holder(2, 0) := NewSession(OVERTAKEN_ROW, 0, 0)])

  lemma ReachReleased()
    ensures exists actions :: Run(ABANDONED, actions) == RELEASED
  {
    var h := Holder(1, 0);
    var s1 := ABANDONED.(sessions := map[h := NewSession(ABANDONED.db.jobs[0], 0, 0)]);
    assert Next(ABANDONED, Open(1, 0, 0, 0)) == s1;
    var s2 := ABANDONED.(sessions := map[h := STALE_SESSION]);
    assert s1.sessions[h].todo == EngineProgram(0, 0);
    assert Next(s1, Step(h, 0)) == s2;
    assert ReleaseWorker(ABANDONED.db, 1).jobs == RELEASED.db.jobs;
    assert Next(s2, Shutdown(1)) == RELEASED;
    RunOne(s2, Shutdown(1), []);
    RunOne(s1, Step(h, 0), [Shutdown(1)]);
    RunOne(ABANDONED, Open(1, 0, 0, 0), [Step(h, 0), Shutdown(1)]);
  }

  lemma ReachOvertaken()
    ensures exists actions :: Run(RELEASED, actions) == OVERTAKEN
  {
    var s1 := OVERTAKEN.(sessions := RELEASED.sessions);
    assert Next(RELEASED, ClaimJob(2, 0, 2)) == s1;
    assert Next(s1, Open(2, 0, 0, 0)) == OVERTAKEN;
    RunOne(s1, Open(2, 0, 0, 0), []);
    RunOne(RELEASED, ClaimJob(2, 0, 2), [Open(2, 0, 0, 0)]);
  }

  /** The audit is complete, the stale session is still in its program. */
  ghost predicate Outlived(s: State) {
    && s.db.audits.Keys == {0} && s.db.audits[0].status == AuditCompleted
    && RunJob(s.db, 0, 0) && s.db.jobs[0].status == Completed && 0 in s.db.reports && 1 !in s.db.approvals
    && s.sessions == map[Holder(1, 0) := STALE_SESSION]
  }

  /** The second worker is about to run the audit, the first has lost its token. */
  ghost predicate Overtaken(s: State) {
    && s.sessions.Keys == {Holder(1, 0), Holder(2, 0)} && s.sessions[Holder(1, 0)] == STALE_SESSION
    && s.db.audits.Keys == {0} && s.db.approvals == map[]
    && RunJob(s.db, 0, 0) && OnTrack(s, Holder(2, 0), 0)
    && 1 in s.claims && s.db.jobs[0].token != Some(1)
  }

  lemma OvertakenReady()
    ensures Overtaken(OVERTAKEN)
  {
    assert OVERTAKEN.sessions[Holder(2, 0)].todo == EngineProgram(0, 0);
  }

  lemma OvertakenFinishes(s: State) returns (actions: seq<Action>)
    requires Inv(s) && Overtaken(s)
    ensures Outlived(Run(s, actions))
  {
    var h := Holder(2, 0);
    actions := Steps(h, 0, Cost(s.sessions[h].writesLeft, s.sessions[h].todo));
    UndisturbedEngineFinishes(s, h, 0, 0);
    RunJobStays(s, actions, 0, 0);
    assert s.sessions - {h} == map[Holder(1, 0) := STALE_SESSION];
  }

  lemma ReachOvertakenFromStart()
    ensures exists actions :: Run(INITIAL, actions) == OVERTAKEN
  {
    ReachAbandoned();
    ReachReleased();
    Chain(INITIAL, ABANDONED, RELEASED);
    ReachOvertaken();
    Chain(INITIAL, RELEASED, OVERTAKEN);
  }

  /** `last` is a stale worker's write that fails a completed audit, whose job stays completed. */
  ghost predicate FailedByStale(before: State, last: Action, a: AuditId) {
    var after := Next(before, last);
    && FailsCompleted(before, last, a) && !Held(before, last.holder)
    && a in before.db.audits && before.db.audits[a].status == AuditCompleted && a in before.db.reports
    && a in after.db.audits && after.db.audits[a].status == AuditFailed && after.db.jobs == before.db.jobs
  }

  lemma OutlivedFails(s: State)
    requires Outlived(s) && s.db.jobs[0].token != Some(1)
    ensures FailedByStale(Next(s, Raise(Holder(1, 0))), Step(Holder(1, 0), 1), 0)
  {
    assert STALE_SESSION.todo == EngineProgram(0, 0)[1..];
  }

  lemma OvertakenFails(s: State) returns (actions: seq<Action>)
    requires Inv(s) && Overtaken(s)
    ensures FailedByStale(Run(s, actions), Step(Holder(1, 0), 1), 0)
  {
    var raise := Raise(Holder(1, 0));
    var finish := OvertakenFinishes(s);
    LostTokenStaysLost(s, finish, 0, 1);
    OutlivedFails(Run(s, finish));
    RunOne(Run(s, finish), raise, []);
    RunConcat(s, finish, [raise]);
    actions := finish + [raise];
  }

  /**
   The other way out, from the start: a worker that a shutdown has cut off fails the audit that
   another worker has completed since.
   */
  lemma StaleWorkerFailsCompleted()
    ensures exists actions, last, a :: FailedByStale(Run(INITIAL, actions), last, a)
  {
    ReachOvertakenFromStart();
    OvertakenReady();
    FailFromReachable(OVERTAKEN);
  }

  lemma FailFromReachable(s: State)
    requires Overtaken(s) && exists actions :: Run(INITIAL, actions) == s
    ensures exists actions, last, a :: FailedByStale(Run(INITIAL, actions), last, a)
  {
    var past :| Run(INITIAL, past) == s;
    ReachableInv(past);
    var rest := OvertakenFails(s);
    RunConcat(INITIAL, past, rest);
    assert FailedByStale(Run(INITIAL, past + rest), Step(Holder(1, 0), 1), 0);
  }
}
