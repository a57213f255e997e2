/** Which running audits stay running for ever. */
module StuckAudits {
  import opened Wrappers
  import opened Counting
  import opened Tables
  import opened Protocol
  import opened Frames
  import opened Invariants
  import opened Reachability
  import opened Approvals
  import opened Retry
  import opened UndisturbedRuns

  /** The job has ended, or waits in the queue without an attempt left. */
  predicate Over(row: Job) {
    row.status in {Completed, Failed, TimedOut} || (row.status == Queued && row.attempt >= row.maxAttempts)
  }

  predicate AuditIsRunning(db: Db, a: AuditId) {
    a in db.audits && db.audits[a].status == AuditRunning
  }

  /** An engine session that can still set its audit to completed or failed. */
  predicate MayEnd(x: Session, a: AuditId) {
    x.kind == AuditRun && x.audit == Some(a) && x.phase in {Stepping, MarkAuditFailed}
  }

  /** A running audit whose run job `j` is over, which no supervisor run has yet to fail and no engine can end. */
  ghost predicate Stuck(s: State, a: AuditId, j: JobId) {
    && AuditIsRunning(s.db, a) && RunJob(s.db, j, a) && Over(s.db.jobs[j])
    && (forall w <- s.sweeps :: a !in s.sweeps[w].timedOut)
    && (forall h <- s.sessions :: !MayEnd(s.sessions[h], a))
  }

  // ---------- a stuck audit stays stuck ----------

  lemma StepOnStuck(s: State, h: Holder, approval: ApprovalId, a: AuditId)
    requires SessionsOk(s) && h in s.sessions && AuditIsRunning(s.db, a) && !MayEnd(s.sessions[h], a)
    ensures var after := StepSession(s, h, approval).db.audits; a in after && after[a] == s.db.audits[a]
  {
    assert SessionOk(s, h);
    var x := s.sessions[h];
    if x.phase == Stepping && x.writesLeft == 0 && x.todo != [] {
      assert x.todo[0] in x.todo;
    }
  }

  lemma DecideOnStuck(s: State, action: Action, a: AuditId, j: JobId)
    requires Inv(s) && Stuck(s, a, j) && action.Decide?
    ensures var after := Next(s, action).db.audits; a in after && after[a] == s.db.audits[a]
  {
    var id := action.approval;
    if id in s.db.approvals && s.db.approvals[id].status == Pending && s.db.approvals[id].action == RunAudit {
      assert RunGate(s.db, id, s.db.approvals[id].target);
    }
    DecideLeavesOtherAudits(s.db, id, action.verdict, action.actor, action.reason, s.clock, action.job, a);
  }

  lemma AuditStaysStuck(s: State, action: Action, a: AuditId, j: JobId)
    requires Inv(s) && Stuck(s, a, j)
    ensures var after := Next(s, action).db.audits; a in after && after[a] == s.db.audits[a]
  {
    if action.Decide? {
      DecideOnStuck(s, action, a, j);
    } else {
      OthersOnStuck(s, action, a, j);
    }
  }

  lemma OthersOnStuck(s: State, action: Action, a: AuditId, j: JobId)
    requires SessionsOk(s) && Stuck(s, a, j) && !action.Decide?
    ensures var after := Next(s, action).db.audits; a in after && after[a] == s.db.audits[a]
  {
    if action.Step? {
      if action.holder in s.sessions { StepOnStuck(s, action.holder, action.approval, a); }
    } else if action.CallStep? {
      CallOnStuck(s, action, a);
    } else if !action.SweepFollow? {
      AuditsFrame(s, action);
    }
  }

  lemma CallOnStuck(s: State, action: Action, a: AuditId)
    requires ActiveRow(s.db, a) && action.CallStep?
    ensures Next(s, action).db == s.db
  {
    if action.call in s.calls && action.audit !in s.db.audits {
      CallKeepsAudits(s, action.call, action.pick, action.audit, action.approval, action.job, action.keyFirst, a);
    }
  }

  /** The run job is over, so no timeout statement returns it. */
  lemma SweepsStayAway(db: Db, a: AuditId, j: JobId, now: Time)
    requires ShapeOk(db) && RunJob(db, j, a) && Over(db.jobs[j])
    ensures a !in TimedOutAudits(db, now)
  {
    forall k | k in db.jobs && db.jobs[k].kind == AuditRun && db.jobs[k].audit == Some(a)
      ensures !Stale(db.jobs[k], now)
    {
      assert RunJob(db, k, a);
    }
  }

  lemma SweepsOnStuck(s: State, action: Action, a: AuditId, j: JobId)
    requires ShapeOk(s.db) && Stuck(s, a, j)
    ensures var next := Next(s, action);
      forall w <- next.sweeps :: a !in next.sweeps[w].timedOut
  {
    SweepsStayAway(s.db, a, j, s.clock);
    if !action.SweepFollow? && !action.SweepTimeouts? && !action.SweepRequeues? {
      SweepsFrame(s, action);
    }
  }

  /** No session goes back to where it could end its audit. */
  lemma MayEndFades(s: State, action: Action, h: Holder, a: AuditId)
    requires h in s.sessions && h in Next(s, action).sessions && MayEnd(Next(s, action).sessions[h], a)
    ensures MayEnd(s.sessions[h], a)
  {
    if !ActsFor(action, h) {
      OthersKeepSession(s, action, h);
    } else if action.Step? {
      StepContinues(s, h, action.approval);
    }
  }

  /** An engine session is only opened for a running job. */
  lemma SessionsOnStuck(s: State, action: Action, a: AuditId, j: JobId)
    requires ShapeOk(s.db) && Stuck(s, a, j)
    ensures var next := Next(s, action); forall h <- next.sessions :: !MayEnd(next.sessions[h], a)
  {
    var next := Next(s, action);
    forall h | h in next.sessions && MayEnd(next.sessions[h], a)
      ensures false
    {
      if h !in s.sessions {
        OpenedSession(s, action, h);
        assert RunJob(s.db, h.job, a);
      } else {
        MayEndFades(s, action, h, a);
      }
    }
  }

  lemma JobStaysOver(s: State, action: Action, a: AuditId, j: JobId)
    requires Inv(s) && Stuck(s, a, j)
    ensures var next := Next(s, action); RunJob(next.db, j, a) && Over(next.db.jobs[j])
  {
    ActionTransition(s, action);
    assert RowTransition(s.db.jobs[j], Next(s, action).db.jobs[j]);
  }

  lemma StepKeepsStuck(s: State, action: Action, a: AuditId, j: JobId)
    requires Inv(s) && Stuck(s, a, j)
    ensures Stuck(Next(s, action), a, j)
  {
    AuditStaysStuck(s, action, a, j);
    JobStaysOver(s, action, a, j);
    SweepsOnStuck(s, action, a, j);
    SessionsOnStuck(s, action, a, j);
  }

  lemma DecideLeavesOtherAudits(db: Db, id: ApprovalId, verdict: Verdict, actor: Actor, reason: Option<string>,
                                now: Time, job: JobId, a: AuditId)
    requires a in db.audits
    requires id in db.approvals && db.approvals[id].status == Pending && db.approvals[id].action == RunAudit ==>
      db.approvals[id].target != a
    ensures var after := DecideTx(db, id, verdict, actor, reason, now, job).0;
      a in after.audits && after.audits[a] == db.audits[a]
  {
  }

  /** While it does, no other audit is ever started. */
  lemma {:induction false} StuckRun(s: State, actions: seq<Action>, a: AuditId, j: JobId)
    requires Inv(s) && Stuck(s, a, j)
    ensures var later := Run(s, actions); Stuck(later, a, j) && later.db.audits.Keys == s.db.audits.Keys
    decreases |actions|
  {
    if actions != [] {
      ActiveBlocksStart(s, actions[0], a);
      StepKeepsInv(s, actions[0]);
      StepKeepsStuck(s, actions[0], a, j);
      StuckRun(Next(s, actions[0]), actions[1..], a, j);
    }
  }

  // ---------- any other running audit can be ended ----------

  /** What is done to end the audit `a` with run job `j` concerns no other audit. */
  predicate OnlyFor(action: Action, a: AuditId, j: JobId) {
    match action
    case Step(h, _) => h.job == j
    case Raise(h) => h.job == j
    case Abandon(h) => h.job == j
    case Open(_, job, _, _) => job == j
    case ClaimJob(_, job, _) => job == j
    case SweepFollow(_, audit) => audit == a
    case SweepRequeues(_) => true
    case _ => false
  }

  ghost predicate Frees(s: State, future: seq<Action>, a: AuditId, j: JobId) {
    !AuditIsRunning(Run(s, future).db, a) && forall action <- future :: OnlyFor(action, a, j)
  }

  lemma FreesLater(s: State, action: Action, rest: seq<Action>, a: AuditId, j: JobId)
    requires Frees(Next(s, action), rest, a, j) && OnlyFor(action, a, j)
    ensures Frees(s, [action] + rest, a, j)
  {
    RunOne(s, action, rest);
  }

  /** The first statement of the engine's catch block. */
  lemma CatchBlockFrees(s: State, h: Holder, a: AuditId, approval: ApprovalId)
    requires h in s.sessions && s.sessions[h].phase == MarkAuditFailed && s.sessions[h].audit == Some(a)
    requires a in s.db.audits && approval !in s.db.approvals
    ensures Frees(s, [Step(h, approval)], a, h.job)
  {
    RunOne(s, Step(h, approval), []);
  }

  /** An engine throws after it has read its audit row. */
  lemma ThrowFrees(s: State, h: Holder, a: AuditId, approval: ApprovalId)
    requires h in s.sessions && MayEnd(s.sessions[h], a) && !AtCheck(s.sessions[h])
    requires a in s.db.audits && approval !in s.db.approvals
    ensures exists future :: Frees(s, future, a, h.job)
  {
    if s.sessions[h].phase == Stepping {
      CatchBlockFrees(Next(s, Raise(h)), h, a, approval);
      FreesLater(s, Raise(h), [Step(h, approval)], a, h.job);
    } else {
      CatchBlockFrees(s, h, a, approval);
    }
  }

  lemma PassCheck(s: State, h: Holder, a: AuditId, approval: ApprovalId)
    requires h in s.sessions && MayEnd(s.sessions[h], a) && AtCheck(s.sessions[h]) && EngineSessionOk(s, h)
    requires AuditIsRunning(s.db, a) && approval !in s.db.approvals
    ensures var next := Next(s, Step(h, approval));
      next == Put(s, h, Advance(s.sessions[h])) && MayEnd(next.sessions[h], a) && !AtCheck(next.sessions[h])
  {
    StraightTail(s.sessions[h].todo);
  }

  lemma SessionFrees(s: State, h: Holder, a: AuditId)
    requires h in s.sessions && MayEnd(s.sessions[h], a) && EngineSessionOk(s, h) && AuditIsRunning(s.db, a)
    ensures exists future :: Frees(s, future, a, h.job)
  {
    FreshId(s.db.approvals.Keys);
    var approval: ApprovalId :| approval !in s.db.approvals;
    if AtCheck(s.sessions[h]) {
      PassCheck(s, h, a, approval);
      var next := Next(s, Step(h, approval));
      ThrowFrees(next, h, a, approval);
      var rest :| Frees(next, rest, a, h.job);
      FreesLater(s, Step(h, approval), rest, a, h.job);
    } else {
      ThrowFrees(s, h, a, approval);
    }
  }

  /** A worker opens the running job, perhaps after the session that had it is gone. */
  lemma RunningJobFrees(s: State, a: AuditId, j: JobId)
    requires RunJob(s.db, j, a) && s.db.jobs[j].status == Running && s.db.jobs[j].lockedBy.Some?
    requires AuditIsRunning(s.db, a)
    ensures exists future :: Frees(s, future, a, j)
  {
    var h := Holder(s.db.jobs[j].lockedBy.value, j);
    var idle := Next(s, Abandon(h));
    assert idle == s.(sessions := s.sessions - {h});
    var open := Open(h.worker, j, 0, 0);
    var next := Next(idle, open);
    assert next == Put(idle, h, NewSession(s.db.jobs[j], 0, 0));
    NewSessionEngineOk(next, h, s.db.jobs[j], 0, 0);
    SessionFrees(next, h, a);
    var rest :| Frees(next, rest, a, j);
    FreesLater(idle, open, rest, a, j);
    FreesLater(s, Abandon(h), [open] + rest, a, j);
  }

  lemma QueuedJobFrees(s: State, a: AuditId, j: JobId)
    requires RunJob(s.db, j, a) && Claimable(s.db.jobs[j]) && AuditIsRunning(s.db, a)
    ensures exists future :: Frees(s, future, a, j)
  {
    FreshId(s.claims.Keys);
    var token: Token :| token !in s.claims;
    var claim := ClaimJob(0, j, token);
    RunningJobFrees(Next(s, claim), a, j);
    var rest :| Frees(Next(s, claim), rest, a, j);
    FreesLater(s, claim, rest, a, j);
  }

  lemma FollowFrees(s: State, w: nat, a: AuditId, j: JobId)
    requires w in s.sweeps && a in s.sweeps[w].timedOut && s.sweeps[w].swept && a in s.db.audits
    ensures Frees(s, [SweepFollow(w, a)], a, j)
  {
    RunOne(s, SweepFollow(w, a), []);
  }

  lemma SweepFrees(s: State, w: nat, a: AuditId, j: JobId)
    requires w in s.sweeps && a in s.sweeps[w].timedOut && a in s.db.audits
    ensures exists future :: Frees(s, future, a, j)
  {
    if s.sweeps[w].swept {
      FollowFrees(s, w, a, j);
    } else {
      FollowFrees(Next(s, SweepRequeues(w)), w, a, j);
      FreesLater(s, SweepRequeues(w), [SweepFollow(w, a)], a, j);
    }
  }

  lemma OthersAreFreed(s: State, a: AuditId, j: JobId)
    requires WorkersOk(s) && ShapeOk(s.db) && EngineSessionsOk(s)
    requires RunJob(s.db, j, a) && AuditIsRunning(s.db, a) && !Stuck(s, a, j)
    ensures exists future :: Frees(s, future, a, j)
  {
    if w :| w in s.sweeps && a in s.sweeps[w].timedOut {
      SweepFrees(s, w, a, j);
    } else if h :| h in s.sessions && MayEnd(s.sessions[h], a) {
      assert EngineSessionOk(s, h) && SessionOk(s, h) && RunJob(s.db, h.job, a);
      SessionFrees(s, h, a);
    } else {
      assert RowOk(s.db.jobs[j]);
      if s.db.jobs[j].status == Running {
        RunningJobFrees(s, a, j);
      } else {
        QueuedJobFrees(s, a, j);
      }
    }
  }

  // ---------- exactly the stuck audits stay ----------

  /** `a` stays running in the single active slot, and no other audit is inserted. */
  ghost predicate Blocks(s: State, future: seq<Action>, a: AuditId) {
    var later := Run(s, future).db;
    later.audits.Keys == s.db.audits.Keys && AuditIsRunning(later, a)
  }

  /**
   A running audit stays running in every future if and only if it is stuck, and then no other audit is
   ever inserted.
   */
  lemma StuckForEver(past: seq<Action>, a: AuditId, j: JobId)
    requires var db := Run(INITIAL, past).db; AuditIsRunning(db, a) && RunJob(db, j, a)
    ensures var s := Run(INITIAL, past); (forall future :: AuditIsRunning(Run(s, future).db, a)) <==> Stuck(s, a, j)
    ensures var s := Run(INITIAL, past); Stuck(s, a, j) ==> forall future :: Blocks(s, future, a)
  {
    var s := Run(INITIAL, past);
    ReachableInv([]);
    ReachableInv(past);
    RunKeepsEngineSessions(INITIAL, past);
    if Stuck(s, a, j) {
      forall future ensures Blocks(s, future, a) && AuditIsRunning(Run(s, future).db, a) {
        StuckRun(s, future, a, j);
      }
    } else {
      OthersAreFreed(s, a, j);
      var future :| Frees(s, future, a, j);
      assert !AuditIsRunning(Run(s, future).db, a);
    }
  }
}
