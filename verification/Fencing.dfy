/** Lease fencing: what a worker can still do once its token is gone. */
module Fencing {
  import opened Wrappers
  import opened Tables
  import opened Programs
  import opened Protocol
  import opened Frames
  import opened Invariants
  import opened Preservation
  import opened SessionSteps
  import opened Reachability

  // ---------- the job row a session may write ----------

  /** Nothing, or the row `j` under `token`, which the row keeps or drops. */
  ghost predicate RowWrite(db: Db, after: Db, j: JobId, token: Option<Token>) {
    after.jobs == db.jobs
    || (&& LeaseMatches(db, j, token) && j in after.jobs
        && after.jobs == db.jobs[j := after.jobs[j]]
        && RowEvolves(db.jobs[j], after.jobs[j])
        && after.jobs[j].token in {db.jobs[j].token, None})
  }

  lemma StatementsWriteOneRow(db: Db, j: JobId, token: Option<Token>, exhausted: bool, now: Time)
    ensures RowWrite(db, Heartbeat(db, j, token, now), j, token)
    ensures RowWrite(db, CompleteJob(db, j, token, now), j, token)
    ensures RowWrite(db, FailExecutorJob(db, j, token, exhausted, now), j, token)
    ensures RowWrite(db, FailEngineJob(db, j, token, exhausted), j, token)
  {
  }

  /** The statement a fence issues, when it is not the finalize transaction. */
  lemma PlainFenceStatements(s: State, h: Holder, approval: ApprovalId)
    requires h in s.sessions && s.sessions[h].todo != [] && s.sessions[h].todo[0].fence != FinishAudit
    ensures var x := s.sessions[h];
            var next := PassFence(s, h, approval);
            && next.claims == s.claims
            && next.db in {s.db, Heartbeat(s.db, h.job, x.token, s.clock), CompleteJob(s.db, h.job, x.token, s.clock)}
  {
  }

  /** The statement a fence issues. */
  lemma FenceStatements(s: State, h: Holder, approval: ApprovalId)
    requires h in s.sessions && s.sessions[h].todo != []
    ensures var x := s.sessions[h];
            var next := PassFence(s, h, approval);
            && next.claims == s.claims
            && (next.db in {s.db, Heartbeat(s.db, h.job, x.token, s.clock), CompleteJob(s.db, h.job, x.token, s.clock)}
                || (x.audit.Some?
                    && FinalizeTx(s.db, x.audit.value, h.job, x.token, approval, s.clock) == Committed(next.db)))
  {
    if s.sessions[h].todo[0].fence != FinishAudit {
      PlainFenceStatements(s, h, approval);
    }
  }

  lemma FenceWritesOneRow(s: State, next: State, h: Holder, approval: ApprovalId)
    requires h in s.sessions && s.sessions[h].todo != [] && next == PassFence(s, h, approval)
    ensures next.claims == s.claims && RowWrite(s.db, next.db, h.job, s.sessions[h].token)
  {
    var x := s.sessions[h];
    FenceStatements(s, h, approval);
    FenceOutcome(s.db, next.db, h.job, x.token, x.audit, approval, s.clock);
  }

  lemma FenceOutcome(db: Db, after: Db, j: JobId, token: Option<Token>, audit: Option<AuditId>, approval: ApprovalId,
                     now: Time)
    requires after in {db, Heartbeat(db, j, token, now), CompleteJob(db, j, token, now)}
             || (audit.Some? && FinalizeTx(db, audit.value, j, token, approval, now) == Committed(after))
    ensures RowWrite(db, after, j, token)
  {
    StatementsWriteOneRow(db, j, token, false, now);
  }

  /** The statement a session's step issues, when it is not a fence. */
  lemma StepStatements(s: State, h: Holder, approval: ApprovalId)
    requires h in s.sessions
    requires var x := s.sessions[h]; !(x.phase == Stepping && x.writesLeft == 0 && x.todo != [])
    ensures var x := s.sessions[h];
            var next := StepSession(s, h, approval);
            && next.claims == s.claims
            && (next.db.jobs == s.db.jobs
                || (x.phase == ExecutorFailing
                    && next.db == FailExecutorJob(s.db, h.job, x.token, x.attempt >= x.maxAttempts, s.clock))
                || (x.phase.ReleaseJob? && next.db == FailEngineJob(s.db, h.job, x.token, x.phase.exhausted)))
  {
  }

  /** A session's step writes at most its own job row, under its token. */
  lemma StepWritesOneRow(s: State, next: State, h: Holder, approval: ApprovalId)
    requires h in s.sessions && next == StepSession(s, h, approval)
    ensures next.claims == s.claims && RowWrite(s.db, next.db, h.job, s.sessions[h].token)
  {
    var x := s.sessions[h];
    if x.phase == Stepping && x.writesLeft == 0 && x.todo != [] {
      FenceWritesOneRow(s, next, h, approval);
    } else {
      StepStatements(s, h, approval);
      StepOutcome(s.db, next.db, h.job, x, s.clock);
    }
  }

  lemma StepOutcome(db: Db, after: Db, j: JobId, x: Session, now: Time)
    requires after.jobs == db.jobs
             || after == FailExecutorJob(db, j, x.token, x.attempt >= x.maxAttempts, now)
             || (x.phase.ReleaseJob? && after == FailEngineJob(db, j, x.token, x.phase.exhausted))
    ensures RowWrite(db, after, j, x.token)
  {
    StatementsWriteOneRow(db, j, x.token, x.attempt >= x.maxAttempts, now);
    if x.phase.ReleaseJob? {
      StatementsWriteOneRow(db, j, x.token, x.phase.exhausted, now);
    }
  }

  /** Requests only add job rows, queued and unowned. */
  ghost predicate JobsAdded(db: Db, after: Db) {
    && (forall j <- db.jobs :: j in after.jobs && after.jobs[j] == db.jobs[j])
    && (forall j <- after.jobs :: j !in db.jobs ==>
          && after.jobs[j].token.None? && after.jobs[j].status == Queued
          && after.jobs[j].attempt == 0 && after.jobs[j].maxAttempts == DEFAULT_MAX_ATTEMPTS)
  }

  lemma DecideAddsJobs(db: Db, id: ApprovalId, verdict: Verdict, actor: Actor, reason: Option<string>, now: Time,
                       job: JobId)
    requires job !in db.jobs
    ensures JobsAdded(db, DecideTx(db, id, verdict, actor, reason, now, job).0)
  {
  }

  lemma StartAddsJobs(db: Db, c: Call, now: Time, audit: AuditId, approval: ApprovalId, job: JobId, keyFirst: bool)
    requires job !in db.jobs
    ensures var written := StartTx(db, c.production, c.key, c.actor, now, audit, approval, job, keyFirst);
            written.Done? ==> JobsAdded(db, written.db)
  {
  }

  lemma CallAddsJobs(s: State, call: nat, pick: nat, audit: AuditId, approval: ApprovalId, job: JobId, keyFirst: bool)
    requires call in s.calls && job !in s.db.jobs
    ensures var next := StepCall(s, call, pick, audit, approval, job, keyFirst);
      next.claims == s.claims && JobsAdded(s.db, next.db)
  {
    StartAddsJobs(s.db, s.calls[call], s.clock, audit, approval, job, keyFirst);
  }

  lemma RequestsAddJobs(s: State, action: Action)
    requires IsRequest(action)
    ensures Next(s, action).claims == s.claims && JobsAdded(s.db, Next(s, action).db)
  {
    match action
    case CallStep(call, pick, audit, approval, job, keyFirst) =>
      if call in s.calls && job !in s.db.jobs {
        CallAddsJobs(s, call, pick, audit, approval, job, keyFirst);
      }
    case Decide(id, verdict, actor, reason, job) =>
      if job !in s.db.jobs {
        DecideAddsJobs(s.db, id, verdict, actor, reason, s.clock, job);
      }
    case _ =>
  }

  lemma BeatTokens(s: State, h: Holder)
    requires h in s.sessions
    ensures TokensOnlyLeave(s, BackgroundBeat(s, h))
  {
    var token := s.sessions[h].token;
    StatementsWriteOneRow(s.db, h.job, token, false, s.clock);
  }

  lemma SupervisorTokens(s: State, action: Action)
    requires IsSweep(action)
    ensures TokensOnlyLeave(s, Next(s, action))
  {
    SupervisorRows(s, action);
  }

  lemma FollowKeepsJobs(s: State, action: Action)
    requires action.SweepFollow?
    ensures var next := Next(s, action); next.claims == s.claims && next.db.jobs == s.db.jobs
  {
  }

  lemma SupervisorRows(s: State, action: Action)
    requires IsSweep(action)
    ensures var next := Next(s, action);
      next.claims == s.claims && next.db.jobs.Keys == s.db.jobs.Keys
      && forall j <- s.db.jobs :: (
        RowEvolves(s.db.jobs[j], next.db.jobs[j]) && next.db.jobs[j].token in {None, s.db.jobs[j].token})
  {
    if action.SweepFollow? {
      FollowKeepsJobs(s, action);
    }
  }

  /** No action stores a token again that was issued before and is not stored now. */
  lemma StepTokens(s: State, action: Action)
    requires JobsOk(s)
    ensures TokensOnlyLeave(s, Next(s, action))
  {
    if action.Step? {
      var h := action.holder;
      if h in s.sessions && action.approval !in s.db.approvals {
        StepWritesOneRow(s, Next(s, action), h, action.approval);
      }
    } else if IsRequest(action) {
      RequestsAddJobs(s, action);
    } else if IsSweep(action) {
      SupervisorTokens(s, action);
    } else if action.ClaimJob? {
      ClaimTokens(s, action.worker, action.job, action.token);
    } else if action.Beat? {
      if action.holder in s.sessions { BeatTokens(s, action.holder); }
    }
  }

  lemma ClaimTokens(s: State, worker: WorkerId, job: JobId, token: Token)
    requires JobsOk(s)
    ensures TokensOnlyLeave(s, Next(s, ClaimJob(worker, job, token)))
  {
    assert forall j <- s.db.jobs :: RowClaimed(s, j);
  }

  /** Without its lease a session changes no job and no approval, marks no audit as reported, and finalizes nothing. */
  lemma LostSessionIsHarmless(s: State, action: Action, h: Holder)
    requires SessionsOk(s) && h in s.sessions && !Held(s, h) && ActsFor(action, h)
    ensures var next := Next(s, action);
            && next.db.jobs == s.db.jobs && next.db.approvals == s.db.approvals && next.db.reports == s.db.reports
            && (next.db.audits != s.db.audits ==> s.sessions[h].phase in {MarkAuditFailed, ResetAudit})
  {
    LeaseIsHeld(s, h);
    if action.Step? {
      LostStepIsHarmless(s, h, action.approval);
    } else {
      LostCallbackIsHarmless(s, action, h);
    }
  }

  lemma LostCallbackIsHarmless(s: State, action: Action, h: Holder)
    requires h in s.sessions && !LeaseMatches(s.db, h.job, s.sessions[h].token) && ActsFor(action, h) && !action.Step?
    ensures Next(s, action).db == s.db
  {
  }

  lemma LostFenceIsHarmless(s: State, h: Holder, approval: ApprovalId)
    requires h in s.sessions && !LeaseMatches(s.db, h.job, s.sessions[h].token) && s.sessions[h].todo != []
    ensures PassFence(s, h, approval).db == s.db
  {
  }

  lemma LostStepIsHarmless(s: State, h: Holder, approval: ApprovalId)
    requires h in s.sessions && !LeaseMatches(s.db, h.job, s.sessions[h].token)
    ensures var next := StepSession(s, h, approval);
            && next.db.jobs == s.db.jobs && next.db.approvals == s.db.approvals && next.db.reports == s.db.reports
            && (next.db.audits != s.db.audits ==> s.sessions[h].phase in {MarkAuditFailed, ResetAudit})
  {
    var x := s.sessions[h];
    if x.phase == Stepping && x.writesLeft == 0 && x.todo != [] {
      LostFenceIsHarmless(s, h, approval);
    }
  }

  // ---------- whole interleavings ----------

  /** Once a row no longer stores an issued token, it never stores it again. */
  lemma {:induction false} LostTokenStaysLost(s: State, actions: seq<Action>, j: JobId, t: Token)
    requires Inv(s) && t in s.claims && j in s.db.jobs && s.db.jobs[j].token != Some(t)
    ensures var later := Run(s, actions);
            && t in later.claims && later.claims[t] == s.claims[t]
            && j in later.db.jobs && later.db.jobs[j].token != Some(t)
    decreases |actions|
  {
    if actions != [] {
      StepTokens(s, actions[0]);
      StepKeepsInv(s, actions[0]);
      LostTokenStaysLost(Next(s, actions[0]), actions[1..], j, t);
    }
  }

  /** The fence, over every interleaving: a worker that has lost its lease never passes an assert again. */
  lemma FencedOut(past: seq<Action>, future: seq<Action>, h: Holder)
    requires h in Run(INITIAL, past).sessions && !Held(Run(INITIAL, past), h)
    requires var later := Run(Run(INITIAL, past), future);
             h in later.sessions && later.sessions[h].token == Run(INITIAL, past).sessions[h].token
    ensures var later := Run(Run(INITIAL, past), future);
            !Held(later, h) && !PassesAssert(later, h) && !LeaseMatches(later.db, h.job, later.sessions[h].token)
  {
    var s := Run(INITIAL, past);
    var later := Run(s, future);
    ReachableInv(past);
    RunKeepsInv(s, future);
    assert SessionOk(s, h);
    LostTokenStaysLost(s, future, h.job, s.sessions[h].token.value);
    LeaseIsHeld(later, h);
  }

  /** Nor does any of its steps, in any later state, change a job or an approval, or mark an audit as reported. */
  lemma FencedWrites(past: seq<Action>, future: seq<Action>, h: Holder, action: Action)
    requires h in Run(INITIAL, past).sessions && !Held(Run(INITIAL, past), h)
    requires var later := Run(Run(INITIAL, past), future);
             h in later.sessions && later.sessions[h].token == Run(INITIAL, past).sessions[h].token
    requires ActsFor(action, h)
    ensures var later := Run(Run(INITIAL, past), future);
            var next := Next(later, action);
            && next.db.jobs == later.db.jobs && next.db.approvals == later.db.approvals
            && next.db.reports == later.db.reports
  {
    FencedOut(past, future, h);
    ReachableInv(past);
    RunKeepsInv(Run(INITIAL, past), future);
    LostSessionIsHarmless(Run(Run(INITIAL, past), future), action, h);
  }

  /** At any time at most one session can pass the assert for a job, and for an audit. */
  lemma OneOwner(actions: seq<Action>, h: Holder, k: Holder)
    requires var s := Run(INITIAL, actions);
             && PassesAssert(s, h) && PassesAssert(s, k)
             && (h.job == k.job
                 || (s.sessions[h].kind == AuditRun && s.sessions[k].kind == AuditRun
                     && s.sessions[h].audit == s.sessions[k].audit))
    ensures h == k
  {
    var s := Run(INITIAL, actions);
    ReachableInv(actions);
    LeaseIsHeld(s, h);
    LeaseIsHeld(s, k);
    assert SessionOk(s, h) && SessionOk(s, k);
    if h.job != k.job {
      assert RunJob(s.db, h.job, s.sessions[h].audit.value) && RunJob(s.db, k.job, s.sessions[h].audit.value);
    }
  }

  // ---------- what a fence decides ----------

  /** The next operation of the session is this fence. */
  predicate AtFence(s: State, h: Holder, fence: Fence) {
    && h in s.sessions && s.sessions[h].phase == Stepping && s.sessions[h].writesLeft == 0
    && s.sessions[h].todo != [] && s.sessions[h].todo[0].fence == fence
  }

  /** The session goes on to the writes behind its fence. */
  ghost predicate GoesOn(s: State, next: State, h: Holder) {
    && h in s.sessions && s.sessions[h].todo != [] && h in next.sessions
    && next.sessions[h] == s.sessions[h].(writesLeft := s.sessions[h].todo[0].writes, todo := s.sessions[h].todo[1..])
  }

  /**
   Each fence lets a session on exactly when it may: the check when its audit is running, the assert and the progress
   update when the job row stores its token, the assert only if the timer has not missed it.  The progress update
   refreshes the heartbeat.  Otherwise the session ends, and nothing is written.
   */
  lemma FenceDecides(s: State, h: Holder, approval: ApprovalId)
    requires SessionsOk(s) && h in s.sessions && approval !in s.db.approvals
    ensures var next := Next(s, Step(h, approval));
      AtFence(s, h, CheckAudit) ==>
        && next.db == s.db
        && (GoesOn(s, next, h) <==>
              && s.sessions[h].audit.Some? && s.sessions[h].audit.value in s.db.audits
              && s.db.audits[s.sessions[h].audit.value].status == AuditRunning)
        && (GoesOn(s, next, h) || h !in next.sessions)
    ensures var next := Next(s, Step(h, approval));
      AtFence(s, h, Assert) ==>
        && next.db == s.db
        && (GoesOn(s, next, h) <==>
              !s.sessions[h].lost && h.job in s.db.jobs && s.db.jobs[h.job].token == s.sessions[h].token)
        && (GoesOn(s, next, h) || h !in next.sessions)
    ensures var next := Next(s, Step(h, approval));
      AtFence(s, h, Progress) ==>
        && (GoesOn(s, next, h) <==> h.job in s.db.jobs && s.db.jobs[h.job].token == s.sessions[h].token)
        && (GoesOn(s, next, h) ==>
              && next.db.jobs == s.db.jobs[h.job := s.db.jobs[h.job].(heartbeatAt := Some(s.clock))])
        && (GoesOn(s, next, h) || (h !in next.sessions && next.db == s.db))
  {
    assert SessionOk(s, h);
  }
}
