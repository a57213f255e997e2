/** Attempts, retries and finality of jobs. */
module Retry {
  import opened Wrappers
  import opened Counting
  import opened Tables
  import opened Programs
  import opened Protocol
  import opened Frames
  import opened Invariants
  import opened SessionSteps
  import opened Reachability
  import opened Fencing

  /** The status changes a job row can go through in one action. */
  predicate RowTransition(row: Job, next: Job) {
    && next.kind == row.kind && next.audit == row.audit && next.maxAttempts == row.maxAttempts
    && (|| (next.status == row.status && next.attempt == row.attempt)
        || (row.status == Queued && next.status == Running
            && next.attempt == row.attempt + 1 && row.attempt < row.maxAttempts)
        || (row.status == Running && next.status in {Queued, Completed, Failed, TimedOut}
            && next.attempt == row.attempt)
        || (row.kind != AuditRun && row.status == Completed && next.status in {Queued, Failed}
            && next.attempt == row.attempt))
  }

  /** A row that comes back to the queue other than by a shutdown has an attempt left. */
  predicate ReturnsWithBudget(row: Job, next: Job) {
    row.status != Queued && next.status == Queued ==> next.attempt < next.maxAttempts
  }

  predicate Starts(row: Job, next: Job) {
    row.status == Queued && next.status == Running
  }

  /** Every row moves; only a claim starts one, only a shutdown returns one without budget. */
  ghost predicate RowsTransition(s: State, next: State, claim: bool, shutdown: bool) {
    forall j <- s.db.jobs ::
      (&& j in next.db.jobs && RowTransition(s.db.jobs[j], next.db.jobs[j])
       && (!shutdown ==> ReturnsWithBudget(s.db.jobs[j], next.db.jobs[j]))
       && (!claim ==> !Starts(s.db.jobs[j], next.db.jobs[j])))
  }

  // ---------- the writes of a session ----------

  lemma FenceTransition(s: State, next: State, h: Holder, approval: ApprovalId)
    requires WorkersOk(s) && h in s.sessions && s.sessions[h].phase == Stepping
    requires s.sessions[h].todo != [] && next == PassFence(s, h, approval)
    ensures RowsTransition(s, next, false, false)
  {
    var x := s.sessions[h];
    LeaseIsHeld(s, h);
    assert SessionOk(s, h);
    FenceStatements(s, h, approval);
    FenceRow(s, next.db, h, approval);
  }

  lemma FenceRow(s: State, after: Db, h: Holder, approval: ApprovalId)
    requires WorkersOk(s) && h in s.sessions && s.sessions[h].phase == Stepping
    requires var x := s.sessions[h];
             after in {s.db, Heartbeat(s.db, h.job, x.token, s.clock), CompleteJob(s.db, h.job, x.token, s.clock)}
             || (x.audit.Some?
                 && FinalizeTx(s.db, x.audit.value, h.job, x.token, approval, s.clock) == Committed(after))
    ensures RowsTransition(s, s.(db := after), false, false)
  {
    LeaseIsHeld(s, h);
    assert SessionOk(s, h);
  }

  lemma FailureTransition(s: State, after: Db, h: Holder)
    requires WorkersOk(s) && h in s.sessions
    requires var x := s.sessions[h];
             after.jobs == s.db.jobs
             || (x.phase == ExecutorFailing
                 && after == FailExecutorJob(s.db, h.job, x.token, x.attempt >= x.maxAttempts, s.clock))
             || (x.phase.ReleaseJob? && after == FailEngineJob(s.db, h.job, x.token, x.phase.exhausted))
    ensures RowsTransition(s, s.(db := after), false, false)
  {
    LeaseIsHeld(s, h);
    assert SessionOk(s, h);
  }

  lemma StepTransition(s: State, h: Holder, approval: ApprovalId)
    requires WorkersOk(s) && h in s.sessions
    ensures RowsTransition(s, StepSession(s, h, approval), false, false)
  {
    var x := s.sessions[h];
    if x.phase == Stepping && x.writesLeft == 0 && x.todo != [] {
      FenceTransition(s, StepSession(s, h, approval), h, approval);
    } else {
      StepStatements(s, h, approval);
      FailureTransition(s, StepSession(s, h, approval).db, h);
    }
  }

  lemma BeatTransition(s: State, h: Holder)
    requires WorkersOk(s) && h in s.sessions
    ensures RowsTransition(s, BackgroundBeat(s, h), false, false)
  {
    LeaseIsHeld(s, h);
  }

  // ---------- every action ----------

  lemma SupervisorTransition(s: State, action: Action)
    requires IsSweep(action)
    ensures RowsTransition(s, Next(s, action), action.ClaimJob?, action.Shutdown?)
  {
  }

  /** Every action moves every job row along one of the transitions. */
  lemma ActionTransition(s: State, action: Action)
    requires WorkersOk(s)
    ensures RowsTransition(s, Next(s, action), action.ClaimJob?, action.Shutdown?)
  {
    if action.Step? {
      if action.holder in s.sessions { StepTransition(s, action.holder, action.approval); }
    } else if IsRequest(action) {
      RequestsAddJobs(s, action);
    } else if IsSweep(action) {
      SupervisorTransition(s, action);
    } else if action.Beat? {
      if action.holder in s.sessions { BeatTransition(s, action.holder); }
    } else if !action.ClaimJob? {
      assert Next(s, action).db == s.db;
    }
  }

  // ---------- whole interleavings ----------

  /** Strictly decreases at every status change of an `audit.run` job. */
  function Measure(row: Job): int {
    match row.status
    case Running => 2 * (row.maxAttempts - row.attempt) + 2
    case Queued => 2 * (row.maxAttempts - row.attempt) + 1
    case _ => 0
  }

  ghost function StatusChanges(s: State, actions: seq<Action>, j: JobId): nat
    requires j in s.db.jobs
    decreases |actions|
  {
    if actions == [] then 0
    else
      var next := Next(s, actions[0]);
      if j !in next.db.jobs then 0
      else (if next.db.jobs[j].status != s.db.jobs[j].status then 1 else 0) + StatusChanges(next, actions[1..], j)
  }

  /** The claims of `j` that succeed. */
  ghost function ClaimsOf(s: State, actions: seq<Action>, j: JobId): nat
    decreases |actions|
  {
    if actions == [] then 0
    else
      var a := actions[0];
      (if a.ClaimJob? && a.job == j && Next(s, a) != s then 1 else 0) + ClaimsOf(Next(s, a), actions[1..], j)
  }

  /** Retry terminates: a run job changes status at most `Measure` times from any reachable state on. */
  lemma {:induction false} RetryTerminates(s: State, actions: seq<Action>, j: JobId)
    requires Inv(s) && j in s.db.jobs && s.db.jobs[j].kind == AuditRun
    ensures j in Run(s, actions).db.jobs
    ensures StatusChanges(s, actions, j) + Measure(Run(s, actions).db.jobs[j]) <= Measure(s.db.jobs[j])
    ensures Measure(s.db.jobs[j]) <= 2 * s.db.jobs[j].maxAttempts + 1
    decreases |actions|
  {
    assert RowOk(s.db.jobs[j]);
    if actions != [] {
      var next := Next(s, actions[0]);
      ActionTransition(s, actions[0]);
      StepKeepsInv(s, actions[0]);
      assert RowTransition(s.db.jobs[j], next.db.jobs[j]) && RowOk(next.db.jobs[j]);
      RetryTerminates(next, actions[1..], j);
    }
  }

  /** Only a claim moves the attempt counter of `j`, by one. */
  lemma ClaimMovesAttempt(s: State, action: Action, j: JobId)
    requires Inv(s) && j in s.db.jobs
    ensures var next := Next(s, action);
            j in next.db.jobs && next.db.jobs[j].attempt ==
              s.db.jobs[j].attempt + if action.ClaimJob? && action.job == j && next != s then 1 else 0
  {
    var next := Next(s, action);
    ActionTransition(s, action);
    assert RowTransition(s.db.jobs[j], next.db.jobs[j]);
  }

  /** A job is claimed at most `maxAttempts` times, whatever its kind: each claim uses one attempt up. */
  lemma {:induction false} ClaimsAreAttempts(s: State, actions: seq<Action>, j: JobId)
    requires Inv(s) && j in s.db.jobs
    ensures j in Run(s, actions).db.jobs
    ensures ClaimsOf(s, actions, j) + s.db.jobs[j].attempt == Run(s, actions).db.jobs[j].attempt
    ensures Run(s, actions).db.jobs[j].maxAttempts == s.db.jobs[j].maxAttempts
    ensures ClaimsOf(s, actions, j) <= s.db.jobs[j].maxAttempts - s.db.jobs[j].attempt
    decreases |actions|
  {
    if actions == [] {
      assert RowOk(s.db.jobs[j]);
    } else {
      var next := Next(s, actions[0]);
      ClaimMovesAttempt(s, actions[0], j);
      ActionTransition(s, actions[0]);
      StepKeepsInv(s, actions[0]);
      assert RowTransition(s.db.jobs[j], next.db.jobs[j]);
      ClaimsAreAttempts(next, actions[1..], j);
    }
  }

  ghost predicate QueuedHaveBudget(s: State) {
    forall j <- s.db.jobs :: s.db.jobs[j].status == Queued ==> s.db.jobs[j].attempt < s.db.jobs[j].maxAttempts
  }

  /** Without a shutdown release, every queued job can still be claimed. */
  lemma {:induction false} QueuedStaysClaimable(s: State, actions: seq<Action>)
    requires Inv(s) && QueuedHaveBudget(s) && forall a <- actions :: !a.Shutdown?
    ensures QueuedHaveBudget(Run(s, actions))
    decreases |actions|
  {
    if actions != [] {
      var next := Next(s, actions[0]);
      assert !actions[0].Shutdown?;
      ActionTransition(s, actions[0]);
      StepKeepsInv(s, actions[0]);
      forall j | j in next.db.jobs && next.db.jobs[j].status == Queued
        ensures next.db.jobs[j].attempt < next.db.jobs[j].maxAttempts
      {
        if j in s.db.jobs {
          assert RowTransition(s.db.jobs[j], next.db.jobs[j]) && ReturnsWithBudget(s.db.jobs[j], next.db.jobs[j]);
        } else {
          NewJobsAreFresh(s, actions[0], j);
        }
      }
      QueuedStaysClaimable(next, actions[1..]);
    }
  }

  lemma NewJobsAreFresh(s: State, action: Action, j: JobId)
    requires j !in s.db.jobs
    ensures var after := Next(s, action).db.jobs;
      j in after ==> after[j].attempt == 0 && after[j].maxAttempts == DEFAULT_MAX_ATTEMPTS
  {
    if action.Step? {
      StepAddsNoJob(s, action);
    } else if IsRequest(action) {
      RequestsAddJobs(s, action);
    }
  }

  lemma StepAddsNoJob(s: State, action: Action)
    requires action.Step?
    ensures Next(s, action).db.jobs.Keys == s.db.jobs.Keys
  {
    if action.holder in s.sessions && action.approval !in s.db.approvals {
      StepWritesOneRow(s, Next(s, action), action.holder, action.approval);
    }
  }

  /** A queued job without attempts left is never claimed again. */
  lemma {:induction false} StrandedForEver(s: State, actions: seq<Action>, j: JobId)
    requires Inv(s) && j in s.db.jobs
    requires s.db.jobs[j].status == Queued && s.db.jobs[j].attempt >= s.db.jobs[j].maxAttempts
    ensures j in Run(s, actions).db.jobs && Run(s, actions).db.jobs[j].status == Queued
    decreases |actions|
  {
    if actions != [] {
      ActionTransition(s, actions[0]);
      StepKeepsInv(s, actions[0]);
      assert RowTransition(s.db.jobs[j], Next(s, actions[0]).db.jobs[j]);
      StrandedForEver(Next(s, actions[0]), actions[1..], j);
    }
  }

  ghost predicate QueuedAfter(s: State, future: seq<Action>, j: JobId) {
    j in Run(s, future).db.jobs && Run(s, future).db.jobs[j].status == Queued
  }

  /** A queued job waits for ever exactly when it has no attempt left. */
  lemma QueuedForEver(s: State, worker: WorkerId, j: JobId)
    requires Inv(s) && j in s.db.jobs && s.db.jobs[j].status == Queued
    ensures (forall future :: QueuedAfter(s, future, j)) <==> s.db.jobs[j].attempt >= s.db.jobs[j].maxAttempts
  {
    if s.db.jobs[j].attempt >= s.db.jobs[j].maxAttempts {
      forall future ensures QueuedAfter(s, future, j) {
        StrandedForEver(s, future, j);
      }
    } else {
      ClaimEndsWait(s, worker, j);
    }
  }

  lemma ReleaseQueues(s: State, worker: WorkerId, j: JobId)
    requires JobsOk(s) && j in s.db.jobs && s.db.jobs[j].status == Running && s.db.jobs[j].lockedBy == Some(worker)
    ensures j in Next(s, Shutdown(worker)).db.jobs
    ensures Next(s, Shutdown(worker)).db.jobs[j] == ReleasedRow(s.db.jobs[j])
    ensures s.db.jobs[j].attempt <= s.db.jobs[j].maxAttempts
  {
    assert RowOk(s.db.jobs[j]);
  }

  /** A shutdown queues its jobs, and strands exactly those on their last attempt: queued in every future. */
  lemma ShutdownStrands(past: seq<Action>, worker: WorkerId, j: JobId)
    requires var db := Run(INITIAL, past).db;
             j in db.jobs && db.jobs[j].status == Running && db.jobs[j].lockedBy == Some(worker)
    ensures var s := Run(INITIAL, past);
            var released := Next(s, Shutdown(worker));
            && QueuedAfter(released, [], j)
            && ((forall future :: QueuedAfter(released, future, j))
                <==> s.db.jobs[j].attempt == s.db.jobs[j].maxAttempts)
  {
    var s := Run(INITIAL, past);
    ReachableInv(past);
    ReleaseQueues(s, worker, j);
    StepKeepsInv(s, Shutdown(worker));
    QueuedForEver(Next(s, Shutdown(worker)), worker, j);
  }

  lemma ClaimEndsWait(s: State, worker: WorkerId, j: JobId)
    requires j in s.db.jobs && Claimable(s.db.jobs[j])
    ensures exists future :: !QueuedAfter(s, future, j)
  {
    FreshId(s.claims.Keys);
    var t: Token :| t !in s.claims;
    RunOne(s, ClaimJob(worker, j, t), []);
    assert [ClaimJob(worker, j, t)] + [] == [ClaimJob(worker, j, t)];
    assert Next(s, ClaimJob(worker, j, t)).db.jobs[j].status == Running;
    assert !QueuedAfter(s, [ClaimJob(worker, j, t)], j);
  }

  /** A finished `audit.run` job stays finished; so does every failed or timed-out job. */
  lemma {:induction false} FinishedStaysFinished(s: State, actions: seq<Action>, j: JobId)
    requires Inv(s) && j in s.db.jobs
    requires s.db.jobs[j].status in {Failed, TimedOut}
             || (s.db.jobs[j].kind == AuditRun && s.db.jobs[j].status == Completed)
    ensures j in Run(s, actions).db.jobs && Run(s, actions).db.jobs[j].status == s.db.jobs[j].status
    decreases |actions|
  {
    if actions != [] {
      ActionTransition(s, actions[0]);
      StepKeepsInv(s, actions[0]);
      assert RowTransition(s.db.jobs[j], Next(s, actions[0]).db.jobs[j]);
      FinishedStaysFinished(Next(s, actions[0]), actions[1..], j);
    }
  }

  // ---------- when a completed executor job is taken back ----------

  /** The error path of the executor that completed `j`, run while the row still stores its token. */
  ghost predicate TakesBack(s: State, action: Action, j: JobId) {
    && action.Step? && action.holder in s.sessions && action.approval !in s.db.approvals
    && action.holder.job == j && s.sessions[action.holder].phase == ExecutorFailing && Held(s, action.holder)
  }

  /** What becomes of a completed executor job's row. */
  ghost predicate TakenBackOrKept(s: State, next: State, j: JobId, taken: bool)
    requires j in s.db.jobs
  {
    && j in next.db.jobs
    && var row, after := s.db.jobs[j], next.db.jobs[j];
       after.status == if !taken then Completed else if row.attempt >= row.maxAttempts then Failed else Queued
  }

  lemma FenceOnFinished(s: State, h: Holder, approval: ApprovalId, j: JobId)
    requires WorkersOk(s) && h in s.sessions && s.sessions[h].phase == Stepping && s.sessions[h].todo != []
    requires j in s.db.jobs && s.db.jobs[j].status == Completed
    ensures TakenBackOrKept(s, PassFence(s, h, approval), j, false)
  {
    LeaseIsHeld(s, h);
    assert SessionOk(s, h);
    FenceWritesOneRow(s, PassFence(s, h, approval), h, approval);
  }

  lemma StepOnFinished(s: State, h: Holder, approval: ApprovalId, j: JobId)
    requires WorkersOk(s) && h in s.sessions
    requires j in s.db.jobs && s.db.jobs[j].status == Completed
    ensures TakenBackOrKept(s, StepSession(s, h, approval), j,
                            h.job == j && s.sessions[h].phase == ExecutorFailing && Held(s, h))
  {
    var x := s.sessions[h];
    LeaseIsHeld(s, h);
    assert SessionOk(s, h);
    if x.phase == Stepping && x.writesLeft == 0 && x.todo != [] {
      FenceOnFinished(s, h, approval, j);
    } else {
      StepStatements(s, h, approval);
    }
  }

  lemma OthersOnFinished(s: State, action: Action, j: JobId)
    requires WorkersOk(s) && !action.Step? && j in s.db.jobs && s.db.jobs[j].status == Completed
    ensures TakenBackOrKept(s, Next(s, action), j, false)
  {
    if IsRequest(action) {
      RequestsAddJobs(s, action);
    } else if action.Beat? {
      BeatOnFinished(s, action, j);
    } else if action.ClaimJob? {
      ClaimOnFinished(s, action, j);
    } else if !IsSweep(action) {
      assert Next(s, action).db == s.db;
    }
  }

  lemma BeatOnFinished(s: State, action: Action, j: JobId)
    requires action.Beat? && j in s.db.jobs && s.db.jobs[j].status == Completed
    ensures TakenBackOrKept(s, Next(s, action), j, false)
  {
  }

  lemma ClaimOnFinished(s: State, action: Action, j: JobId)
    requires action.ClaimJob? && j in s.db.jobs && s.db.jobs[j].status == Completed
    ensures TakenBackOrKept(s, Next(s, action), j, false)
  {
  }

  /**
   Exactly when a completed executor job leaves that status: the executor that completed it runs its
   error path under the token the completion kept.  It fails if its attempts are used up, and is
   queued again otherwise.
   */
  lemma CompletedExecutorLeaves(actions: seq<Action>, action: Action, j: JobId)
    requires var db := Run(INITIAL, actions).db;
             j in db.jobs && db.jobs[j].status == Completed && db.jobs[j].kind != AuditRun
    ensures var s := Run(INITIAL, actions);
            var next := Next(s, action);
            && j in next.db.jobs
            && (next.db.jobs[j].status != Completed <==> TakesBack(s, action, j))
            && (TakesBack(s, action, j) ==>
                  next.db.jobs[j].status == if s.db.jobs[j].attempt >= s.db.jobs[j].maxAttempts then Failed else Queued)
  {
    ReachableInv(actions);
    CompletedLeavesFrom(Run(INITIAL, actions), action, j);
  }

  lemma CompletedLeavesFrom(s: State, action: Action, j: JobId)
    requires WorkersOk(s) && j in s.db.jobs && s.db.jobs[j].status == Completed
    ensures TakenBackOrKept(s, Next(s, action), j, TakesBack(s, action, j))
  {
    if !action.Step? {
      OthersOnFinished(s, action, j);
    } else if action.holder in s.sessions && action.approval !in s.db.approvals {
      StepOnFinished(s, action.holder, action.approval, j);
    }
  }

  /**
   An executor's job can be taken back after it completed: its event insert sits in the same
   `try` block as the closing update, and completion keeps the token the error path filters by.
   */
  lemma EventFailureRequeues(s: State, h: Holder)
    requires SessionsOk(s) && h in s.sessions && Held(s, h) && s.sessions[h].phase == EventPending
    requires s.sessions[h].attempt < s.sessions[h].maxAttempts && 0 !in s.db.approvals
    ensures var later := Run(s, [Raise(h), Step(h, 0)]);
            h.job in later.db.jobs && later.db.jobs[h.job].status == Queued
  {
    LeaseIsHeld(s, h);
    var x := s.sessions[h].(phase := ExecutorFailing);
    var s1 := Put(s, h, x);
    assert Next(s, Raise(h)) == s1;
    var s2 := Close(s1.(db := FailExecutorJob(s1.db, h.job, x.token, false, s1.clock)), h);
    assert Next(s1, Step(h, 0)) == s2;
    RunOne(s1, Step(h, 0), []);
    RunOne(s, Raise(h), [Step(h, 0)]);
  }

  /** An executor that has just asserted, in a state that some interleaving reaches. */
  lemma AssertedExecutor()
    ensures var s := Run(INITIAL, [Enqueue(SbomExport, 0), ClaimJob(1, 0, 7), Open(1, 0, 0, 0)]);
            Holder(1, 0) in s.sessions && Held(s, Holder(1, 0))
            && s.sessions[Holder(1, 0)] ==
               Session(SbomExport, None, Some(7), 1, DEFAULT_MAX_ATTEMPTS, false,
                       [Group(Assert, 1), Group(FinishJob, 0)], 0, 1, Stepping)
            && s.db.jobs[0].status == Running && s.db.jobs[0].lockedBy == Some(1) && s.db.approvals == map[]
  {
    var s1 := Next(INITIAL, Enqueue(SbomExport, 0));
    var s2 := Next(s1, ClaimJob(1, 0, 7));
    assert s2.db.jobs[0] == Claimed(NewJob(SbomExport, None, 0), 1, 7, 0);
    var s3 := Next(s2, Open(1, 0, 0, 0));
    assert ExecutorProgram(SbomExport) == [Group(Assert, 1), Group(FinishJob, 0)];
    RunOne(s2, Open(1, 0, 0, 0), []);
    RunOne(s1, ClaimJob(1, 0, 7), [Open(1, 0, 0, 0)]);
    RunOne(INITIAL, Enqueue(SbomExport, 0), [ClaimJob(1, 0, 7), Open(1, 0, 0, 0)]);
  }

  /** An executor that is not disturbed asserts, writes and completes its job. */
  lemma UndisturbedExport(s: State, h: Holder)
    requires h in s.sessions && Held(s, h) && s.sessions[h].token.Some? && 0 !in s.db.approvals
    requires s.sessions[h].phase == Stepping && !s.sessions[h].lost && s.sessions[h].writesLeft == 0
    requires s.sessions[h].todo == [Group(Assert, 1), Group(FinishJob, 0)]
    ensures var later := Run(s, [Step(h, 0), Step(h, 0), Step(h, 0)]);
            && h in later.sessions && Held(later, h) && later.sessions[h].phase == EventPending
            && later.sessions[h].attempt == s.sessions[h].attempt
            && later.sessions[h].maxAttempts == s.sessions[h].maxAttempts
            && later.db.jobs[h.job].status == Completed && later.db.approvals == s.db.approvals
  {
    var x := s.sessions[h];
    var s1 := Put(s, h, Advance(x));
    assert Next(s, Step(h, 0)) == s1;
    var s2 := Put(s1, h, s1.sessions[h].(writesLeft := 0));
    assert Next(s1, Step(h, 0)) == s2;
    var s3 := Put(s2.(db := CompleteJob(s2.db, h.job, x.token, s2.clock)), h, s2.sessions[h].(phase := EventPending));
    assert Next(s2, Step(h, 0)) == s3;
    RunOne(s2, Step(h, 0), []);
    RunOne(s1, Step(h, 0), [Step(h, 0)]);
    RunOne(s, Step(h, 0), [Step(h, 0), Step(h, 0)]);
  }

  /** So finality of `audit.run` jobs does not extend to executor jobs: a completed one is seen queued again. */
  lemma CompletedExecutorJobComesBack()
    ensures exists past, future, j ::
      && j in Run(INITIAL, past).db.jobs && Run(INITIAL, past).db.jobs[j].status == Completed
      && j in Run(INITIAL, past + future).db.jobs && Run(INITIAL, past + future).db.jobs[j].status == Queued
  {
    var h := Holder(1, 0);
    var fail := [Raise(h), Step(h, 0)];
    var past := ExportFinishes(h);
    ReachableInv(past);
    EventFailureRequeues(Run(INITIAL, past), h);
    RunConcat(INITIAL, past, fail);
    assert Run(INITIAL, past).db.jobs[0].status == Completed;
    assert Run(INITIAL, past + fail).db.jobs[0].status == Queued;
  }

  lemma ExportFinishes(h: Holder) returns (past: seq<Action>)
    requires h == Holder(1, 0)
    ensures var s := Run(INITIAL, past);
      && h in s.sessions && Held(s, h) && s.sessions[h].phase == EventPending
      && s.sessions[h].attempt < s.sessions[h].maxAttempts && 0 !in s.db.approvals
      && s.db.jobs[0].status == Completed
  {
    var claim := [Enqueue(SbomExport, 0), ClaimJob(1, 0, 7), Open(1, 0, 0, 0)];
    var work := [Step(h, 0), Step(h, 0), Step(h, 0)];
    AssertedExecutor();
    UndisturbedExport(Run(INITIAL, claim), h);
    RunConcat(INITIAL, claim, work);
    past := claim + work;
  }
}
