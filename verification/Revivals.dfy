/** Exactly when an audit that is not running can be set running again. */
module Revivals {
  import opened Wrappers
  import opened Counting
  import opened Tables
  import opened Protocol
  import opened Frames
  import opened Invariants
  import opened Reachability
  import opened Fencing
  import opened Approvals
  import opened UndisturbedRuns
  import opened StuckAudits
  import opened RevivalMeans

  // ---------- supervisor runs ----------

  /** A supervisor run has nothing requeued before its second statement. */
  ghost predicate SweepsShaped(s: State) {
    forall w <- s.sweeps :: !s.sweeps[w].swept ==> s.sweeps[w].requeued == {}
  }

  lemma StepKeepsShape(s: State, action: Action)
    requires SweepsShaped(s)
    ensures SweepsShaped(Next(s, action))
  {
    if !action.SweepFollow? && !action.SweepTimeouts? && !action.SweepRequeues? {
      SweepsFrame(s, action);
    }
  }

  ghost predicate Sound(s: State) {
    Inv(s) && EngineSessionsOk(s) && SweepsShaped(s)
  }

  lemma StepKeepsSound(s: State, action: Action)
    requires Sound(s)
    ensures Sound(Next(s, action))
  {
    StepKeepsInv(s, action);
    StepKeepsEngineSessions(s, action);
    StepKeepsShape(s, action);
  }

  lemma {:induction false} RunKeepsSound(s: State, actions: seq<Action>)
    requires Sound(s)
    ensures Sound(Run(s, actions))
    decreases |actions|
  {
    if actions != [] {
      StepKeepsSound(s, actions[0]);
      RunKeepsSound(Next(s, actions[0]), actions[1..]);
    }
  }

  lemma ReachableSound(past: seq<Action>)
    ensures Sound(Run(INITIAL, past))
  {
    ReachableInv([]);
    RunKeepsSound(INITIAL, past);
  }

  // ---------- the active slot ----------

  ghost predicate SlotFree(s: State, a: AuditId) {
    !ActiveTaken(s.db, a)
  }

  /** Only `b` may be active. */
  ghost predicate SlotOnly(s: State, b: AuditId) {
    forall c :: ActiveRow(s.db, c) ==> c == b
  }

  ghost predicate BlockedForEver(s: State, b: AuditId) {
    || (exists k :: Stuck(s, b, k))
    || (exists id :: ExpiredRequest(s, id) && s.db.approvals[id].target == b)
  }

  /** Whoever holds the active slot can still give it up. */
  ghost predicate SlotComesFree(s: State, a: AuditId) {
    forall b :: b != a && ActiveRow(s.db, b) ==> !BlockedForEver(s, b)
  }

  lemma BlockedStaysActive(s: State, future: seq<Action>, b: AuditId)
    requires Inv(s) && BlockedForEver(s, b)
    ensures ActiveRow(Run(s, future).db, b)
  {
    if k :| Stuck(s, b, k) {
      StuckRun(s, future, b, k);
    } else {
      var id :| ExpiredRequest(s, id) && s.db.approvals[id].target == b;
      ExpiredRun(s, future, id);
      ExpiredAuditWaits(Run(s, future), id);
    }
  }

  lemma NeverWhileBlocked(s: State, future: seq<Action>, a: AuditId, b: AuditId)
    requires Inv(s) && BlockedForEver(s, b) && a != b
    ensures !AuditIsRunning(Run(s, future).db, a)
  {
    BlockedStaysActive(s, future, b);
    RunKeepsInv(s, future);
    NotBothActive(Run(s, future).db, a, b);
  }

  lemma NotBothActive(db: Db, a: AuditId, b: AuditId)
    requires AuditsUnique(db) && ActiveRow(db, b) && a != b
    ensures !AuditIsRunning(db, a)
  {
  }

  // ---------- the attempts that are left ----------

  ghost predicate KeepsRetry(s: State, next: State, j: JobId) {
    MayRetry(s.db, j) ==> MayRetry(next.db, j)
  }

  lemma StatementsKeepRetry(db: Db, j: JobId, k: JobId, token: Option<Token>, exhausted: bool, now: Time)
    requires MayRetry(db, j)
    ensures MayRetry(Heartbeat(db, k, token, now), j) && MayRetry(CompleteJob(db, k, token, now), j)
    ensures MayRetry(FailExecutorJob(db, k, token, exhausted, now), j)
    ensures MayRetry(FailEngineJob(db, k, token, exhausted), j)
  {
  }

  lemma StepKeepsRetry(s: State, h: Holder, approval: ApprovalId, j: JobId)
    requires h in s.sessions && MayRetry(s.db, j)
    ensures MayRetry(StepSession(s, h, approval).db, j)
  {
    var x := s.sessions[h];
    StatementsKeepRetry(s.db, j, h.job, x.token, x.attempt >= x.maxAttempts, s.clock);
    if x.phase == Stepping && x.writesLeft == 0 && x.todo != [] {
      FenceStatements(s, h, approval);
    } else {
      StepStatements(s, h, approval);
      if x.phase.ReleaseJob? {
        StatementsKeepRetry(s.db, j, h.job, x.token, x.phase.exhausted, s.clock);
      }
    }
  }

  /** Only a claim uses up an attempt, and only a supervisor times a job out. */
  lemma ActionKeepsRetry(s: State, action: Action, j: JobId)
    requires !action.ClaimJob? && !action.SweepTimeouts?
    ensures KeepsRetry(s, Next(s, action), j)
  {
    if MayRetry(s.db, j) {
      if action.Step? {
        if action.holder in s.sessions { StepKeepsRetry(s, action.holder, action.approval, j); }
      } else if IsRequest(action) {
        RequestsAddJobs(s, action);
      }
    }
  }

  lemma {:induction false} OnlyForKeepsRetry(s: State, actions: seq<Action>, b: AuditId, k: JobId, j: JobId)
    requires (forall action <- actions :: OnlyFor(action, b, k)) && j != k
    ensures KeepsRetry(s, Run(s, actions), j)
    decreases |actions|
  {
    if actions != [] {
      assert actions[0] in actions && forall action <- actions[1..] :: action in actions;
      if !actions[0].ClaimJob? {
        ActionKeepsRetry(s, actions[0], j);
      }
      OnlyForKeepsRetry(Next(s, actions[0]), actions[1..], b, k, j);
    }
  }

  // ---------- ending another audit leaves the means ----------

  lemma OnlyForJob(s: State, next: State, action: Action, b: AuditId, k: JobId, j: JobId)
    requires next == Next(s, action) && OnlyFor(action, b, k) && j != k && j in s.db.jobs
    ensures j in next.db.jobs
    ensures next.db.jobs[j] == s.db.jobs[j]
      || (action.SweepRequeues? && Requeues(s.db.jobs[j], s.clock) && next.db.jobs[j] == ReleasedRow(s.db.jobs[j]))
  {
    if action.Step? {
      if action.holder in s.sessions && action.approval !in s.db.approvals {
        StepWritesOneRow(s, next, action.holder, action.approval);
      }
    }
  }

  lemma StepTouchesOwnAudit(s: State, h: Holder, approval: ApprovalId, b: AuditId, c: AuditId)
    requires h in s.sessions && s.sessions[h].audit == Some(b) && c != b
    ensures var after := StepSession(s, h, approval).db.audits;
      (c in after <==> c in s.db.audits) && (c in after ==> after[c] == s.db.audits[c])
  {
    var x := s.sessions[h];
    if x.phase == Stepping && x.writesLeft == 0 && x.todo != [] {
      FenceStatements(s, h, approval);
    }
  }

  lemma OnlyForAudits(s: State, action: Action, b: AuditId, k: JobId, c: AuditId)
    requires SessionsOk(s) && RunJob(s.db, k, b) && OnlyFor(action, b, k) && c != b
    ensures var after := Next(s, action).db.audits;
      (c in after <==> c in s.db.audits) && (c in after ==> after[c] == s.db.audits[c])
  {
    if action.Step? {
      if action.holder in s.sessions {
        assert SessionOk(s, action.holder);
        StepTouchesOwnAudit(s, action.holder, action.approval, b, c);
      }
    } else if !action.SweepFollow? {
      AuditsFrame(s, action);
    }
  }

  lemma OnlyForSlot(s: State, action: Action, b: AuditId, k: JobId)
    requires SessionsOk(s) && RunJob(s.db, k, b) && OnlyFor(action, b, k) && SlotOnly(s, b)
    ensures SlotOnly(Next(s, action), b)
  {
    forall c | ActiveRow(Next(s, action).db, c) ensures c == b {
      if c != b {
        OnlyForAudits(s, action, b, k, c);
        assert ActiveRow(s.db, c);
      }
    }
  }

  lemma PromiseKept(s: State, action: Action, w: nat, a: AuditId, b: AuditId, k: JobId)
    requires SweepsShaped(s) && SlotOnly(s, b) && OnlyFor(action, b, k) && Promised(s, w, a) && a != b
    ensures Promised(Next(s, action), w, a)
  {
    if action.Step? {
      if action.holder in s.sessions { StepFrame(s, action.holder, action.approval); }
    } else if action.SweepFollow? && action.sweep == w {
      assert forall c <- s.db.audits :: IsActive(s.db.audits[c]) ==> ActiveRow(s.db, c);
    }
  }

  lemma RequeueKept(s: State, next: State, action: Action, a: AuditId, j: JobId, b: AuditId, k: JobId)
    requires next == Next(s, action) && OnlyFor(action, b, k) && RunJob(s.db, j, a) && j != k && WillRequeue(s.db, j)
    ensures WillRequeue(next.db, j) || exists w :: Promised(next, w, a)
  {
    OnlyForJob(s, next, action, b, k, j);
    if next.db.jobs[j] != s.db.jobs[j] {
      assert a in RequeuedAudits(s.db, s.clock);
      assert Promised(next, action.sweep, a);
    }
  }

  lemma ResetterKept(s: State, next: State, action: Action, h: Holder, a: AuditId, b: AuditId, k: JobId)
    requires next == Next(s, action) && OnlyFor(action, b, k) && Resetter(s, h, a) && h.job != k && h.job in s.db.jobs
    ensures Resetter(next, h, a)
  {
    OthersKeepSession(s, action, h);
    OnlyForJob(s, next, action, b, k, h.job);
  }

  lemma MarkKept(s: State, next: State, action: Action, a: AuditId, j: JobId, b: AuditId, k: JobId)
    requires SessionsOk(s) && ShapeOk(s.db) && next == Next(s, action) && OnlyFor(action, b, k) && FailedOrMarked(s, a)
    requires RunJob(s.db, j, a) && RunJob(s.db, k, b) && a != b
    ensures FailedOrMarked(next, a)
  {
    OnlyForAudits(s, action, b, k, a);
    if h :| Marker(s, h, a) {
      SessionJob(s, h, a, j);
      OthersKeepSession(s, action, h);
      assert Marker(next, h, a);
    }
  }

  /** The sessions of an audit work on its one run job. */
  lemma SessionJob(s: State, h: Holder, a: AuditId, j: JobId)
    requires SessionsOk(s) && ShapeOk(s.db) && h in s.sessions && EngineOf(s.sessions[h], a) && RunJob(s.db, j, a)
    ensures h.job == j
  {
    assert SessionOk(s, h);
    assert RunJob(s.db, h.job, a);
  }

  lemma MeansKept(s: State, next: State, action: Action, a: AuditId, j: JobId, b: AuditId, k: JobId)
    requires SessionsOk(s) && ShapeOk(s.db) && SweepsShaped(s) && SlotOnly(s, b) && Means(s, a, j)
    requires RunJob(s.db, j, a) && RunJob(s.db, k, b) && a != b
    requires next == Next(s, action) && OnlyFor(action, b, k)
    ensures Means(next, a, j)
  {
    assert j != k;
    if w :| Promised(s, w, a) {
      PromiseKept(s, action, w, a, b, k);
      assert Promised(next, w, a);
    } else if WillRequeue(s.db, j) {
      RequeueKept(s, next, action, a, j, b, k);
    } else {
      var h :| Resetter(s, h, a);
      SessionJob(s, h, a, j);
      ResetterKept(s, next, action, h, a, b, k);
      MarkKept(s, next, action, a, j, b, k);
      assert Resetter(next, h, a);
    }
  }

  /** What holds of `a` all the while `b` is being ended. */
  ghost predicate Waiting(s: State, a: AuditId, j: JobId, b: AuditId, k: JobId) {
    && Sound(s) && Means(s, a, j) && SlotOnly(s, b) && RunJob(s.db, j, a) && RunJob(s.db, k, b)
    && a != b && !AuditIsRunning(s.db, a)
  }

  lemma StepKeepsWaiting(s: State, action: Action, a: AuditId, j: JobId, b: AuditId, k: JobId)
    requires Waiting(s, a, j, b, k) && OnlyFor(action, b, k)
    ensures Waiting(Next(s, action), a, j, b, k)
  {
    StepKeepsSound(s, action);
    MeansKept(s, Next(s, action), action, a, j, b, k);
    OnlyForSlot(s, action, b, k);
    OnlyForAudits(s, action, b, k, a);
    RequeueOnlyFades(s, action, a, j);
    RequeueOnlyFades(s, action, b, k);
  }

  lemma {:induction false} RunKeepsWaiting(s: State, actions: seq<Action>, a: AuditId, j: JobId, b: AuditId, k: JobId)
    requires Waiting(s, a, j, b, k) && forall action <- actions :: OnlyFor(action, b, k)
    ensures Waiting(Run(s, actions), a, j, b, k)
    decreases |actions|
  {
    if actions != [] {
      assert actions[0] in actions && forall action <- actions[1..] :: action in actions;
      StepKeepsWaiting(s, actions[0], a, j, b, k);
      RunKeepsWaiting(Next(s, actions[0]), actions[1..], a, j, b, k);
    }
  }

  // ---------- the slot is given up ----------

  ghost predicate Spares(actions: seq<Action>, h: Holder) {
    forall action <- actions :: !ActsFor(action, h)
  }

  /** After `future`, which does nothing for `h`, the means are still there and the slot is free. */
  ghost predicate Clears(s: State, future: seq<Action>, a: AuditId, j: JobId, h: Holder) {
    var later := Run(s, future);
    Sound(later) && Means(later, a, j) && SlotFree(later, a) && RunJob(later.db, j, a)
    && Spares(future, h) && KeepsRetry(s, later, j)
  }

  lemma SpareOthers(future: seq<Action>, b: AuditId, k: JobId, h: Holder)
    requires (forall action <- future :: OnlyFor(action, b, k)) && h.job != k
    ensures Spares(future, h)
  {
  }

  lemma FreedClears(s: State, future: seq<Action>, a: AuditId, j: JobId, b: AuditId, k: JobId, h: Holder)
    requires Frees(s, future, b, k) && Waiting(Run(s, future), a, j, b, k) && h.job == j
    ensures Clears(s, future, a, j, h)
  {
    assert j != k;
    EndedIsInactive(Run(s, future), a, j, b, k);
    OnlyForKeepsRetry(s, future, b, k, j);
    SpareOthers(future, b, k, h);
  }

  lemma WaitingIsFreed(s: State, a: AuditId, j: JobId, b: AuditId, k: JobId)
    requires Waiting(s, a, j, b, k) && AuditIsRunning(s.db, b) && !Stuck(s, b, k)
    ensures exists future :: Frees(s, future, b, k)
  {
    OthersAreFreed(s, b, k);
  }

  lemma RunningGivesUp(s: State, a: AuditId, j: JobId, b: AuditId, k: JobId, h: Holder)
    requires Waiting(s, a, j, b, k) && AuditIsRunning(s.db, b) && !Stuck(s, b, k) && h.job == j
    ensures exists future :: Clears(s, future, a, j, h)
  {
    WaitingIsFreed(s, a, j, b, k);
    var future :| Frees(s, future, b, k);
    RunKeepsWaiting(s, future, a, j, b, k);
    FreedClears(s, future, a, j, b, k, h);
  }

  lemma EndedIsInactive(s: State, a: AuditId, j: JobId, b: AuditId, k: JobId)
    requires Waiting(s, a, j, b, k) && !AuditIsRunning(s.db, b)
    ensures SlotFree(s, a)
  {
    assert HasRunJob(s.db, b);
    forall c | c in s.db.audits && c != a ensures !IsActive(s.db.audits[c]) {
      assert ActiveRow(s.db, c) ==> c == b;
    }
  }

  lemma PendingGate(db: Db, b: AuditId) returns (id: ApprovalId)
    requires ShapeOk(db) && GateOk(db) && b in db.audits && db.audits[b].status == WaitingApproval
    ensures RunGate(db, id, b) && db.approvals[id].status == Pending
  {
    id :| RunGate(db, id, b);
  }

  lemma WaitingGivesUp(s: State, a: AuditId, j: JobId, b: AuditId, h: Holder)
    requires Sound(s) && Means(s, a, j) && SlotOnly(s, b) && RunJob(s.db, j, a) && a != b
    requires b in s.db.audits && s.db.audits[b].status == WaitingApproval && !BlockedForEver(s, b)
    ensures exists future :: Clears(s, future, a, j, h)
  {
    var id := PendingGate(s.db, b);
    FreshId(s.db.jobs.Keys);
    var job: JobId :| job !in s.db.jobs;
    var reject := Decide(id, Reject, s.db.approvals[id].requestedBy + "x", None, job);
    RejectionCancels(s, id, job);
    RejectionClears(s, Next(s, reject), a, j, b);
    RejectedClears(s, reject, a, j, h);
  }

  lemma RejectedClears(s: State, reject: Action, a: AuditId, j: JobId, h: Holder)
    requires Sound(s) && reject.Decide?
    requires var next := Next(s, reject); Means(next, a, j) && SlotFree(next, a) && RunJob(next.db, j, a)
    ensures exists future :: Clears(s, future, a, j, h)
  {
    StepKeepsSound(s, reject);
    ActionKeepsRetry(s, reject, j);
    RunOne(s, reject, []);
    assert [reject] + [] == [reject];
    assert Run(s, [reject]) == Next(s, reject);
    assert Clears(s, [reject], a, j, h);
  }

  lemma RejectionClears(s: State, next: State, a: AuditId, j: JobId, b: AuditId)
    requires Means(s, a, j) && SlotOnly(s, b) && RunJob(s.db, j, a) && a != b && b in s.db.audits
    requires next.sessions == s.sessions && next.sweeps == s.sweeps && next.db.jobs == s.db.jobs
    requires next.db.audits == s.db.audits[b := s.db.audits[b].(status := Cancelled)]
    ensures Means(next, a, j) && SlotFree(next, a) && RunJob(next.db, j, a)
  {
    MeansMoved(s, next, a, j);
    forall c | c in next.db.audits && c != a ensures !IsActive(next.db.audits[c]) {
      assert ActiveRow(s.db, c) ==> c == b;
    }
  }

  lemma MeansMoved(s: State, next: State, a: AuditId, j: JobId)
    requires Means(s, a, j) && next.sessions == s.sessions && next.sweeps == s.sweeps && next.db.jobs == s.db.jobs
    requires a in s.db.audits ==> a in next.db.audits && next.db.audits[a] == s.db.audits[a]
    ensures Means(next, a, j)
  {
    if w :| Promised(s, w, a) {
      assert Promised(next, w, a);
    } else if !WillRequeue(s.db, j) {
      var h :| Resetter(s, h, a);
      assert Resetter(next, h, a);
      if k :| Marker(s, k, a) {
        assert Marker(next, k, a);
      }
    }
  }

  // ---------- with the slot free ----------

  /** `a` is set running by actions that do nothing for `h` and leave its job the attempts for a retry. */
  ghost predicate Revives(s: State, future: seq<Action>, a: AuditId, h: Holder) {
    AuditIsRunning(Run(s, future).db, a) && Spares(future, h) && KeepsRetry(s, Run(s, future), h.job)
  }

  lemma RevivesLater(s: State, action: Action, rest: seq<Action>, a: AuditId, h: Holder)
    requires Revives(Next(s, action), rest, a, h) && !ActsFor(action, h) && KeepsRetry(s, Next(s, action), h.job)
    ensures Revives(s, [action] + rest, a, h)
  {
    RunOne(s, action, rest);
  }

  lemma RevivesNow(s: State, action: Action, a: AuditId, h: Holder)
    requires AuditIsRunning(Next(s, action).db, a) && !ActsFor(action, h) && KeepsRetry(s, Next(s, action), h.job)
    ensures exists future :: Revives(s, future, a, h)
  {
    RunOne(s, action, []);
    assert [action] + [] == [action];
    assert Run(s, [action]) == Next(s, action);
    assert Revives(s, [action], a, h);
  }

  /** One iteration over the audits whose job timed out. */
  lemma FollowTimedOut(s: State, w: nat, a: AuditId, b: AuditId)
    requires w in s.sweeps && s.sweeps[w].swept && a in s.sweeps[w].requeued && b in s.sweeps[w].timedOut
    requires SlotFree(s, a) && a in s.db.audits
    ensures var next := Next(s, SweepFollow(w, b));
      && w in next.sweeps && next.sweeps[w] == s.sweeps[w].(timedOut := s.sweeps[w].timedOut - {b})
      && SlotFree(next, a) && a in next.db.audits
  {
  }

  lemma {:induction false} FollowRevives(s: State, w: nat, a: AuditId, h: Holder)
    requires w in s.sweeps && s.sweeps[w].swept && a in s.sweeps[w].requeued && SlotFree(s, a) && a in s.db.audits
    ensures exists future :: Revives(s, future, a, h)
    decreases |if w in s.sweeps then s.sweeps[w].timedOut else {}|
  {
    if s.sweeps[w].timedOut == {} {
      RevivesNow(s, SweepFollow(w, a), a, h);
    } else {
      var b :| b in s.sweeps[w].timedOut;
      var next := Next(s, SweepFollow(w, b));
      FollowTimedOut(s, w, a, b);
      FollowRevives(next, w, a, h);
      var rest :| Revives(next, rest, a, h);
      RevivesLater(s, SweepFollow(w, b), rest, a, h);
    }
  }

  /** The two supervisor statements on a stale job with attempts left. */
  lemma StaleIsPromised(s: State, w: nat, a: AuditId, j: JobId)
    requires w !in s.sweeps && RunJob(s.db, j, a) && Requeues(s.db.jobs[j], s.clock)
    ensures var next := Next(Next(s, SweepTimeouts(w)), SweepRequeues(w));
      w in next.sweeps && next.sweeps[w].swept && a in next.sweeps[w].requeued && next.db.audits == s.db.audits
  {
    var mid := Next(s, SweepTimeouts(w));
    assert mid.db.jobs[j] == s.db.jobs[j] && mid.clock == s.clock;
    assert a in RequeuedAudits(mid.db, mid.clock);
  }

  lemma SweepRevives(s: State, w: nat, a: AuditId, h: Holder)
    requires w !in s.sweeps && RunJob(s.db, h.job, a) && Requeues(s.db.jobs[h.job], s.clock)
    requires SlotFree(s, a) && a in s.db.audits
    ensures exists future :: Revives(Next(s, SweepTimeouts(w)), future, a, h)
  {
    var mid := Next(s, SweepTimeouts(w));
    var next := Next(mid, SweepRequeues(w));
    StaleIsPromised(s, w, a, h.job);
    FollowRevives(next, w, a, h);
    var rest :| Revives(next, rest, a, h);
    ActionKeepsRetry(mid, SweepRequeues(w), h.job);
    RevivesLater(mid, SweepRequeues(w), rest, a, h);
  }

  lemma StaleRevives(s: State, a: AuditId, h: Holder)
    requires RunJob(s.db, h.job, a) && Requeues(s.db.jobs[h.job], s.clock) && SlotFree(s, a) && a in s.db.audits
    ensures exists future :: Revives(s, future, a, h)
  {
    FreshId(s.sweeps.Keys);
    var w: nat :| w !in s.sweeps;
    SweepRevives(s, w, a, h);
    var rest :| Revives(Next(s, SweepTimeouts(w)), rest, a, h);
    RevivesLater(s, SweepTimeouts(w), rest, a, h);
  }

  lemma RunningRevives(s: State, a: AuditId, h: Holder)
    requires RunJob(s.db, h.job, a) && s.db.jobs[h.job].status == Running
    requires s.db.jobs[h.job].attempt < s.db.jobs[h.job].maxAttempts && SlotFree(s, a) && a in s.db.audits
    ensures exists future :: Revives(s, future, a, h)
  {
    var age := LastBeat(s.db.jobs[h.job]) + STALE_INTERVAL_MS + 1 - s.clock;
    var wait := Elapse(if age > 0 then age else 0);
    StaleRevives(Next(s, wait), a, h);
    var rest :| Revives(Next(s, wait), rest, a, h);
    RevivesLater(s, wait, rest, a, h);
  }

  lemma JobRevives(s: State, a: AuditId, h: Holder)
    requires RunJob(s.db, h.job, a) && WillRequeue(s.db, h.job) && SlotFree(s, a) && a in s.db.audits
    ensures exists future :: Revives(s, future, a, h)
  {
    if s.db.jobs[h.job].status == Running {
      RunningRevives(s, a, h);
    } else {
      FreshId(s.claims.Keys);
      var token: Token :| token !in s.claims;
      var claim := ClaimJob(0, h.job, token);
      RunningRevives(Next(s, claim), a, h);
      var rest :| Revives(Next(s, claim), rest, a, h);
      RevivesLater(s, claim, rest, a, h);
    }
  }

  /** How far a catch block is from its last statement. */
  function Ahead(x: Session): nat {
    match x.phase
    case Stepping => 5
    case MarkAuditFailed => 4
    case ReadAttempts => 3
    case ReleaseJob(_) => 2
    case ReadStatus => 1
    case _ => 0
  }

  ghost predicate MarksOrFailed(s: State, r: Holder, a: AuditId) {
    && r in s.sessions && s.sessions[r].token.Some?
    && (s.sessions[r].phase in {Stepping, MarkAuditFailed}
        || (a in s.db.audits && s.db.audits[a].status == AuditFailed))
  }

  function ResetNext(x: Session, r: Holder, approval: ApprovalId): Action {
    if x.phase == Stepping then Raise(r) else Step(r, approval)
  }

  /** What a catch block does on its way, apart from its own phase. */
  ghost predicate OnTheWay(s: State, next: State, r: Holder, a: AuditId)
    requires r in s.sessions
  {
    && Resetter(next, r, a) && MarksOrFailed(next, r, a) && SlotFree(next, a) && a in next.db.audits
    && next.db.approvals == s.db.approvals && Ahead(next.sessions[r]) < Ahead(s.sessions[r])
  }

  lemma ThrowOnTheWay(s: State, r: Holder, a: AuditId, approval: ApprovalId)
    requires Resetter(s, r, a) && MarksOrFailed(s, r, a) && SlotFree(s, a) && a in s.db.audits
    requires approval !in s.db.approvals && s.sessions[r].phase in {Stepping, MarkAuditFailed}
    ensures OnTheWay(s, Next(s, ResetNext(s.sessions[r], r, approval)), r, a)
  {
  }

  lemma ReadOnTheWay(s: State, r: Holder, a: AuditId, approval: ApprovalId)
    requires Resetter(s, r, a) && MarksOrFailed(s, r, a) && SlotFree(s, a) && a in s.db.audits
    requires approval !in s.db.approvals && s.sessions[r].phase in {ReadAttempts, ReadStatus} && r.job in s.db.jobs
    ensures OnTheWay(s, StepSession(s, r, approval), r, a)
  {
  }

  lemma ReleaseOnTheWay(s: State, r: Holder, a: AuditId, approval: ApprovalId)
    requires Resetter(s, r, a) && MarksOrFailed(s, r, a) && SlotFree(s, a) && a in s.db.audits
    requires approval !in s.db.approvals && s.sessions[r].phase == ReleaseJob(false) && r.job in s.db.jobs
    ensures OnTheWay(s, StepSession(s, r, approval), r, a)
  {
    assert StepSession(s, r, approval) ==
      Put(s.(db := FailEngineJob(s.db, r.job, s.sessions[r].token, false)), r, s.sessions[r].(phase := ReadStatus));
  }

  lemma CatchOnTheWay(s: State, r: Holder, a: AuditId, approval: ApprovalId)
    requires Resetter(s, r, a) && MarksOrFailed(s, r, a) && SlotFree(s, a) && a in s.db.audits && r.job in s.db.jobs
    requires approval !in s.db.approvals && s.sessions[r].phase !in {Stepping, MarkAuditFailed, ResetAudit}
    ensures OnTheWay(s, StepSession(s, r, approval), r, a)
  {
    if s.sessions[r].phase.ReleaseJob? {
      ReleaseOnTheWay(s, r, a, approval);
    } else {
      ReadOnTheWay(s, r, a, approval);
    }
  }

  /** One statement of the catch block. */
  lemma ResetStep(s: State, r: Holder, a: AuditId, approval: ApprovalId)
    requires Resetter(s, r, a) && MarksOrFailed(s, r, a) && SlotFree(s, a) && a in s.db.audits && r.job in s.db.jobs
    requires approval !in s.db.approvals && s.sessions[r].phase != ResetAudit
    ensures var next := Next(s, ResetNext(s.sessions[r], r, approval));
      OnTheWay(s, next, r, a) && r.job in next.db.jobs
  {
    var action := ResetNext(s.sessions[r], r, approval);
    if s.sessions[r].phase in {Stepping, MarkAuditFailed} {
      ThrowOnTheWay(s, r, a, approval);
    } else {
      CatchOnTheWay(s, r, a, approval);
    }
    StepKeepsJobs(s, action, r.job);
  }

  lemma {:induction false} ResetRevives(s: State, r: Holder, a: AuditId, h: Holder, approval: ApprovalId)
    requires Resetter(s, r, a) && MarksOrFailed(s, r, a) && SlotFree(s, a) && a in s.db.audits
    requires approval !in s.db.approvals && r != h && r.job in s.db.jobs
    ensures exists future :: Revives(s, future, a, h)
    decreases if r in s.sessions then Ahead(s.sessions[r]) else 0
  {
    if s.sessions[r].phase == ResetAudit {
      RevivesNow(s, Step(r, approval), a, h);
    } else {
      var action := ResetNext(s.sessions[r], r, approval);
      ResetStep(s, r, a, approval);
      ActionKeepsRetry(s, action, h.job);
      ResetRevives(Next(s, action), r, a, h, approval);
      var rest :| Revives(Next(s, action), rest, a, h);
      RevivesLater(s, action, rest, a, h);
    }
  }

  lemma StepKeepsJobs(s: State, action: Action, j: JobId)
    requires j in s.db.jobs && (action.Step? || action.Raise?)
    ensures j in Next(s, action).db.jobs
  {
    if action.Step? {
      if action.holder in s.sessions && action.approval !in s.db.approvals {
        StepWritesOneRow(s, Next(s, action), action.holder, action.approval);
      }
    }
  }

  /** Another session's catch block marks the audit, and leaves the one that resets it. */
  lemma MarkStep(s: State, m: Holder, r: Holder, a: AuditId, approval: ApprovalId)
    requires m in s.sessions && s.sessions[m].phase == MarkAuditFailed && s.sessions[m].audit == Some(a)
    requires Resetter(s, r, a) && s.sessions[r].token.Some? && r != m && SlotFree(s, a) && a in s.db.audits
    requires approval !in s.db.approvals
    ensures var next := Next(s, Step(m, approval));
      && Resetter(next, r, a) && MarksOrFailed(next, r, a) && SlotFree(next, a) && a in next.db.audits
      && next.db.approvals == s.db.approvals && next.db.jobs == s.db.jobs
  {
  }

  lemma MarkRevives(s: State, m: Holder, r: Holder, a: AuditId, h: Holder, approval: ApprovalId)
    requires m in s.sessions && s.sessions[m].phase == MarkAuditFailed && s.sessions[m].audit == Some(a)
    requires Resetter(s, r, a) && s.sessions[r].token.Some? && r != m && SlotFree(s, a) && a in s.db.audits
    requires approval !in s.db.approvals && r != h && m != h && r.job in s.db.jobs
    ensures exists future :: Revives(s, future, a, h)
  {
    var next := Next(s, Step(m, approval));
    MarkStep(s, m, r, a, approval);
    ResetRevives(next, r, a, h, approval);
    var rest :| Revives(next, rest, a, h);
    RevivesLater(s, Step(m, approval), rest, a, h);
  }

  lemma MarkerRevives(s: State, m: Holder, r: Holder, a: AuditId, h: Holder, approval: ApprovalId)
    requires Marker(s, m, a) && Resetter(s, r, a) && s.sessions[r].token.Some? && r != m
    requires SlotFree(s, a) && a in s.db.audits
    requires approval !in s.db.approvals && r != h && m != h && r.job in s.db.jobs
    ensures exists future :: Revives(s, future, a, h)
  {
    if s.sessions[m].phase == MarkAuditFailed {
      MarkRevives(s, m, r, a, h, approval);
    } else {
      var next := Next(s, Raise(m));
      assert next == Put(s, m, s.sessions[m].(phase := MarkAuditFailed));
      MarkRevives(next, m, r, a, h, approval);
      var rest :| Revives(next, rest, a, h);
      RevivesLater(s, Raise(m), rest, a, h);
    }
  }

  lemma PairRevives(s: State, r: Holder, a: AuditId, h: Holder)
    requires FailedOrMarked(s, a) && Resetter(s, r, a) && SlotFree(s, a) && a in s.db.audits
    requires s.sessions[r].token.Some? && r.job in s.db.jobs && (h in s.sessions ==> AtCheck(s.sessions[h]))
    ensures exists future :: Revives(s, future, a, h)
  {
    FreshId(s.db.approvals.Keys);
    var approval: ApprovalId :| approval !in s.db.approvals;
    if MarksOrFailed(s, r, a) {
      ResetRevives(s, r, a, h, approval);
    } else {
      var m :| Marker(s, m, a);
      MarkerRevives(s, m, r, a, h, approval);
    }
  }

  lemma FreeSlotRevives(s: State, a: AuditId, h: Holder)
    requires SessionsOk(s) && SweepsShaped(s) && RunJob(s.db, h.job, a) && a in s.db.audits
    requires Means(s, a, h.job) && SlotFree(s, a) && (h in s.sessions ==> AtCheck(s.sessions[h]))
    ensures exists future :: Revives(s, future, a, h)
  {
    if w :| Promised(s, w, a) {
      FollowRevives(s, w, a, h);
    } else if WillRequeue(s.db, h.job) {
      JobRevives(s, a, h);
    } else {
      var r :| Resetter(s, r, a);
      assert SessionOk(s, r);
      PairRevives(s, r, a, h);
    }
  }

  // ---------- exactly when an audit runs again ----------

  ghost predicate Aside(s: State, h: Holder, a: AuditId) {
    RunJob(s.db, h.job, a) && (h in s.sessions ==> AtCheck(s.sessions[h]))
  }

  lemma StaysAside(s: State, action: Action, h: Holder, a: AuditId)
    requires WorkersOk(s) && Aside(s, h, a) && !ActsFor(action, h)
    ensures Aside(Next(s, action), h, a)
  {
    RequeueOnlyFades(s, action, a, h.job);
    if h in s.sessions {
      OthersKeepSession(s, action, h);
    } else if h in Next(s, action).sessions {
      OpenedSession(s, action, h);
      NewSessionAtCheck(s.db.jobs[h.job], action.scanners, action.findings);
    }
  }

  lemma {:induction false} RunStaysAside(s: State, actions: seq<Action>, h: Holder, a: AuditId)
    requires Inv(s) && Aside(s, h, a) && Spares(actions, h)
    ensures Aside(Run(s, actions), h, a)
    decreases |actions|
  {
    if actions != [] {
      assert actions[0] in actions && forall action <- actions[1..] :: action in actions;
      StaysAside(s, actions[0], h, a);
      StepKeepsInv(s, actions[0]);
      RunStaysAside(Next(s, actions[0]), actions[1..], h, a);
    }
  }

  lemma SlotIsVacated(s: State, a: AuditId, h: Holder)
    requires Sound(s) && !AuditIsRunning(s.db, a) && Means(s, a, h.job) && SlotComesFree(s, a) && Aside(s, h, a)
    ensures exists future :: Clears(s, future, a, h.job, h)
  {
    if SlotFree(s, a) {
      assert Run(s, []) == s;
      assert Clears(s, [], a, h.job, h);
    } else {
      var b :| b in s.db.audits && b != a && IsActive(s.db.audits[b]);
      assert ActiveRow(s.db, b) && SlotOnly(s, b);
      if s.db.audits[b].status == AuditRunning {
        var k :| RunJob(s.db, k, b);
        RunningGivesUp(s, a, h.job, b, k, h);
      } else {
        WaitingGivesUp(s, a, h.job, b, h);
      }
    }
  }

  lemma ClearedRevives(s: State, first: seq<Action>, a: AuditId, h: Holder)
    requires Inv(s) && Aside(s, h, a) && Clears(s, first, a, h.job, h)
    ensures exists future :: Revives(s, future, a, h)
  {
    var later := Run(s, first);
    RunStaysAside(s, first, h, a);
    FreeSlotRevives(later, a, h);
    var second :| Revives(later, second, a, h);
    RunConcat(s, first, second);
    assert Revives(s, first + second, a, h);
  }

  lemma CanRevive(s: State, a: AuditId, h: Holder)
    requires Sound(s) && !AuditIsRunning(s.db, a) && Means(s, a, h.job) && SlotComesFree(s, a) && Aside(s, h, a)
    ensures exists future :: Revives(s, future, a, h)
  {
    SlotIsVacated(s, a, h);
    var first :| Clears(s, first, a, h.job, h);
    ClearedRevives(s, first, a, h);
  }

  lemma CannotRevive(s: State, future: seq<Action>, a: AuditId, j: JobId)
    requires Sound(s) && RunJob(s.db, j, a) && !AuditIsRunning(s.db, a)
    requires AuditIsRunning(Run(s, future).db, a)
    ensures Means(s, a, j) && SlotComesFree(s, a)
  {
    if !Means(s, a, j) {
      NeverWithoutMeans(s, future, a, j);
    }
    forall b | b != a && ActiveRow(s.db, b) ensures !BlockedForEver(s, b) {
      if BlockedForEver(s, b) {
        NeverWhileBlocked(s, future, a, b);
      }
    }
  }

  /** The holder of a worker that has no session. */
  lemma FreshHolder(s: State, j: JobId) returns (h: Holder)
    ensures h.job == j && h !in s.sessions
  {
    var workers := set k <- s.sessions :: k.worker;
    FreshId(workers);
    var worker: WorkerId :| worker !in workers;
    h := Holder(worker, j);
    assert h in s.sessions ==> h.worker in workers;
  }

  ghost predicate RunsAfter(s: State, future: seq<Action>, a: AuditId) {
    AuditIsRunning(Run(s, future).db, a)
  }

  /**
   Exactly when an audit runs again: from a reachable state in which it has its run job and is not
   running, some interleaving sets it running if and only if it has the means and the active slot is
   free or can be given up.
   */
  lemma AuditRunsAgain(past: seq<Action>, a: AuditId, j: JobId)
    requires var db := Run(INITIAL, past).db; RunJob(db, j, a) && !AuditIsRunning(db, a)
    ensures var s := Run(INITIAL, past);
      (exists future :: RunsAfter(s, future, a)) <==> Means(s, a, j) && SlotComesFree(s, a)
  {
    var s := Run(INITIAL, past);
    ReachableSound(past);
    if future :| RunsAfter(s, future, a) {
      CannotRevive(s, future, a, j);
    }
    if Means(s, a, j) && SlotComesFree(s, a) {
      var h := FreshHolder(s, j);
      CanRevive(s, a, h);
      var future :| Revives(s, future, a, h);
      assert RunsAfter(s, future, a);
    }
  }
}
