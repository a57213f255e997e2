/** What an engine run achieves when it holds its lease and is left alone. */
module UndisturbedRuns {
  import opened Wrappers
  import opened Tables
  import opened Programs
  import opened Protocol
  import opened Frames
  import opened Invariants
  import opened Preservation
  import opened SessionSteps
  import opened Reachability
  import opened Fencing

  // ---------- an undisturbed engine run ----------

  /**
   The rest of an engine program: fences it passes while it holds the lease, then finalize.
   Only its first fence reads the audit.
   */
  predicate Straight(todo: Program) {
    && todo != [] && todo[|todo| - 1].fence == FinishAudit
    && forall i :: 0 <= i < |todo| - 1 ==>
         todo[i].fence in {Assert, Progress} || (i == 0 && todo[i].fence == CheckAudit)
  }

  /** The number of operations left. */
  function Cost(writesLeft: nat, todo: Program): nat
    decreases |todo|
  {
    writesLeft + if todo == [] then 0 else 1 + Cost(todo[0].writes, todo[1..])
  }

  /** `h` runs audit `a`, holds the lease and has nothing but its own program ahead. */
  ghost predicate OnTrack(s: State, h: Holder, a: AuditId) {
    && h in s.sessions && Held(s, h) && a in s.db.audits
    && var x := s.sessions[h];
       && x.audit == Some(a) && x.token.Some? && !x.lost && x.phase == Stepping && Straight(x.todo)
       && (x.todo[0].fence == CheckAudit ==> s.db.audits[a].status == AuditRunning)
  }

  /** `next` differs from `s` only in what `h` has done so far. */
  ghost predicate SameElsewhere(s: State, next: State, h: Holder) {
    && next.sweeps == s.sweeps && next.claims == s.claims && next.clock == s.clock && next.calls == s.calls
    && (forall j <- s.db.jobs :: j in next.db.jobs && (j != h.job ==> next.db.jobs[j] == s.db.jobs[j]))
    && next.db.approvals == s.db.approvals && next.sessions - {h} == s.sessions - {h}
    && next.db.audits == s.db.audits && next.db.reports == s.db.reports
  }

  lemma OneStep(s: State, h: Holder, a: AuditId, approval: ApprovalId)
    requires OnTrack(s, h, a) && approval !in s.db.approvals
    requires s.sessions[h].writesLeft > 0 || |s.sessions[h].todo| > 1
    ensures var next := Next(s, Step(h, approval));
            && OnTrack(next, h, a) && SameElsewhere(s, next, h)
            && Cost(s.sessions[h].writesLeft, s.sessions[h].todo) ==
               1 + Cost(next.sessions[h].writesLeft, next.sessions[h].todo)
  {
    var x := s.sessions[h];
    var next := Next(s, Step(h, approval));
    if x.writesLeft == 0 {
      StraightTail(x.todo);
      assert next.sessions[h] == Advance(x);
    }
  }

  lemma StraightTail(todo: Program)
    requires Straight(todo) && |todo| > 1
    ensures todo[0].fence in {CheckAudit, Assert, Progress}
    ensures Straight(todo[1..]) && todo[1..][0].fence != CheckAudit
  {
    forall i | 0 <= i < |todo[1..]| - 1 ensures todo[1..][i].fence in {Assert, Progress} {
      assert todo[1..][i] == todo[i + 1];
    }
  }

  /** What a finished engine run leaves, and that it touched nothing else but its job row. */
  ghost predicate EngineFinished(s: State, later: State, h: Holder, a: AuditId, approval: ApprovalId)
    requires a in s.db.audits
  {
    && h.job in later.db.jobs && later.db.jobs[h.job].status == Completed
    && (forall j <- s.db.jobs :: j in later.db.jobs && (j != h.job ==> later.db.jobs[j] == s.db.jobs[j]))
    && later.db.audits == s.db.audits[a := s.db.audits[a].(status := AuditCompleted)]
    && later.db.reports == s.db.reports + {a}
    && later.db.approvals == s.db.approvals[approval := PackagingRequest(a, s.clock)]
    && later.sweeps == s.sweeps && later.sessions == s.sessions - {h}
  }

  /** An engine run that holds its lease and is left alone completes its audit and its job. */
  lemma {:induction false} UndisturbedEngineFinishes(s: State, h: Holder, a: AuditId, approval: ApprovalId)
    requires OnTrack(s, h, a) && approval !in s.db.approvals
    ensures var n := Cost(s.sessions[h].writesLeft, s.sessions[h].todo);
            EngineFinished(s, Run(s, Steps(h, approval, n)), h, a, approval)
    decreases Cost(s.sessions[h].writesLeft, s.sessions[h].todo)
  {
    var x := s.sessions[h];
    var n := Cost(x.writesLeft, x.todo);
    var next := Next(s, Step(h, approval));
    RunOne(s, Step(h, approval), Steps(h, approval, n - 1));
    if x.writesLeft > 0 || |x.todo| > 1 {
      OneStep(s, h, a, approval);
      UndisturbedEngineFinishes(next, h, a, approval);
      assert next.sessions - {h} == s.sessions - {h};
    } else {
      assert x.todo[1..] == [];
      assert Cost(x.todo[0].writes, x.todo[1..]) == x.todo[0].writes;
      assert n == 1 + x.todo[0].writes;
      FinishThenIdle(s, h, a, approval, x.todo[0].writes);
    }
  }

  /** After finalize the session is gone and further steps do nothing. */
  lemma FinishThenIdle(s: State, h: Holder, a: AuditId, approval: ApprovalId, idle: nat)
    requires OnTrack(s, h, a) && approval !in s.db.approvals
    requires s.sessions[h].writesLeft == 0 && |s.sessions[h].todo| == 1
    ensures var next := Next(s, Step(h, approval));
            Run(next, Steps(h, approval, idle)) == next && EngineFinished(s, next, h, a, approval)
  {
    var next := Next(s, Step(h, approval));
    assert h !in next.sessions;
    Idle(next, h, approval, idle);
  }

  lemma {:induction false} Idle(s: State, h: Holder, approval: ApprovalId, n: nat)
    requires h !in s.sessions
    ensures Run(s, Steps(h, approval, n)) == s
    decreases n
  {
    if n > 0 {
      RunOne(s, Step(h, approval), Steps(h, approval, n - 1));
      Idle(s, h, approval, n - 1);
    }
  }

  // ---------- every reachable engine session is on its way ----------

  /** A session that has yet to read its audit row. */
  predicate AtCheck(x: Session) {
    x.phase == Stepping && x.todo != [] && x.todo[0].fence == CheckAudit
  }

  /**
   An engine session in its program has a straight rest and nothing to write before it has read its audit row;
   only a lost lease sets the flag of the timer.
   */
  predicate EngineSessionOk(s: State, h: Holder)
    requires h in s.sessions
  {
    var x := s.sessions[h];
    && (x.kind == AuditRun && x.phase == Stepping ==> Straight(x.todo))
    && (x.kind == AuditRun && AtCheck(x) ==> x.writesLeft == 0)
    && (x.lost ==> !Held(s, h))
  }

  ghost predicate EngineSessionsOk(s: State) {
    forall h <- s.sessions :: EngineSessionOk(s, h)
  }

  lemma ContinuesStraight(x: Session, y: Session)
    requires Continues(x, y) && y.phase == Stepping && Straight(x.todo)
    ensures Straight(y.todo) && (AtCheck(y) ==> AtCheck(x) && y.writesLeft <= x.writesLeft)
  {
    if y.todo != x.todo || y.writesLeft > x.writesLeft {
      StraightTail(x.todo);
    }
  }

  lemma OwnStepEngineOk(s: State, h: Holder, approval: ApprovalId)
    requires SessionsOk(s) && h in s.sessions && EngineSessionOk(s, h)
    requires TokensOnlyLeave(s, StepSession(s, h, approval))
    ensures var next := StepSession(s, h, approval); h in next.sessions ==> EngineSessionOk(next, h)
  {
    var next := StepSession(s, h, approval);
    StepContinues(s, h, approval);
    if h in next.sessions {
      HeldBefore(s, next, h);
      if next.sessions[h].kind == AuditRun && next.sessions[h].phase == Stepping {
        ContinuesStraight(s.sessions[h], next.sessions[h]);
      }
    }
  }

  lemma CallbackEngineOk(s: State, action: Action, h: Holder)
    requires SessionsOk(s) && h in s.sessions && EngineSessionOk(s, h) && ActsFor(action, h) && !action.Step?
    ensures var next := Next(s, action); h in next.sessions ==> EngineSessionOk(next, h)
  {
    LeaseIsHeld(s, h);
  }

  lemma OtherEngineOk(s: State, next: State, h: Holder)
    requires SessionsOk(s) && TokensOnlyLeave(s, next) && h in s.sessions && EngineSessionOk(s, h)
    requires h in next.sessions && next.sessions[h] == s.sessions[h]
    ensures EngineSessionOk(next, h)
  {
    HeldBefore(s, next, h);
  }

  lemma NewSessionEngineOk(s: State, h: Holder, row: Job, scanners: nat, findings: nat)
    requires h in s.sessions && s.sessions[h] == NewSession(row, scanners, findings)
    ensures EngineSessionOk(s, h)
  {
    if row.kind == AuditRun {
      assert s.sessions[h].todo == EngineProgram(scanners, findings);
    }
  }

  lemma OpenEngineOk(s: State, next: State, action: Action, h: Holder)
    requires h !in s.sessions && h in next.sessions && next == Next(s, action)
    ensures EngineSessionOk(next, h)
  {
    OpenedSession(s, action, h);
    NewSessionEngineOk(next, h, s.db.jobs[h.job], action.scanners, action.findings);
  }

  lemma StepKeepsEngineSessions(s: State, action: Action)
    requires WorkersOk(s) && EngineSessionsOk(s)
    ensures EngineSessionsOk(Next(s, action))
  {
    var next := Next(s, action);
    StepTokens(s, action);
    forall h | h in next.sessions ensures EngineSessionOk(next, h) {
      SessionStaysEngineOk(s, next, action, h);
    }
  }

  lemma SessionStaysEngineOk(s: State, next: State, action: Action, h: Holder)
    requires WorkersOk(s) && EngineSessionsOk(s) && next == Next(s, action) && TokensOnlyLeave(s, next)
    requires h in next.sessions
    ensures EngineSessionOk(next, h)
  {
    if h !in s.sessions {
      OpenEngineOk(s, next, action, h);
    } else if !ActsFor(action, h) {
      OthersKeepSession(s, action, h);
      OtherEngineOk(s, next, h);
    } else if !action.Step? {
      CallbackEngineOk(s, action, h);
    } else if action.approval !in s.db.approvals {
      OwnStepEngineOk(s, h, action.approval);
    }
  }

  lemma {:induction false} RunKeepsEngineSessions(s: State, actions: seq<Action>)
    requires Inv(s) && EngineSessionsOk(s)
    ensures EngineSessionsOk(Run(s, actions))
    decreases |actions|
  {
    if actions != [] {
      StepKeepsInv(s, actions[0]);
      StepKeepsEngineSessions(s, actions[0]);
      RunKeepsEngineSessions(Next(s, actions[0]), actions[1..]);
    }
  }

  /**
   Liveness: from every reachable state, an engine session that holds its lease completes its audit
   and its job when it is left alone, provided that its audit is running if it has yet to check it.
   */
  lemma LeaseHolderFinishes(past: seq<Action>, h: Holder, a: AuditId, approval: ApprovalId)
    requires var s := Run(INITIAL, past);
      && h in s.sessions && Held(s, h) && approval !in s.db.approvals
      && var x := s.sessions[h];
         && x.kind == AuditRun && x.audit == Some(a) && x.phase == Stepping
         && (x.todo != [] && x.todo[0].fence == CheckAudit ==>
               a in s.db.audits && s.db.audits[a].status == AuditRunning)
    ensures var s := Run(INITIAL, past);
      a in s.db.audits && exists steps :: EngineFinished(s, Run(s, steps), h, a, approval)
  {
    var s := Run(INITIAL, past);
    ReachableInv([]);
    ReachableInv(past);
    RunKeepsEngineSessions(INITIAL, past);
    assert SessionOk(s, h) && EngineSessionOk(s, h);
    assert RunJob(s.db, h.job, a);
    UndisturbedEngineFinishes(s, h, a, approval);
  }
}
