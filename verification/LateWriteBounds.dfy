/** How much any one claim writes late, over whole interleavings. */
module LateWriteBounds {
  import opened Wrappers
  import opened Counting
  import opened Tables
  import opened Programs
  import opened Protocol
  import opened Frames
  import opened Invariants
  import opened Reachability
  import opened Retry
  import opened UndisturbedRuns
  import opened CompletedAudits
  import opened LateWrites

  // ---------- the bound ----------

  /** No engine run of the interleaving has more findings than this. */
  predicate FindingsWithin(actions: seq<Action>, findings: nat) {
    forall action <- actions :: action.Open? ==> action.findings <= findings
  }

  ghost predicate BoundsWithin(s: State, findings: nat) {
    forall h <- s.sessions :: s.sessions[h].bound <= WriteBound(AuditRun, findings)
  }

  lemma BoundStays(s: State, action: Action, h: Holder)
    requires h in s.sessions && h in Next(s, action).sessions
    ensures Next(s, action).sessions[h].bound == s.sessions[h].bound
  {
    if !ActsFor(action, h) {
      OthersKeepSession(s, action, h);
    } else if action.Step? {
      StepContinues(s, h, action.approval);
    }
  }

  lemma StepKeepsBounds(s: State, action: Action, findings: nat)
    requires BoundsWithin(s, findings) && FindingsWithin([action], findings)
    ensures BoundsWithin(Next(s, action), findings)
  {
    var next := Next(s, action);
    forall h | h in next.sessions ensures next.sessions[h].bound <= WriteBound(AuditRun, findings) {
      if h in s.sessions {
        BoundStays(s, action, h);
      } else {
        OpenedSession(s, action, h);
        assert [action][0] == action;
      }
    }
  }

  lemma KindStays(s: State, action: Action, j: JobId)
    requires WorkersOk(s) && j in s.db.jobs
    ensures j in Next(s, action).db.jobs && Next(s, action).db.jobs[j].kind == s.db.jobs[j].kind
  {
    ActionTransition(s, action);
    assert RowTransition(s.db.jobs[j], Next(s, action).db.jobs[j]);
  }

  lemma {:induction false} RunKeepsKind(s: State, actions: seq<Action>, j: JobId)
    requires Inv(s) && j in s.db.jobs
    ensures j in Run(s, actions).db.jobs && Run(s, actions).db.jobs[j].kind == s.db.jobs[j].kind
    decreases |actions|
  {
    if actions != [] {
      KindStays(s, actions[0], j);
      StepKeepsInv(s, actions[0]);
      RunKeepsKind(Next(s, actions[0]), actions[1..], j);
    }
  }

  /** The most a claim on this job writes late. */
  ghost function Most(db: Db, j: JobId, findings: nat): nat {
    if j in db.jobs && db.jobs[j].kind != AuditRun then 1 else WriteBound(AuditRun, findings) + 2
  }

  lemma OwedWithin(s: State, h: Holder, t: Token, findings: nat)
    requires SessionsOk(s) && BoundsWithin(s, findings) && h.job in s.db.jobs
    ensures OwedBy(s, h, t) <= Most(s.db, h.job, findings)
  {
    if h in s.sessions {
      assert SessionOk(s, h);
    }
  }

  lemma NothingLateBeforeLoss(s: State, action: Action, h: Holder, t: Token)
    requires SessionsOk(s) && !TokenLost(s, h.job, t)
    ensures !WritesLate(s, action, h, t)
  {
    if h in s.sessions {
      assert SessionOk(s, h);
    }
  }

  lemma AfterLoss(s: State, actions: seq<Action>, h: Holder, t: Token, findings: nat)
    requires Inv(s) && TokenLost(s, h.job, t) && BoundsWithin(s, findings)
    ensures LateCount(s, actions, h, t) <= Most(Run(s, actions).db, h.job, findings)
  {
    RunPays(s, actions, h, t);
    RunKeepsKind(s, actions, h.job);
    OwedWithin(s, h, t, findings);
  }

  lemma {:induction false} BoundedFrom(s: State, actions: seq<Action>, h: Holder, t: Token, findings: nat)
    requires Inv(s) && BoundsWithin(s, findings) && FindingsWithin(actions, findings)
    ensures LateCount(s, actions, h, t) <= Most(Run(s, actions).db, h.job, findings)
    decreases |actions|
  {
    if TokenLost(s, h.job, t) {
      AfterLoss(s, actions, h, t, findings);
    } else if actions != [] {
      assert actions[0] in actions && forall action <- actions[1..] :: action in actions;
      NothingLateBeforeLoss(s, actions[0], h, t);
      StepKeepsBounds(s, actions[0], findings);
      StepKeepsInv(s, actions[0]);
      BoundedFrom(Next(s, actions[0]), actions[1..], h, t, findings);
    }
  }

  /**
   Over a whole interleaving, one claim on a job has at most one late write when an executor runs it;
   an engine has at most its longest run of unfenced writes, and the two audit updates.
   */
  lemma BoundedLateWrites(actions: seq<Action>, h: Holder, t: Token, findings: nat)
    requires FindingsWithin(actions, findings)
    ensures LateCount(INITIAL, actions, h, t) <= WriteBound(AuditRun, findings) + 2
    ensures var db := Run(INITIAL, actions).db;
      h.job in db.jobs && db.jobs[h.job].kind != AuditRun ==> LateCount(INITIAL, actions, h, t) <= 1
  {
    ReachableInv([]);
    BoundedFrom(INITIAL, actions, h, t, findings);
  }

  // ---------- the bound is reached ----------

  /** `actions` reach the bound for the claim `t` of `h`, whose job is of this kind. */
  ghost predicate ReachesBound(actions: seq<Action>, h: Holder, t: Token, kind: JobKind, findings: nat) {
    var db := Run(INITIAL, actions).db;
    && FindingsWithin(actions, findings) && h.job in db.jobs && db.jobs[h.job].kind == kind
    && LateCount(INITIAL, actions, h, t) == if kind == AuditRun then WriteBound(AuditRun, findings) + 2 else 1
  }

  /** A worker that is shut down with everything still to write. */
  ghost predicate CutOff(s: State, h: Holder, t: Token, kind: JobKind, findings: nat) {
    && h in s.sessions && s.sessions[h].token == Some(t) && !Held(s, h)
    && h.job in s.db.jobs && s.db.jobs[h.job].kind == kind
    && MayGoOn(s, h, t) && OwedBy(s, h, t) == Most(s.db, h.job, findings)
  }

  lemma CutOffReaches(past: seq<Action>, h: Holder, t: Token, kind: JobKind, findings: nat)
    requires CutOff(Run(INITIAL, past), h, t, kind, findings) && FindingsWithin(past, findings)
    ensures exists actions :: ReachesBound(actions, h, t, kind, findings)
  {
    var s := Run(INITIAL, past);
    ReachablyLost(past, h, t);
    FreshId(s.db.approvals.Keys);
    var approval: ApprovalId :| approval !in s.db.approvals;
    var future := PayOwed(s, h, t, approval, OwedBy(s, h, t));
    LateConcat(INITIAL, past, future, h, t);
    RunConcat(INITIAL, past, future);
    ReachableInv(past);
    RunKeepsKind(s, future, h.job);
    BoundedLateWrites(past + future, h, t, findings);
    assert ReachesBound(past + future, h, t, kind, findings);
  }

  // ---------- an executor that is shut down between its assert and its write ----------

  lemma AssertedIsCutOff(s: State, h: Holder, t: Token)
    requires h in s.sessions && Held(s, h) && s.sessions[h].token == Some(t) && 0 !in s.db.approvals
    requires s.db.jobs[h.job].status == Running && s.db.jobs[h.job].lockedBy == Some(h.worker)
    requires s.db.jobs[h.job].kind == SbomExport && s.sessions[h].kind == SbomExport
    requires var x := s.sessions[h];
      x.phase == Stepping && !x.lost && x.writesLeft == 0 && x.todo != [] && x.todo[0] == Group(Assert, 1)
    ensures CutOff(Run(s, [Step(h, 0), Shutdown(h.worker)]), h, t, SbomExport, 0)
  {
    var s1 := Next(s, Step(h, 0));
    assert s1 == Put(s, h, Advance(s.sessions[h]));
    RunOne(s1, Shutdown(h.worker), []);
    RunOne(s, Step(h, 0), [Shutdown(h.worker)]);
  }

  lemma AssertedReaches(past: seq<Action>, h: Holder, t: Token)
    requires var s := Run(INITIAL, past);
      && h in s.sessions && Held(s, h) && s.sessions[h].token == Some(t) && 0 !in s.db.approvals
      && s.db.jobs[h.job].status == Running && s.db.jobs[h.job].lockedBy == Some(h.worker)
      && var x := s.sessions[h];
         && x.kind == SbomExport && x.phase == Stepping && !x.lost && x.writesLeft == 0
         && x.todo != [] && x.todo[0] == Group(Assert, 1)
    requires FindingsWithin(past, 0)
    ensures exists actions :: ReachesBound(actions, h, t, SbomExport, 0)
  {
    var cut := [Step(h, 0), Shutdown(h.worker)];
    RunConcat(INITIAL, past, cut);
    ReachableInv(past);
    assert SessionOk(Run(INITIAL, past), h);
    AssertedIsCutOff(Run(INITIAL, past), h, t);
    CutOffReaches(past + cut, h, t, SbomExport, 0);
  }

  lemma ExecutorReachesBound()
    ensures exists actions, h, t :: ReachesBound(actions, h, t, SbomExport, 0)
  {
    AssertedExecutor();
    AssertedReaches([Enqueue(SbomExport, 0), ClaimJob(1, 0, 7), Open(1, 0, 0, 0)], Holder(1, 0), 7);
  }

  // ---------- an engine that is shut down before its longest run of writes ----------

  /** The abandoned job's session after some of its program. */
  function Engaged(todo: Program, writesLeft: nat): State {
    ABANDONED.(sessions := map[Holder(1, 0) :=
      NewSession(ABANDONED.db.jobs[0], 0, 0).(todo := todo, writesLeft := writesLeft)])
  }

  lemma PassesFence(todo: Program)
    requires todo != [] && todo[0].fence in {CheckAudit, Assert, Progress}
    ensures Next(Engaged(todo, 0), Step(Holder(1, 0), 0)) == Engaged(todo[1..], todo[0].writes)
  {
    var s := Engaged(todo, 0);
    assert Heartbeat(s.db, 0, Some(1), 0).jobs == s.db.jobs;
  }

  lemma Writes(todo: Program, writesLeft: nat)
    requires writesLeft > 0
    ensures Next(Engaged(todo, writesLeft), Step(Holder(1, 0), 0)) == Engaged(todo, writesLeft - 1)
  {
  }

  lemma FirstGroups()
    ensures var p := EngineProgram(0, 0);
      |p| > 4 && p[..4] == [Group(CheckAudit, 0), Group(Assert, 1), Group(Progress, 1), Group(Assert, 9)]
  {
  }

  lemma SixSteps()
    ensures var p := EngineProgram(0, 0);
      |p| > 4 && Run(Engaged(p, 0), Steps(Holder(1, 0), 0, 6)) == Engaged(p[4..], 9)
  {
    var p := EngineProgram(0, 0);
    FirstGroups();
    PassesFence(p);
    PassesFence(p[1..]);
    Writes(p[2..], 1);
    PassesFence(p[2..]);
    Writes(p[3..], 1);
    PassesFence(p[3..]);
  }

  lemma EngagedIsCutOff(todo: Program)
    requires !AtCheck(Engaged(todo, 9).sessions[Holder(1, 0)])
    ensures CutOff(Next(Engaged(todo, 9), Shutdown(1)), Holder(1, 0), 1, AuditRun, 0)
  {
  }

  lemma EngagedReached(past: seq<Action>)
    requires Run(INITIAL, past) == ABANDONED
    ensures var actions := past + [Open(1, 0, 0, 0)] + Steps(Holder(1, 0), 0, 6) + [Shutdown(1)];
      CutOff(Run(INITIAL, actions), Holder(1, 0), 1, AuditRun, 0)
  {
    var p := EngineProgram(0, 0);
    var open := [Open(1, 0, 0, 0)];
    var steps := Steps(Holder(1, 0), 0, 6);
    RunOne(ABANDONED, open[0], []);
    assert Next(ABANDONED, open[0]) == Engaged(p, 0);
    RunConcat(INITIAL, past, open);
    SixSteps();
    RunConcat(INITIAL, past + open, steps);
    FourthGroup();
    EngagedIsCutOff(p[4..]);
    RunOne(Engaged(p[4..], 9), Shutdown(1), []);
    RunConcat(INITIAL, past + open + steps, [Shutdown(1)]);
  }

  lemma FourthGroup()
    ensures var p := EngineProgram(0, 0); |p| > 4 && p[4] == Group(Assert, 0)
  {
  }

  lemma {:induction false} StepsWithin(h: Holder, approval: ApprovalId, n: nat, findings: nat)
    ensures FindingsWithin(Steps(h, approval, n), findings)
    decreases n
  {
    if n > 0 {
      StepsWithin(h, approval, n - 1, findings);
    }
  }

  lemma EngagedWithin(past: seq<Action>)
    requires FindingsWithin(past, 0)
    ensures FindingsWithin(past + [Open(1, 0, 0, 0)] + Steps(Holder(1, 0), 0, 6) + [Shutdown(1)], 0)
  {
    var steps := Steps(Holder(1, 0), 0, 6);
    StepsWithin(Holder(1, 0), 0, 6, 0);
    forall action <- past + [Open(1, 0, 0, 0)] + steps + [Shutdown(1)]
      ensures action.Open? ==> action.findings <= 0
    {
      assert action in past || action == Open(1, 0, 0, 0) || action in steps || action == Shutdown(1);
    }
  }

  lemma EngineReachesBound()
    ensures exists actions, h, t :: ReachesBound(actions, h, t, AuditRun, 0)
  {
    var past := AbandonedRun();
    EngagedReached(past);
    EngagedWithin(past);
    EngagedReaches(past + [Open(1, 0, 0, 0)] + Steps(Holder(1, 0), 0, 6) + [Shutdown(1)]);
  }

  lemma EngagedReaches(past: seq<Action>)
    requires CutOff(Run(INITIAL, past), Holder(1, 0), 1, AuditRun, 0) && FindingsWithin(past, 0)
    ensures exists actions, h, t :: ReachesBound(actions, h, t, AuditRun, 0)
  {
    CutOffReaches(past, Holder(1, 0), 1, AuditRun, 0);
  }

  /**
   Both bounds are reached: by an SBOM export that is shut down between its assert and its write, and
   by an engine that is shut down before its longest run of writes and then throws.
   */
  lemma LateWritesHappen()
    ensures exists actions, h, t :: ReachesBound(actions, h, t, SbomExport, 0)
    ensures exists actions, h, t :: ReachesBound(actions, h, t, AuditRun, 0)
  {
    ExecutorReachesBound();
    EngineReachesBound();
  }
}
