/**
 What a worker can still write once its lease is gone.

 Two kinds of writes carry no lease filter: those of a program between two fences, and the two audit
 updates of the engine's catch block.  An interleaving's late writes are the ones a worker issues,
 under one claim, while the job row no longer stores the token of that claim.
 */
module LateWrites {
  import opened Wrappers
  import opened Counting
  import opened Tables
  import opened Programs
  import opened Protocol
  import opened Frames
  import opened Invariants
  import opened Reachability
  import opened Fencing
  import opened UndisturbedRuns
  import opened StuckAudits
  import opened RevivalMeans
  import opened Revivals

  /** The session's next statement is a write without a lease filter. */
  predicate Unfenced(x: Session) {
    (x.phase == Stepping && x.writesLeft > 0) || x.phase == MarkAuditFailed || x.phase == ResetAudit
  }

  /** `action` is such a write of `h` under the claim `t`, which the job row no longer stores. */
  ghost predicate WritesLate(s: State, action: Action, h: Holder, t: Token) {
    && action.Step? && action.holder == h && action.approval !in s.db.approvals
    && h in s.sessions && s.sessions[h].token == Some(t) && !Held(s, h) && Unfenced(s.sessions[h])
  }

  ghost function LateCount(s: State, actions: seq<Action>, h: Holder, t: Token): nat
    decreases |actions|
  {
    if actions == [] then 0
    else (if WritesLate(s, actions[0], h, t) then 1 else 0) + LateCount(Next(s, actions[0]), actions[1..], h, t)
  }

  // ---------- what a session owes ----------

  function One(b: bool): nat {
    if b then 1 else 0
  }

  /**
   The late writes a session can still issue: those up to its next fence, then, for an engine, whose
   operation can throw at any time, the failure mark and, if there is an attempt left, the reset.
   */
  function Owed(db: Db, j: JobId, x: Session): nat {
    match x.phase
    case Stepping => x.writesLeft + if x.kind == AuditRun then 1 + One(MayRetry(db, j)) else 0
    case MarkAuditFailed => 1 + One(MayRetry(db, j))
    case ReadAttempts => One(MayRetry(db, j))
    case ReleaseJob(exhausted) => One(!exhausted && !HasTimedOut(db, j))
    case ReadStatus => One(!HasTimedOut(db, j))
    case ResetAudit => 1
    case _ => 0
  }

  /** The same for the claim `t` of `h`, which owes nothing once its session is over. */
  ghost function OwedBy(s: State, h: Holder, t: Token): nat {
    if h in s.sessions && s.sessions[h].token == Some(t) then Owed(s.db, h.job, s.sessions[h]) else 0
  }

  ghost predicate TokenLost(s: State, j: JobId, t: Token) {
    t in s.claims && j in s.db.jobs && s.db.jobs[j].token != Some(t)
  }

  lemma OwedFades(x: Session, db: Db, after: Db, j: JobId)
    requires MayRetry(after, j) ==> MayRetry(db, j)
    requires HasTimedOut(db, j) ==> HasTimedOut(after, j)
    ensures Owed(after, j, x) <= Owed(db, j, x)
  {
  }

  // ---------- one action ----------

  lemma OwnFenceOwes(s: State, h: Holder, approval: ApprovalId, t: Token)
    requires SessionsOk(s) && h in s.sessions && s.sessions[h].token == Some(t) && TokenLost(s, h.job, t)
    requires s.sessions[h].phase == Stepping && s.sessions[h].writesLeft == 0 && s.sessions[h].todo != []
    ensures OwedBy(PassFence(s, h, approval), h, t) <= OwedBy(s, h, t)
  {
    assert SessionOk(s, h);
    assert s.sessions[h].todo[0] in s.sessions[h].todo;
  }

  lemma OwnStepOwes(s: State, h: Holder, approval: ApprovalId, t: Token)
    requires WorkersOk(s) && h in s.sessions && s.sessions[h].token == Some(t) && TokenLost(s, h.job, t)
    ensures OwedBy(StepSession(s, h, approval), h, t) + One(Unfenced(s.sessions[h])) <= OwedBy(s, h, t)
  {
    var x := s.sessions[h];
    assert SessionOk(s, h) && RowOk(s.db.jobs[h.job]);
    if x.phase == Stepping && x.writesLeft == 0 && x.todo != [] {
      OwnFenceOwes(s, h, approval, t);
    } else {
      CatchBlockOwes(s, h, approval, t);
    }
  }

  lemma CatchBlockOwes(s: State, h: Holder, approval: ApprovalId, t: Token)
    requires h in s.sessions && s.sessions[h].token == Some(t) && TokenLost(s, h.job, t)
    requires var x := s.sessions[h]; !(x.phase == Stepping && x.writesLeft == 0 && x.todo != [])
    requires s.sessions[h].phase in {MarkAuditFailed, ResetAudit} ==> s.sessions[h].audit.Some?
    ensures OwedBy(StepSession(s, h, approval), h, t) + One(Unfenced(s.sessions[h])) <= OwedBy(s, h, t)
  {
  }

  lemma CallbackOwes(s: State, action: Action, h: Holder, t: Token)
    requires SessionsOk(s) && h in s.sessions && s.sessions[h].token == Some(t) && TokenLost(s, h.job, t)
    requires ActsFor(action, h) && !action.Step?
    ensures OwedBy(Next(s, action), h, t) <= OwedBy(s, h, t)
  {
    assert SessionOk(s, h);
  }

  lemma OtherOwes(s: State, action: Action, h: Holder, t: Token)
    requires WorkersOk(s) && h in s.sessions && h.job in s.db.jobs && !ActsFor(action, h)
    ensures OwedBy(Next(s, action), h, t) <= OwedBy(s, h, t)
  {
    OthersKeepSession(s, action, h);
    RetryOnlyFades(s, action, h.job);
    OwedFades(s.sessions[h], s.db, Next(s, action).db, h.job);
  }

  /** A session that is opened now gets the token of the row, which is another one. */
  lemma OpenOwesNothing(s: State, action: Action, h: Holder, t: Token)
    requires h !in s.sessions && TokenLost(s, h.job, t)
    ensures OwedBy(Next(s, action), h, t) == 0
  {
    ActionFrame(s, action);
  }

  lemma OtherTokenOwesNothing(s: State, action: Action, h: Holder, t: Token)
    requires h in s.sessions && s.sessions[h].token != Some(t) && ActsFor(action, h)
    ensures OwedBy(Next(s, action), h, t) == 0
  {
    if action.Step? {
      StepContinues(s, h, action.approval);
    }
  }

  /** Every late write pays one of the owed ones, and nothing adds to them. */
  lemma StepPays(s: State, action: Action, h: Holder, t: Token)
    requires WorkersOk(s) && TokenLost(s, h.job, t)
    ensures OwedBy(Next(s, action), h, t) + One(WritesLate(s, action, h, t)) <= OwedBy(s, h, t)
  {
    if h !in s.sessions {
      OpenOwesNothing(s, action, h, t);
    } else if !ActsFor(action, h) {
      OtherOwes(s, action, h, t);
    } else if s.sessions[h].token != Some(t) {
      OtherTokenOwesNothing(s, action, h, t);
    } else if !action.Step? {
      CallbackOwes(s, action, h, t);
    } else if action.approval !in s.db.approvals {
      OwnStepOwes(s, h, action.approval, t);
    }
  }

  // ---------- every future: the cap ----------

  lemma {:induction false} RunPays(s: State, actions: seq<Action>, h: Holder, t: Token)
    requires Inv(s) && TokenLost(s, h.job, t)
    ensures LateCount(s, actions, h, t) + OwedBy(Run(s, actions), h, t) <= OwedBy(s, h, t)
    decreases |actions|
  {
    if actions != [] {
      StepPays(s, actions[0], h, t);
      LostStep(s, actions[0], h.job, t);
      RunPays(Next(s, actions[0]), actions[1..], h, t);
    }
  }

  lemma LostStep(s: State, action: Action, j: JobId, t: Token)
    requires Inv(s) && TokenLost(s, j, t)
    ensures Inv(Next(s, action)) && TokenLost(Next(s, action), j, t)
  {
    StepKeepsInv(s, action);
    StepTokens(s, action);
  }

  /** In no future does a stale worker write more, under its claim, than it owed when its lease went. */
  lemma LateWritesCapped(past: seq<Action>, future: seq<Action>, h: Holder, t: Token)
    requires var s := Run(INITIAL, past); h in s.sessions && s.sessions[h].token == Some(t) && !Held(s, h)
    ensures var s := Run(INITIAL, past); LateCount(s, future, h, t) <= Owed(s.db, h.job, s.sessions[h])
  {
    ReachableInv(past);
    StaleIsLost(Run(INITIAL, past), h, t);
    RunPays(Run(INITIAL, past), future, h, t);
  }

  lemma StaleIsLost(s: State, h: Holder, t: Token)
    requires SessionsOk(s) && h in s.sessions && s.sessions[h].token == Some(t) && !Held(s, h)
    ensures TokenLost(s, h.job, t)
  {
    assert SessionOk(s, h);
  }

  // ---------- some future: every owed write ----------

  /** An engine that has yet to read its audit row. */
  predicate AwaitsAudit(x: Session) {
    x.kind == AuditRun && AtCheck(x)
  }

  ghost predicate AuditRuns(s: State, x: Session) {
    x.audit.Some? && AuditIsRunning(s.db, x.audit.value)
  }

  /** The claim `t` of job `j` is lost, in a state that some interleaving reaches. */
  ghost predicate Lost(s: State, j: JobId, t: Token) {
    Sound(s) && TokenLost(s, j, t)
  }

  /** The session of `h` under `t`, which its first fence would let on if it still stands there. */
  ghost predicate MayGoOn(s: State, h: Holder, t: Token) {
    && h in s.sessions && s.sessions[h].token == Some(t)
    && (AwaitsAudit(s.sessions[h]) ==> AuditRuns(s, s.sessions[h]))
  }

  /** What `Inv` and `EngineSessionsOk` say of one session. */
  ghost predicate WellStanding(s: State, h: Holder) {
    h in s.sessions && SessionOk(s, h) && EngineSessionOk(s, h) && RowOk(s.db.jobs[h.job])
  }

  ghost predicate Unstopped(s: State, h: Holder, t: Token) {
    Lost(s, h.job, t) && MayGoOn(s, h, t)
  }

  lemma LostStays(s: State, action: Action, j: JobId, t: Token)
    requires Lost(s, j, t)
    ensures Lost(Next(s, action), j, t)
  {
    LostStep(s, action, j, t);
    StepKeepsSound(s, action);
  }

  lemma StandsWell(s: State, h: Holder, t: Token)
    requires Lost(s, h.job, t) && h in s.sessions
    ensures WellStanding(s, h) && TokenLost(s, h.job, t)
  {
  }

  /** How far the session is from its next unfenced write. */
  function Distance(x: Session): nat {
    match x.phase
    case Stepping => if x.writesLeft > 0 then 0 else if AwaitsAudit(x) then 2 else 1
    case ReadAttempts => 3
    case ReleaseJob(_) => 2
    case ReadStatus => 1
    case _ => 0
  }

  /** What the session does next on its way there: it throws, or takes its step. */
  function Onward(x: Session, h: Holder, approval: ApprovalId): Action {
    if x.phase == Stepping && x.writesLeft == 0 && !AwaitsAudit(x) then Raise(h) else Step(h, approval)
  }

  /** What an action of a stale session's own leaves as it was. */
  ghost predicate OwnOnly(s: State, next: State) {
    next.db.jobs == s.db.jobs && next.db.approvals == s.db.approvals
  }

  lemma OnwardCatch(s: State, h: Holder, t: Token, approval: ApprovalId)
    requires h in s.sessions && s.sessions[h].token == Some(t) && TokenLost(s, h.job, t)
    requires s.sessions[h].phase in {ReadAttempts, ReadStatus} || s.sessions[h].phase.ReleaseJob?
    requires Owed(s.db, h.job, s.sessions[h]) > 0
    ensures var next := StepSession(s, h, approval);
      && OwnOnly(s, next) && h in next.sessions && next.sessions[h].token == Some(t)
      && OwedBy(next, h, t) == OwedBy(s, h, t) && Distance(next.sessions[h]) < Distance(s.sessions[h])
      && !AwaitsAudit(next.sessions[h])
  {
  }

  lemma OnwardProgram(s: State, h: Holder, t: Token, approval: ApprovalId)
    requires h in s.sessions && s.sessions[h].token == Some(t) && EngineSessionOk(s, h)
    requires var x := s.sessions[h];
      x.phase == Stepping && x.kind == AuditRun && x.writesLeft == 0 && WellFormed(x.todo, x.kind, x.bound)
    requires AwaitsAudit(s.sessions[h]) ==> AuditRuns(s, s.sessions[h])
    requires approval !in s.db.approvals
    ensures var next := Next(s, Onward(s.sessions[h], h, approval));
      && OwnOnly(s, next) && h in next.sessions && next.sessions[h].token == Some(t)
      && OwedBy(next, h, t) == OwedBy(s, h, t) && Distance(next.sessions[h]) < Distance(s.sessions[h])
      && !AwaitsAudit(next.sessions[h])
  {
    var x := s.sessions[h];
    if AwaitsAudit(x) {
      assert x.todo[0] in x.todo;
      StraightTail(x.todo);
    }
  }

  lemma OnwardReady(s: State, h: Holder, t: Token, approval: ApprovalId)
    requires WellStanding(s, h) && TokenLost(s, h.job, t) && MayGoOn(s, h, t) && approval !in s.db.approvals
    requires OwedBy(s, h, t) > 0 && !Unfenced(s.sessions[h])
    ensures var action := Onward(s.sessions[h], h, approval);
      var next := Next(s, action);
      && MayGoOn(next, h, t) && approval !in next.db.approvals && !WritesLate(s, action, h, t)
      && OwedBy(next, h, t) == OwedBy(s, h, t) && Distance(next.sessions[h]) < Distance(s.sessions[h])
  {
    if s.sessions[h].phase == Stepping {
      OnwardProgram(s, h, t, approval);
    } else {
      OnwardCatch(s, h, t, approval);
    }
  }

  /** One step nearer to the next unfenced write, with nothing owed less. */
  lemma OnwardKeeps(s: State, h: Holder, t: Token, approval: ApprovalId)
    requires Unstopped(s, h, t) && approval !in s.db.approvals
    requires OwedBy(s, h, t) > 0 && !Unfenced(s.sessions[h])
    ensures var action := Onward(s.sessions[h], h, approval);
      var next := Next(s, action);
      && Unstopped(next, h, t) && approval !in next.db.approvals && !WritesLate(s, action, h, t)
      && OwedBy(next, h, t) == OwedBy(s, h, t) && Distance(next.sessions[h]) < Distance(s.sessions[h])
  {
    StandsWell(s, h, t);
    OnwardReady(s, h, t, approval);
    LostStays(s, Onward(s.sessions[h], h, approval), h.job, t);
  }

  lemma WriteReady(s: State, h: Holder, t: Token, approval: ApprovalId)
    requires WellStanding(s, h) && TokenLost(s, h.job, t) && MayGoOn(s, h, t) && approval !in s.db.approvals
    requires Unfenced(s.sessions[h])
    ensures var next := Next(s, Step(h, approval));
      && WritesLate(s, Step(h, approval), h, t) && approval !in next.db.approvals
      && OwedBy(next, h, t) == OwedBy(s, h, t) - 1
      && (OwedBy(next, h, t) > 0 ==> MayGoOn(next, h, t))
  {
    UnfencedStep(s, h, t, approval);
  }

  /** The next write itself. */
  lemma WriteOwed(s: State, h: Holder, t: Token, approval: ApprovalId)
    requires Unstopped(s, h, t) && approval !in s.db.approvals && Unfenced(s.sessions[h])
    ensures var next := Next(s, Step(h, approval));
      && WritesLate(s, Step(h, approval), h, t) && approval !in next.db.approvals
      && OwedBy(next, h, t) == OwedBy(s, h, t) - 1
      && (OwedBy(next, h, t) > 0 ==> Unstopped(next, h, t))
  {
    StandsWell(s, h, t);
    WriteReady(s, h, t, approval);
    LostStays(s, Step(h, approval), h.job, t);
  }

  lemma UnfencedStep(s: State, h: Holder, t: Token, approval: ApprovalId)
    requires h in s.sessions && s.sessions[h].token == Some(t) && TokenLost(s, h.job, t)
    requires Unfenced(s.sessions[h]) && (s.sessions[h].phase != Stepping ==> s.sessions[h].audit.Some?)
    ensures var next := StepSession(s, h, approval);
      && OwnOnly(s, next) && OwedBy(next, h, t) == OwedBy(s, h, t) - 1
      && (h in next.sessions && AwaitsAudit(next.sessions[h]) ==>
            AwaitsAudit(s.sessions[h]) && next.sessions[h].audit == s.sessions[h].audit && next.db == s.db)
  {
  }

  lemma {:induction false} LateConcat(s: State, first: seq<Action>, second: seq<Action>, h: Holder, t: Token)
    ensures LateCount(s, first + second, h, t) == LateCount(s, first, h, t) + LateCount(Run(s, first), second, h, t)
    decreases |first|
  {
    if first == [] {
      assert first + second == second;
    } else {
      assert (first + second)[1..] == first[1..] + second;
      LateConcat(Next(s, first[0]), first[1..], second, h, t);
    }
  }

  /** The actions by which a stale session issues `n` of the writes it owes, with nobody in between. */
  lemma {:induction false} PayOwed(s: State, h: Holder, t: Token, approval: ApprovalId, n: nat)
    returns (actions: seq<Action>)
    requires n > 0 ==> Unstopped(s, h, t)
    requires approval !in s.db.approvals && n <= OwedBy(s, h, t)
    ensures LateCount(s, actions, h, t) == n && forall action <- actions :: action.Step? || action.Raise?
    decreases n, if h in s.sessions then Distance(s.sessions[h]) else 0
  {
    if n == 0 {
      return [];
    }
    var action;
    var rest;
    if Unfenced(s.sessions[h]) {
      action := Step(h, approval);
      WriteOwed(s, h, t, approval);
      rest := PayOwed(Next(s, action), h, t, approval, n - 1);
    } else {
      action := Onward(s.sessions[h], h, approval);
      OnwardKeeps(s, h, t, approval);
      rest := PayOwed(Next(s, action), h, t, approval, n);
    }
    actions := [action] + rest;
    assert actions[1..] == rest;
  }

  // ---------- exactly what is still written ----------

  /** The session is past its check, or its audit is or can be set running. */
  ghost predicate CheckCanPass(s: State, h: Holder)
    requires h in s.sessions
  {
    var x := s.sessions[h];
    AwaitsAudit(x) ==>
      AuditRuns(s, x) || (x.audit.Some? && Means(s, x.audit.value, h.job) && SlotComesFree(s, x.audit.value))
  }

  /** What a stale session can still write. */
  ghost function StillOwed(s: State, h: Holder): nat
    requires h in s.sessions
  {
    if CheckCanPass(s, h) then Owed(s.db, h.job, s.sessions[h]) else 0
  }

  ghost predicate WritesExactly(s: State, future: seq<Action>, h: Holder, t: Token, n: nat) {
    LateCount(s, future, h, t) == n
  }

  // ---------- an engine whose audit never runs again ----------

  /** A session at its check writes nothing before its audit is running. */
  lemma AtCheckWaits(s: State, action: Action, h: Holder, t: Token)
    requires h in s.sessions && EngineSessionOk(s, h) && AwaitsAudit(s.sessions[h]) && !AuditRuns(s, s.sessions[h])
    ensures !WritesLate(s, action, h, t)
    ensures var next := Next(s, action);
      h in next.sessions ==> AwaitsAudit(next.sessions[h]) && next.sessions[h].audit == s.sessions[h].audit
  {
    if !ActsFor(action, h) {
      OthersKeepSession(s, action, h);
    }
  }

  /** Its audit never runs: nothing is ever written. */
  lemma {:induction false} NothingBeforeCheck(s: State, future: seq<Action>, h: Holder, t: Token)
    requires Sound(s) && TokenLost(s, h.job, t) && h in s.sessions && AwaitsAudit(s.sessions[h])
    requires s.sessions[h].audit.Some? && forall f :: !RunsAfter(s, f, s.sessions[h].audit.value)
    ensures LateCount(s, future, h, t) == 0
    decreases |future|
  {
    if future != [] {
      var a := s.sessions[h].audit.value;
      var next := Next(s, future[0]);
      NeverLater(s, future[0], a);
      assert EngineSessionOk(s, h) && !AuditRuns(s, s.sessions[h]);
      AtCheckWaits(s, future[0], h, t);
      LostStep(s, future[0], h.job, t);
      StepKeepsSound(s, future[0]);
      if h in next.sessions {
        NothingBeforeCheck(next, future[1..], h, t);
      } else {
        RunPays(next, future[1..], h, t);
      }
    }
  }

  lemma NeverLater(s: State, action: Action, a: AuditId)
    requires forall f :: !RunsAfter(s, f, a)
    ensures !AuditIsRunning(s.db, a) && forall f :: !RunsAfter(Next(s, action), f, a)
  {
    assert !RunsAfter(s, [], a);
    forall f ensures !RunsAfter(Next(s, action), f, a) {
      RunOne(s, action, f);
      assert !RunsAfter(s, [action] + f, a);
    }
  }

  // ---------- an engine whose audit runs again ----------

  lemma {:induction false} SparedWritesNothing(s: State, actions: seq<Action>, h: Holder, t: Token)
    requires h in s.sessions && Spares(actions, h)
    ensures LateCount(s, actions, h, t) == 0
    ensures h in Run(s, actions).sessions && Run(s, actions).sessions[h] == s.sessions[h]
    decreases |actions|
  {
    if actions != [] {
      assert actions[0] in actions && forall action <- actions[1..] :: action in actions;
      OthersKeepSession(s, actions[0], h);
      SparedWritesNothing(Next(s, actions[0]), actions[1..], h, t);
    }
  }

  lemma {:induction false} RunStaysLost(s: State, actions: seq<Action>, j: JobId, t: Token)
    requires Lost(s, j, t)
    ensures Lost(Run(s, actions), j, t)
    decreases |actions|
  {
    if actions != [] {
      LostStays(s, actions[0], j, t);
      RunStaysLost(Next(s, actions[0]), actions[1..], j, t);
    }
  }

  /** Once its audit is running, the session at its check owes no less than before. */
  lemma RevivedIsUnstopped(s: State, first: seq<Action>, a: AuditId, h: Holder, t: Token)
    requires Lost(s, h.job, t) && h in s.sessions && s.sessions[h].token == Some(t)
    requires AwaitsAudit(s.sessions[h]) && s.sessions[h].audit == Some(a) && Revives(s, first, a, h)
    ensures var later := Run(s, first); Unstopped(later, h, t) && OwedBy(later, h, t) >= OwedBy(s, h, t)
    ensures LateCount(s, first, h, t) == 0
  {
    SparedWritesNothing(s, first, h, t);
    RunStaysLost(s, first, h.job, t);
  }

  lemma PayAfter(s: State, first: seq<Action>, h: Holder, t: Token, n: nat) returns (future: seq<Action>)
    requires LateCount(s, first, h, t) == 0 && Unstopped(Run(s, first), h, t) && n <= OwedBy(Run(s, first), h, t)
    ensures LateCount(s, future, h, t) == n
  {
    var later := Run(s, first);
    FreshId(later.db.approvals.Keys);
    var approval: ApprovalId :| approval !in later.db.approvals;
    var rest := PayOwed(later, h, t, approval, n);
    LateConcat(s, first, rest, h, t);
    future := first + rest;
  }

  lemma RevivalExists(s: State, h: Holder, t: Token, a: AuditId)
    requires Lost(s, h.job, t) && h in s.sessions && AwaitsAudit(s.sessions[h]) && s.sessions[h].audit == Some(a)
    requires !AuditIsRunning(s.db, a) && Means(s, a, h.job) && SlotComesFree(s, a)
    ensures exists first :: Revives(s, first, a, h)
  {
    StandsWell(s, h, t);
    assert Aside(s, h, a);
    CanRevive(s, a, h);
  }

  lemma PayLater(s: State, h: Holder, t: Token, a: AuditId, n: nat) returns (future: seq<Action>)
    requires Lost(s, h.job, t) && h in s.sessions && s.sessions[h].token == Some(t)
    requires AwaitsAudit(s.sessions[h]) && s.sessions[h].audit == Some(a) && n <= OwedBy(s, h, t)
    requires !AuditIsRunning(s.db, a) && Means(s, a, h.job) && SlotComesFree(s, a)
    ensures LateCount(s, future, h, t) == n
  {
    RevivalExists(s, h, t, a);
    var first :| Revives(s, first, a, h);
    RevivedIsUnstopped(s, first, a, h, t);
    future := PayAfter(s, first, h, t, n);
  }

  lemma PayAll(s: State, h: Holder, t: Token, n: nat) returns (future: seq<Action>)
    requires Lost(s, h.job, t) && h in s.sessions && s.sessions[h].token == Some(t)
    requires CheckCanPass(s, h) && n <= OwedBy(s, h, t)
    ensures LateCount(s, future, h, t) == n
  {
    if AwaitsAudit(s.sessions[h]) && !AuditRuns(s, s.sessions[h]) {
      future := PayLater(s, h, t, s.sessions[h].audit.value, n);
    } else {
      FreshId(s.db.approvals.Keys);
      var approval: ApprovalId :| approval !in s.db.approvals;
      future := PayOwed(s, h, t, approval, n);
    }
  }

  lemma StoppedWritesNothing(s: State, future: seq<Action>, h: Holder, t: Token)
    requires Lost(s, h.job, t) && h in s.sessions && s.sessions[h].token == Some(t) && !CheckCanPass(s, h)
    ensures LateCount(s, future, h, t) == 0
  {
    StandsWell(s, h, t);
    RowHasAudit(s, h);
    var a := s.sessions[h].audit.value;
    forall f ensures !RunsAfter(s, f, a) {
      if RunsAfter(s, f, a) {
        CannotRevive(s, f, a, h.job);
      }
    }
    NothingBeforeCheck(s, future, h, t);
  }

  lemma RowHasAudit(s: State, h: Holder)
    requires WellStanding(s, h) && s.sessions[h].kind == AuditRun
    ensures s.sessions[h].audit.Some? && RunJob(s.db, h.job, s.sessions[h].audit.value)
  {
  }

  /**
   Exactly how much a stale worker still writes: from any reachable state in which its lease is gone,
   some interleaving has `n` late writes of it if and only if it still owes at least `n`.
   */
  lemma LateWritesAreThoseOwed(past: seq<Action>, h: Holder, t: Token, n: nat)
    requires var s := Run(INITIAL, past); h in s.sessions && s.sessions[h].token == Some(t) && !Held(s, h)
    ensures var s := Run(INITIAL, past);
      (exists future :: WritesExactly(s, future, h, t, n)) <==> n <= StillOwed(s, h)
  {
    var s := Run(INITIAL, past);
    ReachablyLost(past, h, t);
    if future :| WritesExactly(s, future, h, t, n) {
      LateWritesCapped(past, future, h, t);
      if !CheckCanPass(s, h) {
        StoppedWritesNothing(s, future, h, t);
      }
    }
    if n <= StillOwed(s, h) {
      OwedExactly(s, h, t, n);
    }
  }

  lemma OwedExactly(s: State, h: Holder, t: Token, n: nat)
    requires Lost(s, h.job, t) && h in s.sessions && s.sessions[h].token == Some(t) && n <= StillOwed(s, h)
    ensures exists future :: WritesExactly(s, future, h, t, n)
  {
    var future := [];
    if n > 0 {
      future := PayAll(s, h, t, n);
    }
    assert WritesExactly(s, future, h, t, n);
  }

  lemma ReachablyLost(past: seq<Action>, h: Holder, t: Token)
    requires var s := Run(INITIAL, past); h in s.sessions && s.sessions[h].token == Some(t) && !Held(s, h)
    ensures Lost(Run(INITIAL, past), h.job, t)
  {
    ReachableSound(past);
    StaleIsLost(Run(INITIAL, past), h, t);
  }

  /**
   The engine session `x` has nothing more to write: it stands at its check for good, or its catch
   block is past the reset, or will not come to it.
   */
  ghost predicate EngineIsDone(s: State, h: Holder)
    requires h in s.sessions
  {
    match s.sessions[h].phase
    case Stepping => !CheckCanPass(s, h)
    case MarkAuditFailed => false
    case ResetAudit => false
    case ReadAttempts => !MayRetry(s.db, h.job)
    case ReleaseJob(exhausted) => exhausted || HasTimedOut(s.db, h.job)
    case ReadStatus => HasTimedOut(s.db, h.job)
    case _ => true
  }

  /**
   A stale executor writes nothing more if and only if it stands at a fence or has left its program.
   A stale engine can always still throw: it writes nothing more if and only if it stands at its check
   and its audit cannot run again, or its catch block does not come to a reset.
   */
  lemma NothingMoreIsWritten(past: seq<Action>, h: Holder, t: Token)
    requires var s := Run(INITIAL, past); h in s.sessions && s.sessions[h].token == Some(t) && !Held(s, h)
    ensures var s := Run(INITIAL, past);
      var x := s.sessions[h];
      (forall future :: WritesExactly(s, future, h, t, 0))
      <==> if x.kind == AuditRun then EngineIsDone(s, h) else x.phase != Stepping || x.writesLeft == 0
  {
    var s := Run(INITIAL, past);
    ReachablyLost(past, h, t);
    StandsWell(s, h, t);
    NothingOwed(s, h);
    if StillOwed(s, h) > 0 {
      OwedExactly(s, h, t, 1);
      var future :| WritesExactly(s, future, h, t, 1);
      assert !WritesExactly(s, future, h, t, 0);
    } else {
      forall future ensures WritesExactly(s, future, h, t, 0) {
        assert WritesExactly(s, future, h, t, LateCount(s, future, h, t));
        LateWritesAreThoseOwed(past, h, t, LateCount(s, future, h, t));
      }
    }
  }

  lemma NothingOwed(s: State, h: Holder)
    requires WellStanding(s, h)
    ensures var x := s.sessions[h];
      StillOwed(s, h) == 0
      <==> if x.kind == AuditRun then EngineIsDone(s, h) else x.phase != Stepping || x.writesLeft == 0
  {
  }
}
