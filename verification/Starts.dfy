/** What a `startAudit` call inserts, and what its answers mean. */
module Starts {
  import opened Wrappers
  import opened Tables
  import opened Protocol
  import opened Frames
  import opened Invariants
  import opened Reachability
  import opened Fencing
  import opened Approvals

  // ---------- the inserted rows ----------

  /** The rows of a new audit are those of the call: its actor, its key, and its gate or its job. */
  ghost predicate InsertedFor(s: State, next: State, c: Call, audit: AuditId, approval: ApprovalId, job: JobId) {
    && audit in next.db.audits && next.db.audits == s.db.audits[audit := next.db.audits[audit]]
    && next.db.audits[audit].requestedBy == c.actor
    && next.db.audits[audit].production == c.production
    && next.db.audits[audit].key == c.key
    && next.db.reports == s.db.reports
    && (if c.production then
          && next.db.audits[audit].status == WaitingApproval && next.db.jobs == s.db.jobs
          && approval !in s.db.approvals
          && next.db.approvals == s.db.approvals[approval :=
               Approval(RunAudit, audit, Pending, c.actor, s.clock, None, None, None)]
        else
          && next.db.audits[audit].status == AuditRunning && next.db.approvals == s.db.approvals
          && job !in s.db.jobs
          && next.db.jobs == s.db.jobs[job :=
               Job(AuditRun, Queued, Some(audit), 0, DEFAULT_MAX_ATTEMPTS, None, None, Some(s.clock), s.clock)])
  }

  /** What the transaction inserts. */
  lemma TransactionInserts(s: State, c: Call, audit: AuditId, approval: ApprovalId, job: JobId, keyFirst: bool,
                           after: Db)
    requires audit !in s.db.audits && approval !in s.db.approvals && job !in s.db.jobs
    requires StartTx(s.db, c.production, c.key, c.actor, s.clock, audit, approval, job, keyFirst) == Done(after)
    ensures InsertedFor(s, s.(db := after), c, audit, approval, job)
  {
  }

  /** A statement of a call writes nothing, or it is the transaction. */
  lemma CallWrites(s: State, action: Action)
    requires action.CallStep? && action.call in s.calls
    ensures var c, after := s.calls[action.call], Next(s, action).db;
      || after == s.db
      || (&& c.pc == Insert && action.audit !in s.db.audits && action.approval !in s.db.approvals
          && action.job !in s.db.jobs
          && StartTx(s.db, c.production, c.key, c.actor, s.clock, action.audit, action.approval, action.job,
                     action.keyFirst) == Done(after))
  {
  }

  lemma CallInserts(s: State, action: Action, a: AuditId)
    requires action.CallStep? && action.call in s.calls
    requires a !in s.db.audits && a in Next(s, action).db.audits
    ensures a == action.audit && s.calls[action.call].pc == Insert
    ensures InsertedFor(s, Next(s, action), s.calls[action.call], a, action.approval, action.job)
  {
    CallWrites(s, action);
    TransactionInserts(s, s.calls[action.call], action.audit, action.approval, action.job, action.keyFirst,
                       Next(s, action).db);
  }

  lemma DecideKeepsAuditKeys(s: State, action: Action)
    requires action.Decide?
    ensures Next(s, action).db.audits.Keys == s.db.audits.Keys
  {
  }

  /** Only a call inserts an audit. */
  lemma OnlyCallsInsert(s: State, action: Action)
    requires !action.CallStep?
    ensures Next(s, action).db.audits.Keys == s.db.audits.Keys
  {
    if action.Step? {
      if action.holder in s.sessions { StepFrame(s, action.holder, action.approval); }
    } else if action.SweepFollow? {
      FollowKeepsAuditKeys(s, action);
    } else if action.Decide? {
      DecideKeepsAuditKeys(s, action);
    } else {
      AuditsFrame(s, action);
    }
  }

  /** An audit comes from a call and nobody else, with the actor, the key and the gate of that call. */
  lemma StartInserts(s: State, action: Action, a: AuditId)
    requires a !in s.db.audits && a in Next(s, action).db.audits
    ensures action.CallStep? && action.call in s.calls && a == action.audit
    ensures InsertedFor(s, Next(s, action), s.calls[action.call], a, action.approval, action.job)
  {
    if action.CallStep? {
      CallInserts(s, action, a);
    } else {
      OnlyCallsInsert(s, action);
    }
  }

  // ---------- where jobs come from ----------

  /** A job as it is inserted: queued, nobody's, with all its attempts and the time of its insert. */
  ghost predicate FreshJob(row: Job, kind: JobKind, audit: Option<AuditId>, now: Time) {
    row == Job(kind, Queued, audit, 0, DEFAULT_MAX_ATTEMPTS, None, None, Some(now), now)
  }

  /** The request whose approval by `action` yields a job of this kind for this audit. */
  ghost predicate Yields(s: State, action: Action, kind: JobKind, audit: AuditId) {
    && action.Decide? && action.verdict == Approve && action.approval in s.db.approvals
    && s.db.approvals[action.approval].status == Pending && s.db.approvals[action.approval].target == audit
    && kind == (if s.db.approvals[action.approval].action == RunAudit then AuditRun else ArtifactPackage)
  }

  /** A job is enqueued as such, or comes with an audit that needs no approval, or with an approval. */
  lemma JobsComeFrom(s: State, action: Action, j: JobId)
    requires j !in s.db.jobs && j in Next(s, action).db.jobs
    ensures var row := Next(s, action).db.jobs[j];
      || (action.Enqueue? && action.job == j && FreshJob(row, action.kind, None, s.clock))
      || (&& action.CallStep? && action.call in s.calls && !s.calls[action.call].production
          && action.audit !in s.db.audits && action.audit in Next(s, action).db.audits
          && FreshJob(row, AuditRun, Some(action.audit), s.clock))
      || (exists kind, a :: Yields(s, action, kind, a) && FreshJob(row, kind, Some(a), s.clock))
  {
    if action.CallStep? {
      CallYields(s, action, j);
    } else if action.Decide? {
      DecisionYields(s, action, j);
    } else if !action.Enqueue? {
      OthersYieldNothing(s, action, j);
    }
  }

  lemma CallYields(s: State, action: Action, j: JobId)
    requires action.CallStep? && j !in s.db.jobs && j in Next(s, action).db.jobs
    ensures action.call in s.calls && !s.calls[action.call].production
    ensures action.audit !in s.db.audits && action.audit in Next(s, action).db.audits
    ensures FreshJob(Next(s, action).db.jobs[j], AuditRun, Some(action.audit), s.clock)
  {
    CallWrites(s, action);
    TransactionInserts(s, s.calls[action.call], action.audit, action.approval, action.job, action.keyFirst,
                       Next(s, action).db);
  }

  lemma DecisionYields(s: State, action: Action, j: JobId)
    requires action.Decide? && j !in s.db.jobs && j in Next(s, action).db.jobs
    ensures exists kind, a ::
      Yields(s, action, kind, a) && FreshJob(Next(s, action).db.jobs[j], kind, Some(a), s.clock)
  {
    var row := s.db.approvals[action.approval];
    assert Yields(s, action, if row.action == RunAudit then AuditRun else ArtifactPackage, row.target);
  }

  lemma OthersYieldNothing(s: State, action: Action, j: JobId)
    requires !action.CallStep? && !action.Decide? && !action.Enqueue? && j !in s.db.jobs
    ensures j !in Next(s, action).db.jobs
  {
    if action.Step? {
      if action.holder in s.sessions && action.approval !in s.db.approvals {
        StepWritesOneRow(s, Next(s, action), action.holder, action.approval);
      }
    } else if IsSweep(action) {
      SupervisorRows(s, action);
    }
  }

  // ---------- answers ----------

  predicate HasKey(db: Db, a: AuditId, key: Option<IdempotencyKey>) {
    key.Some? && a in db.audits && db.audits[a].key == key
  }

  predicate Waits(db: Db, a: AuditId) {
    a in db.audits && db.audits[a].status == WaitingApproval
  }

  ghost predicate NoActive(db: Db) {
    forall a <- db.audits :: db.audits[a].status != WaitingApproval && db.audits[a].status != AuditRunning
  }

  ghost predicate PendingRequest(db: Db, ap: ApprovalId, a: AuditId) {
    ap in db.approvals && db.approvals[ap].target == a && db.approvals[ap].status == Pending
  }

  /** What a call knows when it has come to `pc` from the tables `db`, whose successor is `after`. */
  ghost predicate Justified(db: Db, after: Db, c: Call, pc: CallPc) {
    match pc
    case LookUpKey => false
    case CheckActive => forall a <- db.audits :: !HasKey(db, a, c.key)
    case Insert => NoActive(db)
    case Replay => exists a :: HasKey(db, a, c.key)
    case ReportConflict => !NoActive(db)
    case FindApproval(a) => HasKey(db, a, c.key) && Waits(db, a)
    case Returned(Started(a, true)) => HasKey(db, a, c.key) && !Waits(db, a)
    case Returned(Started(a, false)) =>
      !c.production && a !in db.audits && a in after.audits && after.audits[a].status == AuditRunning
    case Returned(AwaitingApproval(a, Some(ap))) =>
      if c.pc == FindApproval(a) then PendingRequest(db, ap, a)
      else c.production && a !in db.audits && Waits(after, a) && PendingRequest(after, ap, a)
    case Returned(AwaitingApproval(a, None)) => c.pc == FindApproval(a) && forall ap :: !PendingRequest(db, ap, a)
    case Returned(Conflict(Some(a))) => ActiveRow(db, a)
    case Returned(Conflict(None)) => NoActive(db)
  }

  /** The transaction inserts, or the index that refuses it has another entry. */
  lemma TransactionRefused(db: Db, c: Call, now: Time, audit: AuditId, approval: ApprovalId, job: JobId, keyFirst: bool)
    requires audit !in db.audits
    ensures match StartTx(db, c.production, c.key, c.actor, now, audit, approval, job, keyFirst)
      case Done(after) =>
        && audit in after.audits
        && (if c.production then Waits(after, audit) && PendingRequest(after, approval, audit)
            else after.audits[audit].status == AuditRunning)
      case Violation(AuditsIdempotency) => exists a :: HasKey(db, a, c.key)
      case Violation(AuditsActive) => !NoActive(db)
      case Violation(_) => true
  {
    if KeyTaken(db, c.key) {
      var a :| a in db.audits && db.audits[a].key == c.key;
      assert HasKey(db, a, c.key);
    }
    if ActiveTaken(db, audit) {
      assert !NoActive(db);
    }
  }

  lemma InsertStep(s: State, action: Action)
    requires action.CallStep? && action.call in s.calls && s.calls[action.call].pc == Insert
    ensures var c, next := s.calls[action.call], Next(s, action);
      action.call in next.calls && next.calls[action.call].pc != c.pc ==>
        Justified(s.db, next.db, c, next.calls[action.call].pc)
  {
    if action.audit !in s.db.audits {
      TransactionRefused(s.db, s.calls[action.call], s.clock, action.audit, action.approval, action.job,
                         action.keyFirst);
    }
  }

  lemma ReadJustified(db: Db, c: Call, pick: nat)
    requires c.pc != Insert
    ensures match NextPc(db, c, pick)
      case Some(pc) => Justified(db, db, c, pc)
      case None => true
  {
    assert forall a <- db.audits :: IsActive(db.audits[a]) <==> ActiveRow(db, a);
    assert forall ap, a :: PendingFor(db, ap, a) <==> PendingRequest(db, ap, a);
  }

  lemma ReadStep(s: State, action: Action)
    requires action.CallStep? && action.call in s.calls && s.calls[action.call].pc != Insert
    ensures var c, next := s.calls[action.call], Next(s, action);
      && next.db == s.db && action.call in next.calls
      && (next.calls[action.call].pc != c.pc ==> Justified(s.db, next.db, c, next.calls[action.call].pc))
  {
    ReadJustified(s.db, s.calls[action.call], action.pick);
  }

  /**
   Every statement of a call leads where the tables say: to `started` for an audit it has inserted or whose
   key it carries and that does not wait, to `waiting_approval` for one that waits, to `conflict` when
   another audit is active.
   */
  lemma AnswerIsJustified(s: State, action: Action)
    requires action.CallStep? && action.call in s.calls
    ensures var c, next := s.calls[action.call], Next(s, action);
      action.call in next.calls && next.calls[action.call].pc != c.pc ==>
        Justified(s.db, next.db, c, next.calls[action.call].pc)
  {
    if s.calls[action.call].pc == Insert {
      InsertStep(s, action);
    } else {
      ReadStep(s, action);
    }
  }

  // ---------- a replayed call ----------

  /** A statement of a call only moves it on, or ends it. */
  lemma StatementMoves(s: State, call: nat, pick: nat, audit: AuditId, approval: ApprovalId, job: JobId, keyFirst: bool)
    requires call in s.calls
    ensures var next := StepCall(s, call, pick, audit, approval, job, keyFirst);
      || next.calls == s.calls || next.calls == s.calls - {call}
      || (call in next.calls && next.calls == s.calls[call := s.calls[call].(pc := next.calls[call].pc)])
  {
  }

  lemma StatementKeepsInput(s: State, action: Action, c: nat)
    requires action.CallStep? && c in s.calls && c in Next(s, action).calls
    ensures var before, after := s.calls[c], Next(s, action).calls[c];
      after.key == before.key && after.production == before.production && after.actor == before.actor
    ensures action.call != c ==> Next(s, action).calls[c] == s.calls[c]
  {
    if action.call in s.calls && !(action.audit in s.db.audits || action.approval in s.db.approvals
                                   || action.job in s.db.jobs) {
      StatementMoves(s, action.call, action.pick, action.audit, action.approval, action.job, action.keyFirst);
    }
  }

  lemma OthersKeepCall(s: State, action: Action, c: nat)
    requires c in s.calls && !action.CallStep?
    ensures c in Next(s, action).calls && Next(s, action).calls[c] == s.calls[c]
  {
    if action.Step? {
      if action.holder in s.sessions { StepKeepsCalls(s, action.holder, action.approval); }
    } else if action.SweepFollow? {
      FollowKeepsCalls(s, action);
    }
  }

  /** Calls keep what they were opened with. */
  lemma CallKeepsInput(s: State, action: Action, c: nat)
    requires c in s.calls && c in Next(s, action).calls
    ensures var before, after := s.calls[c], Next(s, action).calls[c];
      after.key == before.key && after.production == before.production && after.actor == before.actor
    ensures !(action.CallStep? && action.call == c) ==> Next(s, action).calls[c] == s.calls[c]
  {
    if action.CallStep? {
      StatementKeepsInput(s, action, c);
    } else {
      OthersKeepCall(s, action, c);
    }
  }

  lemma StepKeepsCalls(s: State, h: Holder, approval: ApprovalId)
    requires h in s.sessions
    ensures StepSession(s, h, approval).calls == s.calls
  {
  }

  lemma FollowKeepsCalls(s: State, action: Action)
    requires action.SweepFollow?
    ensures Next(s, action).calls == s.calls
  {
  }

  ghost predicate SameKey(db: Db, after: Db, a: AuditId)
    requires a in db.audits
  {
    a in after.audits && after.audits[a].key == db.audits[a].key
  }

  lemma FenceKeepsKey(s: State, h: Holder, approval: ApprovalId, a: AuditId)
    requires h in s.sessions && s.sessions[h].todo != [] && a in s.db.audits
    ensures SameKey(s.db, PassFence(s, h, approval).db, a)
  {
    FenceStatements(s, h, approval);
  }

  lemma StepKeepsKey(s: State, h: Holder, approval: ApprovalId, a: AuditId)
    requires h in s.sessions && a in s.db.audits
    ensures SameKey(s.db, StepSession(s, h, approval).db, a)
  {
    var x := s.sessions[h];
    if x.phase == Stepping && x.writesLeft == 0 && x.todo != [] {
      FenceKeepsKey(s, h, approval, a);
    }
  }

  lemma CallKeepsKey(s: State, action: Action, a: AuditId)
    requires action.CallStep? && a in s.db.audits
    ensures SameKey(s.db, Next(s, action).db, a)
  {
    if action.call in s.calls {
      CallWrites(s, action);
      if Next(s, action).db != s.db {
        TransactionInserts(s, s.calls[action.call], action.audit, action.approval, action.job, action.keyFirst,
                           Next(s, action).db);
      }
    }
  }

  lemma DecisionKeepsKey(s: State, action: Action, a: AuditId)
    requires action.Decide? && a in s.db.audits
    ensures SameKey(s.db, Next(s, action).db, a)
  {
  }

  lemma FollowKeepsKey(s: State, action: Action, a: AuditId)
    requires action.SweepFollow? && a in s.db.audits
    ensures SameKey(s.db, Next(s, action).db, a)
  {
  }

  /** An audit keeps its key. */
  lemma AuditKeepsKey(s: State, action: Action, a: AuditId)
    requires a in s.db.audits
    ensures SameKey(s.db, Next(s, action).db, a)
  {
    if action.Step? {
      if action.holder in s.sessions { StepKeepsKey(s, action.holder, action.approval, a); }
    } else if action.CallStep? {
      CallKeepsKey(s, action, a);
    } else if action.Decide? {
      DecisionKeepsKey(s, action, a);
    } else if action.SweepFollow? {
      FollowKeepsKey(s, action, a);
    } else {
      AuditsFrame(s, action);
    }
  }

  /** The call is on its way to an answer that names `a`, or has given it. */
  predicate Replays(pc: CallPc, a: AuditId) {
    match pc
    case LookUpKey => true
    case FindApproval(b) => b == a
    case Returned(Started(b, replayed)) => b == a && replayed
    case Returned(AwaitingApproval(b, _)) => b == a
    case _ => false
  }

  ghost predicate Replaying(s: State, c: nat, a: AuditId) {
    c in s.calls && HasKey(s.db, a, s.calls[c].key) && Replays(s.calls[c].pc, a)
  }

  lemma StepReplays(s: State, action: Action, c: nat, a: AuditId)
    requires AuditsUnique(s.db) && Replaying(s, c, a)
    ensures Replaying(Next(s, action), c, a)
  {
    AuditKeepsKey(s, action, a);
    if action.CallStep? && action.call == c {
      OwnStepReplays(s, action, a);
    } else {
      CallStays(s, action, c);
      CallKeepsInput(s, action, c);
    }
  }

  lemma OwnStepReplays(s: State, action: Action, a: AuditId)
    requires AuditsUnique(s.db) && action.CallStep? && Replaying(s, action.call, a)
    ensures Replaying(Next(s, action), action.call, a)
  {
    assert KeyTaken(s.db, s.calls[action.call].key);
  }

  lemma CallStays(s: State, action: Action, c: nat)
    requires c in s.calls && !(action.CallStep? && action.call == c)
    ensures c in Next(s, action).calls
  {
    if !action.CallStep? {
      OthersKeepCall(s, action, c);
    }
  }

  lemma {:induction false} RunReplays(s: State, actions: seq<Action>, c: nat, a: AuditId)
    requires Inv(s) && Replaying(s, c, a)
    ensures Replaying(Run(s, actions), c, a)
    decreases |actions|
  {
    if actions != [] {
      StepReplays(s, actions[0], c, a);
      StepKeepsInv(s, actions[0]);
      RunReplays(Next(s, actions[0]), actions[1..], c, a);
    }
  }

  /**
   A call with the key of an audit is never answered with a conflict or a second audit: from its opening on, in
   every future, its answer is still to come or names that audit.
   */
  lemma ReplayNamesItsAudit(past: seq<Action>, future: seq<Action>, c: nat, a: AuditId, key: IdempotencyKey,
                            production: bool, actor: Actor)
    requires var s := Run(INITIAL, past); c !in s.calls && a in s.db.audits && s.db.audits[a].key == Some(key)
    ensures var begun := Next(Run(INITIAL, past), OpenCall(c, Some(key), production, actor));
      var later := Run(begun, future);
      c in later.calls && Replays(later.calls[c].pc, a)
  {
    var open := OpenCall(c, Some(key), production, actor);
    ReachableInv(past);
    StepKeepsInv(Run(INITIAL, past), open);
    RunReplays(Next(Run(INITIAL, past), open), future, c, a);
  }
}
