/** What holds of the tables after every interleaving. */
module Lifecycle {
  import opened Wrappers
  import opened Counting
  import opened Tables
  import opened Programs
  import opened Protocol
  import opened Frames
  import opened Invariants
  import opened DecisionLemmas
  import opened Reachability
  import opened Fencing

  // ---------- approval gate ----------

  /** `ap` is a second person's timely approval of audit `a`. */
  ghost predicate SignedOff(db: Db, ap: ApprovalId, a: AuditId) {
    && RunGate(db, ap, a) && db.approvals[ap].status == Approved
    && db.approvals[ap].decidedBy.Some? && db.approvals[ap].decidedAt.Some?
    && (db.approvals[ap].decidedBy.value != db.approvals[ap].requestedBy || db.approvals[ap].requestedBy == SYSTEM)
    && db.approvals[ap].requestedAt <= db.approvals[ap].decidedAt.value
         <= db.approvals[ap].requestedAt + APPROVAL_TTL_MS
  }

  /** Two-person rule: no `audit.run` job of a production audit exists without its sign-off. */
  lemma TwoPersonRule(actions: seq<Action>, j: JobId, a: AuditId)
    requires var db := Run(INITIAL, actions).db; RunJob(db, j, a) && a in db.audits && db.audits[a].production
    ensures exists ap :: SignedOff(Run(INITIAL, actions).db, ap, a)
  {
    var s := Run(INITIAL, actions);
    ReachableInv(actions);
    assert HasRunJob(s.db, a) && HasRunGate(s.db, a);
    var ap :| RunGate(s.db, ap, a);
    assert ApprovalOk(s.db.approvals[ap], s.clock);
    assert SignedOff(s.db, ap, a);
  }

  /** A waiting audit has exactly one pending request to run it, and no job. */
  lemma WaitingAuditHasOneRequest(actions: seq<Action>, a: AuditId)
    requires var db := Run(INITIAL, actions).db; a in db.audits && db.audits[a].status == WaitingApproval
    ensures var db := Run(INITIAL, actions).db;
            && !HasRunJob(db, a)
            && (exists ap :: RunGate(db, ap, a) && db.approvals[ap].status == Pending)
            && (forall ap, bp :: RunGate(db, ap, a) && RunGate(db, bp, a) ==> ap == bp)
  {
    var db := Run(INITIAL, actions).db;
    ReachableInv(actions);
    assert HasRunGate(db, a);
    var ap :| RunGate(db, ap, a);
    assert RunGate(db, ap, a) && db.approvals[ap].status == Pending;
  }

  // ---------- conservation ----------

  /**
   Every `audit.run` job is accounted for by an approved request or by an audit that needs
   none, every packaging job of an audit by an approved packaging request, and every
   finished run by one packaging request.
   */
  lemma LifecycleConserved(actions: seq<Action>)
    ensures var db := Run(INITIAL, actions).db;
            && CountOf(db.jobs, IsRun) == CountOf(db.approvals, IsApprovedRun) + CountOf(db.audits, IsUngated)
            && CountOf(db.jobs, IsAuditPackage) == CountOf(db.approvals, IsApprovedPackage)
            && CountOf(db.jobs, IsFinishedRun) == CountOf(db.approvals, IsPackageRequest)
    ensures var db := Run(INITIAL, actions).db;
            forall j, k, a :: RunJob(db, j, a) && RunJob(db, k, a) ==> j == k
  {
    ReachableInv(actions);
  }

  /** An audit never gets a second run job or run request: the first one is the only one, for ever. */
  lemma {:induction false} RunJobIsFinal(past: seq<Action>, future: seq<Action>, j: JobId, k: JobId, a: AuditId)
    requires RunJob(Run(INITIAL, past).db, j, a) && RunJob(Run(INITIAL, past + future).db, k, a)
    ensures j == k
  {
    RunConcat(INITIAL, past, future);
    ReachableInv(past);
    ReachableInv(past + future);
    RunJobStays(Run(INITIAL, past), future, j, a);
  }

  lemma {:induction false} RunJobStays(s: State, actions: seq<Action>, j: JobId, a: AuditId)
    requires Inv(s) && RunJob(s.db, j, a)
    ensures RunJob(Run(s, actions).db, j, a)
    decreases |actions|
  {
    if actions != [] {
      StepTokens(s, actions[0]);
      StepKeepsInv(s, actions[0]);
      RunJobStays(Next(s, actions[0]), actions[1..], j, a);
    }
  }

  // ---------- finalize ----------

  /** A completed audit has exactly one run job, completed, a parity report and exactly one packaging request. */
  lemma CompletedAuditIsWhole(actions: seq<Action>, a: AuditId)
    requires var db := Run(INITIAL, actions).db; a in db.audits && db.audits[a].status == AuditCompleted
    ensures var db := Run(INITIAL, actions).db;
            && a in db.reports
            && (exists j :: RunJob(db, j, a) && db.jobs[j].status == Completed)
            && (forall j, k :: RunJob(db, j, a) && RunJob(db, k, a) ==> j == k)
            && (exists ap :: PackageGate(db, ap, a))
            && (forall ap, bp :: PackageGate(db, ap, a) && PackageGate(db, bp, a) ==> ap == bp)
  {
    var db := Run(INITIAL, actions).db;
    ReachableInv(actions);
    assert HasRunJob(db, a);
    var j :| RunJob(db, j, a);
    assert RunJob(db, j, a) && db.jobs[j].status == Completed;
  }

  /** Whether the session is about to run the engine's finalize transaction. */
  predicate AtFinalize(s: State, h: Holder) {
    h in s.sessions && s.sessions[h].phase == Stepping && s.sessions[h].writesLeft == 0
    && s.sessions[h].todo != [] && s.sessions[h].todo[0].fence == FinishAudit
  }

  /** Finalize is all or nothing: its four writes together under the lease, no write at all without it. */
  lemma FinalizeIsAtomic(actions: seq<Action>, h: Holder, approval: ApprovalId)
    requires AtFinalize(Run(INITIAL, actions), h) && approval !in Run(INITIAL, actions).db.approvals
    ensures var s := Run(INITIAL, actions);
            var next := Next(s, Step(h, approval));
            && s.sessions[h].audit.Some? && h !in next.sessions
            && (if Held(s, h) then Finalized(s.db, next.db, s.sessions[h].audit.value, h.job, approval, s.clock)
                else next.db == s.db)
            && (Held(s, h) ==> next.db.approvals == s.db.approvals[approval :=
                  Approval(PackageArtifacts, s.sessions[h].audit.value, Pending, "auditor-service", s.clock,
                           None, None, None)])
  {
    ReachableInv(actions);
    FinalizeStep(Run(INITIAL, actions), h, approval);
  }

  // ---------- decisions ----------

  /** A refused, expired or rolled-back decision leaves every table as it was. */
  lemma RefusalRestores(actions: seq<Action>, id: ApprovalId, verdict: Verdict, actor: Actor, reason: Option<string>,
                        job: JobId)
    ensures var s := Run(INITIAL, actions);
            var (after, outcome) := DecideTx(s.db, id, verdict, actor, reason, s.clock, job);
            outcome != Decided ==> after == s.db
  {
    var s := Run(INITIAL, actions);
    ReachableInv(actions);
    var (after, outcome) := DecideTx(s.db, id, verdict, actor, reason, s.clock, job);
    if outcome in {SelfApproval, Expired} {
      assert ApprovalOk(s.db.approvals[id], s.clock);
      assert after.approvals == s.db.approvals;
    }
  }

  const HOUR_MS: Time := 3_600_000

  /** What one decision answers: the first of its checks that fails. */
  function Answer(row: Approval, actor: Actor, now: Time): DecideOutcome {
    if row.status != Pending then NotPending
    else if row.requestedBy == actor && row.requestedBy != SYSTEM then SelfApproval
    else if now > row.requestedAt + 24 * HOUR_MS then Expired
    else Decided
  }

  /** The row says who decided what, when and why, and asks for what it asked for. */
  predicate Recorded(row: Approval, next: Approval, verdict: Verdict, actor: Actor, reason: Option<string>, now: Time) {
    next == Approval(row.action, row.target, if verdict == Approve then Approved else Rejected,
                     row.requestedBy, row.requestedAt, Some(actor), Some(now), reason)
  }

  /** A decision acts on its target: an approval runs or packages it, a rejection cancels a run. */
  predicate ActedUpon(db: Db, after: Db, row: Approval, verdict: Verdict, now: Time, job: JobId) {
    && after.reports == db.reports
    && (if row.action == RunAudit then
          row.target in db.audits
          && after.audits == db.audits[row.target :=
               db.audits[row.target].(status := if verdict == Approve then AuditRunning else Cancelled)]
        else after.audits == db.audits)
    && (if verdict == Approve then
          after.jobs == db.jobs[job :=
            Job(if row.action == RunAudit then AuditRun else ArtifactPackage, Queued, Some(row.target),
                0, DEFAULT_MAX_ATTEMPTS, None, None, Some(now), now)]
        else after.jobs == db.jobs)
  }

  /**
   Who can decide what: in a reachable state a decision on a pending request takes effect exactly when it is
   timely and comes from another person (or the request is the system's), and is never rolled back.  Expiry
   is checked before the verdict, so an expired request cannot even be rejected.  A decision that takes effect
   is recorded in its row and acted upon.
   */
  lemma DecisionTakesEffect(actions: seq<Action>, id: ApprovalId, verdict: Verdict, actor: Actor,
                            reason: Option<string>, job: JobId)
    requires var s := Run(INITIAL, actions); id in s.db.approvals && job !in s.db.jobs
    ensures var s := Run(INITIAL, actions);
            var row := s.db.approvals[id];
            var (after, outcome) := DecideTx(s.db, id, verdict, actor, reason, s.clock, job);
            && (outcome == Decided <==>
                  && row.status == Pending
                  && (row.requestedBy != actor || row.requestedBy == SYSTEM)
                  && s.clock <= row.requestedAt + 24 * HOUR_MS)
            && outcome == Answer(row, actor, s.clock)
            && (outcome == Decided ==>
                  && id in after.approvals && after.approvals == s.db.approvals[id := after.approvals[id]]
                  && Recorded(row, after.approvals[id], verdict, actor, reason, s.clock)
                  && ActedUpon(s.db, after, row, verdict, s.clock, job))
  {
    var s := Run(INITIAL, actions);
    ReachableInv(actions);
    PendingGateIsFree(s, id);
    DecisionActs(s.db, id, verdict, actor, reason, s.clock, job);
  }

  lemma DecisionActs(db: Db, id: ApprovalId, verdict: Verdict, actor: Actor, reason: Option<string>, now: Time,
                     job: JobId)
    requires id in db.approvals
    requires var row := db.approvals[id];
      row.status == Pending && row.action == RunAudit ==>
        row.target in db.audits && !RunJobTaken(db, row.target) && !ActiveTaken(db, row.target)
    ensures var row := db.approvals[id];
      var (after, outcome) := DecideTx(db, id, verdict, actor, reason, now, job);
      && outcome == Answer(row, actor, now)
      && (outcome == Decided ==>
            && id in after.approvals && after.approvals == db.approvals[id := after.approvals[id]]
            && Recorded(row, after.approvals[id], verdict, actor, reason, now)
            && ActedUpon(db, after, row, verdict, now, job))
  {
    var row := db.approvals[id];
    if row.action == RunAudit && row.target in db.audits {
      TargetIsFree(db, id, verdict, actor, reason, now);
    }
  }

  /** The decision itself does not take the slot or the job of its target. */
  lemma TargetIsFree(db: Db, id: ApprovalId, verdict: Verdict, actor: Actor, reason: Option<string>, now: Time)
    requires id in db.approvals && db.approvals[id].target in db.audits
    ensures var a := db.approvals[id].target;
      var decided := db.(approvals := db.approvals[id := MarkDecided(db.approvals[id], verdict, actor, reason, now)]);
      && (ActiveTaken(decided, a) <==> ActiveTaken(db, a))
      && (RunJobTaken(decided.(audits := decided.audits[a := decided.audits[a].(status := AuditRunning)]), a)
          <==> RunJobTaken(db, a))
  {
  }

  /** The audit a pending run request waits for occupies the active slot itself and has no job. */
  lemma PendingGateIsFree(s: State, id: ApprovalId)
    requires Inv(s) && id in s.db.approvals
    ensures var row := s.db.approvals[id];
            row.status == Pending && row.action == RunAudit ==>
              row.target in s.db.audits && !RunJobTaken(s.db, row.target) && !ActiveTaken(s.db, row.target)
  {
    var row := s.db.approvals[id];
    if row.status == Pending && row.action == RunAudit {
      assert RunGate(s.db, id, row.target);
      if RunJobTaken(s.db, row.target) {
        var j :| j in s.db.jobs && IsRunJobOf(s.db.jobs[j], row.target) && s.db.jobs[j].status in {Queued, Running};
        assert RunJob(s.db, j, row.target);
      }
    }
  }

  // ---------- idempotent start ----------

  function AnsweredAudit(c: Call): Option<AuditId> {
    match c.pc
    case Returned(Started(a, _)) => Some(a)
    case Returned(AwaitingApproval(a, _)) => Some(a)
    case _ => None
  }

  /** At most one audit per key and one active audit; every answered call with a key names its audit. */
  lemma IdempotentStart(actions: seq<Action>, c: nat, d: nat)
    requires var s := Run(INITIAL, actions);
             c in s.calls && d in s.calls && s.calls[c].key.Some? && s.calls[c].key == s.calls[d].key
             && AnsweredAudit(s.calls[c]).Some? && AnsweredAudit(s.calls[d]).Some?
    ensures var s := Run(INITIAL, actions);
            && AnsweredAudit(s.calls[c]) == AnsweredAudit(s.calls[d])
            && AnsweredAudit(s.calls[c]).value in s.db.audits
            && s.db.audits[AnsweredAudit(s.calls[c]).value].key == s.calls[c].key
  {
    var s := Run(INITIAL, actions);
    ReachableInv(actions);
    assert CallOk(s.db, s.calls[c]) && CallOk(s.db, s.calls[d]);
  }

  lemma UniqueAudits(actions: seq<Action>, a: AuditId, b: AuditId)
    requires var db := Run(INITIAL, actions).db; a in db.audits && b in db.audits
    requires var db := Run(INITIAL, actions).db;
             (IsActive(db.audits[a]) && IsActive(db.audits[b]))
             || (db.audits[a].key.Some? && db.audits[a].key == db.audits[b].key)
    ensures a == b
  {
    ReachableInv(actions);
  }
}
