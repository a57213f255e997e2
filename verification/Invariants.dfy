/**
 The inductive invariant of the protocol, in groups that depend on few parts of the state.
 `Reachability` proves that every action keeps it.
 */
module Invariants {
  import opened Counting
  import opened Tables
  import opened Programs
  import opened Protocol

  // ---------- job rows and claims ----------

  predicate RowOk(row: Job) {
    && row.attempt <= row.maxAttempts
    && (row.kind == AuditRun ==> row.audit.Some?)
    && (row.status == Queued ==> row.token.None? && row.lockedBy.None?)
    && (row.status == Running || row.status == Completed ==>
          row.token.Some? && row.lockedBy.Some? && row.attempt >= 1)
    && (row.status == Failed || row.status == TimedOut ==> row.token.None?)
  }

  /** A stored token was issued to the row's owner, for this attempt at this job. */
  ghost predicate RowClaimed(s: State, j: JobId)
    requires j in s.db.jobs
  {
    var row := s.db.jobs[j];
    row.token.Some? ==>
      row.token.value in s.claims && row.lockedBy.Some?
      && s.claims[row.token.value] == Claim(row.lockedBy.value, j, row.attempt)
  }

  ghost predicate JobsOk(s: State) {
    forall j <- s.db.jobs :: RowOk(s.db.jobs[j]) && RowClaimed(s, j)
  }

  // ---------- sessions ----------

  predicate PhaseOk(x: Session) {
    match x.phase
    case Stepping => true
    case EventPending => x.kind != AuditRun
    case ExecutorFailing => x.kind != AuditRun
    case _ => x.kind == AuditRun
  }

  /** A session that still holds its lease works on a running job, or has just completed it. */
  ghost predicate HolderOk(s: State, h: Holder)
    requires h in s.sessions && h.job in s.db.jobs
  {
    var x := s.sessions[h];
    Held(s, h) ==>
      && s.db.jobs[h.job].attempt == x.attempt
      && (s.db.jobs[h.job].status == Running
          || (s.db.jobs[h.job].status == Completed && x.phase in {EventPending, ExecutorFailing}))
      && (x.phase.ReleaseJob? && !x.phase.exhausted ==> x.attempt < x.maxAttempts)
  }

  ghost predicate SessionOk(s: State, h: Holder)
    requires h in s.sessions
  {
    var x := s.sessions[h];
    && h.job in s.db.jobs
    && x.kind == s.db.jobs[h.job].kind
    && x.audit == s.db.jobs[h.job].audit
    && x.maxAttempts == s.db.jobs[h.job].maxAttempts
    && x.token.Some? && x.token.value in s.claims
    && s.claims[x.token.value] == Claim(h.worker, h.job, x.attempt)
    && PhaseOk(x)
    && (x.kind != AuditRun ==> x.bound == 1)
    && WellFormed(x.todo, x.kind, x.bound)
    && x.writesLeft <= x.bound
    && HolderOk(s, h)
  }

  ghost predicate SessionsOk(s: State) {
    forall h <- s.sessions :: SessionOk(s, h)
  }

  // ---------- audits, their gate and their job ----------

  /** `audits_idempotency_uidx` and `audits_active_uidx`. */
  ghost predicate AuditsUnique(db: Db) {
    && (forall a <- db.audits, b <- db.audits ::
          db.audits[a].key.Some? && db.audits[a].key == db.audits[b].key ==> a == b)
    && (forall a <- db.audits, b <- db.audits :: IsActive(db.audits[a]) && IsActive(db.audits[b]) ==> a == b)
  }

  predicate RunJob(db: Db, j: JobId, a: AuditId) {
    j in db.jobs && IsRunJobOf(db.jobs[j], a)
  }

  ghost predicate HasRunJob(db: Db, a: AuditId) {
    exists j :: RunJob(db, j, a)
  }

  predicate RunGate(db: Db, ap: ApprovalId, a: AuditId) {
    ap in db.approvals && db.approvals[ap].action == RunAudit && db.approvals[ap].target == a
  }

  ghost predicate HasRunGate(db: Db, a: AuditId) {
    exists ap :: RunGate(db, ap, a)
  }

  predicate PackageGate(db: Db, ap: ApprovalId, a: AuditId) {
    ap in db.approvals && db.approvals[ap].action == PackageArtifacts && db.approvals[ap].target == a
  }

  /** Rows reference existing audits; an audit has at most one run job, one run gate, one packaging gate. */
  ghost predicate ShapeOk(db: Db) {
    && (forall j, a :: RunJob(db, j, a) ==> a in db.audits)
    && (forall j, k, a :: RunJob(db, j, a) && RunJob(db, k, a) ==> j == k)
    && (forall ap, a :: RunGate(db, ap, a) ==> a in db.audits && db.audits[a].production)
    && (forall ap, bp, a :: RunGate(db, ap, a) && RunGate(db, bp, a) ==> ap == bp)
    && (forall a <- db.audits :: db.audits[a].production ==> HasRunGate(db, a))
    && (forall ap, bp, a :: PackageGate(db, ap, a) && PackageGate(db, bp, a) ==> ap == bp)
  }

  /** The status of an audit before its job exists is decided by its gate alone. */
  ghost predicate GateOk(db: Db) {
    && (forall a <- db.audits ::
          HasRunJob(db, a) <==> db.audits[a].status !in {WaitingApproval, Cancelled})
    && (forall a <- db.audits :: !db.audits[a].production ==> HasRunJob(db, a))
    && (forall ap, a :: RunGate(db, ap, a) && a in db.audits ==>
          match db.approvals[ap].status
          case Pending => db.audits[a].status == WaitingApproval
          case Rejected => db.audits[a].status == Cancelled
          case Approved => db.audits[a].status !in {WaitingApproval, Cancelled})
  }

  /** What a finished run leaves behind. */
  ghost predicate CompletionOk(db: Db) {
    && (forall j, a :: RunJob(db, j, a) && db.jobs[j].status == Completed ==>
          a in db.reports && exists ap :: PackageGate(db, ap, a))
    && (forall a <- db.audits, j :: db.audits[a].status == AuditCompleted && RunJob(db, j, a) ==>
          db.jobs[j].status == Completed)
    && (forall ap, a, j :: PackageGate(db, ap, a) && RunJob(db, j, a) ==> db.jobs[j].status == Completed)
    && (forall ap, a :: PackageGate(db, ap, a) ==> HasRunJob(db, a))
  }

  // ---------- approvals ----------

  ghost predicate ApprovalOk(row: Approval, now: Time) {
    && row.requestedAt <= now
    && (row.status == Pending ==> row.decidedBy.None? && row.decidedAt.None? && row.reason.None?)
    && (row.status != Pending ==>
          && row.decidedBy.Some? && row.decidedAt.Some?
          && (row.decidedBy.value == row.requestedBy ==> row.requestedBy == SYSTEM)
          && row.requestedAt <= row.decidedAt.value <= row.requestedAt + APPROVAL_TTL_MS
          && row.decidedAt.value <= now)
  }

  ghost predicate ApprovalsOk(s: State) {
    forall ap <- s.db.approvals :: ApprovalOk(s.db.approvals[ap], s.clock)
  }

  // ---------- other local states ----------

  ghost predicate SweepsOk(s: State) {
    forall w <- s.sweeps :: forall a :: a in s.sweeps[w].timedOut || a in s.sweeps[w].requeued ==> HasRunJob(s.db, a)
  }

  /** An answered call that is not a conflict names an audit with the call's key. */
  ghost predicate CallOk(db: Db, c: Call) {
    match c.pc
    case FindApproval(a) => a in db.audits && db.audits[a].key == c.key
    case Returned(Started(a, _)) => a in db.audits && db.audits[a].key == c.key
    case Returned(AwaitingApproval(a, _)) => a in db.audits && db.audits[a].key == c.key
    case _ => true
  }

  ghost predicate CallsOk(s: State) {
    forall c <- s.calls :: CallOk(s.db, s.calls[c])
  }

  // ---------- conservation ----------

  predicate IsRun(row: Job) {
    row.kind == AuditRun
  }

  predicate IsFinishedRun(row: Job) {
    row.kind == AuditRun && row.status == Completed
  }

  /** An `artifact.package` job that carries an audit. */
  predicate IsAuditPackage(row: Job) {
    row.kind == ArtifactPackage && row.audit.Some?
  }

  predicate IsUngated(row: Audit) {
    !row.production
  }

  predicate IsApprovedRun(row: Approval) {
    row.action == RunAudit && row.status == Approved
  }

  predicate IsApprovedPackage(row: Approval) {
    row.action == PackageArtifacts && row.status == Approved
  }

  predicate IsPackageRequest(row: Approval) {
    row.action == PackageArtifacts
  }

  ghost predicate Conserved(db: Db) {
    && CountOf(db.jobs, IsRun) == CountOf(db.approvals, IsApprovedRun) + CountOf(db.audits, IsUngated)
    && CountOf(db.jobs, IsAuditPackage) == CountOf(db.approvals, IsApprovedPackage)
    && CountOf(db.jobs, IsFinishedRun) == CountOf(db.approvals, IsPackageRequest)
  }

  // ---------- the invariant ----------

  ghost predicate TablesOk(db: Db) {
    AuditsUnique(db) && ShapeOk(db) && GateOk(db) && CompletionOk(db) && Conserved(db)
  }

  /** Workers and their job rows. */
  ghost predicate WorkersOk(s: State) {
    JobsOk(s) && SessionsOk(s)
  }

  ghost predicate LocalsOk(s: State) {
    ApprovalsOk(s) && SweepsOk(s) && CallsOk(s)
  }

  ghost predicate Inv(s: State) {
    WorkersOk(s) && LocalsOk(s) && TablesOk(s.db)
  }
}
