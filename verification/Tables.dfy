/**
 The rows of the control plane's database and its SQL statements.

 Every function that returns a `Db` is one statement, or one transaction, of the
 production mode (`APP_MODE=production`).  A partial unique index of `src/db/schema.ts`
 is a guard that makes a write fail, and the failing index is a tagged result.
 */
module Tables {
  import opened Wrappers

  type Time = int // milliseconds on one common clock
  type JobId = nat
  type AuditId = nat
  type ApprovalId = nat
  type WorkerId = nat
  type Token = nat
  type Actor = string
  type IdempotencyKey = string

  const STALE_INTERVAL_MS: Time := 45_000
  const APPROVAL_TTL_MS: Time := 24 * 60 * 60 * 1000
  const DEFAULT_MAX_ATTEMPTS: nat := 3
  const SYSTEM: Actor := "system"
  const AUDITOR_SERVICE: Actor := "auditor-service"

  datatype JobKind = AuditRun | SbomExport | ParityGate | ArtifactPackage | KnowledgeReindex

  datatype JobStatus = Queued | Running | Completed | Failed | TimedOut

  datatype Job = Job(
    kind: JobKind,
    status: JobStatus,
    audit: Option<AuditId>,
    attempt: nat,
    maxAttempts: nat,
    lockedBy: Option<WorkerId>,
    token: Option<Token>,
    heartbeatAt: Option<Time>,
    createdAt: Time)

  datatype AuditStatus = WaitingApproval | AuditRunning | AuditCompleted | AuditFailed | Cancelled

  datatype Audit = Audit(status: AuditStatus, production: bool, requestedBy: Actor, key: Option<IdempotencyKey>)

  datatype ApprovalAction = RunAudit | PackageArtifacts

  datatype ApprovalStatus = Pending | Approved | Rejected

  datatype Approval = Approval(
    action: ApprovalAction,
    target: AuditId,
    status: ApprovalStatus,
    requestedBy: Actor,
    requestedAt: Time,
    decidedBy: Option<Actor>,
    decidedAt: Option<Time>,
    reason: Option<string>)

  /**
   `reports` marks the audits whose parity report a finalize transaction wrote (`parity_audit_uidx`:
   one each); the report rows of `parity.gate` executors are unfenced writes of the protocol.
   */
  datatype Db = Db(
    jobs: map<JobId, Job>,
    audits: map<AuditId, Audit>,
    approvals: map<ApprovalId, Approval>,
    reports: set<AuditId>)

  const EMPTY_DB := Db(map[], map[], map[], {})

  datatype UniqueIndex = AuditsIdempotency | AuditsActive | JobsAuditRunActive

  datatype Write = Done(db: Db) | Violation(index: UniqueIndex)

  // ---------- unique indexes ----------

  predicate IsActive(audit: Audit) {
    audit.status.WaitingApproval? || audit.status.AuditRunning?
  }

  /** Another audit than `id` occupies the single slot of `audits_active_uidx`. */
  predicate ActiveTaken(db: Db, id: AuditId) {
    exists x <- db.audits :: x != id && IsActive(db.audits[x])
  }

  predicate KeyTaken(db: Db, key: Option<IdempotencyKey>) {
    key.Some? && exists x <- db.audits :: db.audits[x].key == key
  }

  predicate IsRunJobOf(job: Job, audit: AuditId) {
    job.kind == AuditRun && job.audit == Some(audit)
  }

  /** `jobs_audit_run_active_uidx` already has an entry for `audit`. */
  predicate RunJobTaken(db: Db, audit: AuditId) {
    exists j <- db.jobs :: IsRunJobOf(db.jobs[j], audit) && db.jobs[j].status in {Queued, Running}
  }

  // ---------- single-row statements on jobs ----------

  function NewJob(kind: JobKind, audit: Option<AuditId>, now: Time): Job {
    Job(kind, Queued, audit, 0, DEFAULT_MAX_ATTEMPTS, None, None, Some(now), now)
  }

  function PutJob(db: Db, id: JobId, job: Job): Db {
    db.(jobs := db.jobs[id := job])
  }

  predicate Claimable(job: Job) {
    job.status == Queued && job.attempt < job.maxAttempts
  }

  function Claimed(job: Job, worker: WorkerId, token: Token, now: Time): Job {
    job.(status := Running, lockedBy := Some(worker), token := Some(token),
         heartbeatAt := Some(now), attempt := job.attempt + 1)
  }

  /** `WHERE id = $job AND lease_token = $token`; without a token the filter is the id alone. */
  predicate LeaseMatches(db: Db, job: JobId, token: Option<Token>) {
    job in db.jobs && (token.Some? ==> db.jobs[job].token == token)
  }

  function Heartbeat(db: Db, job: JobId, token: Option<Token>, now: Time): Db {
    if LeaseMatches(db, job, token) then
      PutJob(db, job, db.jobs[job].(heartbeatAt := Some(now)))
    else db
  }

  function CompleteJob(db: Db, job: JobId, token: Option<Token>, now: Time): Db {
    if LeaseMatches(db, job, token) then
      PutJob(db, job, db.jobs[job].(status := Completed, heartbeatAt := Some(now)))
    else db
  }

  function AfterFailure(job: Job, exhausted: bool): Job {
    job.(status := if exhausted then Failed else Queued, lockedBy := None, token := None)
  }

  /** The executor's error path; it also refreshes the heartbeat column. */
  function FailExecutorJob(db: Db, job: JobId, token: Option<Token>, exhausted: bool, now: Time): Db {
    if LeaseMatches(db, job, token) then
      PutJob(db, job, AfterFailure(db.jobs[job], exhausted).(heartbeatAt := Some(now)))
    else db
  }

  /** The engine's error path. */
  function FailEngineJob(db: Db, job: JobId, token: Option<Token>, exhausted: bool): Db {
    if LeaseMatches(db, job, token) then
      PutJob(db, job, AfterFailure(db.jobs[job], exhausted))
    else db
  }

  // ---------- supervisor and shutdown: statements over every matching row ----------

  function LastBeat(job: Job): Time {
    if job.heartbeatAt.Some? then job.heartbeatAt.value else job.createdAt
  }

  predicate Stale(job: Job, now: Time) {
    job.status == Running && LastBeat(job) < now - STALE_INTERVAL_MS
  }

  predicate TimesOut(job: Job, now: Time) {
    Stale(job, now) && job.attempt >= job.maxAttempts
  }

  predicate Requeues(job: Job, now: Time) {
    Stale(job, now) && job.attempt < job.maxAttempts
  }

  function TimedOutRow(job: Job): Job {
    job.(status := TimedOut, token := None)
  }

  function ReleasedRow(job: Job): Job {
    job.(status := Queued, lockedBy := None, token := None)
  }

  function TimeOutStale(db: Db, now: Time): Db {
    db.(jobs := map j <- db.jobs :: if TimesOut(db.jobs[j], now) then TimedOutRow(db.jobs[j]) else db.jobs[j])
  }

  function RequeueStale(db: Db, now: Time): Db {
    db.(jobs := map j <- db.jobs :: if Requeues(db.jobs[j], now) then ReleasedRow(db.jobs[j]) else db.jobs[j])
  }

  function ReleaseWorker(db: Db, worker: WorkerId): Db {
    db.(jobs := map j <- db.jobs ::
      if db.jobs[j].status == Running && db.jobs[j].lockedBy == Some(worker) then ReleasedRow(db.jobs[j])
      else db.jobs[j])
  }

  /** The audits named by the `audit.run` rows a supervisor statement returns. */
  function TimedOutAudits(db: Db, now: Time): set<AuditId> {
    set j <- db.jobs | TimesOut(db.jobs[j], now) && db.jobs[j].kind == AuditRun && db.jobs[j].audit.Some? ::
      db.jobs[j].audit.value
  }

  function RequeuedAudits(db: Db, now: Time): set<AuditId> {
    set j <- db.jobs | Requeues(db.jobs[j], now) && db.jobs[j].kind == AuditRun && db.jobs[j].audit.Some? ::
      db.jobs[j].audit.value
  }

  // ---------- audits ----------

  /** `UPDATE audits SET status WHERE id`, subject to `audits_active_uidx`. */
  function SetAuditStatus(db: Db, id: AuditId, status: AuditStatus): Write {
    if id !in db.audits then Done(db)
    else
      var row := db.audits[id].(status := status);
      if IsActive(row) && ActiveTaken(db, id) then Violation(AuditsActive)
      else Done(db.(audits := db.audits[id := row]))
  }

  /** The same, with a guard on the current status in the WHERE clause. */
  function SetAuditStatusIf(db: Db, id: AuditId, expected: AuditStatus, status: AuditStatus): Write {
    if id in db.audits && db.audits[id].status == expected then SetAuditStatus(db, id, status)
    else Done(db)
  }

  // ---------- transactions ----------

  /** The transaction of `startAudit`: the audit, and its approval request or its job. */
  function StartTx(db: Db, production: bool, key: Option<IdempotencyKey>, actor: Actor, now: Time,
                   audit: AuditId, approval: ApprovalId, job: JobId, keyFirst: bool): Write
  {
    var keyTaken := KeyTaken(db, key);
    var activeTaken := ActiveTaken(db, audit);
    if keyTaken && (keyFirst || !activeTaken) then Violation(AuditsIdempotency)
    else if activeTaken then Violation(AuditsActive)
    else
      var status := if production then WaitingApproval else AuditRunning;
      var db1 := db.(audits := db.audits[audit := Audit(status, production, actor, key)]);
      if production then
        var request := Approval(RunAudit, audit, Pending, actor, now, None, None, None);
        Done(db1.(approvals := db1.approvals[approval := request]))
      else if RunJobTaken(db1, audit) then Violation(JobsAuditRunActive)
      else Done(PutJob(db1, job, NewJob(AuditRun, Some(audit), now)))
  }

  datatype Verdict = Approve | Reject

  datatype DecideOutcome = Decided | NotPending | SelfApproval | Expired | RolledBack(index: UniqueIndex)

  function MarkDecided(approval: Approval, verdict: Verdict, actor: Actor, reason: Option<string>,
                       now: Time): Approval {
    approval.(status := if verdict == Approve then Approved else Rejected,
              decidedBy := Some(actor), decidedAt := Some(now), reason := reason)
  }

  function Reverted(approval: Approval): Approval {
    approval.(status := Pending, decidedBy := None, decidedAt := None, reason := None)
  }

  /** The transaction of `decideApproval`, write by write; `job` is the id of the job it may spawn. */
  function DecideTx(db: Db, id: ApprovalId, verdict: Verdict, actor: Actor, reason: Option<string>,
                    now: Time, job: JobId): (Db, DecideOutcome)
  {
    if id !in db.approvals || db.approvals[id].status != Pending then (db, NotPending)
    else
      var row := MarkDecided(db.approvals[id], verdict, actor, reason, now);
      var decided := db.(approvals := db.approvals[id := row]);
      var reverted := decided.(approvals := decided.approvals[id := Reverted(row)]);
      if row.requestedBy == actor && row.requestedBy != SYSTEM then (reverted, SelfApproval)
      else if row.requestedAt < now - APPROVAL_TTL_MS then (reverted, Expired)
      else if verdict == Reject then
        if row.action == RunAudit then
          match SetAuditStatus(decided, row.target, Cancelled)
          case Done(db1) => (db1, Decided)
          case Violation(index) => (db, RolledBack(index))
        else (decided, Decided)
      else if row.action == RunAudit then
        match SetAuditStatus(decided, row.target, AuditRunning)
        case Violation(index) => (db, RolledBack(index))
        case Done(db1) =>
          if RunJobTaken(db1, row.target) then (db, RolledBack(JobsAuditRunActive))
          else (PutJob(db1, job, NewJob(AuditRun, Some(row.target), now)), Decided)
      else
        (PutJob(decided, job, NewJob(ArtifactPackage, Some(row.target), now)), Decided)
  }

  datatype FinalizeOutcome = Committed(db: Db) | LeaseLost

  /** The packaging request that finalize leaves for audit `a`. */
  function PackagingRequest(a: AuditId, now: Time): Approval {
    Approval(PackageArtifacts, a, Pending, AUDITOR_SERVICE, now, None, None, None)
  }

  /** The engine's finalize transaction: report, audit, owning job, packaging approval. */
  function FinalizeTx(db: Db, audit: AuditId, job: JobId, token: Option<Token>, approval: ApprovalId,
                      now: Time): FinalizeOutcome {
    var db1 := db.(reports := db.reports + {audit});
    match SetAuditStatus(db1, audit, AuditCompleted)
    case Violation(_) => LeaseLost
    case Done(db2) =>
      if !LeaseMatches(db2, job, token) then LeaseLost
      else
        var db3 := CompleteJob(db2, job, token, now);
        Committed(db3.(approvals := db3.approvals[approval := PackagingRequest(audit, now)]))
  }
}
