/**
 The queue as a concurrent protocol: every action is one SQL statement or transaction of
 one process, so an arbitrary action sequence is an arbitrary interleaving of any number
 of workers, supervisor runs, shutdowns, `startAudit` calls and approval decisions.

 `Next` is total: an action whose guard fails leaves the state unchanged.
 */
module Protocol {
  import opened Wrappers
  import opened Tables
  import opened Programs

  /** One claim as the worker knows it; a token is issued to exactly one claim. */
  datatype Claim = Claim(worker: WorkerId, job: JobId, attempt: nat)

  /** A worker works on a job at most once at a time (`busy` and `inFlight`). */
  datatype Holder = Holder(worker: WorkerId, job: JobId)

  /**
   - `Stepping`: inside the engine or the executor
   - `EventPending`: the executor's closing update is done, the event row is not
   - `ExecutorFailing`: in the executor's catch block
   - `MarkAuditFailed` .. `ResetAudit`: the statements of the engine's catch block, in order
   */
  datatype Phase =
    | Stepping
    | EventPending
    | ExecutorFailing
    | MarkAuditFailed
    | ReadAttempts
    | ReleaseJob(exhausted: bool)
    | ReadStatus
    | ResetAudit

  /** A worker's local state for one job; `writesLeft` unfenced writes come before its next fence. */
  datatype Session = Session(
    kind: JobKind,
    audit: Option<AuditId>,
    token: Option<Token>,
    attempt: nat,
    maxAttempts: nat,
    lost: bool,
    todo: Program,
    writesLeft: nat,
    bound: nat,
    phase: Phase)

  /** A supervisor run between its statements, with the audits it still has to touch. */
  datatype Sweep = Sweep(timedOut: set<AuditId>, requeued: set<AuditId>, swept: bool)

  datatype StartResult =
    | Started(audit: AuditId, replayed: bool)
    | AwaitingApproval(audit: AuditId, approval: Option<ApprovalId>)
    | Conflict(active: Option<AuditId>)

  datatype CallPc =
    | LookUpKey
    | CheckActive
    | Insert
    | Replay
    | FindApproval(audit: AuditId)
    | ReportConflict
    | Returned(result: StartResult)

  /** One `startAudit` call between its statements. */
  datatype Call = Call(key: Option<IdempotencyKey>, production: bool, actor: Actor, pc: CallPc)

  datatype State = State(
    db: Db,
    clock: Time,
    claims: map<Token, Claim>,
    sessions: map<Holder, Session>,
    sweeps: map<nat, Sweep>,
    calls: map<nat, Call>)

  const INITIAL := State(EMPTY_DB, 0, map[], map[], map[], map[])

  datatype Action =
    | Elapse(delta: nat)
    | OpenCall(call: nat, key: Option<IdempotencyKey>, production: bool, actor: Actor)
    | CallStep(call: nat, pick: nat, audit: AuditId, approval: ApprovalId, job: JobId, keyFirst: bool)
    | Decide(approval: ApprovalId, verdict: Verdict, actor: Actor, reason: Option<string>, job: JobId)
    | Enqueue(kind: JobKind, job: JobId)
    | ClaimJob(worker: WorkerId, job: JobId, token: Token)
    | Open(worker: WorkerId, job: JobId, scanners: nat, findings: nat)
    | Step(holder: Holder, approval: ApprovalId)
    | Beat(holder: Holder)
    | Raise(holder: Holder)
    | EventStored(holder: Holder)
    | Abandon(holder: Holder)
    | SweepTimeouts(sweep: nat)
    | SweepRequeues(sweep: nat)
    | SweepFollow(sweep: nat, audit: AuditId)
    | SweepAbort(sweep: nat)
    | Shutdown(worker: WorkerId)

  function Next(s: State, action: Action): State {
    match action
    case Elapse(delta) => s.(clock := s.clock + delta)
    case OpenCall(call, key, production, actor) =>
      if call in s.calls then s
      else s.(calls := s.calls[call := Call(key, production, actor, if key.Some? then LookUpKey else CheckActive)])
    case CallStep(call, pick, audit, approval, job, keyFirst) =>
      if call !in s.calls || audit in s.db.audits || approval in s.db.approvals || job in s.db.jobs then s
      else StepCall(s, call, pick, audit, approval, job, keyFirst)
    case Decide(approval, verdict, actor, reason, job) =>
      if job in s.db.jobs then s
      else s.(db := DecideTx(s.db, approval, verdict, actor, reason, s.clock, job).0)
    case Enqueue(kind, job) =>
      if kind == AuditRun || job in s.db.jobs then s
      else s.(db := PutJob(s.db, job, NewJob(kind, None, s.clock)))
    case ClaimJob(worker, job, token) =>
      if job !in s.db.jobs || !Claimable(s.db.jobs[job]) || token in s.claims then s
      else
        var row := Claimed(s.db.jobs[job], worker, token, s.clock);
        s.(db := PutJob(s.db, job, row), claims := s.claims[token := Claim(worker, job, row.attempt)])
    case Open(worker, job, scanners, findings) =>
      if job !in s.db.jobs || s.db.jobs[job].status != Running || s.db.jobs[job].lockedBy != Some(worker)
         || Holder(worker, job) in s.sessions then s
      else s.(sessions := s.sessions[Holder(worker, job) := NewSession(s.db.jobs[job], scanners, findings)])
    case Step(h, approval) =>
      if h !in s.sessions || approval in s.db.approvals then s else StepSession(s, h, approval)
    case Beat(h) => if h !in s.sessions then s else BackgroundBeat(s, h)
    case Raise(h) => if h !in s.sessions then s else RaiseIn(s, h)
    case EventStored(h) =>
      if h !in s.sessions || s.sessions[h].phase != EventPending then s else Close(s, h)
    case Abandon(h) => if h !in s.sessions then s else Close(s, h)
    case SweepTimeouts(sweep) =>
      if sweep in s.sweeps then s
      else s.(db := TimeOutStale(s.db, s.clock),
              sweeps := s.sweeps[sweep := Sweep(TimedOutAudits(s.db, s.clock), {}, false)])
    case SweepRequeues(sweep) =>
      if sweep !in s.sweeps || s.sweeps[sweep].swept then s
      else s.(db := RequeueStale(s.db, s.clock),
              sweeps := s.sweeps[sweep := Sweep(s.sweeps[sweep].timedOut, RequeuedAudits(s.db, s.clock), true)])
    case SweepFollow(sweep, audit) =>
      if sweep !in s.sweeps || !s.sweeps[sweep].swept then s else FollowUp(s, sweep, audit)
    case SweepAbort(sweep) => s.(sweeps := s.sweeps - {sweep})
    case Shutdown(worker) => s.(db := ReleaseWorker(s.db, worker))
  }

  /** The state after a whole interleaving. */
  function Run(s: State, actions: seq<Action>): State
    decreases |actions|
  {
    if actions == [] then s else Run(Next(s, actions[0]), actions[1..])
  }

  // ---------- startAudit ----------

  function Goto(s: State, call: nat, pc: CallPc): State
    requires call in s.calls
  {
    s.(calls := s.calls[call := s.calls[call].(pc := pc)])
  }

  /** The answer to a call whose key already names `audit`. */
  function Answer(db: Db, audit: AuditId): CallPc
    requires audit in db.audits
  {
    if db.audits[audit].status == WaitingApproval then FindApproval(audit)
    else Returned(Started(audit, true))
  }

  predicate Keyed(db: Db, audit: AuditId, key: Option<IdempotencyKey>) {
    key.Some? && audit in db.audits && db.audits[audit].key == key
  }

  predicate PendingFor(db: Db, approval: ApprovalId, audit: AuditId) {
    approval in db.approvals && db.approvals[approval].target == audit && db.approvals[approval].status == Pending
  }

  predicate ActiveRow(db: Db, audit: AuditId) {
    audit in db.audits && IsActive(db.audits[audit])
  }

  /**
   Where the reading statements of a call lead; `pick` is the row a `LIMIT 1` query happens
   to return, and None says that the query returned another row than `pick`.
   */
  function NextPc(db: Db, c: Call, pick: nat): Option<CallPc> {
    match c.pc
    case LookUpKey =>
      if !KeyTaken(db, c.key) then Some(CheckActive)
      else if Keyed(db, pick, c.key) then Some(Answer(db, pick))
      else None
    case CheckActive =>
      if ActiveRow(db, pick) then Some(Returned(Conflict(Some(pick))))
      else if exists a <- db.audits :: ActiveRow(db, a) then None
      else Some(Insert)
    case Replay => if Keyed(db, pick, c.key) then Some(Answer(db, pick)) else None
    case FindApproval(a) =>
      if PendingFor(db, pick, a) then Some(Returned(AwaitingApproval(a, Some(pick))))
      else if exists ap <- db.approvals :: PendingFor(db, ap, a) then None
      else Some(Returned(AwaitingApproval(a, None)))
    case ReportConflict =>
      if ActiveRow(db, pick) then Some(Returned(Conflict(Some(pick))))
      else if exists a <- db.audits :: ActiveRow(db, a) then None
      else Some(Returned(Conflict(None)))
    case _ => None
  }

  function StepCall(s: State, call: nat, pick: nat, audit: AuditId, approval: ApprovalId, job: JobId,
                    keyFirst: bool): State
    requires call in s.calls
  {
    var c := s.calls[call];
    if c.pc == Insert then
      match StartTx(s.db, c.production, c.key, c.actor, s.clock, audit, approval, job, keyFirst)
      case Done(db) =>
        var result := if c.production then AwaitingApproval(audit, Some(approval)) else Started(audit, false);
        Goto(s.(db := db), call, Returned(result))
      case Violation(AuditsIdempotency) => Goto(s, call, Replay)
      case Violation(AuditsActive) => Goto(s, call, ReportConflict)
      case Violation(JobsAuditRunActive) => s.(calls := s.calls - {call})
    else
      match NextPc(s.db, c, pick)
      case None => s
      case Some(pc) => Goto(s, call, pc)
  }

  // ---------- a worker's session ----------

  function NewSession(row: Job, scanners: nat, findings: nat): Session {
    Session(row.kind, row.audit, row.token, row.attempt, row.maxAttempts, false,
            ProgramOf(row.kind, scanners, findings), 0, WriteBound(row.kind, findings), Stepping)
  }

  function Close(s: State, h: Holder): State {
    s.(sessions := s.sessions - {h})
  }

  function Put(s: State, h: Holder, session: Session): State {
    s.(sessions := s.sessions[h := session])
  }

  /** The job row still stores the token the session was given. */
  predicate Held(s: State, h: Holder) {
    h in s.sessions && h.job in s.db.jobs && s.db.jobs[h.job].token == s.sessions[h].token
  }

  /** What `assert()` decides: the background flag, then the stored token. */
  predicate PassesAssert(s: State, h: Holder) {
    h in s.sessions && (s.sessions[h].token.None? || (!s.sessions[h].lost && Held(s, h)))
  }

  function Advance(session: Session): Session
    requires session.todo != []
  {
    session.(writesLeft := session.todo[0].writes, todo := session.todo[1..])
  }

  function StepSession(s: State, h: Holder, approval: ApprovalId): State
    requires h in s.sessions
  {
    var x := s.sessions[h];
    match x.phase
    case Stepping =>
      if x.writesLeft > 0 then
        Put(s, h, x.(writesLeft := x.writesLeft - 1))
      else if x.todo == [] then s
      else PassFence(s, h, approval)
    case EventPending => s
    case ExecutorFailing =>
      var exhausted := x.attempt >= x.maxAttempts;
      Close(s.(db := FailExecutorJob(s.db, h.job, x.token, exhausted, s.clock)), h)
    case MarkAuditFailed =>
      if x.audit.None? then s
      else (match SetAuditStatus(s.db, x.audit.value, AuditFailed)
            case Done(db) => Put(s.(db := db), h, x.(phase := ReadAttempts))
            case Violation(_) => Close(s, h))
    case ReadAttempts =>
      var exhausted := h.job !in s.db.jobs || s.db.jobs[h.job].attempt >= s.db.jobs[h.job].maxAttempts;
      Put(s, h, x.(phase := ReleaseJob(exhausted)))
    case ReleaseJob(exhausted) =>
      var released := s.(db := FailEngineJob(s.db, h.job, x.token, exhausted));
      if exhausted then Close(released, h) else Put(released, h, x.(phase := ReadStatus))
    case ReadStatus =>
      if h.job in s.db.jobs && s.db.jobs[h.job].status == TimedOut then Close(s, h)
      else Put(s, h, x.(phase := ResetAudit))
    case ResetAudit =>
      if x.audit.None? then s
      else (match SetAuditStatusIf(s.db, x.audit.value, AuditFailed, AuditRunning)
            case Done(db) => Close(s.(db := db), h)
            case Violation(_) => Close(s, h))
  }

  function PassFence(s: State, h: Holder, approval: ApprovalId): State
    requires h in s.sessions && s.sessions[h].todo != []
  {
    var x := s.sessions[h];
    match x.todo[0].fence
    case CheckAudit =>
      if x.audit.Some? && x.audit.value in s.db.audits && s.db.audits[x.audit.value].status == AuditRunning then
        Put(s, h, Advance(x))
      else Close(s, h)
    case Assert => if PassesAssert(s, h) then Put(s, h, Advance(x)) else Close(s, h)
    case Progress =>
      if LeaseMatches(s.db, h.job, x.token) then
        Put(s.(db := Heartbeat(s.db, h.job, x.token, s.clock)), h, Advance(x))
      else Close(s, h)
    case FinishAudit =>
      if x.audit.None? then s
      else (match FinalizeTx(s.db, x.audit.value, h.job, x.token, approval, s.clock)
            case Committed(db) => Close(s.(db := db), h)
            case LeaseLost => Close(s, h))
    case FinishJob =>
      Put(s.(db := CompleteJob(s.db, h.job, x.token, s.clock)), h, x.(phase := EventPending))
  }

  /** The 15s timer: refresh the heartbeat under the token, remember a lost lease. */
  function BackgroundBeat(s: State, h: Holder): State
    requires h in s.sessions
  {
    var x := s.sessions[h];
    if LeaseMatches(s.db, h.job, x.token) then s.(db := Heartbeat(s.db, h.job, x.token, s.clock))
    else Put(s, h, x.(lost := true))
  }

  /** The running operation throws something else than a lost lease. */
  function RaiseIn(s: State, h: Holder): State
    requires h in s.sessions
  {
    var x := s.sessions[h];
    if x.phase == EventPending || (x.phase == Stepping && x.kind != AuditRun) then
      Put(s, h, x.(phase := ExecutorFailing))
    else if x.phase == Stepping && !(x.todo != [] && x.todo[0].fence == CheckAudit) then
      Put(s, h, x.(phase := MarkAuditFailed))
    else Close(s, h)
  }

  // ---------- supervisor ----------

  /** One iteration of the loops after the two supervisor statements. */
  function FollowUp(s: State, sweep: nat, audit: AuditId): State
    requires sweep in s.sweeps
  {
    var w := s.sweeps[sweep];
    if audit in w.timedOut then
      match SetAuditStatusIf(s.db, audit, AuditRunning, AuditFailed)
      case Done(db) => s.(db := db, sweeps := s.sweeps[sweep := w.(timedOut := w.timedOut - {audit})])
      case Violation(_) => s.(sweeps := s.sweeps - {sweep})
    else if audit in w.requeued && w.timedOut == {} then
      match SetAuditStatus(s.db, audit, AuditRunning)
      case Done(db) => s.(db := db, sweeps := s.sweeps[sweep := w.(requeued := w.requeued - {audit})])
      case Violation(_) => s.(sweeps := s.sweeps - {sweep})
    else s
  }
}
