/**
 The database as the processes change it in place: `claimJobs`, `advanceJobsOnce`,
 `requeueStaleJobs`, the shutdown release, `decideApproval` and the finalize transaction.

 Each method runs undisturbed here.  Where it gives a ghost `trace`, that trace is a run of
 `Protocol` from the same rows to the same rows, so what holds of every run holds of the method.
 */
module Store {
  import opened Wrappers
  import opened Counting
  import opened Tables
  import opened Programs
  import opened Protocol
  import opened Frames
  import opened ExecutorRuns

  predicate Owned(job: Job, worker: WorkerId) {
    job.status == Running && job.lockedBy == Some(worker)
  }

  predicate Advances(job: Job, worker: WorkerId) {
    Owned(job, worker) && job.kind != AuditRun
  }

  /** The row that the worker finds when its executor returns; others may have rewritten it `meanwhile`. */
  function Found(j: JobId, read: Job, meanwhile: map<JobId, Job>): Job {
    if j in meanwhile then meanwhile[j] else read
  }

  /** What becomes of a row whose executor is run. */
  function ClosedRow(j: JobId, read: Job, meanwhile: map<JobId, Job>, result: ExecutorResult, now: Time): Job {
    Closed(read, Found(j, read, meanwhile), result, now)
  }

  /** The worker's executor jobs, of which it works on none yet. */
  ghost predicate Idle(s: State, worker: WorkerId, jobs: map<JobId, Job>) {
    forall j <- jobs :: Advances(jobs[j], worker) ==> Holder(worker, j) !in s.sessions
  }

  /** The audits of the `audit.run` jobs among `rows`. */
  function AuditsOf(jobs: map<JobId, Job>, rows: seq<JobId>): set<AuditId> {
    set j <- rows | j in jobs && jobs[j].kind == AuditRun && jobs[j].audit.Some? :: jobs[j].audit.value
  }

  function FailRunning(audits: map<AuditId, Audit>, which: set<AuditId>): map<AuditId, Audit> {
    map a <- audits ::
      if a in which && audits[a].status == AuditRunning then audits[a].(status := AuditFailed) else audits[a]
  }

  function Resume(audits: map<AuditId, Audit>, which: set<AuditId>): map<AuditId, Audit> {
    map a <- audits :: if a in which then audits[a].(status := AuditRunning) else audits[a]
  }

  /** Some order of the rows a statement returns. */
  method Listing(ids: set<JobId>) returns (rows: seq<JobId>)
    ensures |rows| == |ids| && forall j :: j in rows <==> j in ids
    ensures forall i, k :: 0 <= i < k < |rows| ==> rows[i] != rows[k]
  {
    rows := [];
    var todo := ids;
    while todo != {}
      invariant todo <= ids && |rows| + |todo| == |ids|
      invariant forall j :: j in rows <==> j in ids && j !in todo
      invariant forall i, k :: 0 <= i < k < |rows| ==> rows[i] != rows[k]
      decreases todo
    {
      var j :| j in todo;
      rows := rows + [j];
      todo := todo - {j};
    }
  }

  class Database {
    var jobs: map<JobId, Job>
    var audits: map<AuditId, Audit>
    var approvals: map<ApprovalId, Approval>
    var reports: set<AuditId>

    constructor ()
      ensures Rows() == EMPTY_DB
    {
      jobs, audits, approvals, reports := map[], map[], map[], {};
    }

    /** The stored rows as one value. */
    function Rows(): Db
      reads this
    {
      Db(jobs, audits, approvals, reports)
    }

    // ---------- the worker's queue ----------

    /** Claims the oldest claimable job no other transaction has locked. */
    method ClaimJobs(worker: WorkerId, token: Token, locked: set<JobId>, now: Time, ghost s: State)
      returns (claimed: Option<JobId>, ghost trace: seq<Action>)
      requires s.db == Rows() && s.clock == now && token !in s.claims
      modifies this
      ensures audits == old(audits) && approvals == old(approvals) && reports == old(reports)
      ensures claimed.None? <==> forall j <- old(jobs) :: Claimable(old(jobs)[j]) ==> j in locked
      ensures claimed.None? ==> jobs == old(jobs)
      ensures claimed.Some? ==>
        var j := claimed.value;
        && j in old(jobs) && Claimable(old(jobs)[j]) && j !in locked
        && (forall k <- old(jobs) :: Claimable(old(jobs)[k]) && k !in locked ==>
              old(jobs)[j].createdAt <= old(jobs)[k].createdAt)
        && j in jobs && jobs == old(jobs)[j := jobs[j]]
        && jobs[j] == old(jobs)[j].(status := Running, lockedBy := Some(worker), token := Some(token),
                                    attempt := old(jobs)[j].attempt + 1, heartbeatAt := Some(now))
      ensures Run(s, trace).db == Rows()
    {
      var candidates := set j <- jobs | Claimable(jobs[j]) && j !in locked;
      if candidates == {} {
        assert forall j <- jobs :: Claimable(jobs[j]) && j !in locked ==> j in candidates;
        claimed, trace := None, [];
      } else {
        OldestExists(jobs, candidates);
        var j :| j in candidates && forall k <- candidates :: jobs[j].createdAt <= jobs[k].createdAt;
        trace := [ClaimJob(worker, j, token)];
        RunOne(s, trace[0], []);
        jobs := jobs[j := Claimed(jobs[j], worker, token, now)];
        claimed := Some(j);
      }
    }

    /** Gives the worker's running jobs back when it stops. */
    method Shutdown(worker: WorkerId, ghost s: State) returns (ghost trace: seq<Action>)
      requires s.db == Rows()
      modifies this
      ensures audits == old(audits) && approvals == old(approvals) && reports == old(reports)
      ensures jobs.Keys == old(jobs).Keys
      ensures forall j <- jobs ::
        jobs[j] == if old(jobs)[j].status == Running && old(jobs)[j].lockedBy == Some(worker)
                   then old(jobs)[j].(status := Queued, lockedBy := None, token := None) else old(jobs)[j]
      ensures Run(s, trace).db == Rows()
    {
      trace := [Protocol.Shutdown(worker)];
      RunOne(s, trace[0], []);
      jobs := map j <- jobs ::
        if jobs[j].status == Running && jobs[j].lockedBy == Some(worker)
        then jobs[j].(status := Queued, lockedBy := None, token := None)
        else jobs[j];
    }

    /**
     The updates after an executor call, filtered by the token of the row as it was read.  They are those of a session
     `h` at its closing fence, whatever others have done to the row meanwhile.
     */
    method CloseJob(id: JobId, read: Job, result: ExecutorResult, now: Time, ghost s: State, ghost h: Holder)
      returns (ghost trace: seq<Action>)
      requires id in jobs && s.db == Rows() && s.clock == now
      requires h.job == id && AtClosing(s, h) && AsRead(s.sessions[h], read)
      modifies this`jobs
      ensures jobs == old(jobs)[id := Closed(read, old(jobs)[id], result, now)]
      ensures Run(s, trace) == Protocol.Close(s.(db := Rows()), h)
    {
      FreshId(approvals.Keys);
      ghost var approval: ApprovalId :| approval !in approvals;
      trace := ClosingActions(h, result, approval);
      ClosingRun(s, h, read, result, approval);
      if result == LosesLease {
        assert jobs == jobs[id := jobs[id]];
        return;
      }
      if result != Throws && LeaseMatches(Rows(), id, read.token) {
        jobs := jobs[id := jobs[id].(status := Completed, heartbeatAt := Some(now))];
      }
      if result != Finishes && LeaseMatches(Rows(), id, read.token) {
        var exhausted := read.attempt >= read.maxAttempts;
        jobs := jobs[id := jobs[id].(status := if exhausted then Failed else Queued,
                                     lockedBy := None, token := None, heartbeatAt := Some(now))];
      }
      assert jobs == old(jobs)[id := Closed(read, old(jobs)[id], result, now)];
    }

    /** One iteration: the executor runs, others act meanwhile, the job is closed. */
    method AdvanceJob(worker: WorkerId, id: JobId, result: ExecutorResult, meanwhile: map<JobId, Job>, now: Time,
                      ghost s: State)
      returns (ghost trace: seq<Action>)
      requires id in jobs && Advances(jobs[id], worker) && s.db == Rows() && s.clock == now
      requires Holder(worker, id) !in s.sessions
      modifies this`jobs
      ensures jobs == old(jobs)[id := ClosedRow(id, old(jobs)[id], meanwhile, result, now)]
      ensures id !in meanwhile ==> Run(s, trace) == s.(db := Rows())
    {
      var read := jobs[id];
      ghost var h := Holder(worker, id);
      FreshId(approvals.Keys);
      ghost var approval: ApprovalId :| approval !in approvals;
      ghost var engaged := Engaged(s, h, [Group(FinishJob, 0)], 0);
      if id in meanwhile {
        jobs := jobs[id := meanwhile[id]];
      }
      ghost var closing := CloseJob(id, read, result, now, engaged.(db := Rows()), h);
      trace := UntilClosing(s, h, approval) + closing;
      if id !in meanwhile {
        ExecutorCall(s, h, approval, closing, Rows());
      }
    }

    /**
     Runs the executor of each of the worker's jobs, in any order, and closes the job accordingly: nothing happens to it
     when its lease is lost, it is completed when the executor has finished, and otherwise it is queued again while
     attempts remain.  `meanwhile` holds the rows that other processes have rewritten by the time the executor returns;
     when there are none, the whole is a run of the protocol.
     */
    method AdvanceJobsOnce(worker: WorkerId, results: map<JobId, ExecutorResult>, meanwhile: map<JobId, Job>, now: Time,
                           ghost s: State)
      returns (ghost trace: seq<Action>)
      requires forall j <- jobs :: Advances(jobs[j], worker) ==> j in results
      requires s.db == Rows() && s.clock == now && Idle(s, worker, jobs)
      modifies this
      ensures audits == old(audits) && approvals == old(approvals) && reports == old(reports)
      ensures jobs.Keys == old(jobs).Keys
      ensures forall j <- jobs :: !Advances(old(jobs)[j], worker) ==> jobs[j] == old(jobs)[j]
      ensures forall j <- jobs :: Advances(old(jobs)[j], worker) ==>
        var read, row := old(jobs)[j], if j in meanwhile then meanwhile[j] else old(jobs)[j];
        if results[j] == LosesLease || (read.token.Some? && row.token != read.token) then jobs[j] == row
        else if results[j] == Finishes then
          jobs[j] == row.(status := Completed, heartbeatAt := Some(now))
        else
          && jobs[j].status == (if read.attempt < read.maxAttempts then Queued else Failed)
          && jobs[j].lockedBy.None? && jobs[j].token.None?
          && jobs[j] == row.(status := jobs[j].status, lockedBy := None, token := None, heartbeatAt := Some(now))
      ensures forall j <- jobs :: j !in meanwhile && (j in results ==> results[j] != LosesLease) ==>
        !Advances(jobs[j], worker)
      ensures meanwhile == map[] ==> Run(s, trace) == s.(db := Rows())
    {
      var owned := set j <- jobs | Owned(jobs[j], worker);
      var active := Listing(owned);
      ghost var before := jobs;
      assert forall j <- before :: j in active <==> Owned(before[j], worker);
      trace := AdvanceRows(worker, active, results, meanwhile, now, s);
      forall j | j in jobs && j !in meanwhile && (j in results ==> results[j] != LosesLease)
        ensures !Advances(jobs[j], worker)
      {
        ClosedIsOver(j, before[j], meanwhile, if j in results then results[j] else Throws, now, worker);
      }
    }

    /** The loop over the rows as they were read; the audit engine closes its own jobs. */
    method AdvanceRows(worker: WorkerId, active: seq<JobId>, results: map<JobId, ExecutorResult>,
                       meanwhile: map<JobId, Job>, now: Time, ghost s: State)
      returns (ghost trace: seq<Action>)
      requires forall i, k :: 0 <= i < k < |active| ==> active[i] != active[k]
      requires forall j <- active :: j in jobs && Owned(jobs[j], worker) && (jobs[j].kind != AuditRun ==> j in results)
      requires s.db == Rows() && s.clock == now && Idle(s, worker, jobs)
      modifies this`jobs
      ensures Advanced(old(jobs), active, results, meanwhile, now, jobs)
      ensures meanwhile == map[] ==> Run(s, trace) == s.(db := Rows())
    {
      trace := [];
      for i := 0 to |active|
        invariant Advanced(old(jobs), active[..i], results, meanwhile, now, jobs)
        invariant meanwhile == map[] ==> Run(s, trace) == s.(db := Rows())
      {
        var j := active[i];
        AdvancedOne(old(jobs), active, i, results, meanwhile, now, jobs);
        if jobs[j].kind == AuditRun {
          continue;
        }
        ghost var mid := Rows();
        ghost var more := AdvanceJob(worker, j, results[j], meanwhile, now, s.(db := mid));
        if meanwhile == map[] {
          CallsCompose(s, trace, s.(db := mid), more);
        }
        trace := trace + more;
      }
      assert active[..|active|] == active;
    }

    // ---------- the supervisor ----------

    /** `UPDATE audits SET status = $status WHERE id = $id`; None when `audits_active_uidx` refuses it. */
    method UpdateAudit(id: AuditId, status: AuditStatus) returns (ok: bool)
      modifies this`audits
      ensures ok <==> SetAuditStatus(old(Rows()), id, status).Done?
      ensures Rows() == if ok then SetAuditStatus(old(Rows()), id, status).db else old(Rows())
    {
      if id !in audits {
        return true;
      }
      var row := audits[id].(status := status);
      if IsActive(row) && ActiveTaken(Rows(), id) {
        return false;
      }
      audits := audits[id := row];
      ok := true;
    }

    /** Fails the running audits of the timed-out rows. */
    method FailAudits(rows: seq<JobId>)
      modifies this`audits
      ensures audits == FailRunning(old(audits), AuditsOf(jobs, rows))
    {
      for i := 0 to |rows|
        invariant audits == FailRunning(old(audits), AuditsOf(jobs, rows[..i]))
      {
        AuditsOfSnoc(jobs, rows, i);
        if rows[i] in jobs && jobs[rows[i]].kind == AuditRun && jobs[rows[i]].audit.Some? {
          var audit := jobs[rows[i]].audit.value;
          if audit in audits && audits[audit].status == AuditRunning {
            audits := audits[audit := audits[audit].(status := AuditFailed)];
          }
        }
      }
      assert rows[..|rows|] == rows;
    }

    /** Sets the audits of the requeued rows running again; stops at the first one the index refuses. */
    method ResumeAudits(rows: seq<JobId>) returns (ok: bool, ghost done: set<AuditId>)
      requires OneActive(audits)
      modifies this`audits
      ensures ok <==> OneActive(Resume(old(audits), AuditsOf(jobs, rows)))
      ensures audits == Resume(old(audits), done) && OneActive(audits)
      ensures done <= AuditsOf(jobs, rows) && (ok ==> done == AuditsOf(jobs, rows))
    {
      done := {};
      assert Resume(audits, {}) == audits;
      for i := 0 to |rows|
        invariant done == AuditsOf(jobs, rows[..i])
        invariant audits == Resume(old(audits), done) && OneActive(audits)
      {
        AuditsOfSnoc(jobs, rows, i);
        if rows[i] in jobs && jobs[rows[i]].kind == AuditRun && jobs[rows[i]].audit.Some? {
          var audit := jobs[rows[i]].audit.value;
          ghost var before := Rows();
          var updated := UpdateAudit(audit, AuditRunning);
          if !updated {
            AuditsOfPrefix(jobs, rows, i);
            RefusedAudit(old(audits), done, AuditsOf(jobs, rows), before, audit);
            return false, done;
          }
          done := done + {audit};
        }
      }
      assert rows[..|rows|] == rows;
      ok := true;
    }

    /** The two conditional statements, each with the rows it returns. */
    method RecoverJobs(now: Time) returns (timedOut: seq<JobId>, requeued: seq<JobId>)
      modifies this`jobs
      ensures jobs == RequeueStale(TimeOutStale(old(Rows()), now), now).jobs
      ensures |timedOut| + |requeued| == |StaleIds(old(jobs), now)|
      ensures AuditsOf(jobs, timedOut) == TimedOutAudits(old(Rows()), now)
      ensures AuditsOf(jobs, requeued) == RequeuedAudits(old(Rows()), now)
    {
      ghost var db := Rows();
      var exhausted := set j <- jobs | TimesOut(jobs[j], now);
      timedOut := Listing(exhausted);
      jobs := map j <- jobs :: if TimesOut(jobs[j], now) then TimedOutRow(jobs[j]) else jobs[j];
      var recoverable := set j <- jobs | Requeues(jobs[j], now);
      requeued := Listing(recoverable);
      jobs := map j <- jobs :: if Requeues(jobs[j], now) then ReleasedRow(jobs[j]) else jobs[j];
      assert recoverable == set j <- db.jobs | Requeues(db.jobs[j], now);
      StaleSplits(db.jobs, now, exhausted, recoverable);
      TimedOutRows(db, now, timedOut);
      RequeuedRows(db, now, requeued);
    }

    /** `requeueStaleJobs`: how many jobs were recovered, or None when resuming an audit fails. */
    method RequeueStaleJobs(now: Time, ghost s: State, ghost sweep: nat)
      returns (recovered: Option<nat>, ghost trace: seq<Action>)
      requires s.db == Rows() && s.clock == now && sweep !in s.sweeps && OneActive(audits)
      modifies this
      ensures jobs.Keys == old(jobs).Keys
      ensures forall j <- jobs ::
        var row := old(jobs)[j];
        jobs[j] == if row.status != Running || now <= LastBeat(row) + STALE_INTERVAL_MS then row
                   else if row.attempt >= row.maxAttempts then row.(status := TimedOut, token := None)
                   else row.(status := Queued, lockedBy := None, token := None)
      ensures approvals == old(approvals) && reports == old(reports) && OneActive(audits)
      ensures recovered.Some? ==> audits.Keys == old(audits).Keys
      ensures recovered.Some? ==> forall a <- audits ::
        audits[a] == old(audits)[a].(status :=
          if StaleRun(old(jobs), now, a, false) then AuditRunning
          else if StaleRun(old(jobs), now, a, true) && old(audits)[a].status == AuditRunning then AuditFailed
          else old(audits)[a].status)
      ensures recovered.Some? <==> OneActive(AfterSweep(old(Rows()), now))
      ensures recovered.Some? ==> recovered.value == |StaleIds(old(jobs), now)|
      ensures Run(s, trace).db == Rows()
    {
      ghost var db := Rows();
      var timedOut, requeued := RecoverJobs(now);
      FailAudits(timedOut);
      var ok;
      ghost var done;
      ok, done := ResumeAudits(requeued);
      trace := SweepRun(s, sweep, done);
      recovered := if ok then Some(|timedOut| + |requeued|) else None;
      AfterSweepIs(db, now);
    }

    // ---------- transactions ----------

    /** `decideApproval`: decide first, then revert or roll back what must not stand. */
    method DecideApproval(id: ApprovalId, verdict: Verdict, actor: Actor, reason: Option<string>, now: Time,
                          job: JobId, ghost s: State)
      returns (outcome: DecideOutcome, ghost trace: seq<Action>)
      requires s.db == Rows() && s.clock == now && job !in jobs
      modifies this
      ensures (Rows(), outcome) == DecideTx(old(Rows()), id, verdict, actor, reason, now, job)
      ensures Run(s, trace).db == Rows()
    {
      trace := Then(s, [], Decide(id, verdict, actor, reason, job));
      var before := Rows();
      if id !in approvals || approvals[id].status != Pending {
        return NotPending, trace;
      }
      approvals := approvals[id := MarkDecided(approvals[id], verdict, actor, reason, now)];
      var approval := approvals[id];
      if approval.requestedBy == actor && approval.requestedBy != SYSTEM {
        approvals := approvals[id := Reverted(approval)];
        return SelfApproval, trace;
      }
      if approval.requestedAt < now - APPROVAL_TTL_MS {
        approvals := approvals[id := Reverted(approval)];
        return Expired, trace;
      }
      if approval.action == RunAudit {
        var done := UpdateAudit(approval.target, if verdict == Reject then Cancelled else AuditRunning);
        if !done {
          Restore(before);
          return RolledBack(AuditsActive), trace;
        }
      }
      if verdict == Approve {
        if approval.action == RunAudit && RunJobTaken(Rows(), approval.target) {
          Restore(before);
          return RolledBack(JobsAuditRunActive), trace;
        }
        var kind := if approval.action == RunAudit then AuditRun else ArtifactPackage;
        jobs := jobs[job := NewJob(kind, Some(approval.target), now)];
      }
      outcome := Decided;
    }

    /** Puts the rows back as they were when the transaction began. */
    method Restore(before: Db)
      modifies this
      ensures Rows() == before
    {
      jobs, audits, approvals, reports := before.jobs, before.audits, before.approvals, before.reports;
    }

    /** The engine's finalize transaction; false when the lease is gone. */
    method Finalize(audit: AuditId, job: JobId, token: Option<Token>, approval: ApprovalId, now: Time)
      returns (committed: bool)
      modifies this
      ensures committed <==> FinalizeTx(old(Rows()), audit, job, token, approval, now).Committed?
      ensures Rows() ==
        if committed then FinalizeTx(old(Rows()), audit, job, token, approval, now).db else old(Rows())
      ensures committed <==> job in old(jobs) && (token.Some? ==> old(jobs)[job].token == token)
      ensures committed ==>
        && reports == old(reports) + {audit}
        && audits == (if audit in old(audits) then old(audits)[audit := old(audits)[audit].(status := AuditCompleted)]
                      else old(audits))
        && jobs == old(jobs)[job := old(jobs)[job].(status := Completed, heartbeatAt := Some(now))]
        && approvals == old(approvals)[approval :=
             Approval(PackageArtifacts, audit, Pending, "auditor-service", now, None, None, None)]
    {
      var before := Rows();
      reports := reports + {audit};
      var done := UpdateAudit(audit, AuditCompleted);
      if !LeaseMatches(Rows(), job, token) {
        Restore(before);
        return false;
      }
      jobs := jobs[job := jobs[job].(status := Completed, heartbeatAt := Some(now))];
      approvals := approvals[approval :=
        Approval(PackageArtifacts, audit, Pending, AUDITOR_SERVICE, now, None, None, None)];
      committed := true;
    }
  }

  /** The background heartbeat of one executor call, and the check before each of its writes. */
  class LeaseFence {
    const job: JobId
    const token: Option<Token>
    var lost: bool

    constructor (job: JobId, token: Option<Token>)
      ensures this.job == job && this.token == token && !lost
    {
      this.job, this.token, lost := job, token, false;
    }

    /** The fence and the rows are those of one session of the protocol. */
    ghost predicate Mirrors(database: Database, s: State, h: Holder)
      reads this, database
    {
      && h.job == job && s.db == database.Rows()
      && h in s.sessions && s.sessions[h].token == token && s.sessions[h].lost == lost
    }

    /** One firing of the 15s timer; there is no timer without a token. */
    method Beat(database: Database, now: Time, ghost s: State, ghost h: Holder) returns (ghost trace: seq<Action>)
      requires Mirrors(database, s, h) && s.clock == now
      modifies this`lost, database`jobs
      ensures Mirrors(database, Run(s, trace), h)
      ensures lost <==> old(lost) || (token.Some? && !LeaseMatches(old(database.Rows()), job, token))
      ensures database.Rows() ==
        if token.Some? then Heartbeat(old(database.Rows()), job, token, now) else old(database.Rows())
    {
      trace := [];
      if token.Some? {
        trace := Then(s, [], Protocol.Beat(h));
        if LeaseMatches(database.Rows(), job, token) {
          database.jobs := database.jobs[job := database.jobs[job].(heartbeatAt := Some(now))];
        } else {
          lost := true;
        }
      }
    }

    /** Whether the executor may go on. */
    method Assert(database: Database, ghost s: State, ghost h: Holder) returns (passes: bool)
      requires Mirrors(database, s, h)
      ensures passes <==> PassesAssert(s, h)
    {
      if token.None? {
        return true;
      }
      if lost {
        return false;
      }
      passes := job in database.jobs && database.jobs[job].token == token;
    }
  }

  lemma AuditsOfSnoc(jobs: map<JobId, Job>, rows: seq<JobId>, i: nat)
    requires i < |rows|
    ensures var j := rows[i];
      AuditsOf(jobs, rows[..i + 1]) == AuditsOf(jobs, rows[..i])
        + if j in jobs && jobs[j].kind == AuditRun && jobs[j].audit.Some? then {jobs[j].audit.value} else {}
  {
    assert rows[..i + 1] == rows[..i] + [rows[i]];
  }

  lemma AuditsOfPrefix(jobs: map<JobId, Job>, rows: seq<JobId>, i: nat)
    requires i < |rows|
    ensures AuditsOf(jobs, rows[..i + 1]) <= AuditsOf(jobs, rows)
  {
    assert forall j <- rows[..i + 1] :: j in rows;
  }

  // ---------- the supervisor as a run of the protocol ----------

  /** The supervisor `sweep` has run its two statements. */
  ghost predicate Sweeping(s: State, sweep: nat, timedOut: set<AuditId>, requeued: set<AuditId>) {
    sweep in s.sweeps && s.sweeps[sweep] == Sweep(timedOut, requeued, true)
  }

  ghost function Then(s: State, trace: seq<Action>, action: Action): (longer: seq<Action>)
    ensures Run(s, longer) == Next(Run(s, trace), action)
  {
    RunConcat(s, trace, [action]);
    RunOne(Run(s, trace), action, []);
    trace + [action]
  }

  lemma FollowTimedOut(s: State, sweep: nat, timedOut: set<AuditId>, requeued: set<AuditId>, audit: AuditId)
    requires Sweeping(s, sweep, timedOut, requeued) && audit in timedOut
    ensures var next := Next(s, SweepFollow(sweep, audit));
      && Sweeping(next, sweep, timedOut - {audit}, requeued)
      && next.db == s.db.(audits := FailRunning(s.db.audits, {audit}))
  {
    var db := s.db;
    if audit in db.audits && db.audits[audit].status == AuditRunning {
      assert FailRunning(db.audits, {audit}) == db.audits[audit := db.audits[audit].(status := AuditFailed)];
    } else {
      assert FailRunning(db.audits, {audit}) == db.audits;
    }
  }

  lemma {:induction false} FailRun(s: State, sweep: nat, timedOut: set<AuditId>, requeued: set<AuditId>)
    returns (trace: seq<Action>)
    requires Sweeping(s, sweep, timedOut, requeued)
    ensures Sweeping(Run(s, trace), sweep, {}, requeued)
    ensures Run(s, trace).db == s.db.(audits := FailRunning(s.db.audits, timedOut))
    decreases timedOut
  {
    if timedOut == {} {
      assert FailRunning(s.db.audits, {}) == s.db.audits;
      return [];
    }
    var audit :| audit in timedOut;
    FollowTimedOut(s, sweep, timedOut, requeued, audit);
    var next := Next(s, SweepFollow(sweep, audit));
    var rest := FailRun(next, sweep, timedOut - {audit}, requeued);
    FailTwice(s.db.audits, {audit}, timedOut - {audit});
    assert {audit} + (timedOut - {audit}) == timedOut;
    RunOne(s, SweepFollow(sweep, audit), rest);
    trace := [SweepFollow(sweep, audit)] + rest;
  }

  lemma FailTwice(audits: map<AuditId, Audit>, first: set<AuditId>, second: set<AuditId>)
    ensures FailRunning(FailRunning(audits, first), second) == FailRunning(audits, first + second)
  {
  }

  lemma FollowRequeued(s: State, sweep: nat, requeued: set<AuditId>, audit: AuditId)
    requires Sweeping(s, sweep, {}, requeued) && audit in requeued
    requires OneActive(Resume(s.db.audits, {audit}))
    ensures var next := Next(s, SweepFollow(sweep, audit));
      && Sweeping(next, sweep, {}, requeued - {audit})
      && next.db == s.db.(audits := Resume(s.db.audits, {audit}))
  {
    var audits := Resume(s.db.audits, {audit});
    if audit in s.db.audits {
      assert audits == s.db.audits[audit := s.db.audits[audit].(status := AuditRunning)];
      forall other | other in s.db.audits && other != audit ensures !IsActive(s.db.audits[other]) {
        assert IsActive(audits[audit]) && audits[other] == s.db.audits[other];
      }
      assert !ActiveTaken(s.db, audit);
    } else {
      assert audits == s.db.audits;
    }
  }

  lemma {:induction false} ResumeRun(s: State, sweep: nat, requeued: set<AuditId>, done: set<AuditId>)
    returns (trace: seq<Action>)
    requires Sweeping(s, sweep, {}, requeued) && done <= requeued
    requires OneActive(Resume(s.db.audits, done))
    ensures Run(s, trace).db == s.db.(audits := Resume(s.db.audits, done))
    decreases done
  {
    if done == {} {
      assert Resume(s.db.audits, {}) == s.db.audits;
      return [];
    }
    var audit :| audit in done;
    FewerActive(s.db.audits, {audit}, done);
    FollowRequeued(s, sweep, requeued, audit);
    var next := Next(s, SweepFollow(sweep, audit));
    ResumeTwice(s.db.audits, {audit}, done - {audit});
    assert {audit} + (done - {audit}) == done;
    var rest := ResumeRun(next, sweep, requeued - {audit}, done - {audit});
    RunOne(s, SweepFollow(sweep, audit), rest);
    trace := [SweepFollow(sweep, audit)] + rest;
  }

  lemma FewerActive(audits: map<AuditId, Audit>, few: set<AuditId>, many: set<AuditId>)
    requires few <= many && OneActive(Resume(audits, many))
    ensures OneActive(Resume(audits, few))
  {
    var less, more := Resume(audits, few), Resume(audits, many);
    assert forall a <- less :: IsActive(less[a]) ==> IsActive(more[a]);
  }

  lemma ResumeTwice(audits: map<AuditId, Audit>, first: set<AuditId>, second: set<AuditId>)
    ensures Resume(Resume(audits, first), second) == Resume(audits, first + second)
  {
  }

  /** A whole supervisor run that gets as far as resuming the audits `done`. */
  lemma SweepRun(s: State, sweep: nat, done: set<AuditId>) returns (trace: seq<Action>)
    requires sweep !in s.sweeps && done <= RequeuedAudits(s.db, s.clock)
    requires OneActive(Resume(FailRunning(s.db.audits, TimedOutAudits(s.db, s.clock)), done))
    ensures Run(s, trace).db == RequeueStale(TimeOutStale(s.db, s.clock), s.clock).(
      audits := Resume(FailRunning(s.db.audits, TimedOutAudits(s.db, s.clock)), done))
  {
    var timedOut, requeued := TimedOutAudits(s.db, s.clock), RequeuedAudits(s.db, s.clock);
    var two := [SweepTimeouts(sweep), SweepRequeues(sweep)];
    var swept := TwoStatements(s, sweep);
    var failing := FailRun(swept, sweep, timedOut, requeued);
    var failed := Run(swept, failing);
    var resuming := ResumeRun(failed, sweep, requeued, done);
    RunConcat(swept, failing, resuming);
    RunConcat(s, two, failing + resuming);
    trace := two + (failing + resuming);
  }

  lemma TwoStatements(s: State, sweep: nat) returns (swept: State)
    requires sweep !in s.sweeps
    ensures swept == Run(s, [SweepTimeouts(sweep), SweepRequeues(sweep)])
    ensures Sweeping(swept, sweep, TimedOutAudits(s.db, s.clock), RequeuedAudits(s.db, s.clock))
    ensures swept.db == RequeueStale(TimeOutStale(s.db, s.clock), s.clock)
  {
    swept := Run(s, [SweepTimeouts(sweep), SweepRequeues(sweep)]);
    var first := Next(s, SweepTimeouts(sweep));
    RunOne(s, SweepTimeouts(sweep), [SweepRequeues(sweep)]);
    RunOne(first, SweepRequeues(sweep), []);
    RequeuedIgnoresTimeouts(s.db, s.clock);
  }

  lemma RequeuedIgnoresTimeouts(db: Db, now: Time)
    ensures RequeuedAudits(TimeOutStale(db, now), now) == RequeuedAudits(db, now)
  {
    var after := TimeOutStale(db, now);
    assert forall j <- db.jobs :: Requeues(after.jobs[j], now) <==> Requeues(db.jobs[j], now);
    assert forall j <- db.jobs :: Requeues(db.jobs[j], now) ==> after.jobs[j] == db.jobs[j];
  }

  ghost predicate OneActive(audits: map<AuditId, Audit>) {
    forall x <- audits, y <- audits :: IsActive(audits[x]) && IsActive(audits[y]) ==> x == y
  }

  /** The audits after a supervisor run that completes. */
  function AfterSweep(db: Db, now: Time): map<AuditId, Audit> {
    Resume(FailRunning(db.audits, TimedOutAudits(db, now)), RequeuedAudits(db, now))
  }

  /** A stale running `audit.run` job of audit `a`, with its attempts used up or not. */
  ghost predicate StaleRun(jobs: map<JobId, Job>, now: Time, a: AuditId, exhausted: bool) {
    exists j <- jobs ::
      && jobs[j].kind == AuditRun && jobs[j].audit == Some(a) && jobs[j].status == Running
      && LastBeat(jobs[j]) + STALE_INTERVAL_MS < now && (jobs[j].attempt >= jobs[j].maxAttempts <==> exhausted)
  }

  lemma SweptAudits(db: Db, now: Time, a: AuditId)
    ensures a in TimedOutAudits(db, now) <==> StaleRun(db.jobs, now, a, true)
    ensures a in RequeuedAudits(db, now) <==> StaleRun(db.jobs, now, a, false)
  {
  }

  lemma AfterSweepIs(db: Db, now: Time)
    ensures var audits := AfterSweep(db, now);
      && audits.Keys == db.audits.Keys
      && forall a <- audits :: audits[a] == db.audits[a].(status :=
          if StaleRun(db.jobs, now, a, false) then AuditRunning
          else if StaleRun(db.jobs, now, a, true) && db.audits[a].status == AuditRunning then AuditFailed
          else db.audits[a].status)
  {
    forall a | a in db.audits
      ensures a in TimedOutAudits(db, now) <==> StaleRun(db.jobs, now, a, true)
      ensures a in RequeuedAudits(db, now) <==> StaleRun(db.jobs, now, a, false)
    {
      SweptAudits(db, now, a);
    }
  }

  lemma TimedOutRows(db: Db, now: Time, rows: seq<JobId>)
    requires forall j :: j in rows <==> j in db.jobs && TimesOut(db.jobs[j], now)
    ensures AuditsOf(RequeueStale(TimeOutStale(db, now), now).jobs, rows) == TimedOutAudits(db, now)
  {
    var after := RequeueStale(TimeOutStale(db, now), now).jobs;
    assert forall j <- db.jobs :: after[j].kind == db.jobs[j].kind && after[j].audit == db.jobs[j].audit;
  }

  lemma RequeuedRows(db: Db, now: Time, rows: seq<JobId>)
    requires forall j :: j in rows <==> j in db.jobs && Requeues(db.jobs[j], now)
    ensures AuditsOf(RequeueStale(TimeOutStale(db, now), now).jobs, rows) == RequeuedAudits(db, now)
  {
    var after := RequeueStale(TimeOutStale(db, now), now).jobs;
    assert forall j <- db.jobs :: after[j].kind == db.jobs[j].kind && after[j].audit == db.jobs[j].audit;
  }

  function StaleIds(jobs: map<JobId, Job>, now: Time): set<JobId> {
    set j <- jobs | Stale(jobs[j], now)
  }

  lemma StaleSplits(jobs: map<JobId, Job>, now: Time, exhausted: set<JobId>, recoverable: set<JobId>)
    requires forall j :: j in exhausted <==> j in jobs && TimesOut(jobs[j], now)
    requires forall j :: j in recoverable <==> j in jobs && Requeues(jobs[j], now)
    ensures |StaleIds(jobs, now)| == |exhausted| + |recoverable|
  {
    assert StaleIds(jobs, now) == exhausted + recoverable;
    assert exhausted !! recoverable;
  }

  lemma RefusedAudit(before: map<AuditId, Audit>, done: set<AuditId>, all: set<AuditId>, db: Db, audit: AuditId)
    requires db.audits == Resume(before, done) && done <= all && audit in all
    requires SetAuditStatus(db, audit, AuditRunning).Violation?
    ensures !OneActive(Resume(before, all))
  {
    var other :| other in db.audits && other != audit && IsActive(db.audits[other]);
    var after := Resume(before, all);
    assert IsActive(after[other]) && IsActive(after[audit]);
  }

  lemma ClosedIsOver(j: JobId, read: Job, meanwhile: map<JobId, Job>, result: ExecutorResult, now: Time,
                     worker: WorkerId)
    requires j !in meanwhile && result != LosesLease
    ensures !Advances(ClosedRow(j, read, meanwhile, result, now), worker)
  {
  }

  /** The rows after the executors of `done` have run. */
  ghost predicate Advanced(before: map<JobId, Job>, done: seq<JobId>, results: map<JobId, ExecutorResult>,
                           meanwhile: map<JobId, Job>, now: Time, after: map<JobId, Job>) {
    && after.Keys == before.Keys
    && forall j <- before :: after[j] ==
         if j in done && before[j].kind != AuditRun && j in results
         then ClosedRow(j, before[j], meanwhile, results[j], now) else before[j]
  }

  lemma AdvancedOne(before: map<JobId, Job>, active: seq<JobId>, i: nat, results: map<JobId, ExecutorResult>,
                    meanwhile: map<JobId, Job>, now: Time, after: map<JobId, Job>)
    requires i < |active| && active[i] in before && (before[active[i]].kind != AuditRun ==> active[i] in results)
    requires forall k, m :: 0 <= k < m < |active| ==> active[k] != active[m]
    requires Advanced(before, active[..i], results, meanwhile, now, after)
    ensures var j := active[i];
      && after[j] == before[j]
      && Advanced(before, active[..i + 1], results, meanwhile, now,
                  if before[j].kind == AuditRun then after
                  else after[j := ClosedRow(j, before[j], meanwhile, results[j], now)])
  {
    assert active[..i + 1] == active[..i] + [active[i]];
    assert active[i] !in active[..i];
  }

  lemma {:induction false} OldestExists(jobs: map<JobId, Job>, ids: set<JobId>)
    requires ids != {} && ids <= jobs.Keys
    ensures exists j :: j in ids && forall k <- ids :: jobs[j].createdAt <= jobs[k].createdAt
  {
    var j :| j in ids;
    var rest := ids - {j};
    if rest != {} {
      OldestExists(jobs, rest);
      var k :| k in rest && forall other <- rest :: jobs[k].createdAt <= jobs[other].createdAt;
      var oldest := if jobs[j].createdAt <= jobs[k].createdAt then j else k;
      assert forall other <- ids :: other == j || other in rest;
      assert forall other <- ids :: jobs[oldest].createdAt <= jobs[other].createdAt;
    } else {
      assert ids == {j};
    }
  }
}
