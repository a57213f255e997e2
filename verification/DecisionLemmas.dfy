/** `decideApproval` and the finalize transaction keep the table-level invariant. */
module DecisionLemmas {
  import opened Wrappers
  import opened Counting
  import opened Tables
  import opened Invariants
  import opened TableLemmas

  /** Row `id`, pending before, now carries `status`; its action and target are unchanged. */
  ghost predicate DecisionMade(db: Db, after: Db, id: ApprovalId, status: ApprovalStatus) {
    && id in db.approvals && db.approvals[id].status == Pending && status != Pending
    && id in after.approvals && after.approvals == db.approvals[id := after.approvals[id]]
    && after.approvals[id].status == status
    && after.approvals[id].action == db.approvals[id].action
    && after.approvals[id].target == db.approvals[id].target
    && after.reports == db.reports
  }

  lemma DecisionKeepsGates(db: Db, after: Db, id: ApprovalId, status: ApprovalStatus)
    requires DecisionMade(db, after, id, status)
    ensures forall ap, a :: RunGate(after, ap, a) <==> RunGate(db, ap, a)
    ensures forall ap, a :: PackageGate(after, ap, a) <==> PackageGate(db, ap, a)
    ensures forall a :: HasRunGate(db, a) ==> HasRunGate(after, a)
  {
    assert forall ap, a :: RunGate(after, ap, a) <==> RunGate(db, ap, a);
    forall a | HasRunGate(db, a)
      ensures HasRunGate(after, a)
    {
      var ap :| RunGate(db, ap, a);
      assert RunGate(after, ap, a);
    }
  }

  lemma DecisionCounts(db: Db, after: Db, id: ApprovalId, status: ApprovalStatus)
    requires DecisionMade(db, after, id, status)
    ensures CountOf(after.approvals, IsApprovedRun) == CountOf(db.approvals, IsApprovedRun)
      + if status == Approved && db.approvals[id].action == RunAudit then 1 else 0
    ensures CountOf(after.approvals, IsApprovedPackage) == CountOf(db.approvals, IsApprovedPackage)
      + if status == Approved && db.approvals[id].action == PackageArtifacts then 1 else 0
    ensures CountOf(after.approvals, IsPackageRequest) == CountOf(db.approvals, IsPackageRequest)
  {
    CountUpdate(db.approvals, id, after.approvals[id], IsApprovedRun);
    CountUpdate(db.approvals, id, after.approvals[id], IsApprovedPackage);
    CountUpdate(db.approvals, id, after.approvals[id], IsPackageRequest);
  }

  lemma QueuedJobCounts(db: Db, job: JobId, row: Job)
    requires job !in db.jobs && row.status == Queued
    ensures CountOf(db.jobs[job := row], IsRun) == CountOf(db.jobs, IsRun) + if IsRun(row) then 1 else 0
    ensures CountOf(db.jobs[job := row], IsAuditPackage) ==
      CountOf(db.jobs, IsAuditPackage) + if IsAuditPackage(row) then 1 else 0
    ensures CountOf(db.jobs[job := row], IsFinishedRun) == CountOf(db.jobs, IsFinishedRun)
  {
    CountInsert(db.jobs, job, row, IsRun);
    CountInsert(db.jobs, job, row, IsAuditPackage);
    CountInsert(db.jobs, job, row, IsFinishedRun);
  }

  // ---------- a run request ----------

  /** Approving the gate of `a` starts its audit and adds its job. */
  ghost predicate RunApproved(db: Db, after: Db, id: ApprovalId, a: AuditId, job: JobId, now: Time) {
    && DecisionMade(db, after, id, Approved) && RunGate(db, id, a)
    && a in db.audits && job !in db.jobs
    && after.audits == db.audits[a := db.audits[a].(status := AuditRunning)]
    && after.jobs == db.jobs[job := NewJob(AuditRun, Some(a), now)]
  }

  lemma ApprovedShape(db: Db, after: Db, id: ApprovalId, a: AuditId, job: JobId, now: Time)
    requires RunApproved(db, after, id, a, job, now) && ShapeOk(db) && GateOk(db)
    ensures ShapeOk(after) && GateOk(after)
    ensures !HasRunJob(db, a)
    ensures forall j, b :: RunJob(after, j, b) <==> RunJob(db, j, b) || (j == job && b == a)
    ensures forall b :: HasRunJob(after, b) <==> HasRunJob(db, b) || b == a
  {
    DecisionKeepsGates(db, after, id, Approved);
    AddsRunJob(db, after, job, a);
  }

  lemma ApprovedCompletion(db: Db, after: Db, id: ApprovalId, a: AuditId, job: JobId, now: Time)
    requires RunApproved(db, after, id, a, job, now) && ShapeOk(db) && GateOk(db) && CompletionOk(db)
    ensures CompletionOk(after)
  {
    DecisionKeepsGates(db, after, id, Approved);
    ApprovedShape(db, after, id, a, job, now);
    forall j, b | RunJob(after, j, b) && after.jobs[j].status == Completed
      ensures b in after.reports && exists ap :: PackageGate(after, ap, b)
    {
      assert RunJob(db, j, b);
      var ap :| PackageGate(db, ap, b);
      assert PackageGate(after, ap, b);
    }
    forall ap, b | PackageGate(after, ap, b)
      ensures HasRunJob(after, b) && forall j :: RunJob(after, j, b) ==> after.jobs[j].status == Completed
    {
      assert PackageGate(db, ap, b);
    }
  }

  lemma ApprovedCounts(db: Db, after: Db, id: ApprovalId, a: AuditId, job: JobId, now: Time)
    requires RunApproved(db, after, id, a, job, now) && Conserved(db)
    ensures Conserved(after)
  {
    DecisionCounts(db, after, id, Approved);
    QueuedJobCounts(db, job, after.jobs[job]);
    CountUpdate(db.audits, a, after.audits[a], IsUngated);
  }

  lemma ApprovedKeepsTables(db: Db, after: Db, id: ApprovalId, a: AuditId, job: JobId, now: Time)
    requires RunApproved(db, after, id, a, job, now) && TablesOk(db) && !ActiveTaken(db, a)
    ensures TablesOk(after) && Grows(db, after)
  {
    ApprovedShape(db, after, id, a, job, now);
    ApprovedCompletion(db, after, id, a, job, now);
    ApprovedCounts(db, after, id, a, job, now);
    assert AuditsUnique(after);
  }

  /** Rejecting the gate of `a` cancels its audit. */
  ghost predicate RunRejected(db: Db, after: Db, id: ApprovalId, a: AuditId) {
    && DecisionMade(db, after, id, Rejected) && RunGate(db, id, a) && a in db.audits
    && after.audits == db.audits[a := db.audits[a].(status := Cancelled)]
    && after.jobs == db.jobs
  }

  lemma RejectedShape(db: Db, after: Db, id: ApprovalId, a: AuditId)
    requires RunRejected(db, after, id, a) && ShapeOk(db) && GateOk(db)
    ensures ShapeOk(after) && GateOk(after)
    ensures !HasRunJob(db, a)
    ensures forall b :: HasRunJob(after, b) <==> HasRunJob(db, b)
  {
    DecisionKeepsGates(db, after, id, Rejected);
    assert forall j, b :: RunJob(after, j, b) <==> RunJob(db, j, b);
    SameRunJobs(db, after);
  }

  lemma RejectedCompletion(db: Db, after: Db, id: ApprovalId, a: AuditId)
    requires RunRejected(db, after, id, a) && ShapeOk(db) && GateOk(db) && CompletionOk(db)
    ensures CompletionOk(after)
  {
    DecisionKeepsGates(db, after, id, Rejected);
    RejectedShape(db, after, id, a);
    forall j, b | RunJob(after, j, b) && after.jobs[j].status == Completed
      ensures b in after.reports && exists ap :: PackageGate(after, ap, b)
    {
      assert RunJob(db, j, b);
      var ap :| PackageGate(db, ap, b);
      assert PackageGate(after, ap, b);
    }
    forall ap, b | PackageGate(after, ap, b)
      ensures HasRunJob(after, b) && forall j :: RunJob(after, j, b) ==> after.jobs[j].status == Completed
    {
      assert PackageGate(db, ap, b);
      assert forall j :: RunJob(after, j, b) ==> RunJob(db, j, b);
    }
  }

  lemma RejectedKeepsTables(db: Db, after: Db, id: ApprovalId, a: AuditId)
    requires RunRejected(db, after, id, a) && TablesOk(db)
    ensures TablesOk(after) && Grows(db, after)
  {
    DecisionKeepsGates(db, after, id, Rejected);
    RejectedShape(db, after, id, a);
    RejectedCompletion(db, after, id, a);
    DecisionCounts(db, after, id, Rejected);
    CountUpdate(db.audits, a, after.audits[a], IsUngated);
    assert AuditsUnique(after);
  }

  // ---------- a packaging request ----------

  /** Deciding a packaging request touches no audit; approving it adds one job. */
  ghost predicate PackageDecided(db: Db, after: Db, id: ApprovalId, status: ApprovalStatus, job: JobId, now: Time) {
    && DecisionMade(db, after, id, status) && db.approvals[id].action == PackageArtifacts && job !in db.jobs
    && after.audits == db.audits
    && after.jobs ==
       if status == Approved then db.jobs[job := NewJob(ArtifactPackage, Some(db.approvals[id].target), now)]
       else db.jobs
  }

  lemma PackageDecidedShape(db: Db, after: Db, id: ApprovalId, status: ApprovalStatus, job: JobId, now: Time)
    requires PackageDecided(db, after, id, status, job, now) && ShapeOk(db) && GateOk(db)
    ensures ShapeOk(after) && GateOk(after)
    ensures forall j, b :: RunJob(after, j, b) <==> RunJob(db, j, b)
    ensures forall b :: HasRunJob(after, b) <==> HasRunJob(db, b)
  {
    DecisionKeepsGates(db, after, id, status);
    assert forall j, b :: RunJob(after, j, b) <==> RunJob(db, j, b);
    SameRunJobs(db, after);
  }

  lemma PackageDecidedCompletion(db: Db, after: Db, id: ApprovalId, status: ApprovalStatus, job: JobId, now: Time)
    requires PackageDecided(db, after, id, status, job, now) && ShapeOk(db) && GateOk(db) && CompletionOk(db)
    ensures CompletionOk(after)
  {
    DecisionKeepsGates(db, after, id, status);
    PackageDecidedShape(db, after, id, status, job, now);
    forall j, b | RunJob(after, j, b) && after.jobs[j].status == Completed
      ensures b in after.reports && exists ap :: PackageGate(after, ap, b)
    {
      assert RunJob(db, j, b);
      var ap :| PackageGate(db, ap, b);
      assert PackageGate(after, ap, b);
    }
    forall ap, b | PackageGate(after, ap, b)
      ensures HasRunJob(after, b) && forall j :: RunJob(after, j, b) ==> after.jobs[j].status == Completed
    {
      assert PackageGate(db, ap, b);
      assert forall j :: RunJob(after, j, b) ==> RunJob(db, j, b);
    }
  }

  lemma PackageDecidedKeepsTables(db: Db, after: Db, id: ApprovalId, status: ApprovalStatus, job: JobId, now: Time)
    requires PackageDecided(db, after, id, status, job, now) && TablesOk(db)
    ensures TablesOk(after) && Grows(db, after)
  {
    DecisionKeepsGates(db, after, id, status);
    PackageDecidedShape(db, after, id, status, job, now);
    PackageDecidedCompletion(db, after, id, status, job, now);
    PackageDecidedCounts(db, after, id, status, job, now);
  }

  lemma PackageDecidedCounts(db: Db, after: Db, id: ApprovalId, status: ApprovalStatus, job: JobId, now: Time)
    requires PackageDecided(db, after, id, status, job, now) && Conserved(db)
    ensures Conserved(after)
  {
    DecisionCounts(db, after, id, status);
    if status == Approved {
      QueuedJobCounts(db, job, after.jobs[job]);
    }
  }

  // ---------- the whole decision ----------

  lemma DecideKeepsTables(db: Db, id: ApprovalId, verdict: Verdict, actor: Actor, reason: Option<string>,
                          now: Time, job: JobId)
    requires TablesOk(db) && job !in db.jobs
    requires id in db.approvals ==> ApprovalOk(db.approvals[id], now)
    ensures var after := DecideTx(db, id, verdict, actor, reason, now, job).0;
            TablesOk(after) && Grows(db, after)
  {
    var (after, outcome) := DecideTx(db, id, verdict, actor, reason, now, job);
    if outcome == Decided {
      var row := db.approvals[id];
      var a := row.target;
      if row.action == PackageArtifacts {
        PackageDecidedKeepsTables(db, after, id, if verdict == Approve then Approved else Rejected, job, now);
      } else {
        assert RunGate(db, id, a);
        if verdict == Approve {
          assert !ActiveTaken(db, a) by { ActiveTakenOnAudits(db, a, db.approvals); }
          ApprovedKeepsTables(db, after, id, a, job, now);
        } else {
          RejectedKeepsTables(db, after, id, a);
        }
      }
    } else {
      assert after.approvals == db.approvals;
      assert after == db;
    }
  }

  lemma ActiveTakenOnAudits(db: Db, a: AuditId, approvals: map<ApprovalId, Approval>)
    requires GateOk(db) && AuditsUnique(db)
    ensures forall other: Db :: other.audits == db.audits ==> ActiveTaken(other, a) == ActiveTaken(db, a)
  {
    forall other: Db | other.audits == db.audits
      ensures ActiveTaken(other, a) == ActiveTaken(db, a)
    {
      if ActiveTaken(db, a) {
        var x :| x in db.audits && x != a && IsActive(db.audits[x]);
        assert x in other.audits;
      }
    }
  }

  // ---------- finalize ----------

  /** The rows a committed finalize transaction writes. */
  ghost predicate Finalized(db: Db, after: Db, a: AuditId, job: JobId, approval: ApprovalId, now: Time) {
    && RunJob(db, job, a) && db.jobs[job].status != Completed && a in db.audits && approval !in db.approvals
    && after.audits == db.audits[a := db.audits[a].(status := AuditCompleted)]
    && after.jobs == db.jobs[job := db.jobs[job].(status := Completed, heartbeatAt := Some(now))]
    && after.reports == db.reports + {a}
    && after.approvals == db.approvals[approval := PackagingRequest(a, now)]
  }

  lemma FinalizedShape(db: Db, after: Db, a: AuditId, job: JobId, approval: ApprovalId, now: Time)
    requires Finalized(db, after, a, job, approval, now) && ShapeOk(db) && GateOk(db) && CompletionOk(db)
    ensures ShapeOk(after) && GateOk(after)
    ensures forall j, b :: RunJob(after, j, b) <==> RunJob(db, j, b)
    ensures forall b :: HasRunJob(after, b) <==> HasRunJob(db, b)
    ensures forall ap, b :: PackageGate(after, ap, b) <==> PackageGate(db, ap, b) || (ap == approval && b == a)
  {
    assert forall j, b :: RunJob(after, j, b) <==> RunJob(db, j, b);
    SameRunJobs(db, after);
    assert forall ap, b :: PackageGate(after, ap, b) <==> PackageGate(db, ap, b) || (ap == approval && b == a);
    assert forall ap, b :: RunGate(after, ap, b) <==> RunGate(db, ap, b);
    forall b | b in after.audits && after.audits[b].production
      ensures HasRunGate(after, b)
    {
      var ap :| RunGate(db, ap, b);
      assert RunGate(after, ap, b);
    }
  }

  lemma FinalizedCompletion(db: Db, after: Db, a: AuditId, job: JobId, approval: ApprovalId, now: Time)
    requires Finalized(db, after, a, job, approval, now) && ShapeOk(db) && GateOk(db) && CompletionOk(db)
    ensures CompletionOk(after)
  {
    FinalizedShape(db, after, a, job, approval, now);
    assert PackageGate(after, approval, a);
    forall j, b | RunJob(after, j, b) && after.jobs[j].status == Completed
      ensures b in after.reports && exists ap :: PackageGate(after, ap, b)
    {
      if b != a {
        assert RunJob(db, j, b);
        var ap :| PackageGate(db, ap, b);
        assert PackageGate(after, ap, b);
      }
    }
    forall ap, b, j | PackageGate(after, ap, b) && RunJob(after, j, b)
      ensures after.jobs[j].status == Completed
    {
      assert b == a ==> j == job by { assert RunJob(db, job, a) && RunJob(db, j, b); }
    }
    forall b, j | b in after.audits && after.audits[b].status == AuditCompleted && RunJob(after, j, b)
      ensures after.jobs[j].status == Completed
    {
      assert b == a ==> j == job by { assert RunJob(db, job, a) && RunJob(db, j, b); }
    }
  }

  lemma FinalizedCounts(db: Db, after: Db, a: AuditId, job: JobId, approval: ApprovalId, now: Time)
    requires Finalized(db, after, a, job, approval, now) && Conserved(db)
    ensures Conserved(after)
  {
    CountUpdate(db.audits, a, after.audits[a], IsUngated);
    CountUpdate(db.jobs, job, after.jobs[job], IsRun);
    CountUpdate(db.jobs, job, after.jobs[job], IsAuditPackage);
    CountUpdate(db.jobs, job, after.jobs[job], IsFinishedRun);
    CountInsert(db.approvals, approval, after.approvals[approval], IsApprovedRun);
    CountInsert(db.approvals, approval, after.approvals[approval], IsApprovedPackage);
    CountInsert(db.approvals, approval, after.approvals[approval], IsPackageRequest);
  }

  lemma FinalizedKeepsTables(db: Db, after: Db, a: AuditId, job: JobId, approval: ApprovalId, now: Time)
    requires Finalized(db, after, a, job, approval, now) && TablesOk(db)
    ensures TablesOk(after) && Grows(db, after)
  {
    FinalizedShape(db, after, a, job, approval, now);
    FinalizedCompletion(db, after, a, job, approval, now);
    FinalizedCounts(db, after, a, job, approval, now);
  }
}
