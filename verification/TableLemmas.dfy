/** How the statements of `Tables` move the table-level groups of the invariant. */
module TableLemmas {
  import opened Wrappers
  import opened Counting
  import opened Tables
  import opened Invariants

  /** A statement on jobs alone that keeps every row's identity and starts or ends no audit run. */
  ghost predicate JobsEvolve(db: Db, after: Db) {
    && after.audits == db.audits && after.approvals == db.approvals && after.reports == db.reports
    && after.jobs.Keys == db.jobs.Keys
    && forall j <- db.jobs ::
         && after.jobs[j].kind == db.jobs[j].kind
         && after.jobs[j].audit == db.jobs[j].audit
         && after.jobs[j].maxAttempts == db.jobs[j].maxAttempts
         && (db.jobs[j].kind == AuditRun ==> (after.jobs[j].status == Completed <==> db.jobs[j].status == Completed))
  }

  /** The audits that have a run job, and the keys of the audits, only grow. */
  ghost predicate Grows(db: Db, after: Db) {
    && (forall a :: HasRunJob(db, a) ==> HasRunJob(after, a))
    && (forall a <- db.audits :: a in after.audits && after.audits[a].key == db.audits[a].key)
  }

  lemma EvolveKeepsRunJobs(db: Db, after: Db)
    requires JobsEvolve(db, after)
    ensures forall j, a :: RunJob(after, j, a) <==> RunJob(db, j, a)
    ensures forall a :: HasRunJob(after, a) <==> HasRunJob(db, a)
    ensures Grows(db, after)
  {
    forall a
      ensures HasRunJob(after, a) <==> HasRunJob(db, a)
    {
      if HasRunJob(db, a) {
        var j :| RunJob(db, j, a);
        assert RunJob(after, j, a);
      }
      if HasRunJob(after, a) {
        var j :| RunJob(after, j, a);
        assert RunJob(db, j, a);
      }
    }
  }

  lemma EvolveKeepsTables(db: Db, after: Db)
    requires TablesOk(db) && JobsEvolve(db, after)
    ensures TablesOk(after)
  {
    EvolveKeepsRunJobs(db, after);
    assert forall ap, a :: RunGate(after, ap, a) <==> RunGate(db, ap, a);
    assert forall ap, a :: PackageGate(after, ap, a) <==> PackageGate(db, ap, a);
    EvolveKeepsGate(db, after);
    EvolveKeepsCounts(db, after);
  }

  lemma EvolveKeepsGate(db: Db, after: Db)
    requires ShapeOk(db) && GateOk(db) && JobsEvolve(db, after)
    requires forall j, a :: RunJob(after, j, a) <==> RunJob(db, j, a)
    requires forall a :: HasRunJob(after, a) <==> HasRunJob(db, a)
    requires forall ap, a :: RunGate(after, ap, a) <==> RunGate(db, ap, a)
    requires forall ap, a :: PackageGate(after, ap, a) <==> PackageGate(db, ap, a)
    ensures ShapeOk(after) && GateOk(after)
  {
    assert forall a <- db.audits :: HasRunGate(db, a) ==> HasRunGate(after, a);
  }

  lemma EvolveKeepsCounts(db: Db, after: Db)
    requires Conserved(db) && JobsEvolve(db, after)
    ensures Conserved(after)
  {
    CountSame(db.jobs, after.jobs, IsRun);
    CountSame(db.jobs, after.jobs, IsAuditPackage);
    CountSame(db.jobs, after.jobs, IsFinishedRun);
  }

  /** Only the status of `id`, whose job exists, changes; it does not become completed. */
  ghost predicate StatusMove(db: Db, after: Db, id: AuditId, status: AuditStatus) {
    && HasRunJob(db, id) && id in db.audits && status in {AuditRunning, AuditFailed}
    && after == db.(audits := db.audits[id := db.audits[id].(status := status)])
    && (status == AuditRunning ==> !ActiveTaken(db, id))
  }

  lemma MoveKeepsShape(db: Db, after: Db, id: AuditId, status: AuditStatus)
    requires StatusMove(db, after, id, status) && ShapeOk(db)
    ensures ShapeOk(after)
    ensures forall j, a :: RunJob(after, j, a) <==> RunJob(db, j, a)
    ensures forall a :: HasRunJob(after, a) <==> HasRunJob(db, a)
    ensures forall ap, a :: RunGate(after, ap, a) <==> RunGate(db, ap, a)
    ensures forall ap, a :: PackageGate(after, ap, a) <==> PackageGate(db, ap, a)
  {
    SameRunJobs(db, after);
    assert forall ap, a :: RunGate(after, ap, a) <==> RunGate(db, ap, a);
    assert forall ap, a :: PackageGate(after, ap, a) <==> PackageGate(db, ap, a);
    forall a | a in after.audits && after.audits[a].production
      ensures HasRunGate(after, a)
    {
      var ap :| RunGate(db, ap, a);
      assert RunGate(after, ap, a);
    }
  }

  lemma MoveKeepsCounts(db: Db, after: Db, id: AuditId, status: AuditStatus)
    requires StatusMove(db, after, id, status) && Conserved(db)
    ensures Conserved(after)
  {
    CountUpdate(db.audits, id, after.audits[id], IsUngated);
  }

  /** Marking an audit whose job exists as running or failed. */
  lemma StatusKeepsTables(db: Db, id: AuditId, status: AuditStatus)
    requires TablesOk(db) && HasRunJob(db, id)
    requires status in {AuditRunning, AuditFailed}
    requires SetAuditStatus(db, id, status).Done?
    ensures TablesOk(SetAuditStatus(db, id, status).db)
    ensures Grows(db, SetAuditStatus(db, id, status).db)
  {
    var after := SetAuditStatus(db, id, status).db;
    if id in db.audits {
      MoveKeepsShape(db, after, id, status);
      MoveKeepsCounts(db, after, id, status);
      assert GateOk(after);
      assert CompletionOk(after);
    }
  }

  // ---------- transactions that add rows ----------

  lemma EnqueueKeepsTables(db: Db, id: JobId, kind: JobKind, now: Time)
    requires TablesOk(db) && id !in db.jobs && kind != AuditRun
    ensures var after := PutJob(db, id, NewJob(kind, None, now)); TablesOk(after) && Grows(db, after)
  {
    var after := PutJob(db, id, NewJob(kind, None, now));
    EnqueueKeepsRunJobs(db, id, kind, now);
    assert forall ap, a :: RunGate(after, ap, a) <==> RunGate(db, ap, a);
    assert forall ap, a :: PackageGate(after, ap, a) <==> PackageGate(db, ap, a);
    EnqueueKeepsCompletion(db, after, id);
    EnqueueKeepsCounts(db, id, kind, now);
  }

  lemma EnqueueKeepsCompletion(db: Db, after: Db, id: JobId)
    requires CompletionOk(db) && id !in db.jobs && id in after.jobs
    requires after == db.(jobs := db.jobs[id := after.jobs[id]])
    requires forall j, a :: RunJob(after, j, a) <==> RunJob(db, j, a)
    requires forall a :: HasRunJob(after, a) <==> HasRunJob(db, a)
    requires forall ap, a :: PackageGate(after, ap, a) <==> PackageGate(db, ap, a)
    ensures CompletionOk(after)
  {
  }

  lemma EnqueueKeepsRunJobs(db: Db, id: JobId, kind: JobKind, now: Time)
    requires id !in db.jobs && kind != AuditRun
    ensures var after := PutJob(db, id, NewJob(kind, None, now));
      && (forall j, a :: RunJob(after, j, a) <==> RunJob(db, j, a))
      && (forall a :: HasRunJob(after, a) <==> HasRunJob(db, a))
  {
    var after := PutJob(db, id, NewJob(kind, None, now));
    assert forall j, a :: RunJob(after, j, a) <==> RunJob(db, j, a);
    SameRunJobs(db, after);
  }

  lemma EnqueueKeepsCounts(db: Db, id: JobId, kind: JobKind, now: Time)
    requires Conserved(db) && id !in db.jobs && kind != AuditRun
    ensures Conserved(PutJob(db, id, NewJob(kind, None, now)))
  {
    CountInsert(db.jobs, id, NewJob(kind, None, now), IsRun);
    CountInsert(db.jobs, id, NewJob(kind, None, now), IsAuditPackage);
    CountInsert(db.jobs, id, NewJob(kind, None, now), IsFinishedRun);
  }

  lemma SameRunJobs(db: Db, after: Db)
    requires forall j, a :: RunJob(after, j, a) <==> RunJob(db, j, a)
    ensures forall a :: HasRunJob(after, a) <==> HasRunJob(db, a)
  {
    forall a
      ensures HasRunJob(after, a) <==> HasRunJob(db, a)
    {
      if HasRunJob(db, a) {
        var j :| RunJob(db, j, a);
        assert RunJob(after, j, a);
      }
      if HasRunJob(after, a) {
        var j :| RunJob(after, j, a);
        assert RunJob(db, j, a);
      }
    }
  }

  /** Adding the run job of an audit that had none. */
  lemma AddsRunJob(db: Db, after: Db, id: JobId, audit: AuditId)
    requires id !in db.jobs && !HasRunJob(db, audit)
    requires after.jobs.Keys == db.jobs.Keys + {id} && IsRunJobOf(after.jobs[id], audit)
    requires forall j <- db.jobs :: after.jobs[j] == db.jobs[j]
    ensures forall j, a :: RunJob(after, j, a) <==> RunJob(db, j, a) || (j == id && a == audit)
    ensures forall a :: HasRunJob(after, a) <==> HasRunJob(db, a) || a == audit
  {
    assert RunJob(after, id, audit);
    forall a
      ensures HasRunJob(after, a) <==> HasRunJob(db, a) || a == audit
    {
      if HasRunJob(db, a) {
        var j :| RunJob(db, j, a);
        assert RunJob(after, j, a);
      }
      if HasRunJob(after, a) {
        var j :| RunJob(after, j, a);
        assert j == id || RunJob(db, j, a);
      }
    }
  }

  lemma NoJobForUnknownAudit(db: Db, a: AuditId)
    requires ShapeOk(db) && a !in db.audits
    ensures !HasRunJob(db, a) && !RunJobTaken(db, a)
    ensures forall ap :: !RunGate(db, ap, a)
  {
    forall j | j in db.jobs && IsRunJobOf(db.jobs[j], a)
      ensures false
    {
      assert RunJob(db, j, a);
    }
  }

  /** The rows a committed `startAudit` transaction adds. */
  ghost predicate StartAdds(db: Db, after: Db, audit: AuditId, approval: ApprovalId, job: JobId, now: Time) {
    && audit in after.audits && audit !in db.audits && approval !in db.approvals && job !in db.jobs
    && after.audits == db.audits[audit := after.audits[audit]]
    && after.audits[audit].status == (if after.audits[audit].production then WaitingApproval else AuditRunning)
    && after.reports == db.reports
    && (if after.audits[audit].production then
          && after.jobs == db.jobs
          && after.approvals == db.approvals[approval :=
               Approval(RunAudit, audit, Pending, after.audits[audit].requestedBy, now, None, None, None)]
        else
          after.approvals == db.approvals && after.jobs == db.jobs[job := NewJob(AuditRun, Some(audit), now)])
  }

  lemma StartKeepsJobs(db: Db, after: Db, audit: AuditId, approval: ApprovalId, job: JobId, now: Time)
    requires ShapeOk(db) && StartAdds(db, after, audit, approval, job, now)
    ensures forall j, a :: RunJob(after, j, a) <==>
      RunJob(db, j, a) || (!after.audits[audit].production && j == job && a == audit)
    ensures forall a :: HasRunJob(after, a) <==> HasRunJob(db, a) || (!after.audits[audit].production && a == audit)
    ensures forall ap, a :: RunGate(after, ap, a) <==>
      RunGate(db, ap, a) || (after.audits[audit].production && ap == approval && a == audit)
    ensures forall ap, a :: PackageGate(after, ap, a) <==> PackageGate(db, ap, a)
    ensures !HasRunJob(db, audit) && forall ap :: !RunGate(db, ap, audit)
  {
    NoJobForUnknownAudit(db, audit);
    if after.audits[audit].production {
      SameRunJobs(db, after);
    } else {
      AddsRunJob(db, after, job, audit);
    }
  }

  lemma StartKeepsShape(db: Db, after: Db, audit: AuditId, approval: ApprovalId, job: JobId, now: Time)
    requires ShapeOk(db) && StartAdds(db, after, audit, approval, job, now)
    ensures ShapeOk(after)
  {
    StartKeepsJobs(db, after, audit, approval, job, now);
    forall a | a in after.audits && after.audits[a].production
      ensures HasRunGate(after, a)
    {
      if a == audit {
        assert RunGate(after, approval, audit);
      } else {
        var ap :| RunGate(db, ap, a);
        assert RunGate(after, ap, a);
      }
    }
  }

  lemma StartKeepsGates(db: Db, after: Db, audit: AuditId, approval: ApprovalId, job: JobId, now: Time)
    requires ShapeOk(db) && GateOk(db) && StartAdds(db, after, audit, approval, job, now)
    ensures GateOk(after)
  {
    StartKeepsJobs(db, after, audit, approval, job, now);
  }

  lemma StartKeepsCompletion(db: Db, after: Db, audit: AuditId, approval: ApprovalId, job: JobId, now: Time)
    requires ShapeOk(db) && CompletionOk(db) && StartAdds(db, after, audit, approval, job, now)
    ensures CompletionOk(after)
  {
    StartKeepsJobs(db, after, audit, approval, job, now);
    forall j, a | RunJob(after, j, a) && after.jobs[j].status == Completed
      ensures a in after.reports && exists ap :: PackageGate(after, ap, a)
    {
      assert RunJob(db, j, a);
      var ap :| PackageGate(db, ap, a);
      assert PackageGate(after, ap, a);
    }
    forall ap, a | PackageGate(after, ap, a)
      ensures HasRunJob(after, a) && forall j :: RunJob(after, j, a) ==> after.jobs[j].status == Completed
    {
      assert PackageGate(db, ap, a);
    }
  }

  lemma StartKeepsCounts(db: Db, after: Db, audit: AuditId, approval: ApprovalId, job: JobId, now: Time)
    requires Conserved(db) && StartAdds(db, after, audit, approval, job, now)
    ensures Conserved(after)
  {
    CountInsert(db.audits, audit, after.audits[audit], IsUngated);
    if after.audits[audit].production {
      CountInsert(db.approvals, approval, after.approvals[approval], IsApprovedRun);
      CountInsert(db.approvals, approval, after.approvals[approval], IsApprovedPackage);
      CountInsert(db.approvals, approval, after.approvals[approval], IsPackageRequest);
    } else {
      CountInsert(db.jobs, job, after.jobs[job], IsRun);
      CountInsert(db.jobs, job, after.jobs[job], IsAuditPackage);
      CountInsert(db.jobs, job, after.jobs[job], IsFinishedRun);
    }
  }

  lemma StartKeepsTables(db: Db, after: Db, audit: AuditId, approval: ApprovalId, job: JobId, now: Time)
    requires TablesOk(db) && StartAdds(db, after, audit, approval, job, now) && AuditsUnique(after)
    ensures TablesOk(after) && Grows(db, after)
  {
    StartKeepsJobs(db, after, audit, approval, job, now);
    StartKeepsShape(db, after, audit, approval, job, now);
    StartKeepsGates(db, after, audit, approval, job, now);
    StartKeepsCompletion(db, after, audit, approval, job, now);
    StartKeepsCounts(db, after, audit, approval, job, now);
  }
}
