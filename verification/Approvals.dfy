/** Requests and what they yield: decisions are final, and each approval yields exactly one job. */
module Approvals {
  import opened Wrappers
  import opened Counting
  import opened Tables
  import opened Protocol
  import opened Frames
  import opened Invariants
  import opened DecisionLemmas
  import opened Reachability
  import opened Fencing

  // ---------- every action but a decision ----------

  /** Existing requests stay as they are, new ones are pending. */
  ghost predicate OnlyRequests(db: Db, after: Db) {
    && (forall id <- db.approvals :: id in after.approvals && after.approvals[id] == db.approvals[id])
    && (forall id <- after.approvals :: id !in db.approvals ==> after.approvals[id].status == Pending)
  }

  /** Jobs keep their kind and audit, and no new one packages an audit. */
  ghost predicate NoPackaging(db: Db, after: Db) {
    && (forall j <- db.jobs ::
          j in after.jobs && after.jobs[j].kind == db.jobs[j].kind && after.jobs[j].audit == db.jobs[j].audit)
    && (forall j <- after.jobs :: j !in db.jobs ==> !IsAuditPackage(after.jobs[j]))
  }

  lemma FenceOnlyRequests(s: State, h: Holder, approval: ApprovalId)
    requires h in s.sessions && s.sessions[h].todo != [] && approval !in s.db.approvals
    ensures OnlyRequests(s.db, PassFence(s, h, approval).db)
  {
    FenceStatements(s, h, approval);
  }

  lemma StepOnlyRequests(s: State, h: Holder, approval: ApprovalId)
    requires h in s.sessions && approval !in s.db.approvals
    ensures OnlyRequests(s.db, StepSession(s, h, approval).db)
  {
    var x := s.sessions[h];
    if x.phase == Stepping && x.writesLeft == 0 && x.todo != [] {
      FenceOnlyRequests(s, h, approval);
    }
  }

  lemma StepQuiet(s: State, h: Holder, approval: ApprovalId)
    requires h in s.sessions && approval !in s.db.approvals
    ensures OnlyRequests(s.db, StepSession(s, h, approval).db) && NoPackaging(s.db, StepSession(s, h, approval).db)
  {
    StepOnlyRequests(s, h, approval);
    StepWritesOneRow(s, StepSession(s, h, approval), h, approval);
  }

  lemma BeatQuiet(s: State, h: Holder)
    requires h in s.sessions
    ensures OnlyRequests(s.db, BackgroundBeat(s, h).db) && NoPackaging(s.db, BackgroundBeat(s, h).db)
  {
    StatementsWriteOneRow(s.db, h.job, s.sessions[h].token, false, s.clock);
  }

  lemma StartQuiet(db: Db, c: Call, now: Time, audit: AuditId, approval: ApprovalId, job: JobId, keyFirst: bool)
    requires job !in db.jobs && approval !in db.approvals
    ensures var written := StartTx(db, c.production, c.key, c.actor, now, audit, approval, job, keyFirst);
      written.Done? ==> OnlyRequests(db, written.db) && NoPackaging(db, written.db)
  {
  }

  lemma CallQuiet(s: State, call: nat, pick: nat, audit: AuditId, approval: ApprovalId, job: JobId, keyFirst: bool)
    requires call in s.calls && job !in s.db.jobs && approval !in s.db.approvals
    ensures var next := StepCall(s, call, pick, audit, approval, job, keyFirst);
      OnlyRequests(s.db, next.db) && NoPackaging(s.db, next.db)
  {
    StartQuiet(s.db, s.calls[call], s.clock, audit, approval, job, keyFirst);
  }

  lemma SupervisorQuiet(s: State, action: Action)
    requires IsSweep(action)
    ensures OnlyRequests(s.db, Next(s, action).db) && NoPackaging(s.db, Next(s, action).db)
  {
    SupervisorRows(s, action);
  }

  lemma OtherQuiet(s: State, action: Action)
    requires action.Elapse? || action.OpenCall? || action.Enqueue? || action.ClaimJob? || action.Open? || action.Raise?
             || action.EventStored? || action.Abandon?
    ensures OnlyRequests(s.db, Next(s, action).db) && NoPackaging(s.db, Next(s, action).db)
  {
    if !action.Enqueue? && !action.ClaimJob? {
      assert Next(s, action).db == s.db;
    }
  }

  lemma QuietAction(s: State, action: Action)
    requires !action.Decide?
    ensures OnlyRequests(s.db, Next(s, action).db) && NoPackaging(s.db, Next(s, action).db)
  {
    match action
    case Step(h, approval) => if h in s.sessions && approval !in s.db.approvals { StepQuiet(s, h, approval); }
    case Beat(h) => if h in s.sessions { BeatQuiet(s, h); }
    case CallStep(call, pick, audit, approval, job, keyFirst) =>
      if call in s.calls && job !in s.db.jobs && approval !in s.db.approvals {
        CallQuiet(s, call, pick, audit, approval, job, keyFirst);
      }
    case SweepTimeouts(_) => SupervisorQuiet(s, action);
    case SweepRequeues(_) => SupervisorQuiet(s, action);
    case SweepFollow(_, _) => SupervisorQuiet(s, action);
    case SweepAbort(_) => SupervisorQuiet(s, action);
    case Shutdown(_) => SupervisorQuiet(s, action);
    case _ => OtherQuiet(s, action);
  }

  // ---------- a decided request is final ----------

  lemma DecideLeavesDecided(db: Db, id: ApprovalId, verdict: Verdict, actor: Actor, reason: Option<string>, now: Time,
                            job: JobId, other: ApprovalId)
    requires other in db.approvals && db.approvals[other].status != Pending
    ensures var after := DecideTx(db, id, verdict, actor, reason, now, job).0;
      other in after.approvals && after.approvals[other] == db.approvals[other]
  {
  }

  /** Once decided, a request keeps its status, decider, time and reason in every future. */
  lemma {:induction false} DecidedStaysDecided(s: State, actions: seq<Action>, id: ApprovalId)
    requires id in s.db.approvals && s.db.approvals[id].status != Pending
    ensures var later := Run(s, actions).db; id in later.approvals && later.approvals[id] == s.db.approvals[id]
    decreases |actions|
  {
    if actions != [] {
      var a := actions[0];
      if a.Decide? {
        DecideLeavesDecided(s.db, a.approval, a.verdict, a.actor, a.reason, s.clock, a.job, id);
      } else {
        QuietAction(s, a);
      }
      DecidedStaysDecided(Next(s, a), actions[1..], id);
    }
  }

  // ---------- one job per packaging approval ----------

  /** The packaging jobs of one audit. */
  function PackagesOf(a: AuditId): Job -> bool {
    (row: Job) => row.kind == ArtifactPackage && row.audit == Some(a)
  }

  /** The approved packaging requests of one audit. */
  function ApprovalsOf(a: AuditId): Approval -> bool {
    (row: Approval) => row.action == PackageArtifacts && row.target == a && row.status == Approved
  }

  ghost predicate Balanced(db: Db) {
    forall a :: CountOf(db.jobs, PackagesOf(a)) == CountOf(db.approvals, ApprovalsOf(a))
  }

  lemma QuietBalance(db: Db, after: Db, a: AuditId)
    requires OnlyRequests(db, after) && NoPackaging(db, after)
    ensures CountOf(after.jobs, PackagesOf(a)) == CountOf(db.jobs, PackagesOf(a))
    ensures CountOf(after.approvals, ApprovalsOf(a)) == CountOf(db.approvals, ApprovalsOf(a))
  {
    CountExtend(db.jobs, after.jobs, PackagesOf(a));
    CountExtend(db.approvals, after.approvals, ApprovalsOf(a));
  }

  /** A decision that stands: the request is marked, and approving a packaging request adds its job. */
  ghost predicate DecisionStands(db: Db, after: Db, id: ApprovalId, status: ApprovalStatus, job: JobId, now: Time) {
    && DecisionMade(db, after, id, status) && job !in db.jobs
    && if status == Approved && db.approvals[id].action == PackageArtifacts then
         after.jobs == db.jobs[job := NewJob(ArtifactPackage, Some(db.approvals[id].target), now)]
       else
         NoPackaging(db, after)
  }

  lemma DecideOutcomes(db: Db, id: ApprovalId, verdict: Verdict, actor: Actor, reason: Option<string>, now: Time,
                       job: JobId)
    requires job !in db.jobs && (id in db.approvals ==> ApprovalOk(db.approvals[id], now))
    ensures var after := DecideTx(db, id, verdict, actor, reason, now, job).0;
      after == db || DecisionStands(db, after, id, if verdict == Approve then Approved else Rejected, job, now)
  {
    var (after, outcome) := DecideTx(db, id, verdict, actor, reason, now, job);
    if outcome in {SelfApproval, Expired} {
      assert after.approvals == db.approvals;
    }
  }

  lemma DecisionBalance(db: Db, after: Db, id: ApprovalId, status: ApprovalStatus, job: JobId, now: Time, a: AuditId)
    requires DecisionStands(db, after, id, status, job, now)
    ensures CountOf(after.jobs, PackagesOf(a)) - CountOf(db.jobs, PackagesOf(a))
      == CountOf(after.approvals, ApprovalsOf(a)) - CountOf(db.approvals, ApprovalsOf(a))
  {
    CountUpdate(db.approvals, id, after.approvals[id], ApprovalsOf(a));
    if status == Approved && db.approvals[id].action == PackageArtifacts {
      CountInsert(db.jobs, job, after.jobs[job], PackagesOf(a));
    } else {
      CountExtend(db.jobs, after.jobs, PackagesOf(a));
    }
  }

  lemma StepKeepsBalance(s: State, action: Action)
    requires ApprovalsOk(s) && Balanced(s.db)
    ensures Balanced(Next(s, action).db)
  {
    var next := Next(s, action);
    forall a ensures CountOf(next.db.jobs, PackagesOf(a)) == CountOf(next.db.approvals, ApprovalsOf(a)) {
      if action.Decide? {
        DecideBalance(s, action, a);
      } else {
        QuietAction(s, action);
        QuietBalance(s.db, next.db, a);
      }
    }
  }

  lemma DecideBalance(s: State, action: Action, a: AuditId)
    requires ApprovalsOk(s) && Balanced(s.db) && action.Decide?
    ensures var next := Next(s, action).db; CountOf(next.jobs, PackagesOf(a)) == CountOf(next.approvals, ApprovalsOf(a))
  {
    if action.job !in s.db.jobs {
      DecideOutcomes(s.db, action.approval, action.verdict, action.actor, action.reason, s.clock, action.job);
      if Next(s, action).db != s.db {
        DecisionBalance(s.db, Next(s, action).db, action.approval,
                        if action.verdict == Approve then Approved else Rejected, action.job, s.clock, a);
      }
    }
  }

  lemma {:induction false} RunKeepsBalance(s: State, actions: seq<Action>)
    requires Inv(s) && Balanced(s.db)
    ensures Balanced(Run(s, actions).db)
    decreases |actions|
  {
    if actions != [] {
      StepKeepsInv(s, actions[0]);
      StepKeepsBalance(s, actions[0]);
      RunKeepsBalance(Next(s, actions[0]), actions[1..]);
    }
  }

  /**
   Each packaging approval yields exactly one job: in every reachable state an audit has as many
   packaging jobs as approved packaging requests, which is at most one.
   */
  lemma OnePackagePerApproval(actions: seq<Action>, a: AuditId)
    ensures var db := Run(INITIAL, actions).db;
      CountOf(db.jobs, PackagesOf(a)) == CountOf(db.approvals, ApprovalsOf(a)) <= 1
  {
    ReachableBalance(actions);
    AtMostOneApproval(Run(INITIAL, actions).db, a);
  }

  lemma ReachableBalance(actions: seq<Action>)
    ensures Balanced(Run(INITIAL, actions).db) && ShapeOk(Run(INITIAL, actions).db)
  {
    ReachableInv([]);
    InitialBalance();
    RunKeepsBalance(INITIAL, actions);
    ReachableInv(actions);
  }

  lemma AtMostOneApproval(db: Db, a: AuditId)
    requires ShapeOk(db)
    ensures CountOf(db.approvals, ApprovalsOf(a)) <= 1
  {
    forall ap, bp | ap in db.approvals && bp in db.approvals
                    && ApprovalsOf(a)(db.approvals[ap]) && ApprovalsOf(a)(db.approvals[bp])
      ensures ap == bp
    {
      assert PackageGate(db, ap, a) && PackageGate(db, bp, a);
    }
    CountAtMostOne(db.approvals, ApprovalsOf(a));
  }

  lemma InitialBalance()
    ensures Balanced(INITIAL.db)
  {
    forall a ensures CountOf(EMPTY_DB.jobs, PackagesOf(a)) == CountOf(EMPTY_DB.approvals, ApprovalsOf(a)) {
      assert Matching(EMPTY_DB.jobs, PackagesOf(a)) == {};
      assert Matching(EMPTY_DB.approvals, ApprovalsOf(a)) == {};
    }
  }

  // ---------- an expired request ----------

  lemma StartRefused(db: Db, c: Call, now: Time, audit: AuditId, approval: ApprovalId, job: JobId, keyFirst: bool,
                     a: AuditId)
    requires ActiveRow(db, a) && audit !in db.audits
    ensures StartTx(db, c.production, c.key, c.actor, now, audit, approval, job, keyFirst).Violation?
  {
    assert ActiveTaken(db, audit);
  }

  lemma CallKeepsAudits(s: State, call: nat, pick: nat, audit: AuditId, approval: ApprovalId, job: JobId,
                        keyFirst: bool,
                        a: AuditId)
    requires call in s.calls && ActiveRow(s.db, a) && audit !in s.db.audits
    ensures StepCall(s, call, pick, audit, approval, job, keyFirst).db == s.db
  {
    StartRefused(s.db, s.calls[call], s.clock, audit, approval, job, keyFirst, a);
  }

  lemma FollowKeepsAuditKeys(s: State, action: Action)
    requires action.SweepFollow?
    ensures Next(s, action).db.audits.Keys == s.db.audits.Keys
  {
    if action.sweep in s.sweeps && s.sweeps[action.sweep].swept {
      SetKeepsAuditKeys(s.db, action.audit);
    }
  }

  lemma SetKeepsAuditKeys(db: Db, a: AuditId)
    ensures var failed := SetAuditStatusIf(db, a, AuditRunning, AuditFailed);
      failed.Done? ==> failed.db.audits.Keys == db.audits.Keys
    ensures var resumed := SetAuditStatus(db, a, AuditRunning);
      resumed.Done? ==> resumed.db.audits.Keys == db.audits.Keys
  {
  }

  /** While one audit is active, no action adds another. */
  lemma ActiveBlocksStart(s: State, action: Action, a: AuditId)
    requires ActiveRow(s.db, a)
    ensures Next(s, action).db.audits.Keys == s.db.audits.Keys
  {
    if action.Step? {
      if action.holder in s.sessions { StepFrame(s, action.holder, action.approval); }
    } else if action.CallStep? {
      if action.call in s.calls && action.audit !in s.db.audits {
        CallKeepsAudits(s, action.call, action.pick, action.audit, action.approval, action.job, action.keyFirst, a);
      }
    } else if action.SweepFollow? {
      FollowKeepsAuditKeys(s, action);
    } else if !action.Decide? {
      AuditsFrame(s, action);
    }
  }

  /** A pending request to run an audit that is more than 24 hours old. */
  ghost predicate ExpiredRequest(s: State, id: ApprovalId) {
    && id in s.db.approvals && s.db.approvals[id].status == Pending && s.db.approvals[id].action == RunAudit
    && s.clock > s.db.approvals[id].requestedAt + APPROVAL_TTL_MS
  }

  lemma DecideLeavesExpired(db: Db, id: ApprovalId, verdict: Verdict, actor: Actor, reason: Option<string>, now: Time,
                            job: JobId, expired: ApprovalId)
    requires expired in db.approvals && ApprovalOk(db.approvals[expired], now)
    requires db.approvals[expired].status == Pending && now > db.approvals[expired].requestedAt + APPROVAL_TTL_MS
    ensures var after := DecideTx(db, id, verdict, actor, reason, now, job).0;
      expired in after.approvals && after.approvals[expired] == db.approvals[expired]
  {
  }

  lemma StepKeepsExpired(s: State, action: Action, id: ApprovalId)
    requires ApprovalsOk(s) && ExpiredRequest(s, id)
    ensures ExpiredRequest(Next(s, action), id)
    ensures Next(s, action).db.approvals[id] == s.db.approvals[id]
  {
    ActionFrame(s, action);
    if action.Decide? {
      DecideLeavesExpired(s.db, action.approval, action.verdict, action.actor, action.reason, s.clock, action.job, id);
    } else {
      QuietAction(s, action);
    }
  }

  lemma ExpiredAuditWaits(s: State, id: ApprovalId)
    requires Inv(s) && ExpiredRequest(s, id)
    ensures var a := s.db.approvals[id].target; ActiveRow(s.db, a) && s.db.audits[a].status == WaitingApproval
  {
    assert RunGate(s.db, id, s.db.approvals[id].target);
  }

  lemma {:induction false} ExpiredRun(s: State, actions: seq<Action>, id: ApprovalId)
    requires Inv(s) && ExpiredRequest(s, id)
    ensures var later := Run(s, actions);
      && Inv(later) && ExpiredRequest(later, id) && later.db.approvals[id] == s.db.approvals[id]
      && later.db.audits.Keys == s.db.audits.Keys
    decreases |actions|
  {
    if actions != [] {
      ExpiredAuditWaits(s, id);
      ActiveBlocksStart(s, actions[0], s.db.approvals[id].target);
      StepKeepsInv(s, actions[0]);
      StepKeepsExpired(s, actions[0], id);
      ExpiredRun(Next(s, actions[0]), actions[1..], id);
    }
  }

  // ---------- exactly the expired requests wait for ever ----------

  ghost predicate StillWaits(s: State, future: seq<Action>, a: AuditId) {
    var later := Run(s, future).db;
    a in later.audits && later.audits[a].status == WaitingApproval
  }

  /** The request stays as it is, its audit waits in the single active slot, and no other audit is inserted. */
  ghost predicate GateBlocks(s: State, future: seq<Action>, id: ApprovalId)
    requires id in s.db.approvals
  {
    var later := Run(s, future).db;
    && id in later.approvals && later.approvals[id] == s.db.approvals[id]
    && StillWaits(s, future, s.db.approvals[id].target)
    && later.audits.Keys == s.db.audits.Keys
  }

  /** Somebody else than the requester rejects a request that has not expired, which cancels its audit. */
  lemma RejectionCancels(s: State, id: ApprovalId, job: JobId)
    requires id in s.db.approvals && s.db.approvals[id].status == Pending && s.db.approvals[id].action == RunAudit
    requires !ExpiredRequest(s, id) && job !in s.db.jobs && s.db.approvals[id].target in s.db.audits
    ensures var row := s.db.approvals[id];
      var reject := Decide(id, Reject, row.requestedBy + "x", None, job);
      Next(s, reject) == s.(db := s.db.(
        approvals := s.db.approvals[id := MarkDecided(row, Reject, row.requestedBy + "x", None, s.clock)],
        audits := s.db.audits[row.target := s.db.audits[row.target].(status := Cancelled)]))
  {
  }

  lemma TimelyRequestEnds(s: State, id: ApprovalId)
    requires id in s.db.approvals && s.db.approvals[id].status == Pending && s.db.approvals[id].action == RunAudit
    requires !ExpiredRequest(s, id) && s.db.approvals[id].target in s.db.audits
    ensures exists future :: !StillWaits(s, future, s.db.approvals[id].target)
  {
    FreshId(s.db.jobs.Keys);
    var job: JobId :| job !in s.db.jobs;
    var reject := Decide(id, Reject, s.db.approvals[id].requestedBy + "x", None, job);
    RejectionCancels(s, id, job);
    RunOne(s, reject, []);
    assert Run(s, [reject]) == Next(s, reject);
    assert !StillWaits(s, [reject], s.db.approvals[id].target);
  }

  /**
   The audit of a pending request waits in every future if and only if the request has expired.  It
   then blocks for ever: the request stays as it is and no other audit is ever inserted.
   */
  lemma ExpiredBlocksForEver(past: seq<Action>, id: ApprovalId)
    requires var db := Run(INITIAL, past).db;
      id in db.approvals && db.approvals[id].status == Pending && db.approvals[id].action == RunAudit
    ensures var s := Run(INITIAL, past);
      (forall future :: StillWaits(s, future, s.db.approvals[id].target)) <==> ExpiredRequest(s, id)
    ensures var s := Run(INITIAL, past); ExpiredRequest(s, id) ==> forall future :: GateBlocks(s, future, id)
  {
    var s := Run(INITIAL, past);
    ReachableInv(past);
    if ExpiredRequest(s, id) {
      forall future ensures GateBlocks(s, future, id) {
        ExpiredRun(s, future, id);
        ExpiredAuditWaits(Run(s, future), id);
      }
      assert forall future :: GateBlocks(s, future, id) ==> StillWaits(s, future, s.db.approvals[id].target);
    } else {
      assert RunGate(s.db, id, s.db.approvals[id].target);
      TimelyRequestEnds(s, id);
    }
  }
}
