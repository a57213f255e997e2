/** The two-person rule over what people do: who opened a call, who decided its request. */
module TwoPeople {
  import opened Wrappers
  import opened Tables
  import opened Protocol
  import opened Frames
  import opened Invariants
  import opened Reachability
  import opened Approvals
  import opened Starts

  /** The state after the first `n` actions. */
  function At(actions: seq<Action>, n: nat): State
    requires n <= |actions|
  {
    Run(INITIAL, actions[..n])
  }

  lemma AtNext(actions: seq<Action>, n: nat)
    requires n < |actions|
    ensures At(actions, n + 1) == Next(At(actions, n), actions[n])
  {
    assert actions[..n + 1] == actions[..n] + [actions[n]];
    RunConcat(INITIAL, actions[..n], [actions[n]]);
    RunOne(At(actions, n), actions[n], []);
  }

  // ---------- the events of a run ----------

  /** Action `i` opens the call that is in progress before action `k`. */
  ghost predicate Opens(actions: seq<Action>, i: nat, k: nat, c: nat, key: Option<IdempotencyKey>, production: bool,
                        p: Actor) {
    && i < k <= |actions| && actions[i] == OpenCall(c, key, production, p) && c !in At(actions, i).calls
    && forall n: nat :: i < n <= k ==> c in At(actions, n).calls
  }

  /** Action `k`, a statement of call `c`, inserts audit `a`. */
  ghost predicate Inserts(actions: seq<Action>, k: nat, c: nat, a: AuditId) {
    && k < |actions| && actions[k].CallStep? && actions[k].call == c
    && a !in At(actions, k).db.audits && a in At(actions, k + 1).db.audits
  }

  /** Action `m` is the decision by `q` that approves request `ap`. */
  ghost predicate Approves(actions: seq<Action>, m: nat, ap: ApprovalId, q: Actor) {
    && m < |actions| && actions[m].Decide? && actions[m].approval == ap && actions[m].verdict == Approve
    && actions[m].actor == q
    && ap in At(actions, m).db.approvals && At(actions, m).db.approvals[ap].status == Pending
    && ap in At(actions, m + 1).db.approvals && At(actions, m + 1).db.approvals[ap].status == Approved
  }

  // ---------- calls ----------

  /** The call's input, and what becomes of it in one action. */
  ghost predicate Input(s: State, c: nat, key: Option<IdempotencyKey>, production: bool, p: Actor) {
    c in s.calls && s.calls[c].key == key && s.calls[c].production == production && s.calls[c].actor == p
  }

  lemma InputStays(actions: seq<Action>, n: nat, c: nat, key: Option<IdempotencyKey>, production: bool, p: Actor)
    requires n < |actions| && Input(At(actions, n), c, key, production, p) && c in At(actions, n + 1).calls
    ensures Input(At(actions, n + 1), c, key, production, p)
  {
    AtNext(actions, n);
    CallKeepsInput(At(actions, n), actions[n], c);
  }

  lemma OpensWithInput(actions: seq<Action>, i: nat, c: nat, key: Option<IdempotencyKey>, production: bool, p: Actor)
    requires i < |actions| && actions[i] == OpenCall(c, key, production, p) && c !in At(actions, i).calls
    ensures Input(At(actions, i + 1), c, key, production, p)
  {
    AtNext(actions, i);
  }

  /** A call carries what it was opened with. */
  lemma {:induction false} CallIsAsOpened(actions: seq<Action>, i: nat, k: nat, c: nat, key: Option<IdempotencyKey>,
                                          production: bool, p: Actor)
    requires Opens(actions, i, k, c, key, production, p)
    ensures Input(At(actions, k), c, key, production, p)
    decreases k
  {
    if k == i + 1 {
      OpensWithInput(actions, i, c, key, production, p);
    } else {
      assert Opens(actions, i, k - 1, c, key, production, p);
      CallIsAsOpened(actions, i, k - 1, c, key, production, p);
      InputStays(actions, k - 1, c, key, production, p);
    }
  }

  lemma OnlyOpensAddCalls(s: State, action: Action, c: nat)
    requires !action.OpenCall?
    ensures c in Next(s, action).calls ==> c in s.calls
  {
    if action.Step? {
      if action.holder in s.sessions { StepKeepsCalls(s, action.holder, action.approval); }
    } else if action.SweepFollow? {
      FollowKeepsCalls(s, action);
    }
  }

  lemma OnlyOpeningAddsCalls(actions: seq<Action>, n: nat, c: nat)
    requires n < |actions| && c !in At(actions, n).calls && c in At(actions, n + 1).calls
    ensures actions[n].OpenCall? && actions[n].call == c
  {
    AtNext(actions, n);
    if !actions[n].OpenCall? {
      OnlyOpensAddCalls(At(actions, n), actions[n], c);
    }
  }

  /** Every call in progress has been opened. */
  lemma {:induction false} CallWasOpened(actions: seq<Action>, k: nat, c: nat)
    returns (i: nat, key: Option<IdempotencyKey>, production: bool, p: Actor)
    requires k <= |actions| && c in At(actions, k).calls
    ensures Opens(actions, i, k, c, key, production, p)
    decreases k
  {
    if k == 0 {
      assert false;
    } else if c in At(actions, k - 1).calls {
      i, key, production, p := CallWasOpened(actions, k - 1, c);
    } else {
      OnlyOpeningAddsCalls(actions, k - 1, c);
      var open := actions[k - 1];
      i, key, production, p := k - 1, open.key, open.production, open.actor;
    }
  }

  // ---------- audits ----------

  lemma InsertHasCall(actions: seq<Action>, n: nat, a: AuditId)
    requires n < |actions| && a !in At(actions, n).db.audits && a in At(actions, n + 1).db.audits
    ensures actions[n].CallStep? && actions[n].call in At(actions, n).calls && actions[n].audit == a
    ensures InsertedFor(At(actions, n), At(actions, n + 1), At(actions, n).calls[actions[n].call], a,
                        actions[n].approval, actions[n].job)
  {
    AtNext(actions, n);
    StartInserts(At(actions, n), actions[n], a);
  }

  /** Every audit has been inserted. */
  lemma {:induction false} AuditWasInserted(actions: seq<Action>, n: nat, a: AuditId) returns (k: nat, c: nat)
    requires n <= |actions| && a in At(actions, n).db.audits
    ensures k < n && Inserts(actions, k, c, a) && c in At(actions, k).calls
    decreases n
  {
    if n == 0 {
      assert false;
    } else if a in At(actions, n - 1).db.audits {
      k, c := AuditWasInserted(actions, n - 1, a);
    } else {
      InsertHasCall(actions, n - 1, a);
      k, c := n - 1, actions[n - 1].call;
    }
  }

  // ---------- requests ----------

  /** What a request asks for, who asked and when. */
  ghost predicate SameRequest(row: Approval, next: Approval) {
    && next.action == row.action && next.target == row.target
    && next.requestedBy == row.requestedBy && next.requestedAt == row.requestedAt
  }

  lemma DecideKeepsRequest(db: Db, id: ApprovalId, verdict: Verdict, actor: Actor, reason: Option<string>, now: Time,
                           job: JobId, ap: ApprovalId)
    requires ap in db.approvals
    ensures var after := DecideTx(db, id, verdict, actor, reason, now, job).0.approvals;
      ap in after && SameRequest(db.approvals[ap], after[ap])
  {
  }

  lemma RequestStays(s: State, action: Action, ap: ApprovalId)
    requires ap in s.db.approvals
    ensures ap in Next(s, action).db.approvals
    ensures SameRequest(s.db.approvals[ap], Next(s, action).db.approvals[ap])
  {
    if action.Decide? {
      DecideKeepsRequest(s.db, action.approval, action.verdict, action.actor, action.reason, s.clock, action.job, ap);
    } else {
      QuietAction(s, action);
    }
  }

  lemma {:induction false} RequestStaysOver(actions: seq<Action>, k: nat, n: nat, ap: ApprovalId)
    requires k <= n <= |actions| && ap in At(actions, k).db.approvals
    ensures ap in At(actions, n).db.approvals
    ensures SameRequest(At(actions, k).db.approvals[ap], At(actions, n).db.approvals[ap])
    decreases n
  {
    if k < n {
      RequestStaysOver(actions, k, n - 1, ap);
      AtNext(actions, n - 1);
      RequestStays(At(actions, n - 1), actions[n - 1], ap);
    }
  }

  /** Only a timely decision by somebody else ends the wait of a request, and the row says who, when and why. */
  ghost predicate DecidedBy(row: Approval, next: Approval, action: Action, now: Time) {
    && action.Decide? && (action.actor != row.requestedBy || row.requestedBy == SYSTEM)
    && now <= row.requestedAt + APPROVAL_TTL_MS
    && next.status == (if action.verdict == Approve then Approved else Rejected)
    && next.decidedBy == Some(action.actor) && next.decidedAt == Some(now) && next.reason == action.reason
  }

  lemma DecideRecords(db: Db, id: ApprovalId, verdict: Verdict, actor: Actor, reason: Option<string>, now: Time,
                      job: JobId, ap: ApprovalId)
    requires ap in db.approvals && db.approvals[ap].status == Pending
    ensures var after := DecideTx(db, id, verdict, actor, reason, now, job).0.approvals;
      && ap in after
      && (after[ap].status != Pending ==>
            id == ap && DecidedBy(db.approvals[ap], after[ap], Decide(id, verdict, actor, reason, job), now))
  {
  }

  lemma DecisionIsRecorded(s: State, action: Action, ap: ApprovalId)
    requires ap in s.db.approvals && s.db.approvals[ap].status == Pending
    ensures ap in Next(s, action).db.approvals
    ensures var next := Next(s, action).db.approvals[ap];
      next.status != Pending ==>
        action.Decide? && action.approval == ap && DecidedBy(s.db.approvals[ap], next, action, s.clock)
  {
    if action.Decide? {
      DecideRecords(s.db, action.approval, action.verdict, action.actor, action.reason, s.clock, action.job, ap);
    } else {
      QuietAction(s, action);
    }
  }

  lemma PendingEnds(actions: seq<Action>, n: nat, ap: ApprovalId)
    requires n < |actions| && ap in At(actions, n).db.approvals && At(actions, n).db.approvals[ap].status == Pending
    requires ap in At(actions, n + 1).db.approvals && At(actions, n + 1).db.approvals[ap].status == Approved
    ensures actions[n].Decide? && Approves(actions, n, ap, actions[n].actor)
    ensures DecidedBy(At(actions, n).db.approvals[ap], At(actions, n + 1).db.approvals[ap], actions[n],
                      At(actions, n).clock)
  {
    AtNext(actions, n);
    DecisionIsRecorded(At(actions, n), actions[n], ap);
  }

  lemma DecidedOnce(actions: seq<Action>, n: nat, ap: ApprovalId)
    requires n < |actions| && ap in At(actions, n).db.approvals && At(actions, n).db.approvals[ap].status != Pending
    ensures ap in At(actions, n + 1).db.approvals
    ensures At(actions, n + 1).db.approvals[ap] == At(actions, n).db.approvals[ap]
  {
    var s := At(actions, n);
    AtNext(actions, n);
    DecidedStaysDecided(s, [actions[n]], ap);
    RunOne(s, actions[n], []);
    assert [actions[n]] + [] == [actions[n]];
  }

  /** The action that approved a request which was pending after `k` actions and is approved after `n`. */
  lemma {:induction false} ApprovingAction(actions: seq<Action>, k: nat, n: nat, ap: ApprovalId) returns (m: nat)
    requires k <= n <= |actions|
    requires ap in At(actions, k).db.approvals && At(actions, k).db.approvals[ap].status == Pending
    requires ap in At(actions, n).db.approvals && At(actions, n).db.approvals[ap].status == Approved
    ensures k <= m < n && actions[m].Decide? && Approves(actions, m, ap, actions[m].actor)
    ensures DecidedBy(At(actions, m).db.approvals[ap], At(actions, n).db.approvals[ap], actions[m],
                      At(actions, m).clock)
    decreases n
  {
    if k == n {
      assert false;
    } else {
      RequestStaysOver(actions, k, n - 1, ap);
      if At(actions, n - 1).db.approvals[ap].status == Pending {
        PendingEnds(actions, n - 1, ap);
        m := n - 1;
      } else {
        DecidedOnce(actions, n - 1, ap);
        m := ApprovingAction(actions, k, n - 1, ap);
      }
    }
  }

  // ---------- two people ----------

  /** After the insert, the audit has its request, in the name of the caller. */
  lemma RequestIsTheCallers(actions: seq<Action>, i: nat, k: nat, c: nat, key: Option<IdempotencyKey>, p: Actor,
                            a: AuditId)
    returns (ap: ApprovalId)
    requires Opens(actions, i, k, c, key, true, p) && Inserts(actions, k, c, a)
    ensures RunGate(At(actions, k + 1).db, ap, a)
    ensures var row := At(actions, k + 1).db.approvals[ap];
      row.status == Pending && row.requestedBy == p && row.requestedAt == At(actions, k).clock
  {
    CallIsAsOpened(actions, i, k, c, key, true, p);
    InsertHasCall(actions, k, a);
    ap := actions[k].approval;
  }

  /** The gate of an audit that has its run job is approved. */
  lemma GateIsApproved(actions: seq<Action>, ap: ApprovalId, a: AuditId, j: JobId)
    requires var db := Run(INITIAL, actions).db; RunGate(db, ap, a) && RunJob(db, j, a)
    ensures Run(INITIAL, actions).db.approvals[ap].status == Approved
  {
    ReachableInv(actions);
    assert HasRunJob(Run(INITIAL, actions).db, a);
  }

  /** A pending gate whose audit has its run job in the end was approved in between. */
  lemma GateWasApproved(actions: seq<Action>, k: nat, ap: ApprovalId, a: AuditId, j: JobId) returns (m: nat)
    requires k <= |actions| && RunGate(At(actions, k).db, ap, a) && At(actions, k).db.approvals[ap].status == Pending
    requires RunJob(Run(INITIAL, actions).db, j, a)
    ensures k <= m < |actions| && actions[m].Decide? && Approves(actions, m, ap, actions[m].actor)
    ensures RunGate(At(actions, m).db, ap, a)
    ensures var row := At(actions, k).db.approvals[ap];
      && (actions[m].actor != row.requestedBy || row.requestedBy == SYSTEM)
      && At(actions, m).clock <= row.requestedAt + APPROVAL_TTL_MS
  {
    var n := |actions|;
    assert actions[..n] == actions;
    RequestStaysOver(actions, k, n, ap);
    GateIsApproved(actions, ap, a, j);
    m := ApprovingAction(actions, k, n, ap);
    RequestStaysOver(actions, k, m, ap);
  }

  /** Action `m` approves the request to run `a`, in time, by somebody else than `p`. */
  ghost predicate SecondPerson(actions: seq<Action>, k: nat, m: nat, ap: ApprovalId, q: Actor, p: Actor, a: AuditId) {
    && k < m && Approves(actions, m, ap, q) && RunGate(At(actions, m).db, ap, a)
    && (q != p || p == SYSTEM)
    && At(actions, m).clock <= At(actions, k).clock + APPROVAL_TTL_MS
  }

  /**
   The two-person rule over actions: if a call that `p` opened for production inserted an audit and the audit
   has a run job, then somebody other than `p`, unless `p` is the system, approved its request, after the
   insert and within 24 hours of it.
   */
  lemma SecondPersonApproved(actions: seq<Action>, i: nat, k: nat, c: nat, key: Option<IdempotencyKey>, p: Actor,
                             a: AuditId, j: JobId)
    requires Opens(actions, i, k, c, key, true, p) && Inserts(actions, k, c, a)
    requires RunJob(Run(INITIAL, actions).db, j, a)
    ensures exists m: nat, ap, q :: SecondPerson(actions, k, m, ap, q, p, a)
  {
    var ap := RequestIsTheCallers(actions, i, k, c, key, p, a);
    var m := GateWasApproved(actions, k + 1, ap, a, j);
    assert SecondPerson(actions, k, m, ap, actions[m].actor, p, a);
  }

  /**
   And every audit has such a call: some actor opened it, with the key and for the environment that
   the audit carries in his name.
   */
  lemma EveryAuditWasStarted(actions: seq<Action>, a: AuditId)
    requires a in Run(INITIAL, actions).db.audits
    ensures exists i: nat, k: nat, c, key, production, p ::
      && Opens(actions, i, k, c, key, production, p) && Inserts(actions, k, c, a)
      && var row := At(actions, k + 1).db.audits[a];
         row.requestedBy == p && row.production == production && row.key == key
  {
    assert actions[..|actions|] == actions;
    var k, c := AuditWasInserted(actions, |actions|, a);
    var i, key, production, p := CallWasOpened(actions, k, c);
    CallIsAsOpened(actions, i, k, c, key, production, p);
    InsertHasCall(actions, k, a);
  }
}
