/** Every action keeps the invariant, so every interleaving does. */
module Preservation {
  import opened Wrappers
  import opened Tables
  import opened Programs
  import opened Protocol
  import opened Invariants
  import opened TableLemmas

  // ---------- what an action may do to the job rows ----------

  /** Rows keep their identity; a token that survives comes with the same attempt and owner. */
  ghost predicate RowEvolves(row: Job, next: Job) {
    && next.kind == row.kind && next.audit == row.audit && next.maxAttempts == row.maxAttempts
    && (next.token.Some? && next.token == row.token ==> next.attempt == row.attempt && next.lockedBy == row.lockedBy)
  }

  /** A token the protocol issued is stored again only where it still is: the fence. */
  ghost predicate TokensOnlyLeave(s: State, next: State) {
    && (forall t <- s.claims :: t in next.claims && next.claims[t] == s.claims[t])
    && (forall j <- s.db.jobs :: j in next.db.jobs && RowEvolves(s.db.jobs[j], next.db.jobs[j])
          && (next.db.jobs[j].token.Some? && next.db.jobs[j].token.value in s.claims ==>
                next.db.jobs[j].token == s.db.jobs[j].token))
    && (forall j <- next.db.jobs :: j !in s.db.jobs ==> next.db.jobs[j].token.None?)
  }

  lemma HeldBefore(s: State, next: State, h: Holder)
    requires SessionsOk(s) && TokensOnlyLeave(s, next)
    requires h in s.sessions && h in next.sessions && next.sessions[h].token == s.sessions[h].token
    ensures Held(next, h) ==> Held(s, h)
  {
    assert SessionOk(s, h);
  }

  /** A session the action does not run stays in order. */
  lemma BystanderOk(s: State, next: State, h: Holder)
    requires SessionsOk(s) && TokensOnlyLeave(s, next)
    requires h in s.sessions && h in next.sessions && next.sessions[h] == s.sessions[h]
    requires h.job in s.db.jobs && h.job in next.db.jobs
    requires Held(next, h) ==> next.db.jobs[h.job].status == s.db.jobs[h.job].status
    ensures SessionOk(next, h)
  {
    assert SessionOk(s, h);
    HeldBefore(s, next, h);
  }

  /** A token was issued to one worker for one job, so it names the session. */
  lemma OneHolderPerToken(s: State, h: Holder, k: Holder)
    requires SessionsOk(s) && h in s.sessions && k in s.sessions && s.sessions[h].token == s.sessions[k].token
    ensures h == k
  {
    assert SessionOk(s, h) && SessionOk(s, k);
  }

  /** `h` may have changed the status of the job whose token it holds; nobody changed another one. */
  ghost predicate StatusBelongsTo(s: State, next: State, h: Holder) {
    forall j <- s.db.jobs :: j in next.db.jobs && next.db.jobs[j].token.Some?
                             && next.db.jobs[j].token == s.db.jobs[j].token
                             && next.db.jobs[j].status != s.db.jobs[j].status ==>
      h in s.sessions && j == h.job && s.sessions[h].token == s.db.jobs[j].token
  }

  /** An action of the session `h`, or of none, leaves the other sessions in order. */
  lemma BystandersOk(s: State, next: State, h: Holder)
    requires SessionsOk(s) && TokensOnlyLeave(s, next) && StatusBelongsTo(s, next, h)
    requires forall k <- next.sessions :: k != h ==> k in s.sessions && next.sessions[k] == s.sessions[k]
    ensures forall k <- next.sessions :: k != h ==> SessionOk(next, k)
  {
    forall k | k in next.sessions && k != h
      ensures SessionOk(next, k)
    {
      assert SessionOk(s, k);
      HeldBefore(s, next, k);
      if h in s.sessions && s.sessions[h].token == s.sessions[k].token {
        OneHolderPerToken(s, h, k);
      }
      BystanderOk(s, next, k);
    }
  }

  // ---------- the parts of the invariant that an action hardly touches ----------

  lemma LocalsKept(s: State, next: State)
    requires LocalsOk(s) && Grows(s.db, next.db) && next.clock >= s.clock
    requires next.calls == s.calls && forall w <- next.sweeps :: w in s.sweeps && next.sweeps[w] == s.sweeps[w]
    requires forall ap <- next.db.approvals :: (ap in s.db.approvals && next.db.approvals[ap] == s.db.approvals[ap])
                                               || ApprovalOk(next.db.approvals[ap], next.clock)
    ensures LocalsOk(next)
  {
    forall c | c in next.calls
      ensures CallOk(next.db, next.calls[c])
    {
      assert CallOk(s.db, s.calls[c]);
    }
  }

  /** Sessions may end when the tables stay as they are. */
  lemma SessionsMayEnd(s: State, next: State)
    requires WorkersOk(s) && next.db == s.db && next.claims == s.claims
    requires forall h <- next.sessions :: h in s.sessions && next.sessions[h] == s.sessions[h]
    ensures WorkersOk(next)
  {
    forall h | h in next.sessions
      ensures SessionOk(next, h)
    {
      assert SessionOk(s, h);
    }
    assert forall j <- s.db.jobs :: RowClaimed(s, j) ==> RowClaimed(next, j);
  }

  lemma OpenKeeps(s: State, next: State, h: Holder, scanners: nat, findings: nat)
    requires WorkersOk(s) && h !in s.sessions && h.job in s.db.jobs
    requires s.db.jobs[h.job].status == Running && s.db.jobs[h.job].lockedBy == Some(h.worker)
    requires next == s.(sessions := s.sessions[h := NewSession(s.db.jobs[h.job], scanners, findings)])
    ensures WorkersOk(next)
  {
    assert RowOk(s.db.jobs[h.job]) && RowClaimed(s, h.job);
    ProgramIsWellFormed(s.db.jobs[h.job].kind, scanners, findings);
    BystandersOk(s, next, h);
    assert SessionOk(next, h);
    assert forall j <- s.db.jobs :: RowClaimed(s, j) ==> RowClaimed(next, j);
  }

  // ---------- statements on job rows ----------

  /** A statement that leaves the status alone wherever it leaves the token alone. */
  lemma NobodyMoves(s: State, next: State)
    requires WorkersOk(s) && JobsOk(next) && TokensOnlyLeave(s, next)
    requires next.sessions == s.sessions
    requires forall j <- s.db.jobs :: next.db.jobs[j].token.Some? && next.db.jobs[j].token == s.db.jobs[j].token ==>
      next.db.jobs[j].status == s.db.jobs[j].status
    ensures WorkersOk(next)
  {
    forall h | h in next.sessions
      ensures SessionOk(next, h)
    {
      assert SessionOk(s, h);
      HeldBefore(s, next, h);
      BystanderOk(s, next, h);
    }
  }

  lemma ClaimRowOk(s: State, next: State, worker: WorkerId, job: JobId, token: Token)
    requires WorkersOk(s) && job in s.db.jobs && Claimable(s.db.jobs[job]) && token !in s.claims
    requires var row := Claimed(s.db.jobs[job], worker, token, s.clock);
             next == s.(db := PutJob(s.db, job, row), claims := s.claims[token := Claim(worker, job, row.attempt)])
    ensures WorkersOk(next) && JobsEvolve(s.db, next.db)
  {
    assert RowOk(s.db.jobs[job]);
    assert RowOk(next.db.jobs[job]) && RowClaimed(next, job);
    assert forall j <- s.db.jobs :: RowOk(s.db.jobs[j]) && RowClaimed(s, j);
    NobodyMoves(s, next);
  }

  /** The two supervisor statements and the shutdown release: each row stays or loses its token. */
  ghost predicate RowsReleased(s: State, next: State) {
    && next.claims == s.claims && next.sessions == s.sessions
    && next.db.audits == s.db.audits && next.db.approvals == s.db.approvals && next.db.reports == s.db.reports
    && next.db.jobs.Keys == s.db.jobs.Keys
    && forall j <- s.db.jobs ::
         next.db.jobs[j] == s.db.jobs[j]
         || (s.db.jobs[j].status == Running
             && next.db.jobs[j] in {TimedOutRow(s.db.jobs[j]), ReleasedRow(s.db.jobs[j])})
  }

  lemma ReleaseOk(s: State, next: State)
    requires WorkersOk(s) && RowsReleased(s, next)
    ensures WorkersOk(next) && JobsEvolve(s.db, next.db)
  {
    assert forall j <- s.db.jobs :: RowOk(s.db.jobs[j]) && RowClaimed(s, j);
    assert JobsOk(next);
    NobodyMoves(s, next);
  }

  // ---------- one session's own steps ----------

  /** Only the local state of `h` changes. */
  lemma LocalStepOk(s: State, next: State, h: Holder)
    requires WorkersOk(s) && next.db.jobs == s.db.jobs && next.claims == s.claims
    requires h in s.sessions && h in next.sessions && next.sessions == s.sessions[h := next.sessions[h]]
    requires SessionOk(next, h)
    ensures WorkersOk(next)
  {
    BystandersOk(s, next, h);
    assert forall j <- s.db.jobs :: RowClaimed(s, j) ==> RowClaimed(next, j);
  }

  /** Writing one row that keeps its identity, and that no audit run completes or leaves completion with. */
  lemma OneRowEvolves(db: Db, after: Db, j: JobId, row: Job)
    requires j in db.jobs && after == db.(jobs := db.jobs[j := row]) && RowEvolves(db.jobs[j], row)
    requires row.kind == AuditRun ==> (row.status == Completed <==> db.jobs[j].status == Completed)
    ensures JobsEvolve(db, after)
  {
  }

  /** `h` writes its own job row under its token, and goes on or ends. */
  lemma OwnRowOk(s: State, next: State, h: Holder, row: Job)
    requires WorkersOk(s) && h in s.sessions && Held(s, h)
    requires RowEvolves(s.db.jobs[h.job], row) && RowOk(row)
    requires row.token == s.db.jobs[h.job].token || row.token.None?
    requires next.db.jobs == s.db.jobs[h.job := row] && next.claims == s.claims
    requires forall k <- next.sessions :: k != h ==> k in s.sessions && next.sessions[k] == s.sessions[k]
    requires h in next.sessions ==> SessionOk(next, h)
    ensures WorkersOk(next)
  {
    assert SessionOk(s, h);
    assert forall j <- s.db.jobs :: RowOk(s.db.jobs[j]) && RowClaimed(s, j);
    BystandersOk(s, next, h);
  }
}
