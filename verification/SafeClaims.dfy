/** A claimed job is safe from its claim on, as long as the worker's timer beats. */
module SafeClaims {
  import opened Wrappers
  import opened Tables
  import opened Protocol
  import opened Frames
  import opened Invariants
  import opened Reachability
  import opened Fencing
  import opened Supervision

  // ---------- the claim ----------

  /** A claim gives the job an owner, a token, one more attempt and a fresh heartbeat, and touches nothing else. */
  lemma ClaimRefreshes(s: State, worker: WorkerId, j: JobId, token: Token)
    requires j in s.db.jobs && s.db.jobs[j].status == Queued && s.db.jobs[j].attempt < s.db.jobs[j].maxAttempts
    requires token !in s.claims
    ensures var row, next := s.db.jobs[j], Next(s, ClaimJob(worker, j, token));
      && next.db == s.db.(jobs := next.db.jobs) && next.db.jobs.Keys == s.db.jobs.Keys
      && (forall k <- s.db.jobs :: k != j ==> next.db.jobs[k] == s.db.jobs[k])
      && next.db.jobs[j] == Job(row.kind, Running, row.audit, row.attempt + 1, row.maxAttempts,
                                Some(worker), Some(token), Some(s.clock), row.createdAt)
      && LastBeat(next.db.jobs[j]) == s.clock
  {
  }

  // ---------- from the claim to the session ----------

  /** The job is claimed under `t` and not yet opened; its heartbeat is at most `age` old. */
  ghost predicate ClaimHeld(s: State, h: Holder, t: Token, age: nat) {
    && h !in s.sessions && h.job in s.db.jobs && t in s.claims
    && s.db.jobs[h.job].status == Running && s.db.jobs[h.job].lockedBy == Some(h.worker)
    && s.db.jobs[h.job].token == Some(t) && s.clock <= LastBeat(s.db.jobs[h.job]) + age
  }

  lemma NoSessionUnder(s: State, k: Holder, h: Holder, t: Token, age: nat)
    requires WorkersOk(s) && ClaimHeld(s, h, t, age) && k in s.sessions
    ensures s.sessions[k].token.Some? && s.sessions[k].token != Some(t)
  {
    assert SessionOk(s, k) && RowClaimed(s, h.job);
  }

  lemma SessionsLeaveClaim(s: State, action: Action, h: Holder, t: Token, age: nat)
    requires WorkersOk(s) && ClaimHeld(s, h, t, age) && (action.Step? || action.Beat?)
    ensures h.job in Next(s, action).db.jobs && Next(s, action).db.jobs[h.job] == s.db.jobs[h.job]
  {
    if action.holder in s.sessions {
      NoSessionUnder(s, action.holder, h, t, age);
      if action.Step? {
        StepWritesOneRow(s, StepSession(s, action.holder, action.approval), action.holder, action.approval);
      }
    }
  }

  lemma OthersLeaveClaim(s: State, action: Action, h: Holder, t: Token, age: nat)
    requires WorkersOk(s) && ClaimHeld(s, h, t, age) && age <= STALE_INTERVAL_MS && !Restarts(action, h)
    ensures h.job in Next(s, action).db.jobs && Next(s, action).db.jobs[h.job] == s.db.jobs[h.job]
    ensures t in Next(s, action).claims
  {
    StepTokens(s, action);
    if action.Step? || action.Beat? {
      SessionsLeaveClaim(s, action, h, t, age);
    } else if IsRequest(action) {
      RequestsAddJobs(s, action);
    } else if IsSweep(action) {
      SweepLeavesRow(s, action, h);
    }
  }

  lemma ClaimAges(s: State, action: Action, h: Holder, t: Token, age: nat)
    requires Inv(s) && ClaimHeld(s, h, t, age) && age <= STALE_INTERVAL_MS && !Restarts(action, h)
    ensures Inv(Next(s, action)) && ClaimHeld(Next(s, action), h, t, age + Delta(action))
  {
    StepKeepsInv(s, action);
    OthersLeaveClaim(s, action, h, t, age);
    ActionFrame(s, action);
  }

  function Elapsed(actions: seq<Action>): nat {
    if actions == [] then 0 else Delta(actions[0]) + Elapsed(actions[1..])
  }

  lemma {:induction false} ClaimKept(s: State, actions: seq<Action>, h: Holder, t: Token, age: nat)
    requires Inv(s) && ClaimHeld(s, h, t, age) && NoRestart(actions, h) && age + Elapsed(actions) <= STALE_INTERVAL_MS
    ensures Inv(Run(s, actions)) && ClaimHeld(Run(s, actions), h, t, age + Elapsed(actions))
    decreases |actions|
  {
    if actions != [] {
      NoRestartTail(actions, h);
      ClaimAges(s, actions[0], h, t, age);
      ClaimKept(Next(s, actions[0]), actions[1..], h, t, age + Delta(actions[0]));
    }
  }

  lemma OpenStarts(s: State, h: Holder, t: Token, age: nat, scanners: nat, findings: nat)
    requires ClaimHeld(s, h, t, age)
    ensures var next := Next(s, Open(h.worker, h.job, scanners, findings)); Working(next, h) && BeatWithin(next, h, age)
  {
  }

  lemma OpenWorks(s: State, h: Holder, t: Token, age: nat, scanners: nat, findings: nat)
    requires Inv(s) && ClaimHeld(s, h, t, age)
    ensures var next := Next(s, Open(h.worker, h.job, scanners, findings));
      Inv(next) && Working(next, h) && BeatWithin(next, h, age)
  {
    OpenStarts(s, h, t, age, scanners, findings);
    StepKeepsInv(s, Open(h.worker, h.job, scanners, findings));
  }

  // ---------- from the session on ----------

  lemma {:induction false} YoungerIsYoungEnough(actions: seq<Action>, h: Holder, age: nat, older: nat)
    requires age <= older && YoungEnough(actions, h, older)
    ensures YoungEnough(actions, h, age)
    decreases |actions|
  {
    if actions != [] {
      YoungerIsYoungEnough(actions[1..], h, AgeAfter(actions[0], h, age), AgeAfter(actions[0], h, older));
    }
  }

  /** The ticks as they count from the claim on: a delay before the timer starts is a missed one. */
  function FromTheClaim(ok: seq<bool>, delay: nat): seq<bool> {
    if delay == 0 then ok else [false] + ok
  }

  /** The timer that starts `delay` after the claim never fails three times in a row. */
  ghost predicate BeatsFromClaim(ok: seq<bool>, delay: nat) {
    delay <= HEARTBEAT_INTERVAL_MS && !exists i: nat :: ThreeMisses(FromTheClaim(ok, delay), i)
  }

  lemma DelayedTimer(ok: seq<bool>)
    ensures TooMany(1, ok) <==> exists i: nat :: ThreeMisses(FromTheClaim(ok, 1), i)
  {
    var late := FromTheClaim(ok, 1);
    assert late[1..] == ok;
    TooManyIsThree(0, late);
    ThreeLeading(late);
    assert TooMany(0, late) == TooMany(1, ok);
  }

  lemma TimerFromClaim(actions: seq<Action>, h: Holder, ok: seq<bool>, delay: nat)
    requires OnTimer(actions, h, 0, ok) && BeatsFromClaim(ok, delay)
    ensures YoungEnough(actions, h, delay)
  {
    if delay == 0 {
      assert FromTheClaim(ok, delay) == ok;
      TimerVerdict(actions, h, ok);
    } else {
      DelayedTimer(ok);
      assert FromTheClaim(ok, delay) == FromTheClaim(ok, 1);
      TimerAges(actions, h, ok, 1, 0);
      YoungerIsYoungEnough(actions, h, delay, HEARTBEAT_INTERVAL_MS);
    }
  }

  lemma SafeFromOpen(s: State, actions: seq<Action>, h: Holder, ok: seq<bool>, delay: nat)
    requires Inv(s) && Working(s, h) && BeatWithin(s, h, delay) && NoRestart(actions, h)
    requires OnTimer(actions, h, 0, ok) && BeatsFromClaim(ok, delay)
    ensures BeatsInTime(s, actions, h) && Leased(Run(s, actions), h)
  {
    TimerFromClaim(actions, h, ok, delay);
    TimerInTime(s, actions, h, delay);
    LiveWorkerKeepsLease(s, actions, h);
  }

  /** The claim, in a reachable state, by a worker that does not work on the job yet. */
  lemma ClaimIsFresh(s: State, h: Holder, t: Token)
    requires Inv(s) && h.job in s.db.jobs && Claimable(s.db.jobs[h.job]) && t !in s.claims && h !in s.sessions
    ensures var next := Next(s, ClaimJob(h.worker, h.job, t)); Inv(next) && ClaimHeld(next, h, t, 0)
  {
    StepKeepsInv(s, ClaimJob(h.worker, h.job, t));
    ClaimRefreshes(s, h.worker, h.job, t);
  }

  /**
   From its claim on a job is safe: whatever others do, until its worker opens it at most 15s later and from then
   on while its timer beats often enough, no supervisor takes it away, up to a shutdown of the worker's process.
   */
  lemma ClaimedJobIsSafe(past: seq<Action>, h: Holder, t: Token, waiting: seq<Action>, scanners: nat, findings: nat,
                         actions: seq<Action>, ok: seq<bool>)
    requires var s := Run(INITIAL, past);
      h.job in s.db.jobs && Claimable(s.db.jobs[h.job]) && t !in s.claims && h !in s.sessions
    requires NoRestart(waiting, h) && NoRestart(actions, h)
    requires OnTimer(actions, h, 0, ok) && BeatsFromClaim(ok, Elapsed(waiting))
    ensures var claimed := Next(Run(INITIAL, past), ClaimJob(h.worker, h.job, t));
      var begun := Next(Run(claimed, waiting), Open(h.worker, h.job, scanners, findings));
      && LastBeat(claimed.db.jobs[h.job]) == claimed.clock
      && Working(begun, h) && BeatsInTime(begun, actions, h) && Leased(Run(begun, actions), h)
  {
    var s := Run(INITIAL, past);
    ReachableInv(past);
    ClaimIsFresh(s, h, t);
    ClaimRefreshes(s, h.worker, h.job, t);
    FromClaim(Next(s, ClaimJob(h.worker, h.job, t)), h, t, waiting, scanners, findings, actions, ok);
  }

  lemma FromClaim(s: State, h: Holder, t: Token, waiting: seq<Action>, scanners: nat, findings: nat,
                  actions: seq<Action>, ok: seq<bool>)
    requires Inv(s) && ClaimHeld(s, h, t, 0) && NoRestart(waiting, h) && NoRestart(actions, h)
    requires OnTimer(actions, h, 0, ok) && BeatsFromClaim(ok, Elapsed(waiting))
    ensures var begun := Next(Run(s, waiting), Open(h.worker, h.job, scanners, findings));
      Working(begun, h) && BeatsInTime(begun, actions, h) && Leased(Run(begun, actions), h)
  {
    ClaimKept(s, waiting, h, t, 0);
    OpenWorks(Run(s, waiting), h, t, Elapsed(waiting), scanners, findings);
    SafeFromOpen(Next(Run(s, waiting), Open(h.worker, h.job, scanners, findings)), actions, h, ok, Elapsed(waiting));
  }
}
