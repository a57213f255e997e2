/** The stale-job supervisor against the heartbeat timer. */
module Supervision {
  import opened Wrappers
  import opened Tables
  import opened Protocol
  import opened Frames
  import opened Invariants
  import opened Preservation
  import opened SessionSteps
  import opened Reachability
  import opened Fencing

  // ---------- who may touch a leased row ----------

  /**
   A supervisor run changes a job exactly when it is running and its last beat is more than 45s
   old; it then times out if its attempts are used up, and is queued again otherwise.
   */
  lemma SupervisorTakesStale(db: Db, j: JobId, now: Time)
    requires j in db.jobs
    ensures var row, after := db.jobs[j], RequeueStale(TimeOutStale(db, now), now).jobs[j];
      && (after != row <==> row.status == Running && LastBeat(row) + STALE_INTERVAL_MS < now)
      && (after != row ==> after.status == if row.attempt >= row.maxAttempts then TimedOut else Queued)
  {
    var mid := TimeOutStale(db, now);
    assert mid.jobs[j] == if TimesOut(db.jobs[j], now) then TimedOutRow(db.jobs[j]) else db.jobs[j];
  }

  ghost predicate BySupervisor(action: Action) {
    action.SweepTimeouts? || action.SweepRequeues?
  }

  lemma OtherSessionLeavesRow(s: State, k: Holder, h: Holder, approval: ApprovalId)
    requires WorkersOk(s) && h in s.sessions && Held(s, h) && k in s.sessions && k != h
    ensures var after := StepSession(s, k, approval).db.jobs; h.job in after && after[h.job] == s.db.jobs[h.job]
    ensures var after := BackgroundBeat(s, k).db.jobs; h.job in after && after[h.job] == s.db.jobs[h.job]
  {
    LeaseIsHeld(s, h);
    LeaseIsHeld(s, k);
    if s.sessions[k].token == s.sessions[h].token {
      OneHolderPerToken(s, k, h);
    }
    StepWritesOneRow(s, StepSession(s, k, approval), k, approval);
  }

  lemma SweepLeavesRow(s: State, action: Action, h: Holder)
    requires h.job in s.db.jobs && s.db.jobs[h.job].lockedBy == Some(h.worker)
    requires action.SweepTimeouts? || action.SweepRequeues? || action.SweepFollow? || action.SweepAbort?
             || (action.Shutdown? && action.worker != h.worker)
    requires BySupervisor(action) ==> !Stale(s.db.jobs[h.job], s.clock)
    ensures h.job in Next(s, action).db.jobs && Next(s, action).db.jobs[h.job] == s.db.jobs[h.job]
  {
  }

  lemma OthersStepLeavesRow(s: State, action: Action, h: Holder)
    requires WorkersOk(s) && h in s.sessions && Held(s, h) && !ActsFor(action, h) && (action.Step? || action.Beat?)
    requires h.job in s.db.jobs
    ensures h.job in Next(s, action).db.jobs && Next(s, action).db.jobs[h.job] == s.db.jobs[h.job]
  {
    if action.holder in s.sessions {
      OtherSessionLeavesRow(s, action.holder, h, if action.Step? then action.approval else 0);
    }
  }

  /** Nobody but the holder writes the row it leases, except its own shutdown and a supervisor that finds it stale. */
  lemma OthersLeaveLeasedRow(s: State, action: Action, h: Holder)
    requires WorkersOk(s) && h in s.sessions && Held(s, h)
    requires !ActsFor(action, h) && action != Shutdown(h.worker)
    requires BySupervisor(action) ==> !Stale(s.db.jobs[h.job], s.clock)
    ensures h.job in Next(s, action).db.jobs && Next(s, action).db.jobs[h.job] == s.db.jobs[h.job]
  {
    assert SessionOk(s, h) && RowClaimed(s, h.job) && RowOk(s.db.jobs[h.job]);
    if action.Step? || action.Beat? {
      OthersStepLeavesRow(s, action, h);
    } else if IsRequest(action) {
      RequestsAddJobs(s, action);
    } else if IsSweep(action) {
      SweepLeavesRow(s, action, h);
    }
  }

  // ---------- a worker that beats in time ----------

  /** The job that `h` runs under its lease has a heartbeat of the last 45s. */
  ghost predicate FreshBeat(s: State, h: Holder) {
    h in s.sessions && Held(s, h) && h.job in s.db.jobs && s.db.jobs[h.job].status == Running ==>
      s.clock <= LastBeat(s.db.jobs[h.job]) + STALE_INTERVAL_MS
  }

  /** At no moment of the interleaving is the last heartbeat of `h` more than 45s ago, whichever statement made it. */
  ghost predicate BeatsInTime(s: State, actions: seq<Action>, h: Holder)
    decreases |actions|
  {
    FreshBeat(s, h) && (actions != [] ==> BeatsInTime(Next(s, actions[0]), actions[1..], h))
  }

  /** The engine's error path has given the job back itself and is about to reset its audit. */
  predicate GaveBack(x: Session) {
    x.phase == ReadStatus || x.phase == ResetAudit
  }

  /** The session is over, has given its job back, or holds its lease. */
  ghost predicate Leased(s: State, h: Holder) {
    h in s.sessions && !GaveBack(s.sessions[h]) ==> Held(s, h)
  }

  lemma OwnFenceLeased(s: State, h: Holder, approval: ApprovalId)
    requires h in s.sessions && s.sessions[h].todo != [] && s.sessions[h].phase == Stepping
    requires Held(s, h) && LeaseMatches(s.db, h.job, s.sessions[h].token)
    ensures Leased(PassFence(s, h, approval), h)
  {
  }

  lemma OwnStepLeased(s: State, h: Holder, approval: ApprovalId)
    requires SessionsOk(s) && h in s.sessions && Leased(s, h)
    ensures Leased(StepSession(s, h, approval), h)
  {
    LeaseIsHeld(s, h);
    var x := s.sessions[h];
    if x.phase == Stepping && x.writesLeft == 0 && x.todo != [] {
      OwnFenceLeased(s, h, approval);
    }
  }

  lemma OwnCallbackLeased(s: State, action: Action, h: Holder)
    requires SessionsOk(s) && h in s.sessions && Leased(s, h) && ActsFor(action, h) && !action.Step?
    ensures Leased(Next(s, action), h)
  {
    LeaseIsHeld(s, h);
  }

  lemma OtherLeased(s: State, action: Action, h: Holder)
    requires WorkersOk(s) && h in s.sessions && Leased(s, h) && FreshBeat(s, h)
    requires !ActsFor(action, h) && action != Shutdown(h.worker)
    ensures Leased(Next(s, action), h)
  {
    OthersKeepSession(s, action, h);
    if Held(s, h) {
      assert SessionOk(s, h);
      OthersLeaveLeasedRow(s, action, h);
    }
  }

  lemma OpenedLeased(s: State, action: Action, h: Holder)
    requires h !in s.sessions
    ensures Leased(Next(s, action), h)
  {
    ActionFrame(s, action);
  }

  lemma StepLeased(s: State, action: Action, h: Holder)
    requires WorkersOk(s) && Leased(s, h) && FreshBeat(s, h) && action != Shutdown(h.worker)
    ensures Leased(Next(s, action), h)
  {
    if h !in s.sessions {
      OpenedLeased(s, action, h);
    } else if !ActsFor(action, h) {
      OtherLeased(s, action, h);
    } else if action.Step? {
      OwnStepLeased(s, h, action.approval);
    } else {
      OwnCallbackLeased(s, action, h);
    }
  }

  lemma StepLeasedInv(s: State, action: Action, h: Holder)
    requires Inv(s) && Leased(s, h) && FreshBeat(s, h) && action != Shutdown(h.worker)
    ensures Inv(Next(s, action)) && Leased(Next(s, action), h)
  {
    StepLeased(s, action, h);
    StepKeepsInv(s, action);
  }

  /**
   A live worker is never robbed: as long as its heartbeats are at most 45s apart and its own
   process is not shut down, its session holds its lease until it ends or gives the job back
   itself, whatever any other worker, request or supervisor does, and whatever it throws.
   */
  lemma {:induction false} LiveWorkerKeepsLease(s: State, actions: seq<Action>, h: Holder)
    requires Inv(s) && Leased(s, h) && BeatsInTime(s, actions, h)
    requires forall a <- actions :: a != Shutdown(h.worker)
    ensures Leased(Run(s, actions), h)
    decreases |actions|
  {
    if actions != [] {
      assert actions[0] in actions;
      assert forall a <- actions[1..] :: a in actions;
      StepLeasedInv(s, actions[0], h);
      LiveWorkerKeepsLease(Next(s, actions[0]), actions[1..], h);
    }
  }

  // ---------- the 15s timer ----------

  const HEARTBEAT_INTERVAL_MS: nat := 15_000

  /**
   An interleaving in which the timer of `h` fires every 15s, once for each element of `ok`, and a false one is a
   beat that fails; `since` is the time since it last fired.  It ends between two ticks.  Anything else may happen
   at any time, and time may pass in pieces.
   */
  ghost predicate OnTimer(actions: seq<Action>, h: Holder, since: nat, ok: seq<bool>)
    decreases |actions| + |ok|
  {
    if actions == [] then ok == [] && 0 < since < HEARTBEAT_INTERVAL_MS
    else
      || Passes(actions, h, since, ok)
      || (since == HEARTBEAT_INTERVAL_MS && ok != []
          && (if ok[0] then actions[0] == Beat(h) && OnTimer(actions[1..], h, 0, ok[1..])
              else OnTimer(actions, h, 0, ok[1..])))
  }

  /** The next action is no tick of the timer. */
  ghost predicate Passes(actions: seq<Action>, h: Holder, since: nat, ok: seq<bool>)
    requires actions != []
    decreases |actions| + |ok|, 0
  {
    if actions[0].Elapse? then
      since + actions[0].delta <= HEARTBEAT_INTERVAL_MS && OnTimer(actions[1..], h, since + actions[0].delta, ok)
    else actions[0] != Beat(h) && OnTimer(actions[1..], h, since, ok)
  }

  predicate ThreeMisses(ok: seq<bool>, i: nat) {
    i + 2 < |ok| && !ok[i] && !ok[i + 1] && !ok[i + 2]
  }

  /** Three misses in a row, when `missed` of them came before `ok`. */
  predicate TooMany(missed: nat, ok: seq<bool>)
    decreases |ok|
  {
    missed >= 3 || (ok != [] && TooMany(if ok[0] then 0 else missed + 1, ok[1..]))
  }

  predicate Leading(ok: seq<bool>, n: nat) {
    n <= |ok| && forall i :: 0 <= i < n ==> !ok[i]
  }

  lemma {:induction false} TooManyIsThree(missed: nat, ok: seq<bool>)
    requires missed <= 3
    ensures TooMany(missed, ok) <==> Leading(ok, 3 - missed) || exists i: nat :: ThreeMisses(ok, i)
    decreases |ok|
  {
    if missed < 3 && ok != [] {
      TooManyIsThree(if ok[0] then 0 else missed + 1, ok[1..]);
      LeadingTail(ok, 3 - missed);
      ThreeMissesTail(ok);
      ThreeLeading(ok[1..]);
    }
  }

  lemma ThreeLeading(ok: seq<bool>)
    ensures Leading(ok, 3) ==> exists i: nat :: ThreeMisses(ok, i)
  {
    if Leading(ok, 3) {
      assert ThreeMisses(ok, 0);
    }
  }

  lemma LeadingTail(ok: seq<bool>, n: nat)
    requires ok != [] && n > 0
    ensures Leading(ok, n) <==> !ok[0] && Leading(ok[1..], n - 1)
  {
    if !ok[0] && Leading(ok[1..], n - 1) {
      assert forall i :: 0 < i < n ==> ok[i] == ok[1..][i - 1];
    }
  }

  lemma ThreeMissesTail(ok: seq<bool>)
    requires ok != []
    ensures (exists i: nat :: ThreeMisses(ok, i)) <==> Leading(ok, 3) || exists i: nat :: ThreeMisses(ok[1..], i)
  {
    if i: nat :| ThreeMisses(ok, i) {
      if i > 0 {
        assert ThreeMisses(ok[1..], i - 1);
      }
    }
    if i: nat :| ThreeMisses(ok[1..], i) {
      assert ThreeMisses(ok, i + 1);
    }
    if Leading(ok, 3) {
      assert ThreeMisses(ok, 0);
    }
  }

  function Delta(action: Action): nat {
    if action.Elapse? then action.delta else 0
  }

  /** The age of the last heartbeat after `action`, when the timer alone refreshes it. */
  function AgeAfter(action: Action, h: Holder, age: nat): nat {
    if action == Beat(h) then 0 else age + Delta(action)
  }

  /** That age never exceeds the supervisor's threshold. */
  ghost predicate YoungEnough(actions: seq<Action>, h: Holder, age: nat)
    decreases |actions|
  {
    age <= STALE_INTERVAL_MS && (actions != [] ==> YoungEnough(actions[1..], h, AgeAfter(actions[0], h, age)))
  }

  lemma {:induction false} TimerAges(actions: seq<Action>, h: Holder, ok: seq<bool>, missed: nat, since: nat)
    requires OnTimer(actions, h, since, ok) && since <= HEARTBEAT_INTERVAL_MS
    ensures YoungEnough(actions, h, missed * HEARTBEAT_INTERVAL_MS + since) <==> !TooMany(missed, ok)
    decreases |actions| + |ok|
  {
    if actions != [] {
      if Passes(actions, h, since, ok) {
        TimerAges(actions[1..], h, ok, missed, since + Delta(actions[0]));
      } else if ok[0] {
        TimerAges(actions[1..], h, ok[1..], 0, 0);
      } else {
        TimerAges(actions, h, ok[1..], missed + 1, 0);
      }
    }
  }

  /** The timer alone keeps the age within the threshold exactly when it does not fail three times in a row. */
  lemma TimerVerdict(actions: seq<Action>, h: Holder, ok: seq<bool>)
    requires OnTimer(actions, h, 0, ok)
    ensures YoungEnough(actions, h, 0) <==> !exists i: nat :: ThreeMisses(ok, i)
  {
    TimerAges(actions, h, ok, 0, 0);
    TooManyIsThree(0, ok);
    ThreeLeading(ok);
  }

  // ---------- without three misses in a row the lease is kept ----------

  /** `h` runs its job under its lease. */
  ghost predicate Working(s: State, h: Holder) {
    h in s.sessions && Held(s, h) && h.job in s.db.jobs && s.db.jobs[h.job].status == Running
  }

  /** If `h` still works, its last heartbeat is at most `age` old. */
  ghost predicate BeatWithin(s: State, h: Holder, age: nat) {
    Working(s, h) ==> s.clock <= LastBeat(s.db.jobs[h.job]) + age
  }

  /** A shutdown of the worker, or a new session for the job. */
  predicate Restarts(action: Action, h: Holder) {
    action == Shutdown(h.worker) || (action.Open? && action.worker == h.worker && action.job == h.job)
  }

  predicate NoRestart(actions: seq<Action>, h: Holder) {
    forall a <- actions :: !Restarts(a, h)
  }

  lemma NoRestartTail(actions: seq<Action>, h: Holder)
    requires actions != [] && NoRestart(actions, h)
    ensures !Restarts(actions[0], h) && NoRestart(actions[1..], h)
  {
    assert forall a <- actions[1..] :: a in actions;
    assert actions[0] in actions;
  }

  /** An action keeps the heartbeat of a session that goes on, or refreshes it. */
  ghost predicate BeatKept(s: State, next: State, h: Holder) {
    Working(next, h) ==>
      Working(s, h) && LastBeat(next.db.jobs[h.job]) in {LastBeat(s.db.jobs[h.job]), s.clock}
  }

  lemma OwnFenceBeats(s: State, h: Holder, approval: ApprovalId)
    requires h in s.sessions && s.sessions[h].todo != [] && s.sessions[h].phase == Stepping && s.sessions[h].token.Some?
    requires h.job in s.db.jobs
    ensures BeatKept(s, PassFence(s, h, approval), h)
  {
  }

  lemma OwnStepBeats(s: State, h: Holder, approval: ApprovalId)
    requires SessionsOk(s) && h in s.sessions
    ensures BeatKept(s, StepSession(s, h, approval), h)
  {
    assert SessionOk(s, h);
    var x := s.sessions[h];
    if x.phase == Stepping && x.writesLeft == 0 && x.todo != [] {
      OwnFenceBeats(s, h, approval);
    } else {
      StepStatements(s, h, approval);
    }
  }

  lemma OwnCallbackBeats(s: State, action: Action, h: Holder)
    requires SessionsOk(s) && h in s.sessions && ActsFor(action, h) && !action.Step?
    ensures BeatKept(s, Next(s, action), h)
  {
    assert SessionOk(s, h);
  }

  lemma OtherBeats(s: State, next: State, action: Action, h: Holder)
    requires WorkersOk(s) && h in s.sessions && FreshBeat(s, h) && !ActsFor(action, h) && !Restarts(action, h)
    requires next == Next(s, action) && TokensOnlyLeave(s, next)
    ensures BeatKept(s, next, h)
  {
    OthersKeepSession(s, action, h);
    if Working(next, h) {
      HeldBefore(s, next, h);
      assert SessionOk(s, h);
      OthersLeaveLeasedRow(s, action, h);
    }
  }

  lemma ActionBeats(s: State, next: State, action: Action, h: Holder)
    requires WorkersOk(s) && FreshBeat(s, h) && !Restarts(action, h) && next == Next(s, action)
    ensures BeatKept(s, next, h)
  {
    if h !in s.sessions {
      ActionFrame(s, action);
    } else if !ActsFor(action, h) {
      StepTokens(s, action);
      OtherBeats(s, next, action, h);
    } else if !action.Step? {
      OwnCallbackBeats(s, action, h);
    } else if action.approval !in s.db.approvals {
      OwnStepBeats(s, h, action.approval);
    }
  }

  lemma BeatAges(s: State, next: State, action: Action, h: Holder, age: nat)
    requires WorkersOk(s) && FreshBeat(s, h) && !Restarts(action, h) && next == Next(s, action)
    requires BeatWithin(s, h, age)
    ensures BeatWithin(next, h, age + Delta(action))
    ensures action == Beat(h) ==> BeatWithin(next, h, 0)
  {
    ActionBeats(s, next, action, h);
    ActionFrame(s, action);
    if action == Beat(h) && Working(next, h) {
      BeatRefreshes(s, h);
    }
  }

  lemma BeatRefreshes(s: State, h: Holder)
    requires SessionsOk(s) && Working(s, h)
    ensures Next(s, Beat(h)) == s.(db := Heartbeat(s.db, h.job, s.sessions[h].token, s.clock))
    ensures Working(Next(s, Beat(h)), h) && LastBeat(Next(s, Beat(h)).db.jobs[h.job]) == s.clock
  {
    assert SessionOk(s, h);
  }

  lemma TimerStep(s: State, action: Action, h: Holder, age: nat)
    requires Inv(s) && !Restarts(action, h) && BeatWithin(s, h, age) && age <= STALE_INTERVAL_MS
    ensures Inv(Next(s, action)) && BeatWithin(Next(s, action), h, AgeAfter(action, h, age))
  {
    BeatAges(s, Next(s, action), action, h, age);
    StepKeepsInv(s, action);
  }

  lemma {:induction false} TimerInTime(s: State, actions: seq<Action>, h: Holder, age: nat)
    requires Inv(s) && BeatWithin(s, h, age) && NoRestart(actions, h) && YoungEnough(actions, h, age)
    ensures BeatsInTime(s, actions, h)
    decreases |actions|
  {
    if actions != [] {
      NoRestartTail(actions, h);
      TimerStep(s, actions[0], h, age);
      TimerInTime(Next(s, actions[0]), actions[1..], h, AgeAfter(actions[0], h, age));
    }
  }

  /**
   The timer against the supervisor's threshold: a session that has just beaten and whose 15s timer never
   fails three times in a row keeps its lease until it ends or gives the job back itself, in every
   interleaving with its own steps and those of anybody else, up to a shutdown of its process.
   */
  lemma LiveTimerKeepsLease(s: State, actions: seq<Action>, h: Holder, ok: seq<bool>)
    requires Inv(s) && Working(s, h) && BeatWithin(s, h, 0) && OnTimer(actions, h, 0, ok)
    requires NoRestart(actions, h)
    requires !exists i: nat :: ThreeMisses(ok, i)
    ensures BeatsInTime(s, actions, h) && Leased(Run(s, actions), h)
  {
    TimerVerdict(actions, h, ok);
    TimerInTime(s, actions, h, 0);
    LiveWorkerKeepsLease(s, actions, h);
  }

  // ---------- with three misses in a row the heartbeat is too old ----------

  /** Nothing but its timer acts for `h`. */
  ghost predicate OthersOnly(actions: seq<Action>, h: Holder) {
    forall a <- actions :: a == Beat(h) || !(ActsFor(a, h) || Restarts(a, h))
  }

  lemma OthersOnlyTail(actions: seq<Action>, h: Holder)
    requires actions != [] && OthersOnly(actions, h)
    ensures actions[0] == Beat(h) || !(ActsFor(actions[0], h) || Restarts(actions[0], h))
    ensures OthersOnly(actions[1..], h)
  {
    assert forall a <- actions[1..] :: a in actions;
    assert actions[0] in actions;
  }

  lemma OthersOnlyNoRestart(actions: seq<Action>, h: Holder)
    requires OthersOnly(actions, h)
    ensures NoRestart(actions, h)
  {
  }

  /** `h` works, and its last heartbeat is exactly `age` old. */
  ghost predicate LastBeatWas(s: State, h: Holder, age: nat) {
    Working(s, h) && s.clock == LastBeat(s.db.jobs[h.job]) + age
  }

  lemma OthersLetItAge(s: State, next: State, action: Action, h: Holder, age: nat)
    requires WorkersOk(s) && LastBeatWas(s, h, age) && age <= STALE_INTERVAL_MS && next == Next(s, action)
    requires !ActsFor(action, h) && !Restarts(action, h)
    ensures LastBeatWas(next, h, age + Delta(action))
  {
    OthersKeepSession(s, action, h);
    OthersLeaveLeasedRow(s, action, h);
    ActionFrame(s, action);
  }

  lemma OthersStep(s: State, action: Action, h: Holder, age: nat)
    requires Inv(s) && LastBeatWas(s, h, age) && age <= STALE_INTERVAL_MS
    requires action == Beat(h) || !(ActsFor(action, h) || Restarts(action, h))
    ensures Inv(Next(s, action)) && LastBeatWas(Next(s, action), h, AgeAfter(action, h, age))
  {
    StepKeepsInv(s, action);
    if action == Beat(h) {
      BeatRefreshes(s, h);
    } else {
      OthersLetItAge(s, Next(s, action), action, h, age);
    }
  }

  lemma {:induction false} TimerTooLate(s: State, actions: seq<Action>, h: Holder, age: nat)
    requires Inv(s) && LastBeatWas(s, h, age) && OthersOnly(actions, h) && BeatsInTime(s, actions, h)
    ensures YoungEnough(actions, h, age)
    decreases |actions|
  {
    if actions != [] {
      OthersOnlyTail(actions, h);
      OthersStep(s, actions[0], h, age);
      TimerTooLate(Next(s, actions[0]), actions[1..], h, AgeAfter(actions[0], h, age));
    }
  }

  /**
   From a heartbeat on, while others do what they like, the 15s timer alone beats in time if and only
   if no three successive beats fail.
   */
  lemma TwoMissesTolerated(s: State, actions: seq<Action>, h: Holder, ok: seq<bool>)
    requires Inv(s) && LastBeatWas(s, h, 0) && OnTimer(actions, h, 0, ok) && OthersOnly(actions, h)
    ensures BeatsInTime(s, actions, h) <==> !exists i: nat :: ThreeMisses(ok, i)
  {
    TimerVerdict(actions, h, ok);
    OthersOnlyNoRestart(actions, h);
    if YoungEnough(actions, h, 0) {
      TimerInTime(s, actions, h, 0);
    } else if BeatsInTime(s, actions, h) {
      TimerTooLate(s, actions, h, 0);
    }
  }
}
