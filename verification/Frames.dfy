/** What a single action leaves alone, and how runs compose. */
module Frames {
  import opened Wrappers
  import opened Tables
  import opened Programs
  import opened Protocol

  /** Everything the process that runs `h` can do in its name. */
  ghost predicate ActsFor(action: Action, h: Holder) {
    action in {Beat(h), Raise(h), EventStored(h), Abandon(h)} || (action.Step? && action.holder == h)
  }

  /** The statements of the supervisor, and the shutdown release. */
  predicate IsSweep(action: Action) {
    action.SweepTimeouts? || action.SweepRequeues? || action.SweepFollow? || action.SweepAbort? || action.Shutdown?
  }

  /** What users and their requests do. */
  predicate IsRequest(action: Action) {
    action.OpenCall? || action.CallStep? || action.Decide? || action.Enqueue?
  }

  function Steps(h: Holder, approval: ApprovalId, n: nat): (steps: seq<Action>)
    ensures |steps| == n
    decreases n
  {
    if n == 0 then [] else [Step(h, approval)] + Steps(h, approval, n - 1)
  }

  lemma {:induction false} RunConcat(s: State, first: seq<Action>, second: seq<Action>)
    ensures Run(s, first + second) == Run(Run(s, first), second)
    decreases |first|
  {
    if first == [] {
      assert first + second == second;
    } else {
      assert (first + second)[1..] == first[1..] + second;
      RunConcat(Next(s, first[0]), first[1..], second);
    }
  }

  lemma RunOne(s: State, action: Action, rest: seq<Action>)
    ensures Run(s, [action] + rest) == Run(Next(s, action), rest)
  {
    assert ([action] + rest)[1..] == rest;
  }

  lemma OthersKeepSession(s: State, action: Action, h: Holder)
    requires h in s.sessions && !ActsFor(action, h)
    ensures h in Next(s, action).sessions && Next(s, action).sessions[h] == s.sessions[h]
  {
    if action.Step? {
      if action.holder in s.sessions {
        StepKeepsOthers(s, action.holder, action.approval, h);
      }
    }
  }

  lemma StepKeepsOthers(s: State, k: Holder, approval: ApprovalId, h: Holder)
    requires h in s.sessions && k in s.sessions && k != h
    ensures h in StepSession(s, k, approval).sessions && StepSession(s, k, approval).sessions[h] == s.sessions[h]
  {
    if s.sessions[k].todo != [] {
      FenceKeepsOthers(s, k, approval, h);
    }
  }

  lemma FenceKeepsOthers(s: State, k: Holder, approval: ApprovalId, h: Holder)
    requires h in s.sessions && k in s.sessions && k != h && s.sessions[k].todo != []
    ensures h in PassFence(s, k, approval).sessions && PassFence(s, k, approval).sessions[h] == s.sessions[h]
  {
  }

  /** What no step of a session touches. */
  ghost predicate StepUntouched(s: State, next: State) {
    && next.clock == s.clock && next.sweeps == s.sweeps
    && next.sessions.Keys <= s.sessions.Keys && next.db.audits.Keys == s.db.audits.Keys
  }

  lemma FenceFrame(s: State, k: Holder, approval: ApprovalId)
    requires k in s.sessions && s.sessions[k].todo != []
    ensures StepUntouched(s, PassFence(s, k, approval))
  {
  }

  lemma StepFrame(s: State, k: Holder, approval: ApprovalId)
    requires k in s.sessions
    ensures StepUntouched(s, StepSession(s, k, approval))
  {
    var x := s.sessions[k];
    if x.phase == Stepping && x.writesLeft == 0 && x.todo != [] {
      FenceFrame(s, k, approval);
    }
  }

  lemma ActionFrame(s: State, action: Action)
    ensures Next(s, action).clock == s.clock + if action.Elapse? then action.delta else 0
    ensures Next(s, action).sessions.Keys <=
      s.sessions.Keys + if action.Open? then {Holder(action.worker, action.job)} else {}
  {
    if action.Step? {
      if action.holder in s.sessions { StepFrame(s, action.holder, action.approval); }
    }
  }

  /** A session only comes from an open, for a running row. */
  lemma OpenedSession(s: State, action: Action, h: Holder)
    requires h !in s.sessions && h in Next(s, action).sessions
    ensures action.Open? && h == Holder(action.worker, action.job)
    ensures h.job in s.db.jobs && s.db.jobs[h.job].status == Running && s.db.jobs[h.job].lockedBy == Some(h.worker)
    ensures Next(s, action) == Put(s, h, NewSession(s.db.jobs[h.job], action.scanners, action.findings))
  {
    ActionFrame(s, action);
  }

  /** The actions that never write an audit row. */
  lemma AuditsFrame(s: State, action: Action)
    requires !action.Step? && !action.CallStep? && !action.Decide? && !action.SweepFollow?
    ensures Next(s, action).db.audits == s.db.audits
  {
  }

  /** The actions that leave every supervisor run where it is, or end one. */
  lemma SweepsFrame(s: State, action: Action)
    requires !action.SweepFollow? && !action.SweepTimeouts? && !action.SweepRequeues?
    ensures var next := Next(s, action); forall w <- next.sweeps :: w in s.sweeps && next.sweeps[w] == s.sweeps[w]
  {
    if action.Step? {
      if action.holder in s.sessions { StepFrame(s, action.holder, action.approval); }
    }
  }

  // ---------- a session's own step ----------

  /** What a session is after one of its own steps. */
  ghost predicate Continues(x: Session, y: Session) {
    && y.token == x.token && y.kind == x.kind && y.audit == x.audit && y.lost == x.lost && y.bound == x.bound
    && (y.phase in {Stepping, MarkAuditFailed} ==> x.phase == y.phase)
    && (y.phase == Stepping ==>
          || (y.todo == x.todo && y.writesLeft <= x.writesLeft)
          || (x.todo != [] && x.todo[0].fence != FinishAudit && y.todo == x.todo[1..]))
  }

  /** What a fence leaves of a session: the rest of its program or, after `FinishJob`, the event to store. */
  ghost predicate AfterFence(x: Session, y: Session)
    requires x.todo != []
  {
    (y == Advance(x) && x.todo[0].fence != FinishAudit) || y == x || y == x.(phase := EventPending)
  }

  lemma FenceLeaves(s: State, h: Holder, approval: ApprovalId)
    requires h in s.sessions && s.sessions[h].todo != [] && s.sessions[h].phase == Stepping
    ensures var next := PassFence(s, h, approval); h in next.sessions ==> AfterFence(s.sessions[h], next.sessions[h])
  {
  }

  lemma FenceContinues(s: State, h: Holder, approval: ApprovalId)
    requires h in s.sessions && s.sessions[h].todo != [] && s.sessions[h].phase == Stepping
    ensures var next := PassFence(s, h, approval); h in next.sessions ==> Continues(s.sessions[h], next.sessions[h])
  {
    FenceLeaves(s, h, approval);
  }

  lemma StepContinues(s: State, h: Holder, approval: ApprovalId)
    requires h in s.sessions
    ensures var next := StepSession(s, h, approval); h in next.sessions ==> Continues(s.sessions[h], next.sessions[h])
  {
    var x := s.sessions[h];
    if x.phase == Stepping && x.writesLeft == 0 && x.todo != [] {
      FenceContinues(s, h, approval);
    }
  }
}
