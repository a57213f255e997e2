/** One executor call as a run of the protocol: its session from the open to the closing updates. */
module ExecutorRuns {
  import opened Wrappers
  import opened Tables
  import opened Programs
  import opened Protocol
  import opened Frames

  /** How an executor call ends; `EventFails` is a finished one whose event row is refused. */
  datatype ExecutorResult = Finishes | EventFails | Throws | LosesLease

  // ---------- the closing updates ----------

  /** The session of an executor that has made its last write. */
  predicate AtClosing(s: State, h: Holder) {
    && h in s.sessions && s.sessions[h].phase == Stepping && s.sessions[h].kind != AuditRun
    && s.sessions[h].writesLeft == 0 && s.sessions[h].todo == [Group(FinishJob, 0)]
  }

  /** What the closing updates make of `row`, when the worker had read it as `read`. */
  function Closed(read: Job, row: Job, result: ExecutorResult, now: Time): Job {
    if result == LosesLease || (read.token.Some? && row.token != read.token) then row
    else if result == Finishes then row.(status := Completed, heartbeatAt := Some(now))
    else
      row.(status := if read.attempt >= read.maxAttempts then Failed else Queued,
           lockedBy := None, token := None, heartbeatAt := Some(now))
  }

  /** The session holds what the worker has read. */
  predicate AsRead(x: Session, read: Job) {
    x.token == read.token && x.attempt == read.attempt && x.maxAttempts == read.maxAttempts
  }

  /** The state when the session has closed the job and is gone. */
  function AfterClosing(s: State, h: Holder, read: Job, result: ExecutorResult): State
    requires h.job in s.db.jobs
  {
    Close(s.(db := PutJob(s.db, h.job, Closed(read, s.db.jobs[h.job], result, s.clock))), h)
  }

  function ClosingActions(h: Holder, result: ExecutorResult, approval: ApprovalId): seq<Action> {
    match result
    case Finishes => [Step(h, approval), EventStored(h)]
    case EventFails => [Step(h, approval), Raise(h), Step(h, approval)]
    case Throws => [Raise(h), Step(h, approval)]
    case LosesLease => [Abandon(h)]
  }

  lemma RunTwo(s: State, first: Action, second: Action)
    ensures Run(s, [first, second]) == Next(Next(s, first), second)
  {
    RunOne(s, first, [second]);
    RunOne(Next(s, first), second, []);
  }

  lemma RunThree(s: State, first: Action, second: Action, third: Action)
    ensures Run(s, [first, second, third]) == Next(Next(Next(s, first), second), third)
  {
    RunOne(s, first, [second, third]);
    RunTwo(Next(s, first), second, third);
  }

  lemma FinishStep(s: State, h: Holder, approval: ApprovalId)
    requires AtClosing(s, h) && approval !in s.db.approvals
    ensures var x := s.sessions[h];
      Next(s, Step(h, approval)) ==
        Put(s.(db := CompleteJob(s.db, h.job, x.token, s.clock)), h, x.(phase := EventPending))
  {
  }

  /** The executor's catch block. */
  lemma FailStep(s: State, h: Holder, approval: ApprovalId)
    requires h in s.sessions && s.sessions[h].phase == ExecutorFailing && approval !in s.db.approvals
    ensures var x := s.sessions[h];
      Next(s, Step(h, approval)) ==
        Close(s.(db := FailExecutorJob(s.db, h.job, x.token, x.attempt >= x.maxAttempts, s.clock)), h)
  {
  }

  /** The three statements that close a job, each filtered by the token. */
  lemma ClosingStatements(db: Db, j: JobId, read: Job, now: Time)
    requires j in db.jobs
    ensures var completed := CompleteJob(db, j, read.token, now);
      var exhausted := read.attempt >= read.maxAttempts;
      && completed == PutJob(db, j, Closed(read, db.jobs[j], Finishes, now))
      && FailExecutorJob(completed, j, read.token, exhausted, now)
         == PutJob(db, j, Closed(read, db.jobs[j], EventFails, now))
      && FailExecutorJob(db, j, read.token, exhausted, now) == PutJob(db, j, Closed(read, db.jobs[j], Throws, now))
  {
    var completed := CompleteJob(db, j, read.token, now);
    var exhausted := read.attempt >= read.maxAttempts;
    assert completed.jobs == db.jobs[j := Closed(read, db.jobs[j], Finishes, now)];
    assert FailExecutorJob(completed, j, read.token, exhausted, now).jobs
      == db.jobs[j := Closed(read, db.jobs[j], EventFails, now)];
    assert FailExecutorJob(db, j, read.token, exhausted, now).jobs
      == db.jobs[j := Closed(read, db.jobs[j], Throws, now)];
  }

  lemma StoredEvent(s: State, h: Holder, approval: ApprovalId)
    requires AtClosing(s, h) && approval !in s.db.approvals
    ensures Run(s, ClosingActions(h, Finishes, approval)) ==
      Close(s.(db := CompleteJob(s.db, h.job, s.sessions[h].token, s.clock)), h)
  {
    FinishStep(s, h, approval);
    var pending := Next(s, Step(h, approval));
    assert Next(pending, EventStored(h)) == Close(pending, h);
    assert pending.sessions - {h} == s.sessions - {h};
    RunTwo(s, Step(h, approval), EventStored(h));
  }

  lemma FinishesRun(s: State, h: Holder, read: Job, approval: ApprovalId)
    requires AtClosing(s, h) && AsRead(s.sessions[h], read) && h.job in s.db.jobs && approval !in s.db.approvals
    ensures Run(s, ClosingActions(h, Finishes, approval)) == AfterClosing(s, h, read, Finishes)
  {
    StoredEvent(s, h, approval);
    ClosingStatements(s.db, h.job, read, s.clock);
  }

  /** The refused event throws, and the catch block follows. */
  lemma RefusedEvent(s: State, h: Holder, approval: ApprovalId)
    requires AtClosing(s, h) && approval !in s.db.approvals
    ensures var x := s.sessions[h];
      Run(s, ClosingActions(h, EventFails, approval)) ==
        Close(s.(db := FailExecutorJob(CompleteJob(s.db, h.job, x.token, s.clock), h.job, x.token,
                                       x.attempt >= x.maxAttempts, s.clock)), h)
  {
    FinishStep(s, h, approval);
    var pending := Next(s, Step(h, approval));
    var failing := Next(pending, Raise(h));
    assert failing == Put(pending, h, s.sessions[h].(phase := ExecutorFailing));
    FailStep(failing, h, approval);
    assert failing.sessions - {h} == s.sessions - {h};
    RunThree(s, Step(h, approval), Raise(h), Step(h, approval));
  }

  lemma EventFailsRun(s: State, h: Holder, read: Job, approval: ApprovalId)
    requires AtClosing(s, h) && AsRead(s.sessions[h], read) && h.job in s.db.jobs && approval !in s.db.approvals
    ensures Run(s, ClosingActions(h, EventFails, approval)) == AfterClosing(s, h, read, EventFails)
  {
    RefusedEvent(s, h, approval);
    ClosingStatements(s.db, h.job, read, s.clock);
  }

  lemma ThrowsRun(s: State, h: Holder, read: Job, approval: ApprovalId)
    requires AtClosing(s, h) && AsRead(s.sessions[h], read) && h.job in s.db.jobs && approval !in s.db.approvals
    ensures Run(s, ClosingActions(h, Throws, approval)) == AfterClosing(s, h, read, Throws)
  {
    var failing := Next(s, Raise(h));
    assert failing == Put(s, h, s.sessions[h].(phase := ExecutorFailing));
    FailStep(failing, h, approval);
    assert failing.sessions - {h} == s.sessions - {h};
    ClosingStatements(s.db, h.job, read, s.clock);
    RunTwo(s, Raise(h), Step(h, approval));
  }

  /** The closing updates are a run of the protocol, whatever has become of the row meanwhile. */
  lemma ClosingRun(s: State, h: Holder, read: Job, result: ExecutorResult, approval: ApprovalId)
    requires AtClosing(s, h) && AsRead(s.sessions[h], read) && h.job in s.db.jobs && approval !in s.db.approvals
    ensures Run(s, ClosingActions(h, result, approval)) == AfterClosing(s, h, read, result)
  {
    match result
    case Finishes => FinishesRun(s, h, read, approval);
    case EventFails => EventFailsRun(s, h, read, approval);
    case Throws => ThrowsRun(s, h, read, approval);
    case LosesLease =>
      RunOne(s, Abandon(h), []);
      assert Run(s, ClosingActions(h, result, approval)).db.jobs == s.db.jobs[h.job := s.db.jobs[h.job]];
  }

  // ---------- from the open to the last write ----------

  /** The session of `h` at some point of its program, everything else as in `s`. */
  function Engaged(s: State, h: Holder, todo: Program, writesLeft: nat): State
    requires h.job in s.db.jobs
  {
    Put(s, h, NewSession(s.db.jobs[h.job], 0, 0).(todo := todo, writesLeft := writesLeft))
  }

  lemma AssertAndWrite(s: State, h: Holder, todo: Program, approval: ApprovalId)
    requires h.job in s.db.jobs && approval !in s.db.approvals && todo != [] && todo[0] == Group(Assert, 1)
    ensures Run(Engaged(s, h, todo, 0), [Step(h, approval), Step(h, approval)]) == Engaged(s, h, todo[1..], 0)
  {
    RunTwo(Engaged(s, h, todo, 0), Step(h, approval), Step(h, approval));
    assert Next(Engaged(s, h, todo, 0), Step(h, approval)) == Engaged(s, h, todo[1..], 1);
    assert Next(Engaged(s, h, todo[1..], 1), Step(h, approval)) == Engaged(s, h, todo[1..], 0);
  }

  function WriteActions(h: Holder, kind: JobKind, approval: ApprovalId): seq<Action> {
    var pair := [Step(h, approval), Step(h, approval)];
    if kind == SbomExport then pair else pair + pair
  }

  lemma ExecutorWrites(s: State, h: Holder, approval: ApprovalId)
    requires h.job in s.db.jobs && s.db.jobs[h.job].kind != AuditRun && approval !in s.db.approvals
    ensures var kind := s.db.jobs[h.job].kind;
      Run(Engaged(s, h, ExecutorProgram(kind), 0), WriteActions(h, kind, approval))
        == Engaged(s, h, [Group(FinishJob, 0)], 0)
  {
    var kind := s.db.jobs[h.job].kind;
    var pair := [Step(h, approval), Step(h, approval)];
    var todo := ExecutorProgram(kind);
    AssertAndWrite(s, h, todo, approval);
    if kind == SbomExport {
      assert todo[1..] == [Group(FinishJob, 0)];
    } else {
      assert todo[1..][1..] == [Group(FinishJob, 0)];
      AssertAndWrite(s, h, todo[1..], approval);
      RunConcat(Engaged(s, h, todo, 0), pair, pair);
    }
  }

  // ---------- the whole call ----------

  /** A worker's own executor job which it does not work on yet. */
  predicate Ready(s: State, h: Holder) {
    && h.job in s.db.jobs && h !in s.sessions && s.db.jobs[h.job].kind != AuditRun
    && s.db.jobs[h.job].status == Running && s.db.jobs[h.job].lockedBy == Some(h.worker)
  }

  function UntilClosing(s: State, h: Holder, approval: ApprovalId): seq<Action>
    requires h.job in s.db.jobs
  {
    [Open(h.worker, h.job, 0, 0)] + WriteActions(h, s.db.jobs[h.job].kind, approval)
  }

  lemma ReachesClosing(s: State, h: Holder, approval: ApprovalId)
    requires Ready(s, h) && approval !in s.db.approvals
    ensures Run(s, UntilClosing(s, h, approval)) == Engaged(s, h, [Group(FinishJob, 0)], 0)
  {
    var row := s.db.jobs[h.job];
    RunOne(s, Open(h.worker, h.job, 0, 0), WriteActions(h, row.kind, approval));
    assert Next(s, Open(h.worker, h.job, 0, 0)) == Engaged(s, h, ExecutorProgram(row.kind), 0);
    ExecutorWrites(s, h, approval);
  }

  /** An executor call that closes its job undisturbed is a run of the protocol, and leaves no session. */
  lemma ExecutorCall(s: State, h: Holder, approval: ApprovalId, closing: seq<Action>, after: Db)
    requires Ready(s, h) && approval !in s.db.approvals
    requires var engaged := Engaged(s, h, [Group(FinishJob, 0)], 0);
      Run(engaged, closing) == Close(engaged.(db := after), h)
    ensures Run(s, UntilClosing(s, h, approval) + closing) == s.(db := after)
  {
    var engaged := Engaged(s, h, [Group(FinishJob, 0)], 0);
    ReachesClosing(s, h, approval);
    RunConcat(s, UntilClosing(s, h, approval), closing);
    assert engaged.sessions - {h} == s.sessions;
  }

  /** Two calls in turn. */
  lemma CallsCompose(s: State, first: seq<Action>, mid: State, second: seq<Action>)
    requires Run(s, first) == mid
    ensures Run(s, first + second) == Run(mid, second)
  {
    RunConcat(s, first, second);
  }
}
