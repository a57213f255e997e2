/**
 What a worker does for one claimed job, as a sequence of fences and unfenced writes.

 The audit engine (`src/services/auditor/engine.ts`) and the executors
 (`src/services/executors.ts`) differ only in this sequence, so one interpreter in
 `Protocol` runs them all, one database operation at a time.
 */
module Programs {
  import opened Tables

  /**
   An operation that looks at the lease, or at the audit, before the worker goes on:
   - `CheckAudit`: read the audit row, stop unless it is running
   - `Assert`: read the job row, abort unless it still holds our token
   - `Progress`: a heartbeat or progress update filtered by our token, abort when no row matches
   - `FinishAudit`: the engine's finalize transaction
   - `FinishJob`: the executor's closing job update
   */
  datatype Fence = CheckAudit | Assert | Progress | FinishAudit | FinishJob

  /** A fence, then `writes` artifact, finding, report, settings or stage writes without any filter. */
  datatype Group = Group(fence: Fence, writes: nat)

  type Program = seq<Group>

  function Repeat(group: Group, n: nat): (program: Program)
    ensures |program| == n && forall i :: 0 <= i < n ==> program[i] == group
  {
    seq(n, _ => group)
  }

  /** An executor asserts its lease before each of its one or two writes. */
  function ExecutorProgram(kind: JobKind): Program {
    Repeat(Group(Assert, 1), if kind == SbomExport then 1 else 2) + [Group(FinishJob, 0)]
  }

  /** The engine, for a target with `scanners` scanners and `findings` findings. */
  function EngineProgram(scanners: nat, findings: nat): Program {
    var discovery := [Group(Assert, 1)] + Repeat(Group(Progress, 2), scanners) + [Group(Progress, 1)];
    var normalization := [Group(Assert, 9), Group(Assert, findings), Group(Progress, 0)];
    var reconstruction := [Group(Assert, 1), Group(Progress, 0)] + Repeat(Group(Assert, 1), 4)
                          + [Group(Assert, 2), Group(Progress, 0)];
    [Group(CheckAudit, 0)] + discovery + normalization + reconstruction + [Group(Assert, 0), Group(FinishAudit, 0)]
  }

  function ProgramOf(kind: JobKind, scanners: nat, findings: nat): Program {
    if kind == AuditRun then EngineProgram(scanners, findings) else ExecutorProgram(kind)
  }

  /** The most writes a worker can do between two fences. */
  function WriteBound(kind: JobKind, findings: nat): nat {
    if kind != AuditRun then 1 else if findings > 9 then findings else 9
  }

  /** Every run of unfenced writes is within `bound`; only an engine finishes an audit, only an executor a bare job. */
  predicate WellFormed(program: Program, kind: JobKind, bound: nat) {
    forall g <- program ::
      g.writes <= bound && (g.fence == CheckAudit ==> g.writes == 0)
      && (g.fence == FinishAudit ==> kind == AuditRun) && (g.fence == FinishJob ==> kind != AuditRun)
  }

  lemma ProgramIsWellFormed(kind: JobKind, scanners: nat, findings: nat)
    ensures WellFormed(ProgramOf(kind, scanners, findings), kind, WriteBound(kind, findings))
  {
    if kind != AuditRun {
      ExecutorIsWellFormed(kind);
    }
  }

  lemma ExecutorIsWellFormed(kind: JobKind)
    requires kind != AuditRun
    ensures WellFormed(ExecutorProgram(kind), kind, 1)
  {
  }

  // ---------- what a program writes ----------

  /** The writes of a whole program. */
  function TotalWrites(program: Program): nat {
    if program == [] then 0 else program[0].writes + TotalWrites(program[1..])
  }

  lemma {:induction false} TotalConcat(left: Program, right: Program)
    ensures TotalWrites(left + right) == TotalWrites(left) + TotalWrites(right)
  {
    if left == [] {
      assert left + right == right;
    } else {
      assert (left + right)[1..] == left[1..] + right;
      TotalConcat(left[1..], right);
    }
  }

  lemma {:induction false} TotalRepeat(group: Group, n: nat)
    ensures TotalWrites(Repeat(group, n)) == n * group.writes
  {
    if n > 0 {
      assert Repeat(group, n)[1..] == Repeat(group, n - 1);
      TotalRepeat(group, n - 1);
    }
  }

  /** An executor writes its artifact, and all but the SBOM export a second row, each right after an assert. */
  lemma ExecutorWritesFenced(kind: JobKind)
    ensures var program := ExecutorProgram(kind);
      && TotalWrites(program) == (if kind == SbomExport then 1 else 2)
      && program[|program| - 1] == Group(FinishJob, 0)
      && forall i :: 0 <= i < |program| - 1 ==> program[i] == Group(Assert, 1)
  {
    var n := if kind == SbomExport then 1 else 2;
    TotalRepeat(Group(Assert, 1), n);
    TotalConcat(Repeat(Group(Assert, 1), n), [Group(FinishJob, 0)]);
  }

  /**
   A whole engine run writes two rows for each scanner, one for each finding and eighteen more.  It reads its audit
   first and finalizes last, and asserts its lease before each stage and before its findings.
   */
  lemma EngineWrites(scanners: nat, findings: nat)
    ensures var program := EngineProgram(scanners, findings);
      && TotalWrites(program) == 2 * scanners + findings + 18
      && program[0] == Group(CheckAudit, 0) && program[|program| - 1] == Group(FinishAudit, 0)
      && program[1].fence == Assert && program[scanners + 3].fence == Assert
      && program[scanners + 4] == Group(Assert, findings) && program[scanners + 6].fence == Assert
      && program[|program| - 2] == Group(Assert, 0)
      && forall i :: 2 <= i < scanners + 3 ==> program[i].fence == Progress
  {
    var discovery := [Group(Assert, 1)] + Repeat(Group(Progress, 2), scanners) + [Group(Progress, 1)];
    var normalization := [Group(Assert, 9), Group(Assert, findings), Group(Progress, 0)];
    var reconstruction := [Group(Assert, 1), Group(Progress, 0)] + Repeat(Group(Assert, 1), 4)
                          + [Group(Assert, 2), Group(Progress, 0)];
    TotalConcat([Group(Assert, 1)] + Repeat(Group(Progress, 2), scanners), [Group(Progress, 1)]);
    TotalConcat([Group(Assert, 1)], Repeat(Group(Progress, 2), scanners));
    TotalRepeat(Group(Progress, 2), scanners);
    TotalConcat([Group(Assert, 1), Group(Progress, 0)] + Repeat(Group(Assert, 1), 4),
                [Group(Assert, 2), Group(Progress, 0)]);
    TotalConcat([Group(Assert, 1), Group(Progress, 0)], Repeat(Group(Assert, 1), 4));
    TotalRepeat(Group(Assert, 1), 4);
    var ending := [Group(Assert, 0), Group(FinishAudit, 0)];
    TotalConcat([Group(CheckAudit, 0)], discovery);
    TotalConcat([Group(CheckAudit, 0)] + discovery, normalization);
    TotalConcat([Group(CheckAudit, 0)] + discovery + normalization, reconstruction);
    TotalConcat([Group(CheckAudit, 0)] + discovery + normalization + reconstruction, ending);
  }
}
