/** Parity checks of an audit and their score. */
module Parity {
  import opened Wrappers

  datatype Status = Passed | Failed | Warning | Pending

  datatype Check = Check(key: string, status: Status)

  datatype Service = Service(guarded: Option<bool>, methods: Option<seq<string>>)

  datatype ScanStatus = Success | Partial | ScanFailed

  datatype Scan = Scan(scanner: string, status: ScanStatus)

  /** The parts of the normalized inventory that the checks read. */
  datatype Inventory = Inventory(services: seq<Service>, missingVars: seq<string>, missingIndexes: seq<string>)

  datatype Score = Score(score: int, overall: Status)

  // ---------- the score ----------

  function Count(checks: seq<Check>, status: Status): nat {
    if checks == [] then 0 else (if checks[0].status == status then 1 else 0) + Count(checks[1..], status)
  }

  function Clamp(low: int, high: int, x: int): int {
    if x > high then high else if x < low then low else x
  }

  function ComputeParityScore(checks: seq<Check>): Score {
    if checks == [] then Score(0, Failed)
    else
      var failed, warnings, pending := Count(checks, Failed), Count(checks, Warning), Count(checks, Pending);
      Score(Clamp(0, 100, 100 - failed * 12 - warnings * 4 - pending * 2),
            if failed > 0 then Failed else if warnings > 0 || pending > 0 then Warning else Passed)
  }

  lemma {:induction false} Counts(checks: seq<Check>, status: Status)
    ensures Count(checks, Passed) + Count(checks, Failed) + Count(checks, Warning) + Count(checks, Pending) == |checks|
    ensures Count(checks, status) == 0 <==> forall c <- checks :: c.status != status
    ensures Count(checks, status) == |checks| <==> forall c <- checks :: c.status == status
  {
    if checks != [] {
      Counts(checks[1..], status);
      assert checks == [checks[0]] + checks[1..];
    }
  }

  /**
   Only a non-empty list of passed checks passes, and only it scores 100; a list fails if it is empty or holds a
   failed check, and is a warning otherwise.
   */
  lemma GreenMeansAllPassed(checks: seq<Check>)
    ensures var result := ComputeParityScore(checks);
      && 0 <= result.score <= 100
      && (result.overall == Passed <==> checks != [] && forall c <- checks :: c.status == Passed)
      && (result.overall == Failed <==> checks == [] || exists c <- checks :: c.status == Failed)
      && result.overall in {Passed, Failed, Warning}
      && (result.score == 100 <==> result.overall == Passed)
  {
    Counts(checks, Passed);
    Counts(checks, Failed);
  }

  function Penalty(status: Status): nat {
    match status
    case Passed => 0
    case Pending => 2
    case Warning => 4
    case Failed => 12
  }

  function Penalties(checks: seq<Check>): nat {
    if checks == [] then 0 else Penalty(checks[0].status) + Penalties(checks[1..])
  }

  lemma {:induction false} PenaltiesAdd(checks: seq<Check>)
    ensures Penalties(checks) == Count(checks, Failed) * 12 + Count(checks, Warning) * 4 + Count(checks, Pending) * 2
  {
    if checks != [] {
      PenaltiesAdd(checks[1..]);
    }
  }

  lemma {:induction false} PenaltiesReplace(checks: seq<Check>, i: nat, c: Check)
    requires i < |checks|
    ensures Penalties(checks[i := c]) + Penalty(checks[i].status) == Penalties(checks) + Penalty(c.status)
  {
    if i > 0 {
      assert checks[i := c][1..] == checks[1..][i - 1 := c];
      PenaltiesReplace(checks[1..], i - 1, c);
    } else {
      assert checks[0 := c][1..] == checks[1..];
    }
  }

  /** The score is 100 less the penalties, at least 0, and 0 without checks. */
  lemma ScoreIsPenalties(checks: seq<Check>)
    ensures ComputeParityScore(checks).score ==
      if checks == [] || Penalties(checks) > 100 then 0 else 100 - Penalties(checks)
  {
    PenaltiesAdd(checks);
  }

  /** A worse status for one check never raises the score. */
  lemma WorseNeverScoresMore(checks: seq<Check>, i: nat, c: Check)
    requires i < |checks| && Penalty(checks[i].status) <= Penalty(c.status)
    ensures ComputeParityScore(checks[i := c]).score <= ComputeParityScore(checks).score
  {
    PenaltiesAdd(checks);
    PenaltiesAdd(checks[i := c]);
    PenaltiesReplace(checks, i, c);
  }

  // ---------- the checks ----------

  predicate IsGuarded(service: Service) {
    service.guarded == Some(true)
  }

  predicate IsMutating(service: Service) {
    service.methods.Some? && exists m <- service.methods.value :: m != "GET"
  }

  predicate IsExposed(service: Service) {
    IsMutating(service) && !IsGuarded(service)
  }

  function ExposedCount(services: seq<Service>): nat {
    if services == [] then 0 else (if IsExposed(services[0]) then 1 else 0) + ExposedCount(services[1..])
  }

  function Find(scans: seq<Scan>, scanner: string): Option<Scan> {
    if scans == [] then None
    else if scans[0].scanner == scanner then Some(scans[0])
    else Find(scans[1..], scanner)
  }

  predicate DbMeasured(scans: Option<seq<Scan>>) {
    scans.Some? && var found := Find(scans.value, "database-inventory");
    found.Some? && !found.value.status.ScanFailed?
  }

  function ParityChecksFrom(inventory: Inventory, latencyP95: Option<real>, scans: Option<seq<Scan>>): seq<Check> {
    [Check("golden_tests", Pending),
     Check("service_inventory", if |inventory.services| > 0 then Passed else Failed),
     Check("env_contract", if |inventory.missingVars| == 0 then Passed else Warning),
     Check("port_map", Pending),
     Check("db_schema", if !DbMeasured(scans) then Pending
                        else if |inventory.missingIndexes| == 0 then Passed else Warning),
     Check("ui_critical_paths", Pending),
     Check("endpoint_authz", if ExposedCount(inventory.services) == 0 then Passed else Failed),
     Check("p95_latency", if latencyP95.None? then Pending
                          else if latencyP95.value <= 150.0 then Passed else Warning)]
  }

  lemma {:induction false} ExposedCounts(services: seq<Service>)
    ensures ExposedCount(services) > 0 <==> exists s <- services :: IsExposed(s)
  {
    if services != [] {
      ExposedCounts(services[1..]);
      assert services == [services[0]] + services[1..];
    }
  }

  /** A service with a method other than GET and without a known guard. */
  predicate Unguarded(service: Service) {
    service.guarded != Some(true) && service.methods.Some? && exists m <- service.methods.value :: m != "GET"
  }

  /** The first scan of the database, if there is one, did not fail. */
  ghost predicate DatabaseScanned(scans: Option<seq<Scan>>) {
    scans.Some? && exists i ::
      && 0 <= i < |scans.value| && scans.value[i].scanner == "database-inventory"
      && scans.value[i].status != ScanFailed
      && forall k :: 0 <= k < i ==> scans.value[k].scanner != "database-inventory"
  }

  lemma {:induction false} FindIsFirst(scans: seq<Scan>, scanner: string)
    ensures match Find(scans, scanner)
      case None => forall k :: 0 <= k < |scans| ==> scans[k].scanner != scanner
      case Some(scan) => exists i ::
        0 <= i < |scans| && scans[i] == scan && scan.scanner == scanner
        && forall k :: 0 <= k < i ==> scans[k].scanner != scanner
  {
    if scans != [] && scans[0].scanner != scanner {
      FindIsFirst(scans[1..], scanner);
      if Find(scans, scanner).Some? {
        var i :| 0 <= i < |scans[1..]| && scans[1..][i] == Find(scans, scanner).value
                 && forall k :: 0 <= k < i ==> scans[1..][k].scanner != scanner;
        assert scans[i + 1] == Find(scans, scanner).value;
        assert forall k :: 0 < k < i + 1 ==> scans[k] == scans[1..][k - 1];
      } else {
        assert forall k :: 0 < k < |scans| ==> scans[k] == scans[1..][k - 1];
      }
    }
  }

  lemma MeasuredMeansScanned(scans: Option<seq<Scan>>)
    ensures DbMeasured(scans) <==> DatabaseScanned(scans)
  {
    if scans.Some? {
      FindIsFirst(scans.value, "database-inventory");
    }
  }

  /** The status that the list gives a key. */
  ghost predicate Reports(checks: seq<Check>, key: string, status: Status) {
    exists c <- checks :: c.key == key && c.status == status
  }

  lemma ReportedAt(checks: seq<Check>, i: nat, key: string, status: Status)
    requires i < |checks| && checks[i] == Check(key, status)
    ensures Reports(checks, key, status)
  {
    assert checks[i] in checks;
  }

  /** The checks that an unusable inventory fails. */
  lemma FailingChecks(inventory: Inventory, latencyP95: Option<real>, scans: Option<seq<Scan>>)
    ensures var checks := ParityChecksFrom(inventory, latencyP95, scans);
      && Reports(checks, "service_inventory", if inventory.services == [] then Failed else Passed)
      && Reports(checks, "endpoint_authz", if exists s <- inventory.services :: Unguarded(s) then Failed else Passed)
  {
    var checks := ParityChecksFrom(inventory, latencyP95, scans);
    ExposedCounts(inventory.services);
    assert forall s <- inventory.services :: IsExposed(s) <==> Unguarded(s);
    ReportedAt(checks, 1, "service_inventory", if inventory.services == [] then Failed else Passed);
    ReportedAt(checks, 6, "endpoint_authz", if exists s <- inventory.services :: Unguarded(s) then Failed else Passed);
  }

  /** The checks that cost points by a warning, or while something is not measured. */
  lemma WarningChecks(inventory: Inventory, latencyP95: Option<real>, scans: Option<seq<Scan>>)
    ensures var checks := ParityChecksFrom(inventory, latencyP95, scans);
      && Reports(checks, "env_contract", if inventory.missingVars == [] then Passed else Warning)
      && Reports(checks, "db_schema",
                 if !DatabaseScanned(scans) then Pending
                 else if inventory.missingIndexes == [] then Passed else Warning)
      && Reports(checks, "p95_latency",
                 if latencyP95.None? then Pending else if latencyP95.value <= 150.0 then Passed else Warning)
  {
    var checks := ParityChecksFrom(inventory, latencyP95, scans);
    MeasuredMeansScanned(scans);
    ReportedAt(checks, 2, "env_contract", if inventory.missingVars == [] then Passed else Warning);
    ReportedAt(checks, 4, "db_schema",
               if !DatabaseScanned(scans) then Pending else if inventory.missingIndexes == [] then Passed else Warning);
    ReportedAt(checks, 7, "p95_latency",
               if latencyP95.None? then Pending else if latencyP95.value <= 150.0 then Passed else Warning);
  }

  lemma PendingChecks(inventory: Inventory, latencyP95: Option<real>, scans: Option<seq<Scan>>)
    ensures var checks := ParityChecksFrom(inventory, latencyP95, scans);
      && |checks| == 8
      && Reports(checks, "golden_tests", Pending)
      && Reports(checks, "port_map", Pending)
      && Reports(checks, "ui_critical_paths", Pending)
  {
    var checks := ParityChecksFrom(inventory, latencyP95, scans);
    ReportedAt(checks, 0, "golden_tests", Pending);
    ReportedAt(checks, 3, "port_map", Pending);
    ReportedAt(checks, 5, "ui_critical_paths", Pending);
  }

  /** The eight derived checks, each under its own key and with its own condition. */
  lemma DerivedChecks(inventory: Inventory, latencyP95: Option<real>, scans: Option<seq<Scan>>)
    ensures var checks := ParityChecksFrom(inventory, latencyP95, scans);
      && |checks| == 8
      && Reports(checks, "golden_tests", Pending)
      && Reports(checks, "port_map", Pending)
      && Reports(checks, "ui_critical_paths", Pending)
      && Reports(checks, "service_inventory", if inventory.services == [] then Failed else Passed)
      && Reports(checks, "endpoint_authz", if exists s <- inventory.services :: Unguarded(s) then Failed else Passed)
      && Reports(checks, "env_contract", if inventory.missingVars == [] then Passed else Warning)
      && Reports(checks, "db_schema",
                 if !DatabaseScanned(scans) then Pending
                 else if inventory.missingIndexes == [] then Passed else Warning)
      && Reports(checks, "p95_latency",
                 if latencyP95.None? then Pending else if latencyP95.value <= 150.0 then Passed else Warning)
  {
    PendingChecks(inventory, latencyP95, scans);
    FailingChecks(inventory, latencyP95, scans);
    WarningChecks(inventory, latencyP95, scans);
  }

  lemma PenaltiesOfEight(checks: seq<Check>)
    requires |checks| == 8
    ensures Penalties(checks) == Penalty(checks[0].status) + Penalty(checks[1].status) + Penalty(checks[2].status)
      + Penalty(checks[3].status) + Penalty(checks[4].status) + Penalty(checks[5].status)
      + Penalty(checks[6].status) + Penalty(checks[7].status)
  {
    FirstFour(checks);
    FirstFour(checks[4..]);
  }

  lemma FirstFour(checks: seq<Check>)
    requires |checks| >= 4
    ensures Penalties(checks) == Penalty(checks[0].status) + Penalty(checks[1].status) + Penalty(checks[2].status)
      + Penalty(checks[3].status) + Penalties(checks[4..])
  {
    assert Penalties(checks) == Penalty(checks[0].status) + Penalties(checks[1..]);
    assert checks[1..][1..] == checks[2..];
    assert Penalties(checks[1..]) == Penalty(checks[1].status) + Penalties(checks[2..]);
    assert checks[2..][1..] == checks[3..];
    assert Penalties(checks[2..]) == Penalty(checks[2].status) + Penalties(checks[3..]);
    assert checks[3..][1..] == checks[4..];
    assert Penalties(checks[3..]) == Penalty(checks[3].status) + Penalties(checks[4..]);
  }

  lemma DerivedPenalties(inventory: Inventory, latencyP95: Option<real>, scans: Option<seq<Scan>>)
    ensures Penalties(ParityChecksFrom(inventory, latencyP95, scans)) == 6
      + (if inventory.services == [] || ExposedCount(inventory.services) > 0 then 12 else 0)
      + (if inventory.missingVars == [] then 0 else 4)
      + (if !DbMeasured(scans) then 2 else if inventory.missingIndexes == [] then 0 else 4)
      + (if latencyP95.None? then 2 else if latencyP95.value <= 150.0 then 0 else 4)
  {
    PenaltiesOfEight(ParityChecksFrom(inventory, latencyP95, scans));
  }

  lemma DerivedFailure(inventory: Inventory, latencyP95: Option<real>, scans: Option<seq<Scan>>)
    ensures Count(ParityChecksFrom(inventory, latencyP95, scans), Failed) > 0
      <==> inventory.services == [] || ExposedCount(inventory.services) > 0
  {
    var checks := ParityChecksFrom(inventory, latencyP95, scans);
    Counts(checks, Failed);
    assert checks[1].status == Failed ==> checks[1] in checks;
    assert checks[6].status == Failed ==> checks[6] in checks;
  }

  /** The score of a derived list of checks: 94, less 12 for one of the two failures, and the warnings. */
  lemma DerivedScore(inventory: Inventory, latencyP95: Option<real>, scans: Option<seq<Scan>>)
    ensures var result := ComputeParityScore(ParityChecksFrom(inventory, latencyP95, scans));
      && result.score == 94
          - (if inventory.services == [] || exists s <- inventory.services :: Unguarded(s) then 12 else 0)
          - (if inventory.missingVars == [] then 0 else 4)
          - (if !DatabaseScanned(scans) then 2 else if inventory.missingIndexes == [] then 0 else 4)
          - (if latencyP95.None? then 2 else if latencyP95.value <= 150.0 then 0 else 4)
      && (result.overall == Failed <==> inventory.services == [] || exists s <- inventory.services :: Unguarded(s))
  {
    PenaltiesAdd(ParityChecksFrom(inventory, latencyP95, scans));
    DerivedPenalties(inventory, latencyP95, scans);
    DerivedFailure(inventory, latencyP95, scans);
    ExposedCounts(inventory.services);
    MeasuredMeansScanned(scans);
    assert forall s <- inventory.services :: IsExposed(s) <==> Unguarded(s);
  }

  lemma BelowHundred(checks: seq<Check>)
    requires ComputeParityScore(checks).score < 100
    ensures ComputeParityScore(checks).overall != Passed
  {
    GreenMeansAllPassed(checks);
  }

  /** Every derived score is even and lies between 70 and 94, and no derived report passes. */
  lemma ScoreIsBounded(inventory: Inventory, latencyP95: Option<real>, scans: Option<seq<Scan>>)
    ensures var result := ComputeParityScore(ParityChecksFrom(inventory, latencyP95, scans));
      && 70 <= result.score <= 94
      && result.score % 2 == 0
      && result.overall != Passed
  {
    DerivedScore(inventory, latencyP95, scans);
    BelowHundred(ParityChecksFrom(inventory, latencyP95, scans));
  }

  /** An inventory, latency and scan list that cost the given number of points. */
  function Costing(failing: bool, points: nat): (Inventory, Option<real>, Option<seq<Scan>>) {
    (Inventory(if failing then [] else [Service(Some(true), Some(["POST"]))],
               if points >= 8 then ["DATABASE_URL"] else [],
               if points == 12 then ["jobs.audit_id"] else []),
     if points == 0 then Some(100.0) else if points == 2 then None else Some(200.0),
     if points == 6 || points == 10 then None else Some([Scan("database-inventory", Success)]))
  }

  /** Every even score from 70 to 94 is the score of some inventory. */
  lemma EveryBoundedScoreOccurs(score: int)
    requires 70 <= score <= 94 && score % 2 == 0
    ensures exists inventory, latencyP95, scans ::
      ComputeParityScore(ParityChecksFrom(inventory, latencyP95, scans)).score == score
  {
    var points := if score < 82 then 82 - score else 94 - score;
    var (inventory, latencyP95, scans) := Costing(score < 82, points);
    DerivedScore(inventory, latencyP95, scans);
    assert scans.Some? ==> DbMeasured(scans);
    MeasuredMeansScanned(scans);
    assert forall s <- inventory.services :: IsGuarded(s);
    assert ComputeParityScore(ParityChecksFrom(inventory, latencyP95, scans)).score == score;
  }

  // ---------- comparing two reports ----------

  datatype Change = Change(key: string, before: Option<Status>, after: Status)

  /** The last status recorded for each key. */
  function Statuses(checks: seq<Check>): map<string, Status> {
    if checks == [] then map[]
    else Statuses(checks[..|checks| - 1])[checks[|checks| - 1].key := checks[|checks| - 1].status]
  }

  /** The recorded status of a key is that of the last check with the key. */
  lemma {:induction false} StatusesAreLast(checks: seq<Check>, key: string)
    ensures key in Statuses(checks) <==> exists c <- checks :: c.key == key
    ensures key in Statuses(checks) ==>
      exists i :: 0 <= i < |checks| && checks[i] == Check(key, Statuses(checks)[key])
                  && forall k :: i < k < |checks| ==> checks[k].key != key
  {
    if checks != [] {
      var front, last := checks[..|checks| - 1], checks[|checks| - 1];
      assert checks == front + [last];
      StatusesAreLast(front, key);
      if last.key == key {
        assert checks[|front|] == Check(key, Statuses(checks)[key]);
      } else if key in Statuses(front) {
        var i :| 0 <= i < |front| && front[i] == Check(key, Statuses(front)[key])
                 && forall k :: i < k < |front| ==> front[k].key != key;
        assert checks[i] == Check(key, Statuses(checks)[key]);
        assert forall k :: i < k < |front| ==> checks[k] == front[k];
      }
    }
  }

  function Before(previous: map<string, Status>, key: string): Option<Status> {
    if key in previous then Some(previous[key]) else None
  }

  function Changes(previous: map<string, Status>, latest: seq<Check>): seq<Change> {
    if latest == [] then []
    else
      var c := latest[|latest| - 1];
      Changes(previous, latest[..|latest| - 1])
      + if Before(previous, c.key) == Some(c.status) then [] else [Change(c.key, Before(previous, c.key), c.status)]
  }

  method DiffParityChecks(previous: Option<seq<Check>>, latest: Option<seq<Check>>) returns (diffs: seq<Change>)
    ensures diffs ==
      if previous.None? || latest.None? then [] else Changes(Statuses(previous.value), latest.value)
  {
    if previous.None? || latest.None? {
      return [];
    }
    var known: map<string, Status> := map[];
    for i := 0 to |previous.value|
      invariant known == Statuses(previous.value[..i])
    {
      assert previous.value[..i + 1][..i] == previous.value[..i];
      known := known[previous.value[i].key := previous.value[i].status];
    }
    assert previous.value[..|previous.value|] == previous.value;
    diffs := [];
    for i := 0 to |latest.value|
      invariant diffs == Changes(known, latest.value[..i])
    {
      assert latest.value[..i + 1][..i] == latest.value[..i];
      var c := latest.value[i];
      if c.key !in known {
        diffs := diffs + [Change(c.key, None, c.status)];
      } else if known[c.key] != c.status {
        diffs := diffs + [Change(c.key, Some(known[c.key]), c.status)];
      }
    }
    assert latest.value[..|latest.value|] == latest.value;
  }

  /** The statuses after a list of changes. */
  function Patched(before: map<string, Status>, changes: seq<Change>): map<string, Status> {
    if changes == [] then before
    else Patched(before, changes[..|changes| - 1])[changes[|changes| - 1].key := changes[|changes| - 1].after]
  }

  lemma {:induction false} PatchedElsewhere(before: map<string, Status>, latest: seq<Check>, key: string)
    requires forall c <- latest :: c.key != key
    ensures Before(Patched(before, Changes(before, latest)), key) == Before(before, key)
    decreases |latest|
  {
    if latest != [] {
      var front, c := latest[..|latest| - 1], latest[|latest| - 1];
      PatchedElsewhere(before, front, key);
      PatchedSnoc(before, front, c);
    }
  }

  lemma PatchedSnoc(before: map<string, Status>, front: seq<Check>, c: Check)
    ensures Patched(before, Changes(before, front + [c]))
      == var patched := Patched(before, Changes(before, front));
         if Before(before, c.key) == Some(c.status) then patched else patched[c.key := c.status]
  {
    assert (front + [c])[..|front|] == front;
    var changes := Changes(before, front);
    if Before(before, c.key) != Some(c.status) {
      var change := Change(c.key, Before(before, c.key), c.status);
      assert (changes + [change])[..|changes|] == changes;
    } else {
      assert changes + [] == changes;
    }
  }

  ghost predicate DistinctKeys(checks: seq<Check>) {
    forall i, j :: 0 <= i < j < |checks| ==> checks[i].key != checks[j].key
  }

  /** Round trip: applying the reported changes to the previous statuses gives the latest ones. */
  lemma {:induction false} ChangesReplay(before: map<string, Status>, latest: seq<Check>)
    requires DistinctKeys(latest)
    ensures Patched(before, Changes(before, latest)) == before + Statuses(latest)
    decreases |latest|
  {
    if latest != [] {
      var front, c := latest[..|latest| - 1], latest[|latest| - 1];
      assert latest == front + [c];
      ChangesReplay(before, front);
      PatchedSnoc(before, front, c);
      PatchedElsewhere(before, front, c.key);
      PutLast(before, Statuses(front), c);
    }
  }

  lemma PutLast(before: map<string, Status>, later: map<string, Status>, c: Check)
    ensures before + later[c.key := c.status] == (before + later)[c.key := c.status]
    ensures Before(before + later, c.key) == Some(c.status) ==> (before + later)[c.key := c.status] == before + later
  {
  }

  /** Nothing is reported if and only if every latest check had the same status before. */
  lemma {:induction false} NoChangesMeansSame(before: map<string, Status>, latest: seq<Check>)
    ensures Changes(before, latest) == [] <==> forall c <- latest :: Before(before, c.key) == Some(c.status)
    decreases |latest|
  {
    if latest != [] {
      NoChangesMeansSame(before, latest[..|latest| - 1]);
      assert latest == latest[..|latest| - 1] + [latest[|latest| - 1]];
    }
  }

  /** The change that a check makes to the previous statuses. */
  predicate IsChangeOf(change: Change, previous: map<string, Status>, c: Check) {
    && change.key == c.key && change.after == c.status
    && (if c.key in previous then change.before == Some(previous[c.key]) && previous[c.key] != c.status
        else change.before == None)
  }

  lemma ChangesSnoc(previous: map<string, Status>, front: seq<Check>, c: Check)
    ensures Changes(previous, front + [c]) ==
      Changes(previous, front)
      + if c.key in previous && previous[c.key] == c.status then []
        else [Change(c.key, if c.key in previous then Some(previous[c.key]) else None, c.status)]
  {
    assert (front + [c])[..|front|] == front;
  }

  /** Every reported change is that of a latest check, with the status it had before, in the order of the checks. */
  lemma {:induction false} ChangesAreExact(previous: map<string, Status>, latest: seq<Check>)
    returns (from: seq<nat>)
    ensures var changes := Changes(previous, latest);
      && |from| == |changes|
      && (forall i :: 0 <= i < |from| ==> from[i] < |latest| && IsChangeOf(changes[i], previous, latest[from[i]]))
      && (forall i, j :: 0 <= i < j < |from| ==> from[i] < from[j])
      && (forall k :: 0 <= k < |latest| && k !in from ==>
            latest[k].key in previous && previous[latest[k].key] == latest[k].status)
    decreases |latest|
  {
    if latest == [] {
      return [];
    }
    var front, c := latest[..|latest| - 1], latest[|latest| - 1];
    assert latest == front + [c];
    from := ChangesAreExact(previous, front);
    ChangesSnoc(previous, front, c);
    if !(c.key in previous && previous[c.key] == c.status) {
      from := from + [|front|];
    }
  }
}
