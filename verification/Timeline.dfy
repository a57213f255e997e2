/** The stage timeline: stage states as a function of elapsed milliseconds. */
module Timeline {
  import opened Wrappers

  datatype StageStatus = Pending | Active | Done | Failed

  datatype StageDef = StageDef(key: string, title: string, detail: string, artifacts: seq<string>)

  datatype Stage = Stage(key: string, title: string, status: StageStatus, startedAt: Option<int>,
                         durationMs: Option<int>, artifacts: seq<string>, detail: string)

  datatype Previous = Previous(key: string, status: StageStatus, startedAt: Option<int>, durationMs: Option<int>)

  // ---------- specification ----------

  /** The time at which stage `i` begins: the sum of the durations before it. */
  function Bound(durations: seq<int>, i: nat): int
    requires i <= |durations|
  {
    if i == 0 then 0 else Bound(durations, i - 1) + durations[i - 1]
  }

  /** `bounds[i]` exists and has been reached. */
  predicate Reached(durations: seq<int>, elapsed: int, i: nat) {
    i <= |durations| && elapsed >= Bound(durations, i)
  }

  function StatusAt(durations: seq<int>, elapsed: int, i: nat): StageStatus {
    if Reached(durations, elapsed, i + 1) then Done
    else if Reached(durations, elapsed, i) then Active
    else Pending
  }

  function Max(a: int, b: int): int {
    if a >= b then a else b
  }

  /** How many of `count` artifacts a stage shows. */
  function ArtifactCount(durations: seq<int>, elapsed: int, i: nat, count: nat): (n: nat)
    ensures n <= count
  {
    var status := StatusAt(durations, elapsed, i);
    if status.Done? then count
    else if status.Pending? || i == |durations| then 0
    else
      var into := elapsed - Bound(durations, i);
      ShareBelow(into, durations[i], count);
      var shown := Max(1, into * count / durations[i]);
      if shown <= count then shown else count
  }

  lemma MultiplyGrows(a: int, b: int, d: int)
    requires a <= b && d >= 0
    ensures a * d <= b * d
  {
  }

  lemma QuotientBelow(x: int, d: int, bound: int)
    requires d > 0 && x < d * bound
    ensures x / d < bound
  {
    var q := x / d;
    assert x == q * d + x % d;
    if bound <= q {
      MultiplyGrows(bound, q, d);
    }
  }

  lemma ShareBelow(into: int, duration: int, count: nat)
    requires 0 <= into < duration
    ensures 0 <= into * count / duration <= count
  {
    MultiplyGrows(into, duration, count);
    assert duration * count + duration == duration * (count + 1);
    QuotientBelow(into * count, duration, count + 1);
    NotNegative(into * count, duration);
  }

  lemma NotNegative(x: int, d: int)
    requires x >= 0 && d > 0
    ensures x / d >= 0
  {
  }

  function Find(previous: seq<Previous>, key: string): Option<Previous> {
    if previous == [] then None
    else if previous[0].key == key then Some(previous[0])
    else Find(previous[1..], key)
  }

  /** The first earlier stage with the key. */
  lemma {:induction false} FindIsFirst(previous: seq<Previous>, key: string)
    ensures match Find(previous, key)
      case None => forall k :: 0 <= k < |previous| ==> previous[k].key != key
      case Some(stage) => exists i ::
        0 <= i < |previous| && previous[i] == stage && stage.key == key
        && forall k :: 0 <= k < i ==> previous[k].key != key
  {
    if previous != [] && previous[0].key != key {
      FindIsFirst(previous[1..], key);
      if Find(previous, key).Some? {
        var i :| 0 <= i < |previous[1..]| && previous[1..][i] == Find(previous, key).value
                 && forall k :: 0 <= k < i ==> previous[1..][k].key != key;
        assert previous[i + 1] == Find(previous, key).value;
        assert forall k :: 0 < k < i + 1 ==> previous[k] == previous[1..][k - 1];
      } else {
        assert forall k :: 0 < k < |previous| ==> previous[k] == previous[1..][k - 1];
      }
    }
  }

  function StageAt(def: StageDef, durations: seq<int>, start: int, elapsed: int, i: nat,
                   prev: Option<Previous>): Stage {
    var status := StatusAt(durations, elapsed, i);
    Stage(def.key, def.title, status,
          if !status.Pending? then Some(start + Bound(durations, i))
          else if prev.Some? then prev.value.startedAt else None,
          if status.Done? then Some(durations[i])
          else if prev.Some? then prev.value.durationMs else None,
          def.artifacts[..ArtifactCount(durations, elapsed, i, |def.artifacts|)],
          def.detail)
  }

  predicate Differs(prev: Option<Previous>, status: StageStatus) {
    prev.Some? && prev.value.status != status
  }

  // ---------- the loops ----------

  method Bounds(durations: seq<int>) returns (bounds: seq<int>)
    ensures |bounds| == |durations| + 1
    ensures forall i :: 0 <= i <= |durations| ==> bounds[i] == Bound(durations, i)
  {
    bounds := [0];
    for k := 0 to |durations|
      invariant |bounds| == k + 1
      invariant forall i :: 0 <= i <= k ==> bounds[i] == Bound(durations, i)
    {
      bounds := bounds + [bounds[|bounds| - 1] + durations[k]];
    }
  }

  method ShownArtifacts(artifacts: seq<string>, duration: int, into: int) returns (shown: seq<string>)
    requires 0 <= into < duration
    ensures var n := Max(1, into * |artifacts| / duration);
      shown == artifacts[..if n <= |artifacts| then n else |artifacts|]
  {
    var count := into * |artifacts| / duration;
    if count < 1 {
      count := 1;
    }
    shown := if count <= |artifacts| then artifacts[..count] else artifacts;
    assert artifacts[..|artifacts|] == artifacts;
  }

  /** `computeStageStates`. */
  method ComputeStageStates(defs: seq<StageDef>, durations: seq<int>, start: int, elapsed: int, previous: seq<Previous>)
    returns (stages: seq<Stage>, done: bool, changed: bool)
    ensures |stages| == |defs|
    ensures forall i :: 0 <= i < |defs| ==>
      stages[i] == StageAt(defs[i], durations, start, elapsed, i, Find(previous, defs[i].key))
    ensures done <==> elapsed >= Bound(durations, |durations|)
    ensures changed <==>
      exists i :: 0 <= i < |defs| && Differs(Find(previous, defs[i].key), StatusAt(durations, elapsed, i))
  {
    var bounds := Bounds(durations);
    done := elapsed >= bounds[|bounds| - 1];
    changed := false;
    stages := [];
    for k := 0 to |defs|
      invariant |stages| == k
      invariant forall i :: 0 <= i < k ==>
        stages[i] == StageAt(defs[i], durations, start, elapsed, i, Find(previous, defs[i].key))
      invariant changed <==>
        exists i :: 0 <= i < k && Differs(Find(previous, defs[i].key), StatusAt(durations, elapsed, i))
    {
      var def := defs[k];
      var prev := Find(previous, def.key);
      var isDone := k + 1 < |bounds| && elapsed >= bounds[k + 1];
      var isActive := !isDone && k < |bounds| && elapsed >= bounds[k];
      var status := if isDone then Done else if isActive then Active else Pending;
      if prev.Some? && prev.value.status != status {
        changed := true;
      }
      var shown := [];
      if isDone {
        shown := def.artifacts;
      } else if isActive && k < |durations| {
        shown := ShownArtifacts(def.artifacts, durations[k], elapsed - bounds[k]);
      }
      assert def.artifacts[..|def.artifacts|] == def.artifacts;
      stages := stages + [Stage(def.key, def.title, status,
        if isActive || isDone then Some(start + bounds[k]) else if prev.Some? then prev.value.startedAt else None,
        if isDone then Some(durations[k]) else if prev.Some? then prev.value.durationMs else None,
        shown, def.detail)];
    }
  }

  // ---------- the shape of a timeline ----------

  predicate Positive(durations: seq<int>) {
    forall d <- durations :: d > 0
  }

  lemma {:induction false} BoundsRise(durations: seq<int>, i: nat, j: nat)
    requires Positive(durations) && i <= j <= |durations|
    ensures Bound(durations, i) + (j - i) <= Bound(durations, j)
    decreases j - i
  {
    if i < j {
      BoundsRise(durations, i, j - 1);
      assert durations[j - 1] in durations;
    }
  }

  function Total(durations: seq<int>): int {
    Bound(durations, |durations|)
  }

  /** The first `finished` stages are done, the next one is active while time is left, the others are pending. */
  ghost predicate Shaped(durations: seq<int>, elapsed: int, finished: nat) {
    && finished <= |durations|
    && (forall i :: 0 <= i < finished ==> StatusAt(durations, elapsed, i) == Done)
    && (finished < |durations| ==> StatusAt(durations, elapsed, finished) == if elapsed >= 0 then Active else Pending)
    && (forall i :: finished < i < |durations| ==> StatusAt(durations, elapsed, i) == Pending)
  }

  /** How many stages are over. */
  function Finished(durations: seq<int>, elapsed: int, from: nat): (n: nat)
    requires from <= |durations|
    ensures from <= n <= |durations|
    decreases |durations| - from
  {
    if from < |durations| && elapsed >= Bound(durations, from + 1) then Finished(durations, elapsed, from + 1) else from
  }

  lemma {:induction false} FinishedIs(durations: seq<int>, elapsed: int, from: nat)
    requires from <= |durations|
    requires from > 0 ==> elapsed >= Bound(durations, from)
    ensures var n := Finished(durations, elapsed, from);
      && (n > 0 ==> elapsed >= Bound(durations, n))
      && (n < |durations| ==> elapsed < Bound(durations, n + 1))
    decreases |durations| - from
  {
    if from < |durations| && elapsed >= Bound(durations, from + 1) {
      FinishedIs(durations, elapsed, from + 1);
    }
  }

  /** Always done stages, then at most one active one, then pending ones; one is active while time runs. */
  lemma TimelineShape(durations: seq<int>, elapsed: int)
    requires Positive(durations)
    ensures Shaped(durations, elapsed, Finished(durations, elapsed, 0))
    ensures Finished(durations, elapsed, 0) < |durations| <==> durations != [] && elapsed < Total(durations)
  {
    var n := Finished(durations, elapsed, 0);
    FinishedIs(durations, elapsed, 0);
    BoundsRise(durations, n, |durations|);
    forall i | 0 <= i < n ensures StatusAt(durations, elapsed, i) == Done {
      BoundsRise(durations, i + 1, n);
    }
    BoundsRise(durations, 0, n);
    if n < |durations| {
      BoundsRise(durations, n + 1, |durations|);
      forall i | n < i < |durations| ensures StatusAt(durations, elapsed, i) == Pending {
        BoundsRise(durations, n + 1, i);
        BoundsRise(durations, i, i + 1);
      }
    }
  }

  /** Exactly one stage is active from the start until the total has elapsed, and none outside. */
  lemma OneActive(durations: seq<int>, elapsed: int)
    requires Positive(durations)
    ensures (exists i :: 0 <= i < |durations| && StatusAt(durations, elapsed, i) == Active)
      <==> 0 <= elapsed < Total(durations)
    ensures forall i, j | 0 <= i < |durations| && 0 <= j < |durations| ::
      (StatusAt(durations, elapsed, i) == Active && StatusAt(durations, elapsed, j) == Active ==> i == j)
  {
    TimelineShape(durations, elapsed);
    BoundsRise(durations, 0, |durations|);
    if 0 <= elapsed < Total(durations) {
      assert StatusAt(durations, elapsed, Finished(durations, elapsed, 0)) == Active;
    }
  }

  /** The timeline is done exactly when every stage is. */
  lemma DoneMeansAllDone(durations: seq<int>, elapsed: int)
    requires Positive(durations)
    ensures elapsed >= Total(durations)
      <==> elapsed >= 0 && forall i :: 0 <= i < |durations| ==> StatusAt(durations, elapsed, i) == Done
  {
    TimelineShape(durations, elapsed);
    BoundsRise(durations, 0, |durations|);
  }

  // ---------- progress ----------

  function Rank(status: StageStatus): int {
    match status
    case Done => 2
    case Active => 1
    case _ => 0
  }

  lemma ShareGrows(early: int, late: int, count: nat, duration: int)
    requires 0 <= early <= late && duration > 0
    ensures early * count / duration <= late * count / duration
  {
    MultiplyGrows(early, late, count);
    DivisionGrows(early * count, late * count, duration);
  }

  lemma DivisionGrows(a: int, b: int, d: int)
    requires 0 <= a <= b && d > 0
    ensures a / d <= b / d
  {
    var q := b / d;
    assert b == q * d + b % d;
    assert d * (q + 1) == q * d + d;
    QuotientBelow(a, d, q + 1);
  }

  /** Time never takes a stage back. */
  lemma StagesAdvance(durations: seq<int>, early: int, late: int, i: nat)
    requires early <= late
    requires Positive(durations) && i < |durations|
    ensures Rank(StatusAt(durations, early, i)) <= Rank(StatusAt(durations, late, i))
  {
    BoundsRise(durations, i, i + 1);
  }

  lemma ShownGrow(durations: seq<int>, early: int, late: int, i: nat, count: nat)
    requires early <= late
    requires Positive(durations) && i < |durations|
    ensures ArtifactCount(durations, early, i, count) <= ArtifactCount(durations, late, i, count)
  {
    BoundsRise(durations, i, i + 1);
    if StatusAt(durations, early, i) == Active && StatusAt(durations, late, i) == Active {
      ShareGrows(early - Bound(durations, i), late - Bound(durations, i), count, durations[i]);
    }
  }

  /** The artifacts shown earlier are a prefix of those shown later, whatever the previous snapshots were. */
  lemma ArtifactsGrow(def: StageDef, durations: seq<int>, start: int, early: int, late: int, i: nat,
                      earlyPrev: Option<Previous>, latePrev: Option<Previous>)
    requires early <= late
    requires Positive(durations) && i < |durations|
    ensures StageAt(def, durations, start, early, i, earlyPrev).artifacts
         <= StageAt(def, durations, start, late, i, latePrev).artifacts
  {
    ShownGrow(durations, early, late, i, |def.artifacts|);
  }

  // ---------- what a stage shows ----------

  /** A done stage shows every artifact, an active one its share of the time, but one at least, a pending one none. */
  lemma ShownShare(durations: seq<int>, elapsed: int, i: nat, count: nat)
    requires Positive(durations) && i < |durations|
    ensures var n, into := ArtifactCount(durations, elapsed, i, count), elapsed - Bound(durations, i);
      match StatusAt(durations, elapsed, i)
      case Done => n == count
      case Active =>
        && 0 <= into < durations[i] && (count > 0 ==> n > 0)
        && (n > 1 ==> n * durations[i] <= into * count)
        && (n < count ==> into * count < (n + 1) * durations[i])
      case _ => n == 0
  {
    if StatusAt(durations, elapsed, i) == Active {
      var into := elapsed - Bound(durations, i);
      ShareBelow(into, durations[i], count);
      ShareBounds(into * count, durations[i]);
    }
  }

  lemma ShareBounds(x: int, d: int)
    requires d > 0
    ensures x / d * d <= x < (x / d + 1) * d
  {
    var q := x / d;
    assert x == q * d + x % d;
    assert (q + 1) * d == q * d + d;
  }

  /** A stage carries its definition; once started it says when, and once done how long it took and all it made. */
  lemma StageMeans(def: StageDef, durations: seq<int>, start: int, elapsed: int, i: nat, prev: Option<Previous>)
    requires Positive(durations) && i < |durations|
    ensures var stage := StageAt(def, durations, start, elapsed, i, prev);
      && stage.key == def.key && stage.title == def.title && stage.detail == def.detail
      && stage.artifacts <= def.artifacts
      && match stage.status
         case Done =>
           stage.artifacts == def.artifacts && stage.durationMs == Some(durations[i])
           && stage.startedAt.Some? && stage.startedAt.value + durations[i] <= start + elapsed
         case Active =>
           (def.artifacts != [] ==> stage.artifacts != [])
           && stage.startedAt.Some? && stage.startedAt.value <= start + elapsed < stage.startedAt.value + durations[i]
           && stage.durationMs == (if prev.Some? then prev.value.durationMs else None)
         case _ =>
           stage.artifacts == []
           && stage.startedAt == (if prev.Some? then prev.value.startedAt else None)
           && stage.durationMs == (if prev.Some? then prev.value.durationMs else None)
  {
    ShownShare(durations, elapsed, i, |def.artifacts|);
    BoundsRise(durations, i, i + 1);
  }

  /** The first stage starts with the clock, and every other one when the one before it ends. */
  lemma StagesAreContiguous(def: StageDef, next: StageDef, durations: seq<int>, start: int, elapsed: int, i: nat,
                            prev: Option<Previous>, nextPrev: Option<Previous>)
    requires Positive(durations) && i < |durations|
    ensures var stage := StageAt(def, durations, start, elapsed, i, prev);
      i == 0 && stage.status != Pending ==> stage.startedAt == Some(start)
    ensures var stage := StageAt(def, durations, start, elapsed, i, prev);
      var later := StageAt(next, durations, start, elapsed, i + 1, nextPrev);
      later.status != Pending ==>
        && stage.status == Done && stage.startedAt.Some? && stage.durationMs.Some?
        && later.startedAt == Some(stage.startedAt.value + stage.durationMs.value)
  {
    BoundsRise(durations, i, i + 1);
    if i + 1 < |durations| {
      BoundsRise(durations, i + 1, i + 2);
    }
  }

  // ---------- the change flag ----------

  function Snapshot(stage: Stage): Previous {
    Previous(stage.key, stage.status, stage.startedAt, stage.durationMs)
  }

  function SnapshotAt(defs: seq<StageDef>, durations: seq<int>, start: int, elapsed: int, from: nat): (s: seq<Previous>)
    requires from <= |defs|
    ensures |s| == |defs| - from
    decreases |defs| - from
  {
    if from == |defs| then []
    else
      [Snapshot(StageAt(defs[from], durations, start, elapsed, from, None))]
      + SnapshotAt(defs, durations, start, elapsed, from + 1)
  }

  ghost predicate DistinctKeys(defs: seq<StageDef>) {
    forall i, j :: 0 <= i < j < |defs| ==> defs[i].key != defs[j].key
  }

  lemma {:induction false} SnapshotFinds(defs: seq<StageDef>, durations: seq<int>, start: int, elapsed: int,
                                         from: nat, i: nat)
    requires DistinctKeys(defs) && from <= i < |defs|
    ensures Find(SnapshotAt(defs, durations, start, elapsed, from), defs[i].key)
      == Some(Snapshot(StageAt(defs[i], durations, start, elapsed, i, None)))
    decreases |defs| - from
  {
    if from < i {
      SnapshotFinds(defs, durations, start, elapsed, from + 1, i);
    }
  }

  ghost predicate DiffersAt(defs: seq<StageDef>, durations: seq<int>, start: int, early: int, late: int, i: nat)
    requires i < |defs|
  {
    Differs(Find(SnapshotAt(defs, durations, start, early, 0), defs[i].key), StatusAt(durations, late, i))
  }

  ghost predicate PassedBound(durations: seq<int>, early: int, late: int, b: nat) {
    b <= |durations| && early < Bound(durations, b) <= late
  }

  lemma DiffersWhenBoundPassed(defs: seq<StageDef>, durations: seq<int>, start: int, early: int, late: int, i: nat)
    requires DistinctKeys(defs) && Positive(durations) && |durations| == |defs|
    requires early <= late && i < |defs|
    ensures DiffersAt(defs, durations, start, early, late, i)
      <==> PassedBound(durations, early, late, i) || PassedBound(durations, early, late, i + 1)
  {
    SnapshotFinds(defs, durations, start, early, 0, i);
    BoundsRise(durations, i, i + 1);
  }

  /** Against the snapshot of an earlier time, `changed` says that a bound was passed in between. */
  lemma ChangedMeansBoundPassed(defs: seq<StageDef>, durations: seq<int>, start: int, early: int, late: int)
    requires DistinctKeys(defs) && Positive(durations) && |durations| == |defs|
    requires early <= late
    ensures (exists i: nat :: i < |defs| && DiffersAt(defs, durations, start, early, late, i))
      <==> defs != [] && exists b: nat :: PassedBound(durations, early, late, b)
  {
    if i: nat :| i < |defs| && DiffersAt(defs, durations, start, early, late, i) {
      DiffersWhenBoundPassed(defs, durations, start, early, late, i);
    }
    if defs != [] && exists b: nat :: PassedBound(durations, early, late, b) {
      var b: nat :| PassedBound(durations, early, late, b);
      var i := if b < |defs| then b else b - 1;
      DiffersWhenBoundPassed(defs, durations, start, early, late, i);
      assert i + 1 == b || i == b;
      assert DiffersAt(defs, durations, start, early, late, i);
    }
  }
}
