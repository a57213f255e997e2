/** The rows that a stale worker's late upserts leave, with rows of its own. */
module LateUpserts {
  import opened Wrappers
  import opened Upserts

  // ---------- late writes of a stale worker ----------

  /** The row under a key, by its position. */
  lemma UnderAt(table: Table, key: Key) returns (i: nat)
    requires Unique(table) && HasKey(table, key)
    ensures i < |table| && table[i].key == key && Under(table, key) == Some(table[i])
  {
    i :| 0 <= i < |table| && table[i].key == key;
    UnderIs(table, key);
  }

  lemma HarmlessUpsert(global: bool, table: Table, w: Row)
    requires Unique(table) && (w.key.audit.Some? || global)
    ensures Upsert(global, table, w) == table <==> Holds(table, w.key, Some(w.content))
  {
    UpsertEffect(global, table, w);
    var next := Upsert(global, table, w);
    if HasKey(table, w.key) {
      var i := UnderAt(table, w.key);
      UnderIs(table, w.key);
      if table[i].content == w.content {
        assert forall k :: 0 <= k < |table| ==> next[k] == table[k];
        assert table[i] in table;
      } else {
        assert next[i] != table[i];
      }
    }
  }

  /**
   A write of any other attempt after the run is harmless if and only if the table already has its content
   under its key.
   */
  lemma LateWriteIsHarmless(global: bool, before: Table, writes: seq<Row>, w: Row)
    requires Unique(before) && Covered(global, writes) && (w.key.audit.Some? || global)
    ensures Run(global, before, writes + [w]) == Run(global, before, writes)
      <==> Holds(Run(global, before, writes), w.key, Some(w.content))
  {
    RunSettles(global, before, writes);
    assert (writes + [w])[..|writes|] == writes;
    HarmlessUpsert(global, Run(global, before, writes), w);
  }

  /** Any number of late writes of any attempts leave the table if and only if it has the last content of each key. */
  lemma LateWritesAreHarmless(global: bool, before: Table, writes: seq<Row>, late: seq<Row>)
    requires Unique(before) && Covered(global, writes) && Covered(global, late)
    ensures Run(global, before, writes + late) == Run(global, before, writes)
      <==> forall w <- late :: Holds(Run(global, before, writes), w.key, Last(late, w.key))
  {
    var table := Run(global, before, writes);
    RunSettles(global, before, writes);
    RunConcat(global, before, writes, late);
    RunSettles(global, table, late);
    if forall w <- late :: Holds(table, w.key, Last(late, w.key)) {
      HeldStays(table, late, Run(global, table, late));
    }
    if Run(global, table, late) == table {
      forall w | w in late ensures Holds(table, w.key, Last(late, w.key)) {
        WrittenIsHeld(table, late, w);
      }
    }
  }

  lemma HeldStays(table: Table, late: seq<Row>, after: Table)
    requires Unique(table) && Settled(table, late, after)
    requires forall w <- late :: Holds(table, w.key, Last(late, w.key))
    ensures after == table
  {
    forall i | 0 <= i < |table| ensures after[i] == table[i] {
      LastExists(late, table[i].key);
      assert after[i] == Settle(table[i], late);
    }
    forall key | HasKey(after, key) ensures HasKey(table, key) {
    }
    NoNewKeys(table, after);
  }

  lemma WrittenIsHeld(table: Table, late: seq<Row>, w: Row)
    requires Settled(table, late, table) && w in late
    ensures Holds(table, w.key, Last(late, w.key))
  {
    LastExists(late, w.key);
    assert HasKey(table, w.key);
    var i :| 0 <= i < |table| && table[i].key == w.key;
    assert table[i] == Settle(table[i], late) && table[i] in table;
  }

  // ---------- late writes anywhere ----------

  /** `mixed` interleaves the writes of two workers, each in its own order. */
  ghost predicate Merges(mixed: seq<Row>, left: seq<Row>, right: seq<Row>)
    decreases |mixed|
  {
    if mixed == [] then left == [] && right == []
    else
      var front, last := mixed[..|mixed| - 1], mixed[|mixed| - 1];
      || (left != [] && left[|left| - 1] == last && Merges(front, left[..|left| - 1], right))
      || (right != [] && right[|right| - 1] == last && Merges(front, left, right[..|right| - 1]))
  }

  lemma {:induction false} MergesSame(left: seq<Row>)
    ensures Merges(left, left, []) && Merges(left, [], left)
    decreases |left|
  {
    if left != [] {
      MergesSame(left[..|left| - 1]);
    }
  }

  lemma {:induction false} MergesConcat(left: seq<Row>, right: seq<Row>)
    ensures Merges(left + right, left, right) && Merges(right + left, left, right)
    decreases |left| + |right|
  {
    if right == [] {
      assert left + right == left && right + left == left;
      MergesSame(left);
    } else if left == [] {
      assert left + right == right && right + left == right;
      MergesSame(right);
    } else {
      MergesConcat(left, right[..|right| - 1]);
      MergesConcat(left[..|left| - 1], right);
      assert (left + right)[..|left + right| - 1] == left + right[..|right| - 1];
      assert (right + left)[..|right + left| - 1] == right + left[..|left| - 1];
    }
  }

  /** One of the two sides of `found`, the only one there if the other has nothing. */
  predicate OneOf(found: Option<Columns>, left: Option<Columns>, right: Option<Columns>) {
    found in {left, right} && (found.None? ==> left.None? && right.None?)
  }

  /** The first and the last write to a key are one of the two workers'. */
  lemma {:induction false} MergedEnds(mixed: seq<Row>, left: seq<Row>, right: seq<Row>, key: Key)
    requires Merges(mixed, left, right)
    ensures OneOf(Last(mixed, key), Last(left, key), Last(right, key))
    ensures OneOf(First(mixed, key), First(left, key), First(right, key))
    ensures forall w :: w in mixed <==> w in left || w in right
    decreases |mixed|
  {
    if mixed != [] {
      var front, last := mixed[..|mixed| - 1], mixed[|mixed| - 1];
      assert mixed == front + [last];
      if left != [] && left[|left| - 1] == last && Merges(front, left[..|left| - 1], right) {
        assert left == left[..|left| - 1] + [last];
        MergedEnds(front, left[..|left| - 1], right, key);
      } else {
        assert right == right[..|right| - 1] + [last];
        MergedEnds(front, left, right[..|right| - 1], key);
      }
    }
  }

  /**
   The late writes agree with the run's: under each key in the last content, and for a new key in what the
   first insert sets; or the key was there and the run does not write it, and its content has come back.
   */
  ghost predicate AgreesLate(before: Table, writes: seq<Row>, late: seq<Row>) {
    forall w <- late ::
      if HasKey(writes, w.key) then
        Last(late, w.key) == Last(writes, w.key)
        && (HasKey(before, w.key) || First(late, w.key) == First(writes, w.key))
      else Holds(before, w.key, Last(late, w.key))
  }

  lemma MergedOutcome(before: Table, mixed: seq<Row>, writes: seq<Row>, late: seq<Row>, key: Key)
    requires Unique(before) && Merges(mixed, writes, late) && AgreesLate(before, writes, late)
    ensures Outcome(before, mixed, key) == Outcome(before, writes, key)
  {
    MergedEnds(mixed, writes, late, key);
    UnderIs(before, key);
    LastExists(late, key);
    LastExists(writes, key);
    FirstExists(late, key);
    FirstExists(writes, key);
  }

  /** If `mixed` interleaves the two, it leaves the rows of the run alone. */
  ghost predicate NoTrace(global: bool, before: Table, mixed: seq<Row>, writes: seq<Row>, late: seq<Row>) {
    Merges(mixed, writes, late) ==> SameRows(Run(global, before, mixed), Run(global, before, writes))
  }

  /**
   A stale worker's late writes, with rows of its own, leave no trace wherever they fall among those of the
   completing run if and only if they agree with them.
   */
  lemma LateWritesLeaveNoTrace(global: bool, before: Table, writes: seq<Row>, late: seq<Row>)
    requires Unique(before) && Covered(global, writes) && Covered(global, late)
    ensures (forall mixed :: NoTrace(global, before, mixed, writes, late)) <==> AgreesLate(before, writes, late)
  {
    if AgreesLate(before, writes, late) {
      forall mixed ensures NoTrace(global, before, mixed, writes, late) {
        if Merges(mixed, writes, late) {
          MergeLeavesNoTrace(global, before, mixed, writes, late);
        }
      }
    } else {
      MergesConcat(writes, late);
      if NoTrace(global, before, writes + late, writes, late) && NoTrace(global, before, late + writes, writes, late) {
        BothOrdersAgree(global, before, writes, late);
      }
    }
  }

  lemma MergeLeavesNoTrace(global: bool, before: Table, mixed: seq<Row>, writes: seq<Row>, late: seq<Row>)
    requires Unique(before) && Covered(global, writes) && Covered(global, late)
    requires Merges(mixed, writes, late) && AgreesLate(before, writes, late)
    ensures SameRows(Run(global, before, mixed), Run(global, before, writes))
  {
    forall key ensures Outcome(before, mixed, key) == Outcome(before, writes, key)
               ensures forall w :: w in mixed <==> w in writes || w in late
    {
      MergedOutcome(before, mixed, writes, late, key);
      MergedEnds(mixed, writes, late, key);
    }
    MergedEnds(mixed, writes, late, Key(None, ""));
    SameOutcomes(global, before, mixed, writes);
  }

  lemma BothOrdersAgree(global: bool, before: Table, writes: seq<Row>, late: seq<Row>)
    requires Unique(before) && Covered(global, writes) && Covered(global, late)
    requires SameRows(Run(global, before, writes + late), Run(global, before, writes))
    requires SameRows(Run(global, before, late + writes), Run(global, before, writes))
    ensures AgreesLate(before, writes, late)
  {
    SameOutcomes(global, before, writes + late, writes);
    SameOutcomes(global, before, late + writes, writes);
    forall w | w in late
      ensures if HasKey(writes, w.key) then
          Last(late, w.key) == Last(writes, w.key)
          && (HasKey(before, w.key) || First(late, w.key) == First(writes, w.key))
        else Holds(before, w.key, Last(late, w.key))
    {
      assert HasKey(late, w.key);
      assert Outcome(before, writes + late, w.key) == Outcome(before, writes, w.key);
      assert Outcome(before, late + writes, w.key) == Outcome(before, writes, w.key);
      KeyAgrees(before, writes, late, w.key);
    }
  }

  lemma KeyAgrees(before: Table, writes: seq<Row>, late: seq<Row>, key: Key)
    requires Unique(before) && HasKey(late, key)
    requires Outcome(before, writes + late, key) == Outcome(before, writes, key)
    requires Outcome(before, late + writes, key) == Outcome(before, writes, key)
    ensures if HasKey(writes, key) then
        Last(late, key) == Last(writes, key) && (HasKey(before, key) || First(late, key) == First(writes, key))
      else Holds(before, key, Last(late, key))
  {
    KeyRewritten(before, late, writes, key);
    ConcatEnds(writes, late, key);
    UnderIs(before, key);
    LastExists(late, key);
    LastExists(writes, key);
    FirstExists(late, key);
    FirstExists(writes, key);
  }

  // ---------- a worker's own writes again ----------

  /** No two writes to one key differ in content. */
  ghost predicate ContentsAgree(writes: seq<Row>) {
    forall u <- writes, v <- writes :: u.key == v.key ==> u.content == v.content
  }

  /** Nor do two writes to a new key differ in what only an insert sets. */
  ghost predicate Agree(before: Table, writes: seq<Row>) {
    && ContentsAgree(writes)
    && forall u <- writes, v <- writes :: u.key == v.key && !HasKey(before, u.key) ==> u.fixed == v.fixed
  }

  lemma {:induction false} LastIsWritten(writes: seq<Row>, key: Key)
    requires HasKey(writes, key)
    ensures exists w <- writes :: w.key == key && Last(writes, key) == Some(w.content)
    decreases |writes|
  {
    var front, last := writes[..|writes| - 1], writes[|writes| - 1];
    if last.key == key {
      assert last in writes;
    } else {
      LastIsWritten(front, key);
      var w :| w in front && w.key == key && Last(front, key) == Some(w.content);
      assert w in writes;
    }
  }

  lemma {:induction false} FirstIsWritten(writes: seq<Row>, key: Key)
    requires HasKey(writes, key)
    ensures exists w <- writes :: w.key == key && First(writes, key) == Some(w.fixed)
    decreases |writes|
  {
    var front, last := writes[..|writes| - 1], writes[|writes| - 1];
    FirstExists(front, key);
    if HasKey(front, key) {
      FirstIsWritten(front, key);
      var w :| w in front && w.key == key && First(front, key) == Some(w.fixed);
      assert w in writes;
    } else {
      assert last.key == key && last in writes;
    }
  }

  ghost predicate DrawnFrom(late: seq<Row>, writes: seq<Row>) {
    forall w <- late :: w in writes
  }

  lemma DrawnAgrees(before: Table, writes: seq<Row>, late: seq<Row>)
    requires Agree(before, writes) && DrawnFrom(late, writes)
    ensures AgreesLate(before, writes, late)
  {
    forall w | w in late
      ensures HasKey(writes, w.key) && Last(late, w.key) == Last(writes, w.key)
        && (HasKey(before, w.key) || First(late, w.key) == First(writes, w.key))
    {
      assert w in writes && HasKey(late, w.key);
      LastIsWritten(late, w.key);
      LastIsWritten(writes, w.key);
      FirstIsWritten(late, w.key);
      FirstIsWritten(writes, w.key);
    }
  }

  lemma OneRowEnds(w: Row)
    ensures Last([w], w.key) == Some(w.content) && First([w], w.key) == Some(w.fixed)
  {
    assert [w] == [] + [w];
    LastSnoc([], w, w.key);
    FirstSnoc([], w, w.key);
  }

  /** Of two writes to a key that differ, one does not agree with the run. */
  lemma OneDisagrees(before: Table, writes: seq<Row>, u: Row, v: Row)
    requires u in writes && v in writes && u.key == v.key
    requires u.content != v.content || (!HasKey(before, u.key) && u.fixed != v.fixed)
    ensures !AgreesLate(before, writes, [u]) || !AgreesLate(before, writes, [v])
  {
    OneRowEnds(u);
    OneRowEnds(v);
    assert HasKey(writes, u.key) && u in [u] && v in [v];
  }

  /**
   A late repetition of the run's own writes, in any number and order, leaves no trace if and only if the
   writes to one key agree: in content, and for a new key also in what only its insert sets.
   */
  lemma RepeatsLeaveNoTrace(global: bool, before: Table, writes: seq<Row>)
    requires Unique(before) && Covered(global, writes)
    ensures (forall late, mixed :: DrawnFrom(late, writes) ==> NoTrace(global, before, mixed, writes, late))
      <==> Agree(before, writes)
  {
    if Agree(before, writes) {
      forall late, mixed | DrawnFrom(late, writes) ensures NoTrace(global, before, mixed, writes, late) {
        DrawnAgrees(before, writes, late);
        LateWritesLeaveNoTrace(global, before, writes, late);
      }
    } else {
      var u, v :| u in writes && v in writes && u.key == v.key
                  && (u.content != v.content || (!HasKey(before, u.key) && u.fixed != v.fixed));
      OneDisagrees(before, writes, u, v);
      var late := if AgreesLate(before, writes, [u]) then [v] else [u];
      LateWritesLeaveNoTrace(global, before, writes, late);
      var mixed :| !NoTrace(global, before, mixed, writes, late);
      assert DrawnFrom(late, writes);
    }
  }
}
