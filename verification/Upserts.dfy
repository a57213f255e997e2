/**
 Crash and retry: the artifact and finding rows an attempt writes are upserts on unique keys.  Every attempt
 scans again and stamps the time, so each has rows of its own.

 A row has a fixed part that only its insert sets (for a finding this includes the status, which
 afterwards only operators change) and a content that every upsert overwrites.
 */
module Upserts {
  import opened Wrappers

  /** The audit, null for global artifacts, and the path or fingerprint. */
  datatype Key = Key(audit: Option<nat>, name: string)

  type Columns = seq<string>

  datatype Row = Row(key: Key, fixed: Columns, content: Columns)

  type Table = seq<Row>

  /** Two keys meet in a unique index; nulls only do in the partial index over global rows, if there is one. */
  predicate Clash(global: bool, a: Key, b: Key) {
    a.name == b.name && a.audit == b.audit && (a.audit.Some? || global)
  }

  /** `INSERT ... ON CONFLICT DO UPDATE`: the content of the clashing row, or a new row. */
  function Upsert(global: bool, table: Table, row: Row): Table {
    if table == [] then [row]
    else if Clash(global, table[0].key, row.key) then [table[0].(content := row.content)] + table[1..]
    else [table[0]] + Upsert(global, table[1..], row)
  }

  function Run(global: bool, table: Table, writes: seq<Row>): Table {
    if writes == [] then table
    else Upsert(global, Run(global, table, writes[..|writes| - 1]), writes[|writes| - 1])
  }

  ghost predicate Unique(table: Table) {
    forall i, j :: 0 <= i < j < |table| ==> table[i].key != table[j].key
  }

  /** Every write falls under one of the unique indexes. */
  ghost predicate Covered(global: bool, writes: seq<Row>) {
    forall w <- writes :: w.key.audit.Some? || global
  }

  predicate HasKey(rows: seq<Row>, key: Key) {
    exists r <- rows :: r.key == key
  }

  // ---------- one upsert ----------

  /** What one upsert does to a table with unique keys. */
  ghost predicate Upserted(table: Table, row: Row, after: Table) {
    && Unique(after)
    && |after| == |table| + (if HasKey(table, row.key) then 0 else 1)
    && (forall i :: 0 <= i < |table| ==>
          after[i] == if table[i].key == row.key then table[i].(content := row.content) else table[i])
    && (!HasKey(table, row.key) ==> after[|table|] == row)
  }

  lemma {:induction false} UpsertEffect(global: bool, table: Table, row: Row)
    requires Unique(table) && (row.key.audit.Some? || global)
    ensures Upserted(table, row, Upsert(global, table, row))
  {
    if table != [] && table[0].key != row.key {
      UpsertEffect(global, table[1..], row);
      assert HasKey(table, row.key) <==> HasKey(table[1..], row.key);
      var after := Upsert(global, table, row);
      forall i | 0 < i < |after| ensures after[i].key != after[0].key {
        assert after[i] == Upsert(global, table[1..], row)[i - 1];
        if i < |table| {
          assert after[i].key == table[i].key;
        }
      }
    }
  }

  // ---------- a whole attempt ----------

  /** The content of the last write to `key`. */
  function Last(writes: seq<Row>, key: Key): Option<Columns> {
    if writes == [] then None
    else if writes[|writes| - 1].key == key then Some(writes[|writes| - 1].content)
    else Last(writes[..|writes| - 1], key)
  }

  /** `before` with the last content written to its key. */
  function Settle(before: Row, writes: seq<Row>): Row {
    match Last(writes, before.key)
    case Some(content) => before.(content := content)
    case None => before
  }

  lemma {:induction false} LastExists(writes: seq<Row>, key: Key)
    ensures Last(writes, key).Some? <==> HasKey(writes, key)
    decreases |writes|
  {
    if writes != [] {
      var front, last := writes[..|writes| - 1], writes[|writes| - 1];
      LastExists(front, key);
      assert HasKey(writes, key) <==> HasKey(front, key) || last.key == key;
    }
  }

  /** A row that `writes` added: some write's fixed part, the last content. */
  ghost predicate Added(writes: seq<Row>, row: Row) {
    && Last(writes, row.key) == Some(row.content)
    && exists w <- writes :: w.key == row.key && w.fixed == row.fixed
  }

  /** An attempt settles the rows that were there, and adds settled rows for new keys. */
  ghost predicate Settled(before: Table, writes: seq<Row>, after: Table) {
    && Unique(after)
    && |before| <= |after|
    && (forall i :: 0 <= i < |before| ==> after[i] == Settle(before[i], writes))
    && (forall i :: |before| <= i < |after| ==> Added(writes, after[i]))
    && (forall key :: HasKey(after, key) <==> HasKey(before, key) || HasKey(writes, key))
  }

  lemma UpsertedKeys(after: Table, row: Row, next: Table, key: Key)
    requires Upserted(after, row, next)
    ensures HasKey(next, key) <==> HasKey(after, key) || row.key == key
  {
    if HasKey(after, key) {
      var i :| 0 <= i < |after| && after[i].key == key;
      assert next[i].key == key;
    } else if row.key == key {
      assert next[|after|].key == key;
    }
    if HasKey(next, key) {
      var i :| 0 <= i < |next| && next[i].key == key;
      assert i < |after| ==> after[i] in after && after[i].key == key;
    }
  }

  lemma LastSnoc(writes: seq<Row>, row: Row, key: Key)
    ensures Last(writes + [row], key) == if row.key == key then Some(row.content) else Last(writes, key)
    ensures HasKey(writes + [row], key) <==> HasKey(writes, key) || row.key == key
  {
    assert (writes + [row])[..|writes|] == writes;
  }

  lemma AddedStays(writes: seq<Row>, row: Row, was: Row, now: Row)
    requires Added(writes, was)
    requires now == if was.key == row.key then was.(content := row.content) else was
    ensures Added(writes + [row], now)
  {
    LastSnoc(writes, row, now.key);
    var w :| w in writes && w.key == was.key && w.fixed == was.fixed;
    assert w in writes + [row];
  }

  lemma SettleStep(before: Table, writes: seq<Row>, after: Table, row: Row, next: Table)
    requires Settled(before, writes, after) && Upserted(after, row, next)
    ensures Settled(before, writes + [row], next)
  {
    forall i | 0 <= i < |before| ensures next[i] == Settle(before[i], writes + [row]) {
      LastSnoc(writes, row, before[i].key);
      assert after[i] == Settle(before[i], writes);
    }
    forall i | |before| <= i < |next| ensures Added(writes + [row], next[i]) {
      if i < |after| {
        AddedStays(writes, row, after[i], next[i]);
      } else {
        LastSnoc(writes, row, row.key);
        assert row in writes + [row];
      }
    }
    forall key ensures HasKey(next, key) <==> HasKey(before, key) || HasKey(writes + [row], key) {
      UpsertedKeys(after, row, next, key);
      LastSnoc(writes, row, key);
    }
  }

  lemma {:induction false} RunSettles(global: bool, before: Table, writes: seq<Row>)
    requires Unique(before) && Covered(global, writes)
    ensures Settled(before, writes, Run(global, before, writes))
    decreases |writes|
  {
    if writes != [] {
      var front, last := writes[..|writes| - 1], writes[|writes| - 1];
      assert writes == front + [last];
      RunSettles(global, before, front);
      UpsertEffect(global, Run(global, before, front), last);
      SettleStep(before, front, Run(global, before, front), last, Run(global, before, writes));
    }
  }

  lemma {:induction false} RunConcat(global: bool, table: Table, first: seq<Row>, second: seq<Row>)
    ensures Run(global, table, first + second) == Run(global, Run(global, table, first), second)
    decreases |second|
  {
    if second == [] {
      assert first + second == first;
    } else {
      var front := second[..|second| - 1];
      assert (first + second)[..|first + second| - 1] == first + front;
      RunConcat(global, table, first, front);
    }
  }

  /** Repeating a sequence of writes at once changes nothing. */
  lemma RepeatChangesNothing(global: bool, table: Table, writes: seq<Row>)
    requires Unique(table) && Covered(global, writes)
    ensures Run(global, Run(global, table, writes), writes) == Run(global, table, writes)
  {
    var once := Run(global, table, writes);
    RunSettles(global, table, writes);
    RunSettles(global, once, writes);
    var twice := Run(global, once, writes);
    forall i | 0 <= i < |once| ensures twice[i] == once[i] {
      if i < |table| {
        assert once[i] == Settle(table[i], writes);
      }
    }
    forall key | HasKey(twice, key) ensures HasKey(once, key) {
      assert HasKey(once, key) || HasKey(writes, key);
    }
    NoNewKeys(once, twice);
  }

  lemma NewKey(before: Table, after: Table, i: nat)
    requires Unique(after) && |before| <= i < |after|
    requires forall k :: 0 <= k < |before| ==> after[k].key == before[k].key
    ensures !HasKey(before, after[i].key)
  {
    forall r | r in before ensures r.key != after[i].key {
      var k :| 0 <= k < |before| && before[k] == r;
      assert after[k].key == r.key;
    }
  }

  lemma RowHasKey(table: Table, i: nat)
    requires i < |table|
    ensures HasKey(table, table[i].key)
  {
    assert table[i] in table;
  }

  lemma NoNewKeys(before: Table, after: Table)
    requires Unique(after) && |before| <= |after|
    requires forall k :: 0 <= k < |before| ==> after[k].key == before[k].key
    requires forall key :: HasKey(after, key) ==> HasKey(before, key)
    ensures |after| == |before|
  {
    if |before| < |after| {
      NewKey(before, after, |before|);
      RowHasKey(after, |before|);
    }
  }

  // ---------- the table a run leaves, key by key ----------

  /** What the first write to `key` would insert for good. */
  function First(writes: seq<Row>, key: Key): Option<Columns> {
    if writes == [] then None
    else
      match First(writes[..|writes| - 1], key)
      case Some(fixed) => Some(fixed)
      case None => if writes[|writes| - 1].key == key then Some(writes[|writes| - 1].fixed) else None
  }

  /** The row of a table under `key`. */
  function Under(table: Table, key: Key): Option<Row> {
    if table == [] then None
    else if table[0].key == key then Some(table[0])
    else Under(table[1..], key)
  }

  lemma {:induction false} UnderIs(table: Table, key: Key)
    ensures Under(table, key).Some? <==> HasKey(table, key)
    ensures Under(table, key).Some? ==> Under(table, key).value in table && Under(table, key).value.key == key
    ensures Unique(table) ==> forall r <- table :: r.key == key ==> Under(table, key) == Some(r)
  {
    if table != [] && table[0].key != key {
      UnderIs(table[1..], key);
      assert HasKey(table, key) <==> HasKey(table[1..], key);
    }
  }

  lemma FirstSnoc(writes: seq<Row>, row: Row, key: Key)
    ensures First(writes + [row], key) ==
      if First(writes, key).Some? then First(writes, key) else if row.key == key then Some(row.fixed) else None
  {
    assert (writes + [row])[..|writes|] == writes;
  }

  lemma {:induction false} FirstExists(writes: seq<Row>, key: Key)
    ensures First(writes, key).Some? <==> HasKey(writes, key)
    decreases |writes|
  {
    if writes != [] {
      var front, last := writes[..|writes| - 1], writes[|writes| - 1];
      assert writes == front + [last];
      FirstExists(front, key);
      LastSnoc(front, last, key);
    }
  }

  /** The row that `writes` leave under `key`: an old row keeps its fixed part, a new one has its first write's. */
  function Outcome(before: Table, writes: seq<Row>, key: Key): Option<Row> {
    match Under(before, key)
    case Some(row) => Some(Settle(row, writes))
    case None =>
      if First(writes, key).Some? && Last(writes, key).Some?
      then Some(Row(key, First(writes, key).value, Last(writes, key).value))
      else None
  }

  lemma UpsertedUnder(table: Table, row: Row, after: Table, key: Key)
    requires Unique(table) && Upserted(table, row, after)
    ensures Under(after, key) ==
      if row.key != key then Under(table, key)
      else if Under(table, key).Some? then Some(Under(table, key).value.(content := row.content))
      else Some(row)
  {
    UnderIs(table, key);
    UnderIs(after, key);
    UpsertedKeys(table, row, after, key);
    if HasKey(table, key) {
      var i :| 0 <= i < |table| && table[i] == Under(table, key).value;
      assert after[i] in after && after[i].key == key;
    } else if row.key == key {
      assert after[|table|] in after;
    }
  }

  /** Every run of covered writes leaves exactly the outcomes. */
  lemma {:induction false} RunOutcome(global: bool, before: Table, writes: seq<Row>, key: Key)
    requires Unique(before) && Covered(global, writes)
    ensures Under(Run(global, before, writes), key) == Outcome(before, writes, key)
    decreases |writes|
  {
    UnderIs(before, key);
    if writes != [] {
      var front, last := writes[..|writes| - 1], writes[|writes| - 1];
      assert writes == front + [last];
      var mid := Run(global, before, front);
      RunOutcome(global, before, front, key);
      RunSettles(global, before, front);
      UpsertEffect(global, mid, last);
      UpsertedUnder(mid, last, Run(global, before, writes), key);
      OutcomeSnoc(before, front, last, key);
    }
  }

  lemma OutcomeSnoc(before: Table, writes: seq<Row>, row: Row, key: Key)
    ensures Outcome(before, writes + [row], key) ==
      if row.key != key then Outcome(before, writes, key)
      else if Outcome(before, writes, key).Some? then Some(Outcome(before, writes, key).value.(content := row.content))
      else Some(row)
  {
    UnderIs(before, key);
    LastSnoc(writes, row, key);
    FirstSnoc(writes, row, key);
    LastExists(writes, key);
    FirstExists(writes, key);
  }

  ghost predicate SameRows(left: Table, right: Table) {
    forall row :: row in left <==> row in right
  }

  lemma SameUnder(left: Table, right: Table)
    requires Unique(left) && Unique(right)
    ensures SameRows(left, right) <==> forall key :: Under(left, key) == Under(right, key)
  {
    if SameRows(left, right) {
      forall key ensures Under(left, key) == Under(right, key) {
        UnderIs(left, key);
        UnderIs(right, key);
        if Under(left, key).Some? {
          assert Under(left, key).value in right;
        }
      }
    } else {
      var row :| row in left <==> row !in right;
      UnderIs(left, row.key);
      UnderIs(right, row.key);
      assert Under(left, row.key) != Under(right, row.key);
    }
  }

  /** Two sequences of writes leave the same rows exactly when they leave the same row under every key. */
  lemma SameOutcomes(global: bool, before: Table, left: seq<Row>, right: seq<Row>)
    requires Unique(before) && Covered(global, left) && Covered(global, right)
    ensures SameRows(Run(global, before, left), Run(global, before, right))
      <==> forall key :: Outcome(before, left, key) == Outcome(before, right, key)
  {
    RunSettles(global, before, left);
    RunSettles(global, before, right);
    var one, two := Run(global, before, left), Run(global, before, right);
    SameUnder(one, two);
    if SameRows(one, two) {
      forall key ensures Outcome(before, left, key) == Outcome(before, right, key) {
        RunOutcome(global, before, left, key);
        RunOutcome(global, before, right, key);
        assert Under(one, key) == Under(two, key);
      }
    }
    if forall key :: Outcome(before, left, key) == Outcome(before, right, key) {
      forall key ensures Under(one, key) == Under(two, key) {
        RunOutcome(global, before, left, key);
        RunOutcome(global, before, right, key);
      }
    }
  }

  lemma {:induction false} ConcatEnds(first: seq<Row>, second: seq<Row>, key: Key)
    ensures Last(first + second, key) == if HasKey(second, key) then Last(second, key) else Last(first, key)
    ensures First(first + second, key) == if HasKey(first, key) then First(first, key) else First(second, key)
    decreases |second|
  {
    FirstExists(first, key);
    if second == [] {
      assert first + second == first;
    } else {
      var front, last := second[..|second| - 1], second[|second| - 1];
      assert second == front + [last] && first + second == (first + front) + [last];
      ConcatEnds(first, front, key);
      LastSnoc(first + front, last, key);
      LastSnoc(front, last, key);
      FirstSnoc(first + front, last, key);
      FirstSnoc(front, last, key);
      FirstExists(front, key);
    }
  }

  // ---------- crashes ----------

  /** What crashed attempts wrote: each found rows of its own and stopped somewhere. */
  function Flatten(attempts: seq<seq<Row>>): seq<Row> {
    if attempts == [] then [] else attempts[0] + Flatten(attempts[1..])
  }

  function Attempts(global: bool, table: Table, attempts: seq<seq<Row>>): Table
    decreases |attempts|
  {
    if attempts == [] then table else Attempts(global, Run(global, table, attempts[0]), attempts[1..])
  }

  lemma {:induction false} AttemptsRun(global: bool, table: Table, attempts: seq<seq<Row>>)
    ensures Attempts(global, table, attempts) == Run(global, table, Flatten(attempts))
    decreases |attempts|
  {
    if attempts != [] {
      AttemptsRun(global, Run(global, table, attempts[0]), attempts[1..]);
      RunConcat(global, table, attempts[0], Flatten(attempts[1..]));
    }
  }

  /** The table has a row with the key and this content. */
  predicate Holds(table: Table, key: Key, content: Option<Columns>) {
    exists r <- table :: r.key == key && Some(r.content) == content
  }

  /**
   Every key written by a crashed attempt is rewritten by `writes`, and if it was new both first inserted the
   same fixed part; or it was there before and its content has come back.
   */
  ghost predicate Rewritten(before: Table, crashed: seq<Row>, writes: seq<Row>) {
    forall c <- crashed ::
      if HasKey(writes, c.key) then HasKey(before, c.key) || First(crashed, c.key) == First(writes, c.key)
      else Holds(before, c.key, Last(crashed, c.key))
  }

  lemma KeyRewritten(before: Table, crashed: seq<Row>, writes: seq<Row>, key: Key)
    requires Unique(before)
    ensures Outcome(before, crashed + writes, key) == Outcome(before, writes, key)
      <==> (HasKey(crashed, key) ==>
              if HasKey(writes, key) then HasKey(before, key) || First(crashed, key) == First(writes, key)
              else Holds(before, key, Last(crashed, key)))
  {
    ConcatEnds(crashed, writes, key);
    UnderIs(before, key);
    LastExists(crashed, key);
    LastExists(writes, key);
    FirstExists(crashed, key);
    FirstExists(writes, key);
  }

  /**
   However many attempts crash, each with rows of its own and wherever it stops, the completing one leaves
   the rows of one uninterrupted run if and only if it rewrites what they wrote.
   */
  lemma CrashesLeaveNoTrace(global: bool, before: Table, attempts: seq<seq<Row>>, writes: seq<Row>)
    requires Unique(before) && Covered(global, Flatten(attempts)) && Covered(global, writes)
    ensures var after := Run(global, Attempts(global, before, attempts), writes);
      SameRows(after, Run(global, before, writes)) <==> Rewritten(before, Flatten(attempts), writes)
  {
    var crashed := Flatten(attempts);
    AttemptsRun(global, before, attempts);
    RunConcat(global, before, crashed, writes);
    SameOutcomes(global, before, crashed + writes, writes);
    forall key
      ensures Outcome(before, crashed + writes, key) == Outcome(before, writes, key)
        <==> (HasKey(crashed, key) ==>
                if HasKey(writes, key) then HasKey(before, key) || First(crashed, key) == First(writes, key)
                else Holds(before, key, Last(crashed, key)))
    {
      KeyRewritten(before, crashed, writes, key);
    }
    forall c | c in crashed ensures HasKey(crashed, c.key) {
    }
  }

  /**
   What every run of attempts keeps: no key twice, the keys that were there or were written, and, row by row,
   the fixed part of what was there, so an operator's finding status.
   */
  lemma FixedPartsSurvive(global: bool, before: Table, attempts: seq<seq<Row>>, writes: seq<Row>)
    requires Unique(before) && Covered(global, Flatten(attempts)) && Covered(global, writes)
    ensures var after := Run(global, Attempts(global, before, attempts), writes);
      && Unique(after) && |before| <= |after|
      && (forall i :: 0 <= i < |before| ==> after[i].key == before[i].key && after[i].fixed == before[i].fixed)
      && (forall key ::
            HasKey(after, key) <==> HasKey(before, key) || HasKey(Flatten(attempts), key) || HasKey(writes, key))
  {
    var crashed := Flatten(attempts);
    AttemptsRun(global, before, attempts);
    RunConcat(global, before, crashed, writes);
    RunSettles(global, before, crashed + writes);
    forall key ensures HasKey(crashed + writes, key) <==> HasKey(crashed, key) || HasKey(writes, key) {
      ConcatEnds(crashed, writes, key);
      LastExists(crashed + writes, key);
      LastExists(crashed, key);
      LastExists(writes, key);
    }
  }

  lemma PrefixRepeats(global: bool, table: Table, done: seq<Row>, writes: seq<Row>)
    requires Unique(table) && Covered(global, writes) && done <= writes
    ensures Run(global, Run(global, table, done), writes) == Run(global, table, writes)
    ensures Unique(Run(global, table, done))
  {
    var rest := writes[|done|..];
    assert writes == done + rest && Covered(global, done);
    RunSettles(global, table, done);
    RepeatChangesNothing(global, table, done);
    RunConcat(global, Run(global, table, done), done, rest);
    RunConcat(global, table, done, rest);
  }

  /** Attempts that find the same rows and stop early leave the very table of one uninterrupted run. */
  lemma {:induction false} EqualAttemptsLeaveNoTrace(global: bool, table: Table, attempts: seq<seq<Row>>,
                                                     writes: seq<Row>)
    requires Unique(table) && Covered(global, writes) && forall done <- attempts :: done <= writes
    ensures Run(global, Attempts(global, table, attempts), writes) == Run(global, table, writes)
    decreases |attempts|
  {
    if attempts != [] {
      assert attempts[0] in attempts && forall done <- attempts[1..] :: done in attempts;
      PrefixRepeats(global, table, attempts[0], writes);
      EqualAttemptsLeaveNoTrace(global, Run(global, table, attempts[0]), attempts[1..], writes);
    }
  }

  /** What the partial index is for: a write is repeatable if and only if an index covers its key. */
  lemma RepeatableIffCovered(global: bool, table: Table, row: Row)
    requires Unique(table)
    ensures Run(global, table, [row, row]) == Run(global, table, [row]) <==> row.key.audit.Some? || global
  {
    assert [row, row] == [row] + [row];
    RunConcat(global, table, [row], [row]);
    if row.key.audit.Some? || global {
      assert Covered(global, [row]);
      RepeatChangesNothing(global, table, [row]);
    } else {
      Appends(table, row);
      Appends(table + [row], row);
      assert [row][..0] == [];
    }
  }

  lemma {:induction false} Appends(table: Table, row: Row)
    requires row.key.audit.None?
    ensures Upsert(false, table, row) == table + [row]
  {
    if table != [] {
      Appends(table[1..], row);
    }
  }
}
