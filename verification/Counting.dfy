/** Counting the rows of a table that satisfy a condition. */
module Counting {
  ghost function Matching<V(!new)>(rows: map<nat, V>, p: V -> bool): set<nat> {
    set k <- rows | p(rows[k])
  }

  ghost function CountOf<V(!new)>(rows: map<nat, V>, p: V -> bool): nat {
    |Matching(rows, p)|
  }

  lemma CountInsert<V(!new)>(rows: map<nat, V>, k: nat, row: V, p: V -> bool)
    requires k !in rows
    ensures CountOf(rows[k := row], p) == CountOf(rows, p) + if p(row) then 1 else 0
  {
    var after := Matching(rows[k := row], p);
    if p(row) {
      assert after == Matching(rows, p) + {k};
    } else {
      assert after == Matching(rows, p);
    }
  }

  lemma CountUpdate<V(!new)>(rows: map<nat, V>, k: nat, row: V, p: V -> bool)
    requires k in rows
    ensures CountOf(rows[k := row], p) + (if p(rows[k]) then 1 else 0) == CountOf(rows, p) + if p(row) then 1 else 0
  {
    var before, after := Matching(rows, p), Matching(rows[k := row], p);
    assert before - {k} == after - {k};
    assert before == if p(rows[k]) then (before - {k}) + {k} else before - {k};
    assert after == if p(row) then (after - {k}) + {k} else after - {k};
  }

  lemma CountSame<V(!new)>(rows: map<nat, V>, after: map<nat, V>, p: V -> bool)
    requires after.Keys == rows.Keys
    requires forall k <- rows :: p(after[k]) == p(rows[k])
    ensures CountOf(after, p) == CountOf(rows, p)
  {
    assert Matching(after, p) == Matching(rows, p);
  }

  /** New rows that do not satisfy `p` do not count. */
  lemma CountExtend<V(!new)>(rows: map<nat, V>, after: map<nat, V>, p: V -> bool)
    requires rows.Keys <= after.Keys
    requires forall k <- rows :: p(after[k]) == p(rows[k])
    requires forall k <- after :: k !in rows ==> !p(after[k])
    ensures CountOf(after, p) == CountOf(rows, p)
  {
    assert Matching(after, p) == Matching(rows, p);
  }

  /** At most one row satisfies `p` when any two that do are the same. */
  lemma CountAtMostOne<V(!new)>(rows: map<nat, V>, p: V -> bool)
    requires forall j <- rows, k <- rows :: p(rows[j]) && p(rows[k]) ==> j == k
    ensures CountOf(rows, p) <= 1
    ensures CountOf(rows, p) == 1 <==> exists k <- rows :: p(rows[k])
  {
    if k :| k in rows && p(rows[k]) {
      assert Matching(rows, p) == {k};
    } else {
      assert Matching(rows, p) == {};
    }
  }

  lemma FreshId(ids: set<nat>)
    ensures exists id: nat :: id !in ids
  {
    var bound := IdBound(ids);
    assert bound !in ids;
  }

  lemma {:induction false} IdBound(ids: set<nat>) returns (bound: nat)
    ensures forall id <- ids :: id < bound
  {
    if ids == {} {
      return 0;
    }
    var id :| id in ids;
    var rest := IdBound(ids - {id});
    bound := if rest > id then rest else id + 1;
    assert forall other <- ids :: other == id || other in ids - {id};
  }
}
