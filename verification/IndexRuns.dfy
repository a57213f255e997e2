/** Whole histories of reindexes: the incremental index against a rebuild from nothing. */
module IndexRuns {
  import opened Wrappers
  import opened Words
  import opened KnowledgeIndex
  import opened IndexTheorems

  // ---------- term frequencies add up to the document length ----------

  function TfOf(list: seq<Posting>, id: DocId): nat {
    if list == [] then 0 else (if list[0].id == id then list[0].tf else 0) + TfOf(list[1..], id)
  }

  /** The frequencies recorded for `id`, over the given terms. */
  ghost function TotalTf(postings: map<Term, seq<Posting>>, terms: set<Term>, id: DocId): nat {
    if terms == {} then 0
    else
      var t :| t in terms;
      TfOf(Lookup(postings, t), id) + TotalTf(postings, terms - {t}, id)
  }

  function Within(tokens: seq<Term>, terms: set<Term>): nat {
    if tokens == [] then 0 else (if tokens[0] in terms then 1 else 0) + Within(tokens[1..], terms)
  }

  lemma {:induction false} WithinWithout(tokens: seq<Term>, terms: set<Term>, t: Term)
    requires t in terms
    ensures Within(tokens, terms) == Tf(tokens, t) + Within(tokens, terms - {t})
  {
    if tokens != [] {
      assert tokens == [tokens[0]] + tokens[1..];
      WithinWithout(tokens[1..], terms, t);
    }
  }

  lemma {:induction false} WithinAll(tokens: seq<Term>, terms: set<Term>)
    ensures (forall t <- tokens :: t in terms) ==> Within(tokens, terms) == |tokens|
    ensures (forall t <- tokens :: t !in terms) ==> Within(tokens, terms) == 0
  {
    if tokens != [] {
      WithinAll(tokens[1..], terms);
    }
  }

  lemma {:induction false} TfOfAbsent(list: seq<Posting>, id: DocId)
    requires forall p <- list :: p.id != id
    ensures TfOf(list, id) == 0
  {
    if list != [] {
      assert list[0] in list;
      TfOfAbsent(list[1..], id);
    }
  }

  lemma {:induction false} TfOfPresent(list: seq<Posting>, p: Posting)
    requires DistinctPostings(list) && p in list
    ensures TfOf(list, p.id) == p.tf
  {
    if list[0] == p {
      forall q | q in list[1..] ensures q.id != p.id {
        var k :| 0 <= k < |list[1..]| && list[1..][k] == q;
        assert list[k + 1] == q;
      }
      TfOfAbsent(list[1..], p.id);
    } else {
      var k :| 0 <= k < |list| && list[k] == p;
      assert list[0].id != list[k].id;
      TfOfPresent(list[1..], p);
    }
  }

  /** The frequency a list records for a document is how often the term occurs in it. */
  lemma TfOfIsTf(list: seq<Posting>, docs: Docs, t: Term, id: DocId)
    requires Lists(list, docs, t)
    ensures TfOf(list, id) == if id in docs then Tf(docs[id].tokens, t) else 0
  {
    if id in docs && Tf(docs[id].tokens, t) > 0 {
      var p := Posting(id, docs[id].path, Tf(docs[id].tokens, t));
      assert IsPosting(p, docs, t);
      TfOfPresent(list, p);
    } else {
      forall p | p in list ensures p.id != id {
        assert IsPosting(p, docs, t);
      }
      TfOfAbsent(list, id);
    }
  }

  lemma {:induction false} TotalIsWithin(postings: map<Term, seq<Posting>>, docs: Docs, terms: set<Term>, id: DocId)
    requires AllListed(postings, docs) && id in docs
    ensures TotalTf(postings, terms, id) == Within(docs[id].tokens, terms)
    decreases terms
  {
    if terms == {} {
      WithinAll(docs[id].tokens, terms);
    } else {
      var t :| t in terms && TotalTf(postings, terms, id)
        == TfOf(Lookup(postings, t), id) + TotalTf(postings, terms - {t}, id);
      assert Lists(Lookup(postings, t), docs, t);
      TfOfIsTf(Lookup(postings, t), docs, t, id);
      TotalIsWithin(postings, docs, terms - {t}, id);
      WithinWithout(docs[id].tokens, terms, t);
    }
  }

  /** Conservation: the frequencies recorded for a document add up to its recorded length. */
  lemma TfSums(index: Index, docs: Docs, id: DocId)
    requires Represents(index, docs)
    ensures id in index.docLengths ==>
      TotalTf(index.postings, index.postings.Keys, id) == index.docLengths[id]
  {
    if id in docs {
      TotalIsWithin(index.postings, docs, index.postings.Keys, id);
      forall t | t in docs[id].tokens ensures t in index.postings {
        assert Lists(Lookup(index.postings, t), docs, t);
        assert IsPosting(Posting(id, docs[id].path, Tf(docs[id].tokens, t)), docs, t);
      }
      WithinAll(docs[id].tokens, index.postings.Keys);
    }
  }

  // ---------- sequences of scoped reindexes ----------

  datatype Reindex = Reindex(audit: AuditKey, rows: seq<Row>)

  /** A scoped reindex; one that throws leaves the stored index alone. */
  function Step(existing: Option<Index>, op: Reindex): Option<Index> {
    if Throws(op.rows) then existing else Some(Merged(existing, op.rows, Some(op.audit)))
  }

  function RunAll(ops: seq<Reindex>): Option<Index> {
    if ops == [] then None else Step(RunAll(ops[..|ops| - 1]), ops[|ops| - 1])
  }

  predicate Done(op: Reindex) {
    !Throws(op.rows)
  }

  /** The audit is reindexed in `ops`, without an exception. */
  predicate Redone(ops: seq<Reindex>, audit: AuditKey) {
    exists op <- ops :: Done(op) && op.audit == audit
  }

  /** The rows of every audit's last reindex. */
  function LatestRows(ops: seq<Reindex>): seq<Row> {
    if ops == [] then []
    else (if Done(ops[0]) && !Redone(ops[1..], ops[0].audit) then ops[0].rows else []) + LatestRows(ops[1..])
  }

  /** The ids of one audit's last reindex. */
  function LatestIds(ops: seq<Reindex>, audit: AuditKey): set<DocId> {
    if ops == [] then {}
    else if Redone(ops[1..], audit) then LatestIds(ops[1..], audit)
    else if Done(ops[0]) && ops[0].audit == audit then Ids(ops[0].rows)
    else {}
  }

  ghost predicate Apart(left: Reindex, right: Reindex) {
    left.audit != right.audit ==> Ids(left.rows) !! Ids(right.rows)
  }

  /** Row ids are primary keys: distinct within a run, and of one audit. */
  ghost predicate WellKeyed(ops: seq<Reindex>) {
    && (forall op <- ops :: DistinctIds(op.rows))
    && (forall left <- ops, right <- ops :: Apart(left, right))
  }

  lemma RedoneSnoc(ops: seq<Reindex>, op: Reindex, audit: AuditKey)
    ensures Redone(ops + [op], audit) <==> Redone(ops, audit) || (Done(op) && op.audit == audit)
  {
    if Done(op) && op.audit == audit {
      assert op in ops + [op];
    }
    if Redone(ops, audit) {
      var o :| o in ops && Done(o) && o.audit == audit;
      assert o in ops + [op];
    }
  }

  /** A latest row belongs to a reindex of an audit that is redone. */
  lemma {:induction false} LatestRowOrigin(ops: seq<Reindex>, id: DocId)
    requires id in Ids(LatestRows(ops))
    ensures exists op <- ops :: Done(op) && id in Ids(op.rows)
  {
    var row :| row in LatestRows(ops) && row.id == id;
    if row in LatestRows(ops[1..]) {
      assert id in Ids(LatestRows(ops[1..]));
      LatestRowOrigin(ops[1..], id);
      var op :| op in ops[1..] && Done(op) && id in Ids(op.rows);
      assert op in ops;
    } else {
      assert ops[0] in ops && row in ops[0].rows;
    }
  }

  lemma TailKeyed(ops: seq<Reindex>)
    requires WellKeyed(ops) && ops != []
    ensures WellKeyed(ops[1..]) && WellKeyed(ops[..|ops| - 1])
  {
    assert forall op <- ops[1..] :: op in ops;
    assert forall op <- ops[..|ops| - 1] :: op in ops;
  }

  /** Rows of an audit that is not redone are apart from all the latest rows. */
  lemma LatestApart(ops: seq<Reindex>, op: Reindex)
    requires WellKeyed([op] + ops) && !Redone(ops, op.audit)
    ensures Ids(op.rows) !! Ids(LatestRows(ops))
  {
    forall id | id in Ids(LatestRows(ops)) ensures id !in Ids(op.rows) {
      LatestRowOrigin(ops, id);
      var other :| other in ops && Done(other) && id in Ids(other.rows);
      assert op in [op] + ops && other in [op] + ops;
      assert Apart(op, other);
    }
  }

  lemma DistinctConcat(left: seq<Row>, right: seq<Row>)
    requires DistinctIds(left) && DistinctIds(right) && Ids(left) !! Ids(right)
    ensures DistinctIds(left + right)
  {
    forall i, j | 0 <= i < j < |left + right| ensures (left + right)[i].id != (left + right)[j].id {
      if i < |left| <= j {
        assert left[i].id in Ids(left) && right[j - |left|].id in Ids(right);
      }
    }
  }

  lemma {:induction false} DocsConcat(left: seq<Row>, right: seq<Row>)
    ensures DocsOf(left + right) == DocsOf(right) + DocsOf(left)
  {
    if left == [] {
      assert left + right == right;
    } else {
      assert (left + right)[1..] == left[1..] + right;
      DocsConcat(left[1..], right);
    }
  }

  lemma DocsKeys(rows: seq<Row>)
    requires DistinctIds(rows)
    ensures DocsOf(rows).Keys == Ids(rows)
  {
    if rows != [] {
      DocsOfRows(rows, rows[0]);
    }
  }

  lemma {:induction false} LatestDistinct(ops: seq<Reindex>)
    requires WellKeyed(ops)
    ensures DistinctIds(LatestRows(ops))
  {
    if ops != [] {
      TailKeyed(ops);
      LatestDistinct(ops[1..]);
      if Done(ops[0]) && !Redone(ops[1..], ops[0].audit) {
        assert ops == [ops[0]] + ops[1..];
        LatestApart(ops[1..], ops[0]);
        assert ops[0] in ops;
        DistinctConcat(ops[0].rows, LatestRows(ops[1..]));
      }
    }
  }

  /** The ids of an audit's last reindex are among the latest rows. */
  lemma {:induction false} LatestIdsOrigin(ops: seq<Reindex>, audit: AuditKey, id: DocId)
    requires id in LatestIds(ops, audit)
    ensures exists op <- ops :: op.audit == audit && id in Ids(op.rows)
  {
    if Redone(ops[1..], audit) {
      LatestIdsOrigin(ops[1..], audit, id);
      var op :| op in ops[1..] && op.audit == audit && id in Ids(op.rows);
      assert op in ops;
    } else {
      assert ops[0] in ops;
    }
  }

  lemma {:induction false} LatestOfUndone(ops: seq<Reindex>, audit: AuditKey)
    requires !Redone(ops, audit)
    ensures LatestIds(ops, audit) == {}
  {
    if ops != [] {
      assert ops[0] in ops;
    }
  }

  lemma LatestCons(first: Reindex, rest: seq<Reindex>, audit: AuditKey)
    ensures LatestRows([first] + rest)
      == (if Done(first) && !Redone(rest, first.audit) then first.rows else []) + LatestRows(rest)
    ensures LatestIds([first] + rest, audit)
      == if Redone(rest, audit) then LatestIds(rest, audit)
         else if Done(first) && first.audit == audit then Ids(first.rows) else {}
  {
    assert ([first] + rest)[1..] == rest;
  }

  lemma DocsCons(first: Reindex, rest: seq<Reindex>)
    requires Done(first) && !Redone(rest, first.audit)
    ensures DocsOf(LatestRows([first] + rest)) == DocsOf(LatestRows(rest)) + DocsOf(first.rows)
  {
    LatestCons(first, rest, first.audit);
    DocsConcat(first.rows, LatestRows(rest));
  }

  lemma SkipCons(first: Reindex, rest: seq<Reindex>)
    requires !(Done(first) && !Redone(rest, first.audit))
    ensures LatestRows([first] + rest) == LatestRows(rest)
  {
    LatestCons(first, rest, first.audit);
  }

  lemma MoveAcross(first: Docs, rest: Docs, dropped: set<DocId>, added: Docs)
    requires first.Keys !! rest.Keys && first.Keys !! added.Keys && first.Keys !! dropped
    ensures ((rest - dropped) + added) + first == ((rest + first) - dropped) + added
  {
  }

  lemma DropFirst(first: Docs, rest: Docs, added: Docs)
    requires first.Keys !! rest.Keys
    ensures (rest - {}) + added == ((rest + first) - first.Keys) + added
  {
  }

  lemma FirstApart(first: Reindex, rest: seq<Reindex>, op: Reindex)
    requires WellKeyed([first] + rest + [op]) && first.audit != op.audit
    ensures Ids(first.rows) !! Ids(op.rows)
    ensures Ids(first.rows) !! LatestIds(rest, op.audit)
  {
    var ops := [first] + rest + [op];
    assert first in ops && op in ops;
    assert Apart(first, op);
    forall id | id in LatestIds(rest, op.audit) ensures id !in Ids(first.rows) {
      LatestIdsOrigin(rest, op.audit, id);
      var other :| other in rest && other.audit == op.audit && id in Ids(other.rows);
      assert other in ops;
      assert Apart(first, other);
    }
  }

  ghost predicate SnocHolds(ops: seq<Reindex>, op: Reindex) {
    DocsOf(LatestRows(ops + [op])) == (DocsOf(LatestRows(ops)) - LatestIds(ops, op.audit)) + DocsOf(op.rows)
  }

  lemma PartsKeyed(first: Reindex, rest: seq<Reindex>, op: Reindex)
    requires WellKeyed([first] + rest + [op])
    ensures WellKeyed(rest + [op]) && WellKeyed([first] + rest) && WellKeyed(rest)
    ensures DistinctIds(first.rows) && DistinctIds(op.rows)
  {
    var ops := [first] + rest + [op];
    assert forall o <- rest + [op] :: o in ops;
    assert forall o <- [first] + rest :: o in ops;
    assert forall o <- rest :: o in ops;
    assert first in ops && op in ops;
  }

  /** The step of LatestSnoc when the first reindex is still its audit's latest. */
  lemma SnocLatestFirst(first: Reindex, rest: seq<Reindex>, op: Reindex)
    requires WellKeyed([first] + rest + [op]) && Done(op)
    requires Done(first) && !Redone(rest, first.audit)
    requires SnocHolds(rest, op)
    ensures SnocHolds([first] + rest, op)
  {
    var ops := [first] + rest;
    assert ops + [op] == [first] + (rest + [op]);
    PartsKeyed(first, rest, op);
    LatestApart(rest, first);
    LatestDistinct(rest);
    DocsKeys(LatestRows(rest));
    DocsKeys(first.rows);
    DocsKeys(op.rows);
    DocsCons(first, rest);
    LatestCons(first, rest, op.audit);
    RedoneSnoc(rest, op, first.audit);
    LatestOfUndone(rest, first.audit);
    var f, r, o := DocsOf(first.rows), DocsOf(LatestRows(rest)), DocsOf(op.rows);
    if first.audit == op.audit {
      SkipCons(first, rest + [op]);
      DropFirst(f, r, o);
    } else {
      DocsCons(first, rest + [op]);
      FirstApart(first, rest, op);
      if !Redone(rest, op.audit) {
        LatestOfUndone(rest, op.audit);
      }
      MoveAcross(f, r, LatestIds(rest, op.audit), o);
    }
  }

  /** The step of LatestSnoc when the first reindex is already superseded, or threw. */
  lemma SnocStaleFirst(first: Reindex, rest: seq<Reindex>, op: Reindex)
    requires Done(op) && !(Done(first) && !Redone(rest, first.audit))
    requires SnocHolds(rest, op)
    ensures SnocHolds([first] + rest, op)
  {
    assert [first] + rest + [op] == [first] + (rest + [op]);
    RedoneSnoc(rest, op, first.audit);
    SkipCons(first, rest);
    SkipCons(first, rest + [op]);
    LatestCons(first, rest, op.audit);
    if !Redone(rest, op.audit) {
      LatestOfUndone(rest, op.audit);
    }
  }

  /** One more reindex drops its audit's rows from the latest ones and puts its own there. */
  lemma {:induction false} LatestSnoc(ops: seq<Reindex>, op: Reindex)
    requires WellKeyed(ops + [op]) && Done(op)
    ensures SnocHolds(ops, op)
    decreases |ops|
  {
    if ops == [] {
      assert ops + [op] == [op] + [];
      LatestCons(op, [], op.audit);
      assert op.rows + [] == op.rows;
    } else {
      var first, rest := ops[0], ops[1..];
      assert ops == [first] + rest;
      PartsKeyed(first, rest, op);
      LatestSnoc(rest, op);
      if Done(first) && !Redone(rest, first.audit) {
        SnocLatestFirst(first, rest, op);
      } else {
        SnocStaleFirst(first, rest, op);
      }
    }
  }

  lemma {:induction false} LatestSnocThrown(ops: seq<Reindex>, op: Reindex, audit: AuditKey)
    requires !Done(op)
    ensures LatestRows(ops + [op]) == LatestRows(ops)
    ensures LatestIds(ops + [op], audit) == LatestIds(ops, audit)
    decreases |ops|
  {
    if ops == [] {
      assert ops + [op] == [op] + [];
      LatestCons(op, [], audit);
    } else {
      var first, rest := ops[0], ops[1..];
      assert ops == [first] + rest && ops + [op] == [first] + (rest + [op]);
      LatestSnocThrown(rest, op, audit);
      LatestCons(first, rest, audit);
      LatestCons(first, rest + [op], audit);
      RedoneSnoc(rest, op, first.audit);
      RedoneSnoc(rest, op, audit);
    }
  }

  lemma {:induction false} LatestIdsSnoc(ops: seq<Reindex>, op: Reindex, audit: AuditKey)
    requires Done(op)
    ensures LatestIds(ops + [op], audit) == if op.audit == audit then Ids(op.rows) else LatestIds(ops, audit)
    decreases |ops|
  {
    if ops == [] {
      assert ops + [op] == [op] + [];
      LatestCons(op, [], audit);
    } else {
      var first, rest := ops[0], ops[1..];
      assert ops == [first] + rest && ops + [op] == [first] + (rest + [op]);
      LatestIdsSnoc(rest, op, audit);
      LatestCons(first, rest, audit);
      LatestCons(first, rest + [op], audit);
      RedoneSnoc(rest, op, audit);
    }
  }

  // ---------- the fold theorem ----------

  function Recorded(auditDocs: map<AuditKey, seq<DocId>>, audit: AuditKey): set<DocId> {
    if audit in auditDocs then set id <- auditDocs[audit] else {}
  }

  /** The stored index represents the latest rows, and records each audit's ids. */
  ghost predicate Tracks(index: Option<Index>, ops: seq<Reindex>) {
    && (index.None? ==> LatestRows(ops) == [])
    && (index.None? <==> forall op <- ops :: !Done(op))
    && (index.Some? ==> Represents(index.value, DocsOf(LatestRows(ops))))
    && (index.Some? ==> forall audit :: Recorded(index.value.auditDocs, audit) == LatestIds(ops, audit))
  }

  lemma RecordedAfter(before: map<AuditKey, seq<DocId>>, rows: seq<Row>, audit: AuditKey, other: AuditKey)
    ensures Recorded(before[audit := RowIds(rows)], other)
      == if other == audit then Ids(rows) else Recorded(before, other)
  {
    var ids := RowIds(rows);
    forall id ensures id in ids <==> id in Ids(rows) {
      if id in Ids(rows) {
        var row :| row in rows && row.id == id;
        var k :| 0 <= k < |rows| && rows[k] == row;
        assert ids[k] == id;
      }
    }
  }

  lemma MergedRecords(existing: Option<Index>, rows: seq<Row>, audit: AuditKey, other: AuditKey)
    ensures Recorded(Merged(existing, rows, Some(audit)).auditDocs, other)
      == if other == audit then Ids(rows) else Recorded(DocsBefore(existing), other)
  {
    RecordedAfter(DocsBefore(existing), rows, audit, other);
  }

  lemma EvictedIs(existing: Index, rows: seq<Row>, audit: AuditKey)
    ensures Evicted(existing, rows, audit) == Recorded(existing.auditDocs, audit) + Ids(rows)
  {
  }

  lemma OverwrittenDocs(docs: Docs, recorded: set<DocId>, rows: seq<Row>)
    requires DistinctIds(rows)
    ensures (docs - (recorded + Ids(rows))) + DocsOf(rows) == (docs - recorded) + DocsOf(rows)
  {
    DocsKeys(rows);
  }

  lemma StepRepresents(index: Option<Index>, ops: seq<Reindex>, op: Reindex)
    requires Tracks(index, ops) && WellKeyed(ops + [op]) && Done(op)
    ensures Represents(Merged(index, op.rows, Some(op.audit)), DocsOf(LatestRows(ops + [op])))
  {
    LatestSnoc(ops, op);
    assert op in ops + [op];
    var docs := DocsOf(LatestRows(ops));
    if index.None? {
      RebuildRepresents(None, op.rows, Some(op.audit));
      NothingBefore(LatestIds(ops, op.audit), op.rows);
    } else {
      ScopedReindexRepresents(index.value, docs, op.rows, op.audit);
      EvictedIs(index.value, op.rows, op.audit);
      assert Recorded(index.value.auditDocs, op.audit) == LatestIds(ops, op.audit);
      OverwrittenDocs(docs, LatestIds(ops, op.audit), op.rows);
    }
  }

  lemma NothingBefore(dropped: set<DocId>, rows: seq<Row>)
    ensures (DocsOf([]) - dropped) + DocsOf(rows) == DocsOf(rows)
  {
  }

  lemma {:induction false} UndoneIds(ops: seq<Reindex>, audit: AuditKey)
    requires forall op <- ops :: !Done(op)
    ensures LatestIds(ops, audit) == {}
  {
    LatestOfUndone(ops, audit);
  }

  lemma StepRecords(index: Option<Index>, ops: seq<Reindex>, op: Reindex, audit: AuditKey)
    requires Tracks(index, ops) && Done(op)
    ensures Recorded(Merged(index, op.rows, Some(op.audit)).auditDocs, audit) == LatestIds(ops + [op], audit)
  {
    MergedRecords(index, op.rows, op.audit, audit);
    LatestIdsSnoc(ops, op, audit);
    if index.None? {
      UndoneIds(ops, audit);
    }
  }

  lemma StepTracks(index: Option<Index>, ops: seq<Reindex>, op: Reindex)
    requires Tracks(index, ops) && WellKeyed(ops + [op])
    ensures Tracks(Step(index, op), ops + [op])
  {
    assert op in ops + [op] && forall o <- ops :: o in ops + [op];
    if Done(op) {
      StepRepresents(index, ops, op);
      forall audit
        ensures Recorded(Merged(index, op.rows, Some(op.audit)).auditDocs, audit) == LatestIds(ops + [op], audit)
      {
        StepRecords(index, ops, op, audit);
      }
    } else {
      LatestSnocThrown(ops, op, op.audit);
      if index.Some? {
        forall audit ensures Recorded(index.value.auditDocs, audit) == LatestIds(ops + [op], audit) {
          LatestSnocThrown(ops, op, audit);
        }
      }
    }
  }

  lemma {:induction false} RunTracks(ops: seq<Reindex>)
    requires WellKeyed(ops)
    ensures Tracks(RunAll(ops), ops)
    decreases |ops|
  {
    if ops != [] {
      var front, last := ops[..|ops| - 1], ops[|ops| - 1];
      assert ops == front + [last];
      TailKeyed(ops);
      RunTracks(front);
      StepTracks(RunAll(front), front, last);
    }
  }

  lemma {:induction false} LatestNeverThrows(ops: seq<Reindex>)
    ensures !Throws(LatestRows(ops))
  {
    if ops != [] {
      LatestNeverThrows(ops[1..]);
    }
  }

  lemma SameRowsSameDocs(left: seq<Row>, right: seq<Row>)
    requires DistinctIds(left) && DistinctIds(right)
    requires forall row :: row in left <==> row in right
    ensures DocsOf(left) == DocsOf(right)
  {
    forall id ensures id in DocsOf(left) <==> id in DocsOf(right)
      ensures id in DocsOf(left) ==> DocsOf(left)[id] == DocsOf(right)[id]
    {
      if id in DocsOf(left) {
        RowOf(left, id);
        DocsOfRows(right, Row(id, DocsOf(left)[id].path, DocsOf(left)[id].tokens));
      }
      if id in DocsOf(right) {
        RowOf(right, id);
        DocsOfRows(left, Row(id, DocsOf(right)[id].path, DocsOf(right)[id].tokens));
      }
    }
  }

  /** After any sequence of scoped reindexes the index is, up to posting order, the one built
      from nothing on every audit's latest rows, in whatever order they are read. */
  lemma IncrementalEqualsRebuild(ops: seq<Reindex>, rows: seq<Row>)
    requires WellKeyed(ops)
    requires DistinctIds(rows) && forall row :: row in rows <==> row in LatestRows(ops)
    ensures RunAll(ops).None? <==> forall op <- ops :: !Done(op)
    ensures !Throws(rows)
    ensures RunAll(ops).Some? ==> SameIndex(RunAll(ops).value, Merged(None, rows, None))
    ensures RunAll(ops).Some? ==> Represents(RunAll(ops).value, DocsOf(rows))
  {
    RunTracks(ops);
    LatestNeverThrows(ops);
    LatestDistinct(ops);
    SameRowsSameDocs(rows, LatestRows(ops));
    RebuildRepresents(None, rows, None);
    if RunAll(ops).Some? {
      RepresentsUniquely(RunAll(ops).value, Merged(None, rows, None), DocsOf(rows));
    }
  }

  // ---------- what a global reindex forgets ----------

  lemma RepresentsKeys(index: Index, docs: Docs)
    requires Represents(index, docs)
    ensures docs.Keys == index.docLengths.Keys
  {
    assert LengthsOf(docs).Keys == docs.Keys;
  }

  lemma SameKeysIffForgotten(docs: Docs, former: set<DocId>, evicted: set<DocId>, added: Docs)
    requires former <= docs.Keys
    requires evicted * docs.Keys <= former + added.Keys && added.Keys <= evicted
    ensures former <= evicted ==> (docs - evicted) + added == (docs - former) + added
    ensures former <= evicted <== ((docs - evicted) + added).Keys == ((docs - former) + added).Keys
  {
    if former <= evicted {
      forall id | id in docs && id !in added ensures id in evicted <==> id in former {
        assert id in evicted ==> id in evicted * docs.Keys;
      }
      assert (docs - evicted) + added == (docs - former) + added;
    } else {
      var id :| id in former && id !in evicted;
      assert id in (docs - evicted) + added;
      assert id !in (docs - former) + added;
    }
  }

  lemma SameDocsIffForgotten(index: Index, docs: Docs, former: set<DocId>, evicted: set<DocId>, added: Docs)
    requires former <= docs.Keys
    requires evicted * docs.Keys <= former + added.Keys && added.Keys <= evicted
    requires Represents(index, (docs - evicted) + added)
    ensures Represents(index, (docs - former) + added) <==> former <= evicted
  {
    SameKeysIffForgotten(docs, former, evicted, added);
    var actual, wanted := (docs - evicted) + added, (docs - former) + added;
    RepresentsKeys(index, actual);
    if Represents(index, wanted) {
      RepresentsKeys(index, wanted);
    }
  }

  /** A scoped reindex is exact if and only if the former documents it does not rewrite are recorded. */
  lemma ScopedReindexIsExact(existing: Index, docs: Docs, former: set<DocId>, rows: seq<Row>, audit: AuditKey)
    requires Represents(existing, docs) && DistinctIds(rows)
    requires former <= docs.Keys && Recorded(existing.auditDocs, audit) * docs.Keys <= former
    ensures Represents(Merged(Some(existing), rows, Some(audit)), (docs - former) + DocsOf(rows))
      <==> former <= Recorded(existing.auditDocs, audit) + Ids(rows)
  {
    EvictedIs(existing, rows, audit);
    ScopedReindexRepresents(existing, docs, rows, audit);
    DocsKeys(rows);
    SameDocsIffForgotten(Merged(Some(existing), rows, Some(audit)), docs, former,
                         Evicted(existing, rows, audit), DocsOf(rows));
  }

  /** `id` is indexed, and no audit records it. */
  ghost predicate Orphan(index: Index, id: DocId) {
    id in index.docLengths && forall audit :: id !in Recorded(index.auditDocs, audit)
  }

  lemma OrphanLength(existing: Index, rows: seq<Row>, audit: AuditKey, id: DocId)
    requires Orphan(existing, id) && id !in Ids(rows)
    ensures id in WithLengths(KeptLengths(Some(existing), rows, Some(audit)), rows)
  {
    EvictedIs(existing, rows, audit);
    assert id !in Evicted(existing, rows, audit);
    LengthsStay(KeptLengths(Some(existing), rows, Some(audit)), rows, id);
  }

  lemma {:induction false} LengthsStay(kept: map<DocId, nat>, rows: seq<Row>, id: DocId)
    requires id in kept
    ensures id in WithLengths(kept, rows)
    decreases |rows|
  {
    if rows != [] {
      LengthsStay(kept, rows[..|rows| - 1], id);
    }
  }

  /** A document that no audit records stays so under every scoped reindex that does not rewrite it. */
  lemma OrphanStays(existing: Index, op: Reindex, id: DocId)
    requires Orphan(existing, id) && id !in Ids(op.rows)
    ensures Step(Some(existing), op).Some? && Orphan(Step(Some(existing), op).value, id)
  {
    if Done(op) {
      OrphanLength(existing, op.rows, op.audit, id);
      forall audit ensures id !in Recorded(Merged(Some(existing), op.rows, Some(op.audit)).auditDocs, audit) {
        MergedRecords(Some(existing), op.rows, op.audit, audit);
      }
    }
  }

  function RunFrom(existing: Option<Index>, ops: seq<Reindex>): Option<Index>
    decreases |ops|
  {
    if ops == [] then existing else RunFrom(Step(existing, ops[0]), ops[1..])
  }

  lemma {:induction false} OrphanStaysForEver(existing: Index, ops: seq<Reindex>, id: DocId)
    requires Orphan(existing, id)
    requires forall op <- ops :: id !in Ids(op.rows)
    ensures RunFrom(Some(existing), ops).Some? && Orphan(RunFrom(Some(existing), ops).value, id)
    decreases |ops|
  {
    if ops != [] {
      assert ops[0] in ops;
      OrphanStays(existing, ops[0], id);
      OrphanStaysForEver(Step(Some(existing), ops[0]).value, ops[1..], id);
    }
  }

  /** After a global reindex no scoped one removes a document that has since been deleted. */
  lemma GlobalReindexLeavesOrphans(rows: seq<Row>, ops: seq<Reindex>, id: DocId)
    requires DistinctIds(rows) && id in Ids(rows)
    requires forall op <- ops :: id !in Ids(op.rows)
    ensures var after := RunFrom(Some(Merged(None, rows, None)), ops);
      after.Some? && id in after.value.docLengths
  {
    RebuildRepresents(None, rows, None);
    DocsKeys(rows);
    OrphanStaysForEver(Merged(None, rows, None), ops, id);
  }
}
