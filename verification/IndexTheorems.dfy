/** The merged index agrees with a rebuild: what an index represents, and what every reindex keeps. */
module IndexTheorems {
  import opened Wrappers
  import opened Words
  import opened KnowledgeIndex

  datatype Doc = Doc(path: string, tokens: seq<Term>)
  type Docs = map<DocId, Doc>

  ghost predicate DistinctIds(rows: seq<Row>) {
    forall i, j :: 0 <= i < j < |rows| ==> rows[i].id != rows[j].id
  }

  function DocsOf(rows: seq<Row>): Docs {
    if rows == [] then map[]
    else DocsOf(rows[1..])[rows[0].id := Doc(rows[0].path, rows[0].tokens)]
  }

  function LengthsOf(docs: Docs): map<DocId, nat> {
    map id <- docs :: |docs[id].tokens|
  }

  // ---------- what an index represents ----------

  ghost predicate IsPosting(p: Posting, docs: Docs, t: Term) {
    && p.id in docs
    && p.path == docs[p.id].path
    && p.tf == Tf(docs[p.id].tokens, t) > 0
  }

  ghost predicate DistinctPostings(list: seq<Posting>) {
    forall i, j :: 0 <= i < j < |list| ==> list[i].id != list[j].id
  }

  /** `list` holds exactly one posting for every document in which `t` occurs. */
  ghost predicate Lists(list: seq<Posting>, docs: Docs, t: Term) {
    && DistinctPostings(list)
    && forall p :: p in list <==> IsPosting(p, docs, t)
  }

  ghost predicate AllListed(postings: map<Term, seq<Posting>>, docs: Docs) {
    forall t {:trigger Lists(Lookup(postings, t), docs, t)} :: Lists(Lookup(postings, t), docs, t)
  }

  /** Postings and lengths of exactly these documents, and no empty list. */
  ghost predicate Covers(postings: map<Term, seq<Posting>>, docLengths: map<DocId, nat>, docs: Docs) {
    && docLengths == LengthsOf(docs)
    && AllListed(postings, docs)
    && forall t <- postings :: postings[t] != []
  }

  ghost predicate Represents(index: Index, docs: Docs) {
    && Covers(index.postings, index.docLengths, docs)
    && index.docCount == |index.docLengths|
    && index.termCount == |index.postings|
  }

  /** Equal up to the order of the postings and the record of audits. */
  ghost predicate SameIndex(left: Index, right: Index) {
    && left.docCount == right.docCount
    && left.termCount == right.termCount
    && left.docLengths == right.docLengths
    && left.postings.Keys == right.postings.Keys
    && forall t <- left.postings :: multiset(left.postings[t]) == multiset(right.postings[t])
  }

  lemma {:induction false} OnceEach(list: seq<Posting>, p: Posting)
    requires DistinctPostings(list)
    ensures multiset(list)[p] == if p in list then 1 else 0
    decreases |list|
  {
    if list != [] {
      var front, last := list[..|list| - 1], list[|list| - 1];
      assert list == front + [last];
      OnceEach(front, p);
      assert p in list <==> p in front || p == last;
    }
  }

  /** An index is determined, up to posting order, by the documents it represents. */
  lemma RepresentsUniquely(left: Index, right: Index, docs: Docs)
    requires Represents(left, docs) && Represents(right, docs)
    ensures SameIndex(left, right)
  {
    forall t
      ensures multiset(Lookup(left.postings, t)) == multiset(Lookup(right.postings, t))
    {
      var l, r := Lookup(left.postings, t), Lookup(right.postings, t);
      assert Lists(l, docs, t) && Lists(r, docs, t);
      forall p ensures multiset(l)[p] == multiset(r)[p] {
        OnceEach(l, p);
        OnceEach(r, p);
        assert p in l <==> IsPosting(p, docs, t);
        assert p in r <==> IsPosting(p, docs, t);
      }
    }
    forall t ensures t in left.postings <==> t in right.postings {
      assert multiset(Lookup(left.postings, t)) == multiset(Lookup(right.postings, t));
      assert |multiset(Lookup(left.postings, t))| == |Lookup(left.postings, t)|;
      assert |multiset(Lookup(right.postings, t))| == |Lookup(right.postings, t)|;
      assert t in left.postings <==> |Lookup(left.postings, t)| > 0;
      assert t in right.postings <==> |Lookup(right.postings, t)| > 0;
    }
    assert left.postings.Keys == right.postings.Keys;
    forall t <- left.postings
      ensures multiset(left.postings[t]) == multiset(right.postings[t])
    {
      assert multiset(Lookup(left.postings, t)) == multiset(Lookup(right.postings, t));
    }
  }

  // ---------- one reindex ----------

  lemma {:induction false} DocsOfRows(rows: seq<Row>, row: Row)
    requires DistinctIds(rows)
    ensures DocsOf(rows).Keys == Ids(rows)
    ensures row in rows ==> DocsOf(rows)[row.id] == Doc(row.path, row.tokens)
    decreases |rows|
  {
    if rows != [] {
      DocsOfRows(rows[1..], row);
      FirstId(rows);
      if row in rows[1..] {
        assert row.id in Ids(rows[1..]);
      }
    }
  }

  lemma FirstId(rows: seq<Row>)
    requires rows != [] && DistinctIds(rows)
    ensures Ids(rows) == {rows[0].id} + Ids(rows[1..])
    ensures rows[0].id !in Ids(rows[1..])
    ensures forall row :: row in rows <==> row == rows[0] || row in rows[1..]
  {
    assert rows == [rows[0]] + rows[1..];
    forall row | row in rows[1..] ensures row.id != rows[0].id {
      var k :| 0 <= k < |rows[1..]| && rows[1..][k] == row;
      assert rows[k + 1] == row;
    }
  }

  lemma {:induction false} RowOf(rows: seq<Row>, id: DocId)
    requires DistinctIds(rows) && id in DocsOf(rows)
    ensures Row(id, DocsOf(rows)[id].path, DocsOf(rows)[id].tokens) in rows
    decreases |rows|
  {
    if id != rows[0].id {
      RowOf(rows[1..], id);
    }
  }

  lemma {:induction false} DocsOfSnoc(rows: seq<Row>)
    requires DistinctIds(rows) && rows != []
    ensures var last := rows[|rows| - 1];
      DocsOf(rows) == DocsOf(rows[..|rows| - 1])[last.id := Doc(last.path, last.tokens)]
    ensures rows[|rows| - 1].id !in DocsOf(rows[..|rows| - 1])
    decreases |rows|
  {
    var front, last := rows[..|rows| - 1], rows[|rows| - 1];
    DocsOfRows(front, last);
    if |rows| > 1 {
      DocsOfSnoc(rows[1..]);
      assert rows[1..][..|rows| - 2] == front[1..];
    }
  }

  lemma RowPostingLists(row: Row, t: Term)
    ensures Lists(RowPosting(row, t), map[row.id := Doc(row.path, row.tokens)], t)
  {
    assert t in row.tokens <==> Tf(row.tokens, t) > 0;
  }

  /** The concatenation of lists for two disjoint document sets is a list for their union. */
  lemma ListsUnion(left: seq<Posting>, leftDocs: Docs, right: seq<Posting>, rightDocs: Docs, t: Term)
    requires Lists(left, leftDocs, t) && Lists(right, rightDocs, t)
    requires leftDocs.Keys !! rightDocs.Keys
    ensures Lists(left + right, leftDocs + rightDocs, t)
  {
    forall p ensures p in left + right <==> IsPosting(p, leftDocs + rightDocs, t) {
      assert p in left <==> IsPosting(p, leftDocs, t);
      assert p in right <==> IsPosting(p, rightDocs, t);
    }
    forall i, j | 0 <= i < j < |left + right|
      ensures (left + right)[i].id != (left + right)[j].id
    {
      if i < |left| <= j {
        assert left[i] in left && right[j - |left|] in right;
        assert IsPosting(left[i], leftDocs, t) && IsPosting(right[j - |left|], rightDocs, t);
      }
    }
  }

  lemma {:induction false} SurvivingDistinct(list: seq<Posting>, evicted: set<DocId>)
    requires DistinctPostings(list)
    ensures DistinctPostings(Surviving(list, evicted))
    decreases |list|
  {
    if list != [] {
      var front := list[..|list| - 1];
      SurvivingDistinct(front, evicted);
      var kept := Surviving(front, evicted);
      forall i | 0 <= i < |kept| ensures kept[i].id != list[|list| - 1].id {
        assert kept[i] in front;
      }
    }
  }

  lemma SurvivingLists(list: seq<Posting>, docs: Docs, t: Term, evicted: set<DocId>)
    requires Lists(list, docs, t)
    ensures Lists(Surviving(list, evicted), docs - evicted, t)
  {
    SurvivingDistinct(list, evicted);
    forall p ensures p in Surviving(list, evicted) <==> IsPosting(p, docs - evicted, t) {
      assert p in list <==> IsPosting(p, docs, t);
    }
  }

  // ---------- a whole run ----------

  lemma AddedRowLists(postings: map<Term, seq<Posting>>, docs: Docs, row: Row, t: Term)
    requires Lists(Lookup(postings, t), docs, t) && row.id !in docs
    ensures Lists(Lookup(WithRow(postings, row), t), docs[row.id := Doc(row.path, row.tokens)], t)
  {
    var one: Docs := map[row.id := Doc(row.path, row.tokens)];
    RowPostingLists(row, t);
    ListsUnion(Lookup(postings, t), docs, RowPosting(row, t), one, t);
    assert docs + one == docs[row.id := Doc(row.path, row.tokens)];
    assert Lookup(WithRow(postings, row), t) == Lookup(postings, t) + RowPosting(row, t);
  }

  /** One more row of a document that is not covered yet. */
  lemma AddedRowCovers(postings: map<Term, seq<Posting>>, docLengths: map<DocId, nat>, docs: Docs, row: Row)
    requires Covers(postings, docLengths, docs) && row.id !in docs
    ensures Covers(WithRow(postings, row), docLengths[row.id := |row.tokens|],
                   docs[row.id := Doc(row.path, row.tokens)])
  {
    var after := docs[row.id := Doc(row.path, row.tokens)];
    forall t ensures Lists(Lookup(WithRow(postings, row), t), after, t) {
      assert Lists(Lookup(postings, t), docs, t);
      AddedRowLists(postings, docs, row, t);
    }
  }

  /** The rows of a run on top of the documents it carries over. */
  lemma {:induction false} RowsCover(kept: map<Term, seq<Posting>>, lengths: map<DocId, nat>, rows: seq<Row>,
                                     carried: Docs)
    requires Covers(kept, lengths, carried)
    requires DistinctIds(rows) && carried.Keys !! Ids(rows)
    ensures Covers(WithRows(kept, rows), WithLengths(lengths, rows), carried + DocsOf(rows))
    decreases |rows|
  {
    if rows == [] {
      assert carried + DocsOf(rows) == carried;
    } else {
      var front, last := rows[..|rows| - 1], rows[|rows| - 1];
      assert Ids(front) <= Ids(rows) && last.id in Ids(rows);
      RowsCover(kept, lengths, front, carried);
      CarriedSnoc(rows, carried);
      AddedRowCovers(WithRows(kept, front), WithLengths(lengths, front), carried + DocsOf(front), last);
    }
  }

  lemma CarriedSnoc(rows: seq<Row>, carried: Docs)
    requires rows != [] && DistinctIds(rows) && carried.Keys !! Ids(rows)
    ensures var front, last := rows[..|rows| - 1], rows[|rows| - 1];
      && last.id !in carried + DocsOf(front)
      && (carried + DocsOf(front))[last.id := Doc(last.path, last.tokens)] == carried + DocsOf(rows)
  {
    DocsOfSnoc(rows);
    assert rows[|rows| - 1].id in Ids(rows);
  }

  lemma KeptCovers(existing: Index, docs: Docs, evicted: set<DocId>)
    requires Represents(existing, docs)
    ensures Covers(SurvivingPostings(existing.postings, evicted, {}), existing.docLengths - evicted, docs - evicted)
  {
    var kept := SurvivingPostings(existing.postings, evicted, {});
    forall t ensures Lists(Lookup(kept, t), docs - evicted, t) {
      assert Lists(Lookup(existing.postings, t), docs, t);
      SurvivingLists(Lookup(existing.postings, t), docs, t, evicted);
      assert Lookup(kept, t) == Surviving(Lookup(existing.postings, t), evicted);
    }
  }

  /** The merged index, once what it carries over covers the carried documents. */
  lemma MergedRepresents(existing: Option<Index>, rows: seq<Row>, audit: Option<AuditKey>, carried: Docs)
    requires Covers(KeptPostings(existing, rows, audit), KeptLengths(existing, rows, audit), carried)
    requires DistinctIds(rows) && carried.Keys !! Ids(rows)
    ensures Represents(Merged(existing, rows, audit), carried + DocsOf(rows))
  {
    RowsCover(KeptPostings(existing, rows, audit), KeptLengths(existing, rows, audit), rows, carried);
  }

  /** A scoped reindex of `audit` replaces exactly the evicted documents by the run's rows. */
  lemma ScopedReindexRepresents(existing: Index, docs: Docs, rows: seq<Row>, audit: AuditKey)
    requires Represents(existing, docs) && DistinctIds(rows)
    ensures Represents(Merged(Some(existing), rows, Some(audit)),
                       (docs - Evicted(existing, rows, audit)) + DocsOf(rows))
  {
    KeptCovers(existing, docs, Evicted(existing, rows, audit));
    MergedRepresents(Some(existing), rows, Some(audit), docs - Evicted(existing, rows, audit));
  }

  /** A first or global reindex represents the rows it was given. */
  lemma RebuildRepresents(existing: Option<Index>, rows: seq<Row>, audit: Option<AuditKey>)
    requires existing.None? || audit.None?
    requires DistinctIds(rows)
    ensures Represents(Merged(existing, rows, audit), DocsOf(rows))
  {
    var nothing: Docs := map[];
    assert Covers(map[], map[], nothing);
    MergedRepresents(existing, rows, audit, nothing);
    assert nothing + DocsOf(rows) == DocsOf(rows);
  }
}
