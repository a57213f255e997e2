/** Search over the stored artifacts: from their words to the hits, through any history of reindexes. */
module ArtifactSearch {
  import opened Words
  import opened KnowledgeIndex
  import opened IndexTheorems
  import opened IndexRuns
  import opened Search
  import opened SearchTheorems

  /** A scoped reindex of an audit's artifacts. */
  datatype StoredReindex = StoredReindex(audit: AuditKey, artifacts: seq<Artifact>)

  predicate Succeeds(op: StoredReindex) {
    !HoldInherited(op.artifacts)
  }

  predicate Superseded(ops: seq<StoredReindex>, audit: AuditKey) {
    exists op <- ops :: Succeeds(op) && op.audit == audit
  }

  /** The artifacts of every audit's last successful reindex. */
  function LatestArtifacts(ops: seq<StoredReindex>): seq<Artifact> {
    if ops == [] then []
    else
      (if Succeeds(ops[0]) && !Superseded(ops[1..], ops[0].audit) then ops[0].artifacts else [])
      + LatestArtifacts(ops[1..])
  }

  ghost predicate DistinctArtifacts(artifacts: seq<Artifact>) {
    forall i, j :: 0 <= i < j < |artifacts| ==> artifacts[i].id != artifacts[j].id
  }

  ghost predicate OtherArtifacts(left: StoredReindex, right: StoredReindex) {
    left.audit != right.audit ==> forall a <- left.artifacts, b <- right.artifacts :: a.id != b.id
  }

  /** Artifact ids are primary keys: distinct within a run, and of one audit. */
  ghost predicate StoredKeys(ops: seq<StoredReindex>) {
    && (forall op <- ops :: DistinctArtifacts(op.artifacts))
    && (forall left <- ops, right <- ops :: OtherArtifacts(left, right))
  }

  /** How often the words of a query occur in a text: those of 2 to 40 characters that are no stopwords. */
  function Occurrences(text: seq<Term>, query: seq<Term>): nat {
    if query == [] then 0
    else
      var w := query[|query| - 1];
      Occurrences(text, query[..|query| - 1]) + if 2 <= |w| <= 40 && !IsStopword(w) then multiset(text)[w] else 0
  }

  // ---------- the same reindexes, tokenized ----------

  function Tokenized(op: StoredReindex): Reindex {
    Reindex(op.audit, TokenRows(op.artifacts))
  }

  function AllTokenized(ops: seq<StoredReindex>): seq<Reindex> {
    if ops == [] then [] else [Tokenized(ops[0])] + AllTokenized(ops[1..])
  }

  lemma {:induction false} TokenizedAt(ops: seq<StoredReindex>)
    ensures |AllTokenized(ops)| == |ops|
    ensures forall i :: 0 <= i < |ops| ==> AllTokenized(ops)[i] == Tokenized(ops[i])
  {
    if ops != [] {
      TokenizedAt(ops[1..]);
    }
  }

  lemma TokenizedDone(op: StoredReindex)
    ensures Done(Tokenized(op)) <==> Succeeds(op)
  {
    ThrowsOn(op.artifacts);
  }

  lemma TokenizedRedone(ops: seq<StoredReindex>, audit: AuditKey)
    ensures Redone(AllTokenized(ops), audit) <==> Superseded(ops, audit)
  {
    TokenizedAt(ops);
    var rows := AllTokenized(ops);
    forall i | 0 <= i < |ops| ensures Done(rows[i]) <==> Succeeds(ops[i]) {
      TokenizedDone(ops[i]);
    }
    if op :| op in rows && Done(op) && op.audit == audit {
      var i :| 0 <= i < |rows| && rows[i] == op;
      assert ops[i] in ops;
    }
    if op :| op in ops && Succeeds(op) && op.audit == audit {
      var i :| 0 <= i < |ops| && ops[i] == op;
      assert rows[i] in rows;
    }
  }

  lemma TokenRowsConcat(left: seq<Artifact>, right: seq<Artifact>)
    ensures TokenRows(left + right) == TokenRows(left) + TokenRows(right)
  {
  }

  lemma {:induction false} LatestTokenized(ops: seq<StoredReindex>)
    ensures LatestRows(AllTokenized(ops)) == TokenRows(LatestArtifacts(ops))
  {
    if ops != [] {
      LatestTokenized(ops[1..]);
      TokenizedDone(ops[0]);
      TokenizedRedone(ops[1..], ops[0].audit);
      assert AllTokenized(ops)[1..] == AllTokenized(ops[1..]);
      TokenRowsConcat(ops[0].artifacts, LatestArtifacts(ops[1..]));
    } else {
      assert TokenRows([]) == [];
    }
  }

  lemma TokenizedApart(left: StoredReindex, right: StoredReindex)
    requires OtherArtifacts(left, right)
    ensures Apart(Tokenized(left), Tokenized(right))
  {
    forall id | id in Ids(TokenRows(left.artifacts)) && id in Ids(TokenRows(right.artifacts))
      ensures left.audit == right.audit
    {
      var i :| 0 <= i < |left.artifacts| && TokenRows(left.artifacts)[i].id == id;
      var j :| 0 <= j < |right.artifacts| && TokenRows(right.artifacts)[j].id == id;
      assert left.artifacts[i] in left.artifacts && right.artifacts[j] in right.artifacts;
    }
  }

  lemma TokenizedKeyed(ops: seq<StoredReindex>)
    requires StoredKeys(ops)
    ensures WellKeyed(AllTokenized(ops))
  {
    TokenizedAt(ops);
    var rows := AllTokenized(ops);
    forall op | op in rows ensures DistinctIds(op.rows) {
      var i :| 0 <= i < |rows| && rows[i] == op;
      assert DistinctArtifacts(ops[i].artifacts);
    }
    forall left, right | left in rows && right in rows ensures Apart(left, right) {
      var i :| 0 <= i < |rows| && rows[i] == left;
      var j :| 0 <= j < |rows| && rows[j] == right;
      assert OtherArtifacts(ops[i], ops[j]);
      TokenizedApart(ops[i], ops[j]);
    }
  }

  // ---------- scores ----------

  /** The brute-force score of a tokenized artifact counts the words of the artifact itself. */
  lemma {:induction false} BruteIsOccurrences(docs: Docs, a: Artifact, query: seq<Term>)
    requires a.id in docs && docs[a.id] == Doc(a.path, TokenRow(a).tokens)
    ensures Brute(docs, query, a.id) == Occurrences(a.words, query)
    decreases |query|
  {
    if query != [] {
      BruteIsOccurrences(docs, a, query[..|query| - 1]);
      TokenRowCounts(a, query[|query| - 1]);
    }
  }

  lemma ArtifactDoc(artifacts: seq<Artifact>, a: Artifact)
    requires DistinctIds(TokenRows(artifacts)) && a in artifacts
    ensures a.id in DocsOf(TokenRows(artifacts))
    ensures DocsOf(TokenRows(artifacts))[a.id] == Doc(a.path, TokenRow(a).tokens)
  {
    var i :| 0 <= i < |artifacts| && artifacts[i] == a;
    assert TokenRows(artifacts)[i] in TokenRows(artifacts);
    DocsOfRows(TokenRows(artifacts), TokenRow(a));
  }

  lemma DocArtifact(artifacts: seq<Artifact>, id: DocId) returns (a: Artifact)
    requires DistinctIds(TokenRows(artifacts)) && id in DocsOf(TokenRows(artifacts))
    ensures a in artifacts && a.id == id
    ensures DocsOf(TokenRows(artifacts))[id] == Doc(a.path, TokenRow(a).tokens)
  {
    var rows := TokenRows(artifacts);
    RowOf(rows, id);
    var row := Row(id, DocsOf(rows)[id].path, DocsOf(rows)[id].tokens);
    var i :| 0 <= i < |rows| && rows[i] == row;
    a := artifacts[i];
  }

  // ---------- the end-to-end theorem ----------

  /** A hit is an artifact with its path, scored by how often the query words occur in it. */
  ghost predicate IsHitOf(h: Hit, a: Artifact, query: seq<Term>) {
    a.id == h.id && a.path == h.path && h.score == Occurrences(a.words, query) > 0
  }

  /** What a search answers about the artifacts: the ten that match best. */
  ghost predicate ScansArtifacts(hits: seq<Hit>, artifacts: seq<Artifact>, query: seq<Term>) {
    && |hits| <= 10
    && (forall i, j :: 0 <= i < j < |hits| ==> hits[i].id != hits[j].id && hits[i].score >= hits[j].score)
    && (forall h <- hits :: exists a <- artifacts :: IsHitOf(h, a, query))
    && (forall a <- artifacts :: Occurrences(a.words, query) > 0 && !Listed(hits, a.id) ==>
          |hits| == 10 && forall h <- hits :: Occurrences(a.words, query) <= h.score)
  }

  lemma AgreementScans(hits: seq<Hit>, artifacts: seq<Artifact>, query: seq<Term>)
    requires DistinctIds(TokenRows(artifacts)) && AgreesWithScan(hits, DocsOf(TokenRows(artifacts)), query)
    ensures ScansArtifacts(hits, artifacts, query)
  {
    var docs := DocsOf(TokenRows(artifacts));
    forall h | h in hits ensures exists a <- artifacts :: IsHitOf(h, a, query) {
      var a := DocArtifact(artifacts, h.id);
      BruteIsOccurrences(docs, a, query);
      assert IsHitOf(h, a, query);
    }
    forall a | a in artifacts && Occurrences(a.words, query) > 0 && !Listed(hits, a.id)
      ensures |hits| == 10 && forall h <- hits :: Occurrences(a.words, query) <= h.score
    {
      ArtifactDoc(artifacts, a);
      BruteIsOccurrences(docs, a, query);
    }
  }

  lemma TokenizedSource(ops: seq<StoredReindex>)
    ensures forall op <- AllTokenized(ops) :: exists artifacts :: op.rows == TokenRows(artifacts)
  {
    TokenizedAt(ops);
    forall op | op in AllTokenized(ops) ensures exists artifacts :: op.rows == TokenRows(artifacts) {
      var i :| 0 <= i < |ops| && AllTokenized(ops)[i] == op;
      assert op.rows == TokenRows(ops[i].artifacts);
    }
  }

  /** The query's filter changes nothing after any reindexes. */
  lemma FilterLosesNothing(ops: seq<Reindex>, words: seq<Term>)
    requires WellKeyed(ops) && forall op <- ops :: exists artifacts :: op.rows == TokenRows(artifacts)
    ensures TopHits(RunAll(ops), TokenizeQuery(words)) == TopHits(RunAll(ops), words)
  {
    RunTracks(ops);
    if RunAll(ops).Some? {
      LatestAreIndexed(ops);
      LatestDistinct(ops);
      DocsAreIndexed(LatestRows(ops));
      QueryFilterLosesNothing(RunAll(ops).value, DocsOf(LatestRows(ops)), words);
    }
  }

  /**
   End to end: after any sequence of scoped reindexes, a search answers with the ten artifacts, among those of
   every audit's last successful reindex, in which the words of the query occur most often.
   */
  lemma SearchScansArtifacts(ops: seq<StoredReindex>, words: seq<Term>)
    requires StoredKeys(ops)
    ensures ScansArtifacts(TopHits(RunAll(AllTokenized(ops)), TokenizeQuery(words)), LatestArtifacts(ops), words)
  {
    var rows := AllTokenized(ops);
    TokenizedKeyed(ops);
    TokenizedSource(ops);
    LatestTokenized(ops);
    LatestDistinct(rows);
    SearchAfterReindexes(rows, words);
    FilterLosesNothing(rows, words);
    AgreementScans(TopHits(RunAll(rows), words), LatestArtifacts(ops), words);
  }

  // ---------- when a search throws ----------

  lemma IndexedThrows(index: Index, rows: seq<Row>)
    requires Represents(index, DocsOf(rows)) && DistinctIds(rows) && INHERITED in index.postings
    ensures Throws(rows)
  {
    var docs := DocsOf(rows);
    assert Lists(Lookup(index.postings, INHERITED), docs, INHERITED);
    var p := index.postings[INHERITED][0];
    assert IsPosting(p, docs, INHERITED);
    RowOf(rows, p.id);
    assert INHERITED in Row(p.id, docs[p.id].path, docs[p.id].tokens).tokens;
  }

  lemma SomeSucceeds(ops: seq<StoredReindex>)
    ensures (exists op <- AllTokenized(ops) :: Done(op)) <==> exists op <- ops :: Succeeds(op)
  {
    TokenizedAt(ops);
    var rows := AllTokenized(ops);
    if op :| op in rows && Done(op) {
      var i :| 0 <= i < |rows| && rows[i] == op;
      TokenizedDone(ops[i]);
      assert ops[i] in ops;
    }
    if op :| op in ops && Succeeds(op) {
      var i :| 0 <= i < |ops| && ops[i] == op;
      TokenizedDone(op);
      assert rows[i] in rows;
    }
  }

  /** After any reindexes a search throws exactly on the inherited word, once some reindex has succeeded. */
  lemma SearchThrows(ops: seq<StoredReindex>, words: seq<Term>)
    requires StoredKeys(ops)
    ensures Breaks(RunAll(AllTokenized(ops)), TokenizeQuery(words))
      <==> INHERITED in words && exists op <- ops :: Succeeds(op)
  {
    var rows := AllTokenized(ops);
    TokenizedKeyed(ops);
    SomeSucceeds(ops);
    LatestDistinct(rows);
    LatestNeverThrows(rows);
    IncrementalEqualsRebuild(rows, LatestRows(rows));
    assert |INHERITED| == 11;
    if RunAll(rows).Some? && INHERITED in RunAll(rows).value.postings {
      IndexedThrows(RunAll(rows).value, LatestRows(rows));
    }
  }
}
