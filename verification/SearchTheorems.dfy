/** Search agrees with a brute-force scan of the documents. */
module SearchTheorems {
  import opened Wrappers
  import opened Words
  import opened KnowledgeIndex
  import opened IndexTheorems
  import opened IndexRuns
  import opened Search

  /** The reference score: how often the query tokens occur in the document, one by one. */
  function Brute(docs: Docs, query: seq<Term>, id: DocId): nat {
    if query == [] then 0
    else Brute(docs, query[..|query| - 1], id) + (if id in docs then Tf(docs[id].tokens, query[|query| - 1]) else 0)
  }

  // ---------- the score table holds the brute-force scores ----------

  ghost predicate PathsMatch(scores: seq<Hit>, docs: Docs) {
    forall h <- scores :: h.id in docs && h.path == docs[h.id].path
  }

  lemma {:induction false} AddKeepsPaths(scores: seq<Hit>, p: Posting, docs: Docs)
    requires PathsMatch(scores, docs) && p.id in docs && p.path == docs[p.id].path
    ensures PathsMatch(Add(scores, p), docs)
  {
    if scores != [] && scores[0].id != p.id {
      assert scores[0] in scores && forall h <- scores[1..] :: h in scores;
      AddKeepsPaths(scores[1..], p, docs);
    } else if scores != [] {
      assert scores[0] in scores && forall h <- scores[1..] :: h in scores;
    }
  }

  lemma {:induction false} TfOfSnoc(list: seq<Posting>, p: Posting, id: DocId)
    ensures TfOf(list + [p], id) == TfOf(list, id) + if p.id == id then p.tf else 0
  {
    if list != [] {
      assert (list + [p])[1..] == list[1..] + [p];
      TfOfSnoc(list[1..], p, id);
    } else {
      assert list + [p] == [p];
    }
  }

  ghost predicate Posted(list: seq<Posting>, id: DocId) {
    exists p <- list :: p.id == id
  }

  lemma {:induction false} AddAllEffect(scores: seq<Hit>, list: seq<Posting>, docs: Docs, id: DocId)
    requires DistinctHits(scores) && PathsMatch(scores, docs)
    requires forall p <- list :: p.id in docs && p.path == docs[p.id].path
    ensures var after := AddAll(scores, list);
      && DistinctHits(after) && PathsMatch(after, docs)
      && ScoreOf(after, id) == ScoreOf(scores, id) + TfOf(list, id)
      && (Listed(after, id) <==> Listed(scores, id) || Posted(list, id))
    decreases |list|
  {
    if list != [] {
      var front, last := list[..|list| - 1], list[|list| - 1];
      assert list == front + [last];
      AddAllEffect(scores, front, docs, id);
      AddEffect(AddAll(scores, front), last, id);
      AddKeepsPaths(AddAll(scores, front), last, docs);
      TfOfSnoc(front, last, id);
      assert Posted(list, id) <==> Posted(front, id) || last.id == id;
    }
  }

  lemma ListScores(list: seq<Posting>, docs: Docs, t: Term, id: DocId)
    requires Lists(list, docs, t)
    ensures forall p <- list :: p.id in docs && p.path == docs[p.id].path
    ensures TfOf(list, id) == if id in docs then Tf(docs[id].tokens, t) else 0
    ensures Posted(list, id) <==> TfOf(list, id) > 0
  {
    TfOfIsTf(list, docs, t, id);
    assert forall p <- list :: IsPosting(p, docs, t);
    if TfOf(list, id) > 0 {
      assert IsPosting(Posting(id, docs[id].path, Tf(docs[id].tokens, t)), docs, t);
    }
  }

  lemma {:induction false} AccumulatedScores(postings: map<Term, seq<Posting>>, docs: Docs, query: seq<Term>, id: DocId)
    requires AllListed(postings, docs)
    ensures var scores := Accumulated(postings, query);
      && DistinctHits(scores) && PathsMatch(scores, docs)
      && ScoreOf(scores, id) == Brute(docs, query, id)
      && (Listed(scores, id) <==> Brute(docs, query, id) > 0)
    decreases |query|
  {
    if query != [] {
      var front, last := query[..|query| - 1], query[|query| - 1];
      AccumulatedScores(postings, docs, front, id);
      assert Lists(Lookup(postings, last), docs, last);
      ListScores(Lookup(postings, last), docs, last, id);
      AddAllEffect(Accumulated(postings, front), Lookup(postings, last), docs, id);
    }
  }

  // ---------- the sort ----------

  ghost predicate Falling(hits: seq<Hit>) {
    forall i, j :: 0 <= i < j < |hits| ==> hits[i].score >= hits[j].score
  }

  function WithScore(hits: seq<Hit>, score: nat): seq<Hit> {
    if hits == [] then []
    else WithScore(hits[..|hits| - 1], score) + if hits[|hits| - 1].score == score then [hits[|hits| - 1]] else []
  }

  lemma {:induction false} InsertKeepsAll(sorted: seq<Hit>, hit: Hit)
    ensures multiset(Insert(sorted, hit)) == multiset(sorted) + multiset{hit}
    decreases |sorted|
  {
    if sorted != [] && sorted[|sorted| - 1].score < hit.score {
      var front, last := sorted[..|sorted| - 1], sorted[|sorted| - 1];
      assert sorted == front + [last];
      InsertKeepsAll(front, hit);
    }
  }

  lemma InsertMembers(sorted: seq<Hit>, hit: Hit, h: Hit)
    ensures h in Insert(sorted, hit) <==> h in sorted || h == hit
  {
    InsertKeepsAll(sorted, hit);
    assert h in Insert(sorted, hit) <==> h in multiset(Insert(sorted, hit));
  }

  lemma AppendLowest(hits: seq<Hit>, last: Hit)
    requires Falling(hits) && forall h <- hits :: h.score >= last.score
    ensures Falling(hits + [last])
  {
    forall i | 0 <= i < |hits| ensures hits[i].score >= last.score {
      assert hits[i] in hits;
    }
  }

  lemma {:induction false} InsertSorts(sorted: seq<Hit>, hit: Hit)
    requires Falling(sorted)
    ensures Falling(Insert(sorted, hit))
    decreases |sorted|
  {
    if sorted != [] {
      var front, last := sorted[..|sorted| - 1], sorted[|sorted| - 1];
      if last.score >= hit.score {
        AppendLowest(sorted, hit);
      } else {
        InsertSorts(front, hit);
        forall h | h in Insert(front, hit) ensures h.score >= last.score {
          InsertMembers(front, hit, h);
        }
        AppendLowest(Insert(front, hit), last);
      }
    }
  }

  lemma {:induction false} NoneAbove(sorted: seq<Hit>, score: nat)
    requires forall h <- sorted :: h.score != score
    ensures WithScore(sorted, score) == []
    decreases |sorted|
  {
    if sorted != [] {
      NoneAbove(sorted[..|sorted| - 1], score);
    }
  }

  lemma {:induction false} InsertIsStable(sorted: seq<Hit>, hit: Hit, score: nat)
    requires Falling(sorted)
    ensures WithScore(Insert(sorted, hit), score) == WithScore(sorted, score) + if hit.score == score then [hit] else []
    decreases |sorted|
  {
    if sorted == [] {
      assert [hit][..0] == [];
    } else {
      var front, last := sorted[..|sorted| - 1], sorted[|sorted| - 1];
      if last.score >= hit.score {
        assert (sorted + [hit])[..|sorted|] == sorted;
      } else {
        InsertIsStable(front, hit, score);
        var inserted := Insert(front, hit);
        assert (inserted + [last])[..|inserted|] == inserted;
      }
    }
  }

  /** The sort is a stable sort by falling score. */
  lemma {:induction false} SortedIsStableSort(hits: seq<Hit>, score: nat)
    ensures Falling(Sorted(hits))
    ensures multiset(Sorted(hits)) == multiset(hits)
    ensures WithScore(Sorted(hits), score) == WithScore(hits, score)
    decreases |hits|
  {
    if hits != [] {
      var front, last := hits[..|hits| - 1], hits[|hits| - 1];
      assert hits == front + [last];
      SortedIsStableSort(front, score);
      InsertKeepsAll(Sorted(front), last);
      InsertSorts(Sorted(front), last);
      InsertIsStable(Sorted(front), last, score);
    }
  }

  // ---------- the result ----------

  lemma {:induction false} ScoreOfHit(scores: seq<Hit>, h: Hit)
    requires DistinctHits(scores) && h in scores
    ensures ScoreOf(scores, h.id) == h.score
  {
    if scores[0] != h {
      var k :| 0 <= k < |scores| && scores[k] == h;
      assert scores[0].id != scores[k].id;
      ScoreOfHit(scores[1..], h);
    }
  }

  lemma {:induction false} InsertDistinct(sorted: seq<Hit>, hit: Hit)
    requires Falling(sorted) && DistinctHits(sorted) && forall h <- sorted :: h.id != hit.id
    ensures DistinctHits(Insert(sorted, hit))
    decreases |sorted|
  {
    if sorted != [] && sorted[|sorted| - 1].score < hit.score {
      var front, last := sorted[..|sorted| - 1], sorted[|sorted| - 1];
      assert last in sorted;
      InsertDistinct(front, hit);
      var inserted := Insert(front, hit);
      forall i | 0 <= i < |inserted| ensures inserted[i].id != last.id {
        InsertMembers(front, hit, inserted[i]);
      }
    }
  }

  lemma {:induction false} SortedDistinct(hits: seq<Hit>)
    requires DistinctHits(hits)
    ensures DistinctHits(Sorted(hits))
    decreases |hits|
  {
    if hits != [] {
      var front, last := hits[..|hits| - 1], hits[|hits| - 1];
      SortedDistinct(front);
      SortedIsStableSort(front, 0);
      forall h | h in Sorted(front) ensures h.id != last.id {
        assert h in multiset(Sorted(front));
        assert h in front;
      }
      InsertDistinct(Sorted(front), last);
    }
  }

  /** What a search result promises about the documents. */
  ghost predicate AgreesWithScan(hits: seq<Hit>, docs: Docs, query: seq<Term>) {
    && |hits| <= LIMIT
    && DistinctHits(hits)
    && Falling(hits)
    && (forall h <- hits :: h.id in docs && h.path == docs[h.id].path && h.score == Brute(docs, query, h.id) > 0)
    && (forall id :: Brute(docs, query, id) > 0 && !Listed(hits, id) ==>
          |hits| == LIMIT && forall h <- hits :: Brute(docs, query, id) <= h.score)
  }

  lemma SortedHits(postings: map<Term, seq<Posting>>, docs: Docs, query: seq<Term>, h: Hit)
    requires AllListed(postings, docs)
    requires h in Sorted(Accumulated(postings, query))
    ensures h.id in docs && h.path == docs[h.id].path && h.score == Brute(docs, query, h.id) > 0
  {
    var scores := Accumulated(postings, query);
    AccumulatedScores(postings, docs, query, h.id);
    SortedIsStableSort(scores, 0);
    assert h in multiset(Sorted(scores));
    assert h in scores;
    ScoreOfHit(scores, h);
  }

  lemma SortedListsAll(postings: map<Term, seq<Posting>>, docs: Docs, query: seq<Term>, id: DocId)
    requires AllListed(postings, docs)
    requires Brute(docs, query, id) > 0
    ensures Listed(Sorted(Accumulated(postings, query)), id)
  {
    var scores := Accumulated(postings, query);
    AccumulatedScores(postings, docs, query, id);
    SortedIsStableSort(scores, 0);
    var h :| h in scores && h.id == id;
    assert h in multiset(scores);
    assert h in Sorted(scores);
  }

  lemma TakeKeeps(hits: seq<Hit>, n: nat, k: nat)
    requires k < |hits|
    ensures k < n || |hits| <= n ==> hits[k] in Take(hits, n)
  {
    if k < n < |hits| {
      assert hits[..n][k] == hits[k];
    }
  }

  lemma OmittedScoresLess(postings: map<Term, seq<Posting>>, docs: Docs, query: seq<Term>, id: DocId)
    requires AllListed(postings, docs)
    requires Brute(docs, query, id) > 0 && !Listed(Take(Sorted(Accumulated(postings, query)), LIMIT), id)
    ensures var hits := Take(Sorted(Accumulated(postings, query)), LIMIT);
      |hits| == LIMIT && forall h <- hits :: Brute(docs, query, id) <= h.score
  {
    var sorted := Sorted(Accumulated(postings, query));
    SortedListsAll(postings, docs, query, id);
    SortedIsStableSort(Accumulated(postings, query), 0);
    var omitted :| omitted in sorted && omitted.id == id;
    SortedHits(postings, docs, query, omitted);
    var k :| 0 <= k < |sorted| && sorted[k] == omitted;
    TakeKeeps(sorted, LIMIT, k);
  }

  /** Searching the index is a brute-force scan of the documents it represents. */
  lemma SearchAgreesWithScan(index: Index, docs: Docs, query: seq<Term>)
    requires Represents(index, docs)
    ensures AgreesWithScan(TopHits(Some(index), query), docs, query)
  {
    var scores := Accumulated(index.postings, query);
    var sorted := Sorted(scores);
    var hits := TopHits(Some(index), query);
    AccumulatedScores(index.postings, docs, query, 0);
    SortedIsStableSort(scores, 0);
    SortedDistinct(scores);
    forall h | h in hits
      ensures h.id in docs && h.path == docs[h.id].path && h.score == Brute(docs, query, h.id) > 0
    {
      SortedHits(index.postings, docs, query, h);
    }
    forall id | Brute(docs, query, id) > 0 && !Listed(hits, id)
      ensures |hits| == LIMIT && forall h <- hits :: Brute(docs, query, id) <= h.score
    {
      OmittedScoresLess(index.postings, docs, query, id);
    }
  }

  // ---------- what the query filter drops ----------

  /** The documents hold only tokens that the indexer keeps. */
  ghost predicate OnlyIndexed(docs: Docs) {
    forall id <- docs, t <- docs[id].tokens :: IsIndexed(t)
  }

  lemma SomePosting(list: seq<Posting>)
    requires list != []
    ensures exists p :: p in list
  {
    assert list[0] in list;
  }

  lemma UnindexedHasNoPostings(postings: map<Term, seq<Posting>>, docs: Docs, t: Term)
    requires AllListed(postings, docs) && OnlyIndexed(docs) && !IsIndexed(t)
    ensures Lookup(postings, t) == []
  {
    assert Lists(Lookup(postings, t), docs, t);
    forall p ensures !IsPosting(p, docs, t) {
      if p.id in docs {
        assert t !in docs[p.id].tokens;
      }
    }
    if Lookup(postings, t) != [] {
      SomePosting(Lookup(postings, t));
    }
  }

  /** Words without postings score nothing, so a filter may drop them. */
  lemma {:induction false} FilteredScores(postings: map<Term, seq<Posting>>, query: seq<Term>, keep: Term -> bool)
    requires forall t :: !keep(t) ==> Lookup(postings, t) == []
    ensures Accumulated(postings, Filter(query, keep)) == Accumulated(postings, query)
    decreases |query|
  {
    if query != [] {
      var front, last := query[..|query| - 1], query[|query| - 1];
      FilteredScores(postings, front, keep);
      var kept := Filter(front, keep);
      if keep(last) {
        assert (kept + [last])[..|kept|] == kept;
      } else {
        assert kept + [] == kept;
        assert Lookup(postings, last) == [];
      }
    }
  }

  /** Dropping stopwords changes neither the hits nor whether the search throws. */
  lemma StopwordsChangeNothing(index: Index, docs: Docs, query: seq<Term>)
    requires Represents(index, docs) && OnlyIndexed(docs)
    ensures TopHits(Some(index), WithoutStopwords(query)) == TopHits(Some(index), query)
    ensures Breaks(Some(index), WithoutStopwords(query)) <==> Breaks(Some(index), query)
  {
    forall t | !IsOrdinary(t) ensures Lookup(index.postings, t) == [] {
      UnindexedHasNoPostings(index.postings, docs, t);
    }
    FilteredScores(index.postings, query, IsOrdinary);
    InheritedIsIndexed();
  }

  /** The query filter drops only words that no indexed document can contain; the indexer's filter would do as well. */
  lemma QueryFilterLosesNothing(index: Index, docs: Docs, words: seq<Term>)
    requires Represents(index, docs) && OnlyIndexed(docs)
    ensures TopHits(Some(index), TokenizeQuery(words)) == TopHits(Some(index), words)
    ensures TopHits(Some(index), Tokenize(words)) == TopHits(Some(index), words)
    ensures Breaks(Some(index), TokenizeQuery(words)) <==> Breaks(Some(index), words)
  {
    forall t | !IsIndexed(t) ensures Lookup(index.postings, t) == [] {
      UnindexedHasNoPostings(index.postings, docs, t);
    }
    FilteredScores(index.postings, words, RightLength);
    FilteredScores(index.postings, words, IsIndexed);
    InheritedIsIndexed();
  }

  lemma InheritedIsIndexed()
    ensures IsIndexed(INHERITED)
  {
    assert |INHERITED| == 11;
  }

  /** End to end: after any scoped reindexes of stored artifacts, a search scans every audit's latest rows. */
  lemma SearchAfterReindexes(ops: seq<Reindex>, query: seq<Term>)
    requires WellKeyed(ops)
    requires forall op <- ops :: exists artifacts :: op.rows == TokenRows(artifacts)
    ensures AgreesWithScan(TopHits(RunAll(ops), query), DocsOf(LatestRows(ops)), query)
    ensures TopHits(RunAll(ops), WithoutStopwords(query)) == TopHits(RunAll(ops), query)
  {
    RunTracks(ops);
    var docs := DocsOf(LatestRows(ops));
    match RunAll(ops)
    case None =>
      BruteOfNothing(query);
    case Some(index) =>
      SearchAgreesWithScan(index, docs, query);
      LatestAreIndexed(ops);
      LatestDistinct(ops);
      DocsAreIndexed(LatestRows(ops));
      StopwordsChangeNothing(index, docs, query);
  }

  lemma {:induction false} BruteZero(query: seq<Term>, id: DocId)
    ensures Brute(map[], query, id) == 0
    decreases |query|
  {
    if query != [] {
      BruteZero(query[..|query| - 1], id);
    }
  }

  lemma BruteOfNothing(query: seq<Term>)
    ensures AgreesWithScan([], DocsOf([]), query)
  {
    forall id ensures Brute(map[], query, id) == 0 {
      BruteZero(query, id);
    }
  }

  lemma {:induction false} LatestAreIndexed(ops: seq<Reindex>)
    requires forall op <- ops :: exists artifacts :: op.rows == TokenRows(artifacts)
    ensures forall row <- LatestRows(ops), t <- row.tokens :: IsIndexed(t)
  {
    if ops != [] {
      assert forall op <- ops[1..] :: op in ops;
      LatestAreIndexed(ops[1..]);
      assert ops[0] in ops;
      var artifacts :| ops[0].rows == TokenRows(artifacts);
      forall row, t | row in ops[0].rows && t in row.tokens ensures IsIndexed(t) {
        var k :| 0 <= k < |artifacts| && row == TokenRow(artifacts[k]);
      }
    }
  }

  lemma DocsAreIndexed(rows: seq<Row>)
    requires DistinctIds(rows)
    requires forall row <- rows, t <- row.tokens :: IsIndexed(t)
    ensures OnlyIndexed(DocsOf(rows))
  {
    forall id, t | id in DocsOf(rows) && t in DocsOf(rows)[id].tokens ensures IsIndexed(t) {
      RowOf(rows, id);
      assert t in Row(id, DocsOf(rows)[id].path, DocsOf(rows)[id].tokens).tokens;
    }
  }
}
