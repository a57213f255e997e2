/** Full-text search over the inverted index. */
module Search {
  import opened Wrappers
  import opened Words
  import opened KnowledgeIndex

  /** One entry of the score table, which keeps insertion order. */
  datatype Hit = Hit(id: DocId, path: string, score: nat)

  const LIMIT: nat := 10

  // ---------- specification ----------

  /** One posting added to the score table. */
  function Add(scores: seq<Hit>, p: Posting): seq<Hit> {
    if scores == [] then [Hit(p.id, p.path, p.tf)]
    else if scores[0].id == p.id then [scores[0].(score := scores[0].score + p.tf)] + scores[1..]
    else [scores[0]] + Add(scores[1..], p)
  }

  function AddAll(scores: seq<Hit>, list: seq<Posting>): seq<Hit> {
    if list == [] then scores else Add(AddAll(scores, list[..|list| - 1]), list[|list| - 1])
  }

  function Accumulated(postings: map<Term, seq<Posting>>, tokens: seq<Term>): seq<Hit> {
    if tokens == [] then []
    else AddAll(Accumulated(postings, tokens[..|tokens| - 1]), Lookup(postings, tokens[|tokens| - 1]))
  }

  /** `hit` goes behind every entry that scores at least as much. */
  function Insert(sorted: seq<Hit>, hit: Hit): seq<Hit> {
    if sorted == [] then [hit]
    else if sorted[|sorted| - 1].score >= hit.score then sorted + [hit]
    else Insert(sorted[..|sorted| - 1], hit) + [sorted[|sorted| - 1]]
  }

  /** The stable sort by falling score. */
  function Sorted(hits: seq<Hit>): seq<Hit> {
    if hits == [] then [] else Insert(Sorted(hits[..|hits| - 1]), hits[|hits| - 1])
  }

  function Take(hits: seq<Hit>, n: nat): seq<Hit> {
    if |hits| <= n then hits else hits[..n]
  }

  predicate Breaks(index: Option<Index>, tokens: seq<Term>) {
    index.Some? && INHERITED in tokens && INHERITED !in index.value.postings
  }

  function TopHits(index: Option<Index>, tokens: seq<Term>): seq<Hit> {
    if index.None? then [] else Take(Sorted(Accumulated(index.value.postings, tokens)), LIMIT)
  }

  // ---------- the loops ----------

  method AddPosting(scores: seq<Hit>, p: Posting) returns (added: seq<Hit>)
    ensures added == Add(scores, p)
  {
    var i := 0;
    while i < |scores| && scores[i].id != p.id
      invariant 0 <= i <= |scores|
      invariant forall k :: 0 <= k < i ==> scores[k].id != p.id
    {
      i := i + 1;
    }
    AddAt(scores, p, i);
    if i < |scores| {
      added := scores[i := scores[i].(score := scores[i].score + p.tf)];
    } else {
      added := scores + [Hit(p.id, p.path, p.tf)];
    }
  }

  /** The entry of the posting's document is the first one with its id, or a new one. */
  lemma {:induction false} AddAt(scores: seq<Hit>, p: Posting, i: nat)
    requires i <= |scores| && forall k :: 0 <= k < i ==> scores[k].id != p.id
    requires i < |scores| ==> scores[i].id == p.id
    ensures Add(scores, p) ==
      if i < |scores| then scores[i := scores[i].(score := scores[i].score + p.tf)]
      else scores + [Hit(p.id, p.path, p.tf)]
    decreases i
  {
    if i > 0 {
      AddAt(scores[1..], p, i - 1);
    }
  }

  method SortByScore(hits: seq<Hit>) returns (sorted: seq<Hit>)
    ensures sorted == Sorted(hits)
  {
    sorted := [];
    for i := 0 to |hits|
      invariant sorted == Sorted(hits[..i])
    {
      assert hits[..i + 1][..i] == hits[..i];
      sorted := Insert(sorted, hits[i]);
    }
    assert hits[..|hits|] == hits;
  }

  /** `searchInvertedIndex`; None when it throws on the inherited word. */
  method SearchInvertedIndex(index: Option<Index>, words: seq<Term>) returns (hits: Option<seq<Hit>>)
    ensures hits == if Breaks(index, TokenizeQuery(words)) then None else Some(TopHits(index, TokenizeQuery(words)))
  {
    if index.None? {
      return Some([]);
    }
    var tokens := TokenizeQuery(words);
    if tokens == [] {
      return Some([]);
    }
    var postings := index.value.postings;
    var scores := [];
    for i := 0 to |tokens|
      invariant !Breaks(index, tokens[..i])
      invariant scores == Accumulated(postings, tokens[..i])
    {
      assert tokens[..i + 1] == tokens[..i] + [tokens[i]];
      assert tokens[..i + 1][..i] == tokens[..i];
      if tokens[i] !in postings {
        if tokens[i] == INHERITED {
          return None;
        }
        continue;
      }
      var list := postings[tokens[i]];
      ghost var before := scores;
      for j := 0 to |list|
        invariant scores == AddAll(before, list[..j])
      {
        assert list[..j + 1][..j] == list[..j];
        scores := AddPosting(scores, list[j]);
      }
      assert list[..|list|] == list;
    }
    assert tokens[..|tokens|] == tokens;
    var sorted := SortByScore(scores);
    hits := Some(Take(sorted, LIMIT));
  }

  // ---------- the score table ----------

  ghost predicate DistinctHits(scores: seq<Hit>) {
    forall i, j :: 0 <= i < j < |scores| ==> scores[i].id != scores[j].id
  }

  function ScoreOf(scores: seq<Hit>, id: DocId): nat {
    if scores == [] then 0
    else if scores[0].id == id then scores[0].score
    else ScoreOf(scores[1..], id)
  }

  ghost predicate Listed(scores: seq<Hit>, id: DocId) {
    exists h <- scores :: h.id == id
  }

  lemma {:induction false} AddLists(scores: seq<Hit>, p: Posting, id: DocId)
    ensures Listed(Add(scores, p), id) <==> Listed(scores, id) || id == p.id
  {
    if scores == [] {
      assert Add(scores, p)[0].id == p.id;
    } else {
      AddLists(scores[1..], p, id);
      ListedCons(scores, id);
      ListedCons(Add(scores, p), id);
    }
  }

  lemma ListedCons(scores: seq<Hit>, id: DocId)
    requires scores != []
    ensures Listed(scores, id) <==> scores[0].id == id || Listed(scores[1..], id)
  {
    assert scores == [scores[0]] + scores[1..];
  }

  lemma {:induction false} AddKeepsDistinct(scores: seq<Hit>, p: Posting)
    requires DistinctHits(scores)
    ensures DistinctHits(Add(scores, p))
    ensures forall h <- Add(scores, p) :: h.id == p.id || h in scores
  {
    if scores != [] {
      AddKeepsDistinct(scores[1..], p);
    }
  }

  lemma {:induction false} AddScores(scores: seq<Hit>, p: Posting, id: DocId)
    ensures ScoreOf(Add(scores, p), id) == ScoreOf(scores, id) + if id == p.id then p.tf else 0
  {
    if scores != [] {
      AddScores(scores[1..], p, id);
    }
  }

  /** One posting adds its frequency to the score of its document and of no other, and lists it once. */
  lemma AddEffect(scores: seq<Hit>, p: Posting, id: DocId)
    requires DistinctHits(scores)
    ensures DistinctHits(Add(scores, p))
    ensures forall h <- Add(scores, p) :: h.id == p.id || h in scores
    ensures ScoreOf(Add(scores, p), id) == ScoreOf(scores, id) + if id == p.id then p.tf else 0
    ensures Listed(Add(scores, p), id) <==> Listed(scores, id) || id == p.id
  {
    AddKeepsDistinct(scores, p);
    AddScores(scores, p, id);
    AddLists(scores, p, id);
  }
}
