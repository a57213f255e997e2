/** Words of indexed text and of queries. */
module Words {
  type Term = string

  /** The stopwords, by length. */
  function StopwordsOf(length: nat): set<Term> {
    match length
    case 1 => {"a"}
    case 2 => {"an", "or", "if", "of", "to", "in", "on", "at", "by", "is", "be",
               "it", "as", "do", "no"}
    case 3 => {"the", "and", "but", "for", "are", "was", "its", "did", "not", "yes", "let", "var"}
    case 4 => {"then", "else", "with", "from", "were", "been", "this", "that", "does", "true", "null",
               "type", "void"}
    case 5 => {"being", "these", "those", "false", "const", "class"}
    case 6 => {"import", "export", "return"}
    case 8 => {"function"}
    case 9 => {"undefined", "interface"}
    case _ => {}
  }

  predicate RightLength(t: Term) {
    2 <= |t| <= 40
  }

  predicate IsStopword(t: Term) {
    t in StopwordsOf(|t|)
  }

  predicate IsIndexed(t: Term) {
    RightLength(t) && !IsStopword(t)
  }

  function Filter(xs: seq<Term>, keep: Term -> bool): (kept: seq<Term>)
    ensures forall x :: x in kept <==> x in xs && keep(x)
  {
    if xs == [] then []
    else Filter(xs[..|xs| - 1], keep) + if keep(xs[|xs| - 1]) then [xs[|xs| - 1]] else []
  }

  lemma {:induction false} FilterCounts(xs: seq<Term>, keep: Term -> bool, x: Term)
    ensures multiset(Filter(xs, keep))[x] == if keep(x) then multiset(xs)[x] else 0
  {
    if xs != [] {
      var front, last := xs[..|xs| - 1], xs[|xs| - 1];
      assert xs == front + [last];
      FilterCounts(front, keep, x);
    }
  }

  /** The tokens of a document's words: 2 to 40 characters, no stopwords. */
  function Tokenize(words: seq<Term>): seq<Term> {
    Filter(words, IsIndexed)
  }

  /** The tokens of a query: the same lengths, stopwords kept. */
  function TokenizeQuery(words: seq<Term>): seq<Term> {
    Filter(words, RightLength)
  }

  predicate IsOrdinary(t: Term) {
    !IsStopword(t)
  }

  function WithoutStopwords(words: seq<Term>): seq<Term> {
    Filter(words, IsOrdinary)
  }
}
