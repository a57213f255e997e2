/** The incremental inverted index of `knowledge.reindex`. */
module KnowledgeIndex {
  import opened Wrappers

  import opened Words

  type DocId = nat
  /** Audit ids are never empty. */
  type AuditKey = s: string | s != "" witness "a"

  /** The one lower-case word that a plain object inherits a property for. */
  const INHERITED: Term := "constructor"

  /** An artifact row with the lower-cased words of its title, path and content. */
  datatype Artifact = Artifact(id: DocId, path: string, words: seq<Term>)

  /** The same row tokenized. */
  datatype Row = Row(id: DocId, path: string, tokens: seq<Term>)

  datatype Posting = Posting(id: DocId, path: string, tf: nat)

  datatype Index = Index(
    docCount: nat,
    termCount: nat,
    docLengths: map<DocId, nat>,
    postings: map<Term, seq<Posting>>,
    lastScopedAudit: Option<AuditKey>,
    auditDocs: map<AuditKey, seq<DocId>>)

  function TokenRow(artifact: Artifact): Row {
    Row(artifact.id, artifact.path, Tokenize(artifact.words))
  }

  /** The row counts every word of 2 to 40 characters that is no stopword as often as the artifact has it. */
  lemma TokenRowCounts(artifact: Artifact, w: Term)
    ensures var row := TokenRow(artifact);
      && row.id == artifact.id && row.path == artifact.path
      && multiset(row.tokens)[w] == if 2 <= |w| <= 40 && !IsStopword(w) then multiset(artifact.words)[w] else 0
  {
    FilterCounts(artifact.words, IsIndexed, w);
  }

  function TokenRows(artifacts: seq<Artifact>): (rows: seq<Row>)
    ensures |rows| == |artifacts| && forall i :: 0 <= i < |artifacts| ==> rows[i] == TokenRow(artifacts[i])
  {
    seq(|artifacts|, i requires 0 <= i < |artifacts| => TokenRow(artifacts[i]))
  }

  /** How often `t` occurs. */
  function Tf(tokens: seq<Term>, t: Term): nat {
    multiset(tokens)[t]
  }

  // ---------- the merged index ----------

  /** Reindexing throws on a row with the inherited word: the lookup finds a function, not a list. */
  predicate Throws(rows: seq<Row>) {
    exists row <- rows :: INHERITED in row.tokens
  }

  function Ids(rows: seq<Row>): set<DocId> {
    set row <- rows :: row.id
  }

  function RowIds(rows: seq<Row>): seq<DocId> {
    seq(|rows|, i requires 0 <= i < |rows| => rows[i].id)
  }

  /** The documents a scoped reindex drops: the audit's recorded ones and the ones it rewrites. */
  function EvictedIds(auditDocs: map<AuditKey, seq<DocId>>, rows: seq<Row>, audit: AuditKey): set<DocId> {
    (if audit in auditDocs then set id <- auditDocs[audit] else {}) + Ids(rows)
  }

  function Evicted(existing: Index, rows: seq<Row>, audit: AuditKey): set<DocId> {
    EvictedIds(existing.auditDocs, rows, audit)
  }

  function Surviving(list: seq<Posting>, evicted: set<DocId>): (kept: seq<Posting>)
    ensures forall p :: p in kept <==> p in list && p.id !in evicted
  {
    if list == [] then []
    else Surviving(list[..|list| - 1], evicted) + if list[|list| - 1].id !in evicted then [list[|list| - 1]] else []
  }

  /** The postings that survive, for the terms outside `todo` that have any. */
  function SurvivingPostings(lists: map<Term, seq<Posting>>, evicted: set<DocId>, todo: set<Term>): map<Term,
                             seq<Posting>> {
    map t <- lists | t !in todo && Surviving(lists[t], evicted) != [] :: Surviving(lists[t], evicted)
  }

  /** What a scoped run carries over from the existing index; any other run starts empty. */
  function KeptPostings(existing: Option<Index>, rows: seq<Row>, audit: Option<AuditKey>): map<Term, seq<Posting>> {
    if existing.Some? && audit.Some? then
      SurvivingPostings(existing.value.postings, Evicted(existing.value, rows, audit.value), {})
    else map[]
  }

  function KeptLengths(existing: Option<Index>, rows: seq<Row>, audit: Option<AuditKey>): map<DocId, nat> {
    if existing.Some? && audit.Some? then existing.value.docLengths - Evicted(existing.value, rows, audit.value)
    else map[]
  }

  function TermsOf(row: Row): set<Term> {
    set t | t in row.tokens
  }

  /** The posting of one row for `t`, if it has one. */
  function RowPosting(row: Row, t: Term): seq<Posting> {
    if t in row.tokens then [Posting(row.id, row.path, Tf(row.tokens, t))] else []
  }

  function Lookup(postings: map<Term, seq<Posting>>, t: Term): seq<Posting> {
    if t in postings then postings[t] else []
  }

  /** `inverted` with the postings of one row appended. */
  function WithRow(inverted: map<Term, seq<Posting>>, row: Row): map<Term, seq<Posting>> {
    map t <- inverted.Keys + TermsOf(row) :: Lookup(inverted, t) + RowPosting(row, t)
  }

  /** `kept` with the postings of every row appended in turn. */
  function WithRows(kept: map<Term, seq<Posting>>, rows: seq<Row>): map<Term, seq<Posting>> {
    if rows == [] then kept else WithRow(WithRows(kept, rows[..|rows| - 1]), rows[|rows| - 1])
  }

  function WithLengths(kept: map<DocId, nat>, rows: seq<Row>): map<DocId, nat> {
    if rows == [] then kept
    else WithLengths(kept, rows[..|rows| - 1])[rows[|rows| - 1].id := |rows[|rows| - 1].tokens|]
  }

  function DocsBefore(existing: Option<Index>): map<AuditKey, seq<DocId>> {
    if existing.Some? then existing.value.auditDocs else map[]
  }

  /** The index that `buildMergedIndex` returns. */
  function Merged(existing: Option<Index>, rows: seq<Row>, audit: Option<AuditKey>): Index {
    var postings := WithRows(KeptPostings(existing, rows, audit), rows);
    var docLengths := WithLengths(KeptLengths(existing, rows, audit), rows);
    Index(|docLengths|, |postings|, docLengths, postings, audit,
          if audit.Some? then DocsBefore(existing)[audit.value := RowIds(rows)] else DocsBefore(existing))
  }

  // ---------- the index in memory ----------

  /** A posting list, which the second loop appends to in place. */
  class PostingList {
    var items: seq<Posting>

    constructor (items: seq<Posting>)
      ensures this.items == items
    {
      this.items := items;
    }

    method Push(p: Posting)
      modifies this
      ensures items == old(items) + [p]
    {
      items := items + [p];
    }
  }

  type Inverted = map<Term, PostingList>

  ghost function Contents(inverted: Inverted): map<Term, seq<Posting>>
    reads inverted.Values
  {
    map t <- inverted :: inverted[t].items
  }

  /** No two terms share a list. */
  ghost predicate Separate(inverted: Inverted) {
    forall t <- inverted, u <- inverted :: inverted[t] == inverted[u] ==> t == u
  }

  datatype MemoryIndex = MemoryIndex(
    docCount: nat,
    termCount: nat,
    docLengths: map<DocId, nat>,
    postings: Inverted,
    lastScopedAudit: Option<AuditKey>,
    auditDocs: map<AuditKey, seq<DocId>>)

  ghost function Value(index: MemoryIndex): Index
    reads index.postings.Values
  {
    Index(index.docCount, index.termCount, index.docLengths, Contents(index.postings),
          index.lastScopedAudit, index.auditDocs)
  }

  ghost function ValueOf(index: Option<MemoryIndex>): Option<Index>
    reads if index.Some? then index.value.postings.Values else {}
  {
    if index.Some? then Some(Value(index.value)) else None
  }

  /** A new list for a term that has none. */
  method Place(inverted: Inverted, t: Term, items: seq<Posting>) returns (grown: Inverted)
    requires Separate(inverted) && t !in inverted
    ensures Separate(grown) && t in grown && fresh(grown[t])
    ensures grown.Values == inverted.Values + {grown[t]}
    ensures Contents(grown) == old(Contents(inverted))[t := items]
  {
    var list := new PostingList(items);
    grown := inverted[t := list];
    assert forall u <- inverted :: grown[u] == inverted[u];
  }

  lemma SurvivorsStep(lists: map<Term, seq<Posting>>, evicted: set<DocId>, todo: set<Term>, t: Term)
    requires t in lists && t in todo
    ensures var kept := Surviving(lists[t], evicted);
      var before := SurvivingPostings(lists, evicted, todo);
      SurvivingPostings(lists, evicted, todo - {t}) == if kept != [] then before[t := kept] else before
  {
  }

  /** The first loop: the existing postings without the evicted documents, in new lists. */
  method EvictPostings(postings: Inverted, evicted: set<DocId>) returns (inverted: Inverted)
    ensures Separate(inverted) && fresh(inverted.Values)
    ensures Contents(inverted) == SurvivingPostings(Contents(postings), evicted, {})
  {
    inverted := map[];
    var todo := postings.Keys;
    while todo != {}
      invariant todo <= postings.Keys
      invariant Separate(inverted) && fresh(inverted.Values)
      invariant Contents(inverted) == SurvivingPostings(Contents(postings), evicted, todo)
      decreases todo
    {
      var t :| t in todo;
      var kept := Surviving(postings[t].items, evicted);
      if kept != [] {
        assert t !in Contents(inverted);
        inverted := Place(inverted, t, kept);
      }
      SurvivorsStep(Contents(postings), evicted, todo, t);
      todo := todo - {t};
    }
  }

  /** The term frequencies of one row. */
  method CountTokens(tokens: seq<Term>) returns (tf: map<Term, nat>)
    ensures tf == map t <- tokens :: Tf(tokens, t)
  {
    tf := map[];
    for i := 0 to |tokens|
      invariant tf == map t <- tokens[..i] :: Tf(tokens[..i], t)
    {
      var t := tokens[i];
      assert tokens[..i + 1] == tokens[..i] + [t];
      tf := tf[t := (if t in tf then tf[t] else 0) + 1];
    }
    assert tokens[..|tokens|] == tokens;
  }

  /** Appends one posting to the list of `t`, which is created when missing. */
  method Append(inverted: Inverted, t: Term, p: Posting) returns (grown: Inverted)
    requires Separate(inverted)
    modifies if t in inverted then {inverted[t]} else {}
    ensures Separate(grown) && t in grown
    ensures t !in inverted ==> fresh(grown[t])
    ensures grown.Values <= inverted.Values + (if t in inverted then {} else {grown[t]})
    ensures Contents(grown) == old(Contents(inverted))[t := Lookup(old(Contents(inverted)), t) + [p]]
  {
    grown := inverted;
    if t !in grown {
      grown := Place(grown, t, []);
    }
    grown[t].Push(p);
  }

  /** The same for one term of a row whose other terms in `todo` are still to come. */
  method AppendFor(inverted: Inverted, row: Row, t: Term, count: nat, ghost before: map<Term, seq<Posting>>,
                   ghost todo: set<Term>)
    returns (grown: Inverted)
    requires Separate(inverted) && PartRow(before, row, todo, Contents(inverted))
    requires t in todo && todo <= TermsOf(row) && count == Tf(row.tokens, t)
    modifies inverted.Values
    ensures Separate(grown) && fresh(grown.Values - inverted.Values)
    ensures PartRow(before, row, todo - {t}, Contents(grown))
  {
    PartRowStep(before, row, todo, Contents(inverted), t);
    grown := Append(inverted, t, Posting(row.id, row.path, count));
  }

  /** Appends the postings of one row; None when the row holds the inherited word. */
  method AddRow(inverted: Inverted, row: Row) returns (added: Option<Inverted>)
    requires Separate(inverted)
    modifies inverted.Values
    ensures added.None? <==> INHERITED in row.tokens
    ensures added.Some? ==> Separate(added.value) && fresh(added.value.Values - inverted.Values)
    ensures added.Some? ==> Contents(added.value) == WithRow(old(Contents(inverted)), row)
  {
    var tf := CountTokens(row.tokens);
    var out := inverted;
    var todo := tf.Keys;
    ghost var before := Contents(inverted);
    while todo != {}
      invariant todo <= tf.Keys == TermsOf(row)
      invariant INHERITED in tf ==> INHERITED in todo
      invariant Separate(out) && fresh(out.Values - inverted.Values)
      invariant PartRow(before, row, todo, Contents(out))
      decreases todo
    {
      var t :| t in todo;
      if t == INHERITED {
        return None;
      }
      out := AppendFor(out, row, t, tf[t], before, todo);
      todo := todo - {t};
    }
    added := Some(out);
  }

  /** `after` is `before` with the row's postings for the terms outside `todo`. */
  ghost predicate PartRow(before: map<Term, seq<Posting>>, row: Row, todo: set<Term>, after: map<Term, seq<Posting>>) {
    && after.Keys == before.Keys + (TermsOf(row) - todo)
    && forall t <- after :: after[t] == Lookup(before, t) + if t in todo then [] else RowPosting(row, t)
  }

  lemma PartRowStep(before: map<Term, seq<Posting>>, row: Row, todo: set<Term>, after: map<Term, seq<Posting>>, t: Term)
    requires PartRow(before, row, todo, after)
    requires t in todo && todo <= TermsOf(row)
    ensures PartRow(before, row, todo - {t},
                    after[t := Lookup(after, t) + [Posting(row.id, row.path, Tf(row.tokens, t))]])
  {
  }

  method EvictLengths(docLengths: map<DocId, nat>, evicted: set<DocId>) returns (kept: map<DocId, nat>)
    ensures kept == docLengths - evicted
  {
    kept := map[];
    var todo := docLengths.Keys;
    while todo != {}
      invariant todo <= docLengths.Keys
      invariant kept == docLengths - evicted - todo
      decreases todo
    {
      var id :| id in todo;
      if id !in evicted {
        kept := kept[id := docLengths[id]];
      }
      todo := todo - {id};
    }
  }

  /** The second loop: the rows' postings and lengths on top of the surviving ones; None when it throws. */
  method AddRows(kept: Inverted, keptLengths: map<DocId, nat>, rows: seq<Row>)
    returns (grown: Option<(Inverted, map<DocId, nat>)>)
    requires Separate(kept)
    modifies kept.Values
    ensures grown.None? <==> Throws(rows)
    ensures grown.Some? ==> fresh(grown.value.0.Values - kept.Values)
    ensures grown.Some? ==> Contents(grown.value.0) == WithRows(old(Contents(kept)), rows)
    ensures grown.Some? ==> grown.value.1 == WithLengths(keptLengths, rows)
  {
    var inverted, docLengths := kept, keptLengths;
    for i := 0 to |rows|
      invariant !Throws(rows[..i])
      invariant Separate(inverted) && fresh(inverted.Values - kept.Values)
      invariant Contents(inverted) == WithRows(old(Contents(kept)), rows[..i])
      invariant docLengths == WithLengths(keptLengths, rows[..i])
    {
      var added := AddRow(inverted, rows[i]);
      if added.None? {
        return None;
      }
      assert rows[..i + 1][..i] == rows[..i];
      inverted := added.value;
      docLengths := docLengths[rows[i].id := |rows[i].tokens|];
    }
    assert rows[..|rows|] == rows;
    grown := Some((inverted, docLengths));
  }

  /** What a run starts from: nothing, or for a scoped one the existing index without the evicted documents. */
  method Carried(existing: Option<MemoryIndex>, rows: seq<Row>, audit: Option<AuditKey>)
    returns (kept: Inverted, keptLengths: map<DocId, nat>)
    ensures Separate(kept) && fresh(kept.Values)
    ensures Contents(kept) == KeptPostings(ValueOf(existing), rows, audit)
    ensures keptLengths == KeptLengths(ValueOf(existing), rows, audit)
  {
    kept, keptLengths := map[], map[];
    if existing.Some? && audit.Some? {
      var evicted := EvictedIds(existing.value.auditDocs, rows, audit.value);
      kept := EvictPostings(existing.value.postings, evicted);
      keptLengths := EvictLengths(existing.value.docLengths, evicted);
    }
  }

  lemma SameSize(inverted: Inverted)
    ensures |Contents(inverted)| == |inverted|
  {
    assert Contents(inverted).Keys == inverted.Keys;
  }

  predicate HoldInherited(artifacts: seq<Artifact>) {
    exists a <- artifacts :: INHERITED in a.words
  }

  /** Tokenizing keeps the inherited word. */
  lemma InheritedKept(artifact: Artifact)
    ensures INHERITED in TokenRow(artifact).tokens <==> INHERITED in artifact.words
  {
    assert |INHERITED| == 11;
    TokenRowCounts(artifact, INHERITED);
  }

  lemma ThrowsOn(artifacts: seq<Artifact>)
    ensures Throws(TokenRows(artifacts)) <==> HoldInherited(artifacts)
  {
    var rows := TokenRows(artifacts);
    if a :| a in artifacts && INHERITED in a.words {
      var i :| 0 <= i < |artifacts| && artifacts[i] == a;
      InheritedKept(a);
      assert rows[i] in rows;
    }
    if row :| row in rows && INHERITED in row.tokens {
      var i :| 0 <= i < |rows| && rows[i] == row;
      InheritedKept(artifacts[i]);
      assert artifacts[i] in artifacts;
    }
  }

  /** The two loops over tokenized rows. */
  method BuildIndex(existing: Option<MemoryIndex>, rows: seq<Row>, audit: Option<AuditKey>)
    returns (index: Option<MemoryIndex>)
    ensures ValueOf(existing) == old(ValueOf(existing))
    ensures index.None? <==> Throws(rows)
    ensures index.Some? ==> fresh(index.value.postings.Values)
    ensures index.Some? ==> Value(index.value) == Merged(old(ValueOf(existing)), rows, audit)
  {
    var kept, keptLengths := Carried(existing, rows, audit);
    var grown := AddRows(kept, keptLengths, rows);
    if grown.None? {
      return None;
    }
    var (inverted, docLengths) := grown.value;
    var auditDocs := if existing.Some? then existing.value.auditDocs else map[];
    if audit.Some? {
      auditDocs := auditDocs[audit.value := RowIds(rows)];
    }
    SameSize(inverted);
    index := Some(MemoryIndex(|docLengths|, |inverted|, docLengths, inverted, audit, auditDocs));
  }

  /** `buildMergedIndex`; None when it throws.  The existing index is left as it was, and no list is shared. */
  method BuildMergedIndex(existing: Option<MemoryIndex>, artifacts: seq<Artifact>, audit: Option<AuditKey>)
    returns (index: Option<MemoryIndex>)
    ensures ValueOf(existing) == old(ValueOf(existing))
    ensures index.None? <==> HoldInherited(artifacts)
    ensures index.Some? ==> fresh(index.value.postings.Values)
    ensures index.Some? ==> Value(index.value) == Merged(old(ValueOf(existing)), TokenRows(artifacts), audit)
    ensures index.Some? ==> index.value.lastScopedAudit == audit
    ensures index.Some? && audit.Some? ==>
      && audit.value in index.value.auditDocs && |index.value.auditDocs[audit.value]| == |artifacts|
      && forall i :: 0 <= i < |artifacts| ==> index.value.auditDocs[audit.value][i] == artifacts[i].id
  {
    ThrowsOn(artifacts);
    index := BuildIndex(existing, TokenRows(artifacts), audit);
  }
}
