/** Access-controlled retrieval: filter by entitlement, score, sort stably by descending score, take the top. */
module Acl {

  datatype DocumentAcl = DocumentAcl(public: bool, groups: seq<string>)

  datatype Document = Document(id: string, content: string, source: string)

  datatype Entry = Entry(doc: Document, acl: DocumentAcl)

  datatype Hit = Hit(documentId: string, chunk: string, score: nat, source: string)

  /** A relevance score; zero means no match. */
  type Scorer = (string, string) -> nat

  /** Public, or some group of the document is one of the caller's. */
  predicate Allows(acl: DocumentAcl, groups: seq<string>) {
    acl.public || exists i :: 0 <= i < |acl.groups| && acl.groups[i] in groups
  }

  method AllowsAccess(acl: DocumentAcl, groups: seq<string>) returns (allowed: bool)
    ensures allowed == Allows(acl, groups)
    ensures allowed <==> acl.public || exists group :: group in acl.groups && group in groups
  {
    if acl.public { return true; }
    var i := 0;
    while i < |acl.groups|
      invariant 0 <= i <= |acl.groups| && forall j :: 0 <= j < i ==> acl.groups[j] !in groups
    {
      if acl.groups[i] in groups { return true; }
      i := i + 1;
    }
    return false;
  }

  // ----- the pipeline

  /** The documents the caller may read, in storage order. */
  function Visible(es: seq<Entry>, groups: seq<string>): seq<Document> {
    if es == [] then []
    else (if Allows(es[0].acl, groups) then [es[0].doc] else []) + Visible(es[1..], groups)
  }

  /** Scored documents that match at all. */
  function Matches(docs: seq<Document>, query: string, score: Scorer): seq<Hit> {
    if docs == [] then []
    else
      var s := score(query, docs[0].content);
      (if s > 0 then [Hit(docs[0].id, docs[0].content, s, docs[0].source)] else []) + Matches(docs[1..], query, score)
  }

  /** Puts `h`, which came first, in front of the hits that do not score higher. */
  function Insert(h: Hit, hs: seq<Hit>): seq<Hit> {
    if hs == [] || h.score >= hs[0].score then [h] + hs else [hs[0]] + Insert(h, hs[1..])
  }

  function SortDescending(hs: seq<Hit>): seq<Hit> {
    if hs == [] then [] else Insert(hs[0], SortDescending(hs[1..]))
  }

  function Take(hs: seq<Hit>, limit: int): seq<Hit> {
    if limit <= 0 then [] else if limit >= |hs| then hs else hs[..limit]
  }

  function Query(es: seq<Entry>, query: string, limit: int, groups: seq<string>, score: Scorer): seq<Hit> {
    Take(SortDescending(Matches(Visible(es, groups), query, score)), limit)
  }

  function Without(es: seq<Entry>, id: string): seq<Entry> {
    if es == [] then [] else (if es[0].doc.id == id then [] else [es[0]]) + Without(es[1..], id)
  }

  /** The store after a sequence of ingests: each replaces any entry with the same id and goes last. */
  function Store(history: seq<Entry>): seq<Entry> {
    if history == [] then []
    else var e := history[|history| - 1]; Without(Store(history[..|history| - 1]), e.doc.id) + [e]
  }

  class AclKnowledgeStore {
    var entries: seq<Entry>
    ghost var history: seq<Entry>

    ghost predicate Valid()
      reads this
    {
      entries == Store(history)
    }

    constructor ()
      ensures Valid() && history == []
    {
      entries, history := [], [];
    }

    method Ingest(doc: Document, acl: DocumentAcl)
      requires Valid()
      modifies this
      ensures Valid() && history == old(history) + [Entry(doc, acl)]
      ensures entries == Without(old(entries), doc.id) + [Entry(doc, acl)]
    {
      entries := Without(entries, doc.id);
      entries := entries + [Entry(doc, acl)];
      history := history + [Entry(doc, acl)];
      assert history[..|history| - 1] == old(history);
    }
  }

  lemma {:induction false} WithoutIs(es: seq<Entry>, id: string, e: Entry)
    ensures e in Without(es, id) <==> e in es && e.doc.id != id
  {
    if es != [] { WithoutIs(es[1..], id, e); }
  }

  /** `e` is the latest ingest under its id. */
  ghost predicate Latest(history: seq<Entry>, e: Entry) {
    exists i :: LatestAt(history, e, i)
  }

  predicate LatestAt(history: seq<Entry>, e: Entry, i: int) {
    0 <= i < |history| && history[i] == e && forall j :: i < j < |history| ==> history[j].doc.id != e.doc.id
  }

  lemma LatestSnoc(front: seq<Entry>, last: Entry, e: Entry)
    ensures Latest(front + [last], e) <==> e == last || (Latest(front, e) && e.doc.id != last.doc.id)
  {
    var history := front + [last];
    if e == last {
      assert LatestAt(history, e, |front|);
    } else if Latest(history, e) {
      var i :| LatestAt(history, e, i);
      assert history[|front|].doc.id != e.doc.id;
      assert forall j :: i < j < |front| ==> front[j] == history[j];
      assert LatestAt(front, e, i);
    }
    if Latest(front, e) && e.doc.id != last.doc.id {
      var i :| LatestAt(front, e, i);
      assert LatestAt(history, e, i);
    }
  }

  /** The store holds exactly the latest ingest of every id, so the latest entitlements govern. */
  lemma {:induction false} LatestGoverns(history: seq<Entry>, e: Entry)
    ensures e in Store(history) <==> Latest(history, e)
  {
    if history != [] {
      var front, last := history[..|history| - 1], history[|history| - 1];
      assert history == front + [last];
      LatestGoverns(front, e);
      LatestSnoc(front, last, e);
      WithoutIs(Store(front), last.doc.id, e);
    }
  }

  // ----- the sort is the stable one

  predicate Descending(hs: seq<Hit>) { forall i, j :: 0 <= i < j < |hs| ==> hs[i].score >= hs[j].score }

  /** The hits with a given score, in order. */
  function WithScore(hs: seq<Hit>, s: nat): seq<Hit> {
    if hs == [] then [] else (if hs[0].score == s then [hs[0]] else []) + WithScore(hs[1..], s)
  }

  lemma {:induction false} WithScoreNone(hs: seq<Hit>, s: nat)
    requires forall i :: 0 <= i < |hs| ==> hs[i].score != s
    ensures WithScore(hs, s) == []
  {
    if hs != [] { WithScoreNone(hs[1..], s); }
  }

  lemma {:induction false} InsertPermutes(h: Hit, hs: seq<Hit>)
    ensures multiset(Insert(h, hs)) == multiset(hs) + multiset{h}
  {
    if hs != [] && h.score < hs[0].score {
      InsertPermutes(h, hs[1..]);
      assert hs == [hs[0]] + hs[1..];
    }
  }

  lemma {:induction false} InsertDescends(h: Hit, hs: seq<Hit>)
    requires Descending(hs)
    ensures Descending(Insert(h, hs))
  {
    if hs != [] && h.score < hs[0].score {
      var rest := hs[1..];
      InsertDescends(h, rest);
      InsertPermutes(h, rest);
      var ins := Insert(h, rest);
      forall j | 0 <= j < |ins| ensures ins[j].score <= hs[0].score {
        assert ins[j] in multiset(ins);
        assert ins[j] == h || ins[j] in multiset(rest);
      }
    }
  }

  lemma {:induction false} InsertStable(h: Hit, hs: seq<Hit>, s: nat)
    requires Descending(hs)
    ensures WithScore(Insert(h, hs), s) == (if h.score == s then [h] else []) + WithScore(hs, s)
  {
    if hs == [] || h.score >= hs[0].score {
      assert ([h] + hs)[1..] == hs;
    } else {
      InsertStable(h, hs[1..], s);
      assert Insert(h, hs)[1..] == Insert(h, hs[1..]);
      if h.score == s { assert hs[0].score != s; }
    }
  }

  /** Sorted, a permutation, and hits with equal scores keep their order. */
  lemma {:induction false} SortIsStable(hs: seq<Hit>)
    ensures Descending(SortDescending(hs)) && multiset(SortDescending(hs)) == multiset(hs)
    ensures forall s :: WithScore(SortDescending(hs), s) == WithScore(hs, s)
  {
    if hs != [] {
      var sorted := SortDescending(hs[1..]);
      SortIsStable(hs[1..]);
      InsertDescends(hs[0], sorted);
      InsertPermutes(hs[0], sorted);
      assert hs == [hs[0]] + hs[1..];
      forall s ensures WithScore(SortDescending(hs), s) == WithScore(hs, s) {
        InsertStable(hs[0], sorted, s);
        assert WithScore(sorted, s) == WithScore(hs[1..], s);
      }
    }
  }

  /** Those three facts leave only one result: any stable descending sort is this one. */
  lemma {:induction false} StableSortUnique(a: seq<Hit>, b: seq<Hit>)
    requires Descending(a) && Descending(b) && (forall s :: WithScore(a, s) == WithScore(b, s))
    ensures a == b
    decreases |a|
  {
    if a != [] && b != [] {
      var s := if a[0].score >= b[0].score then a[0].score else b[0].score;
      if a[0].score != s { WithScoreNone(a, s); }
      if b[0].score != s { WithScoreNone(b, s); }
      assert WithScore(a, s) == WithScore(b, s);
      assert a[0] == WithScore(a, s)[0] && b[0] == WithScore(b, s)[0];
      forall q ensures WithScore(a[1..], q) == WithScore(b[1..], q) {
        assert WithScore(a, q) == WithScore(b, q);
        assert WithScore(a[1..], q) == if a[0].score == q then WithScore(a, q)[1..] else WithScore(a, q);
      }
      StableSortUnique(a[1..], b[1..]);
      assert a == [a[0]] + a[1..] && b == [b[0]] + b[1..];
    }
    assert a != [] ==> WithScore(a, a[0].score) == WithScore(b, a[0].score);
    assert b != [] ==> WithScore(a, b[0].score) == WithScore(b, b[0].score);
  }

  // ----- what the caller gets

  /** `hits` are the best `limit` of `all`: none left out scores more than one that is in. */
  ghost predicate TopOf(hits: seq<Hit>, all: seq<Hit>, limit: int) {
    && |hits| == (if limit <= 0 then 0 else if limit < |all| then limit else |all|)
    && Descending(hits)
    && exists rest: seq<Hit> :: BestOf(hits, rest, all)
  }

  predicate BestOf(hits: seq<Hit>, rest: seq<Hit>, all: seq<Hit>) {
    && multiset(hits + rest) == multiset(all)
    && forall i, j :: 0 <= i < |hits| && 0 <= j < |rest| ==> rest[j].score <= hits[i].score
  }

  lemma TakeIsTop(sorted: seq<Hit>, all: seq<Hit>, limit: int)
    requires Descending(sorted) && multiset(sorted) == multiset(all) && |sorted| == |all|
    ensures TopOf(Take(sorted, limit), all, limit)
  {
    var hits := Take(sorted, limit);
    var rest := sorted[|hits|..];
    assert hits + rest == sorted;
    assert BestOf(hits, rest, all);
  }

  /** Nothing readable is displaced by something that is not better, and unreadable entries compete with nobody. */
  lemma TopOfVisible(es: seq<Entry>, query: string, limit: int, groups: seq<string>, score: Scorer)
    ensures TopOf(Query(es, query, limit, groups, score), Matches(Visible(es, groups), query, score), limit)
  {
    var all := Matches(Visible(es, groups), query, score);
    SortIsStable(all);
    SortKeepsLength(all);
    TakeIsTop(SortDescending(all), all, limit);
  }

  lemma SortKeepsLength(hs: seq<Hit>)
    ensures |SortDescending(hs)| == |hs|
  {
    SortIsStable(hs);
    assert |multiset(SortDescending(hs))| == |multiset(hs)|;
  }

  /** `h` reports an entry the caller may read and the query matches. */
  predicate Reports(h: Hit, e: Entry, query: string, groups: seq<string>, score: Scorer) {
    Allows(e.acl, groups) && h.score > 0 && h == Hit(e.doc.id, e.doc.content, score(query, e.doc.content), e.doc.source)
  }

  /** The candidates are the matching entries the caller may read: all of them, and nothing else. */
  lemma {:induction false} CandidatesAreReadable(es: seq<Entry>, query: string, groups: seq<string>, score: Scorer, h: Hit)
    ensures h in Matches(Visible(es, groups), query, score) <==> exists e :: e in es && Reports(h, e, query, groups, score)
  {
    if es != [] {
      CandidatesAreReadable(es[1..], query, groups, score, h);
      assert es == [es[0]] + es[1..];
      var docs := Visible(es[1..], groups);
      assert ([es[0].doc] + docs)[1..] == docs && [] + docs == docs;
      assert h in Matches(Visible(es, groups), query, score)
        <==> Reports(h, es[0], query, groups, score) || h in Matches(docs, query, score);
    }
  }

  // ----- histories

  /** What one ingest is to a caller: a document it sees, or one it saw that is gone. */
  datatype Sight = Shown(doc: Document) | Gone(id: string)

  predicate Seen(docs: seq<Document>, id: string) { exists i :: 0 <= i < |docs| && docs[i].id == id }

  function DropDoc(docs: seq<Document>, id: string): seq<Document> {
    if docs == [] then [] else (if docs[0].id == id then [] else [docs[0]]) + DropDoc(docs[1..], id)
  }

  /** What the caller can tell about a history. */
  function Sights(history: seq<Entry>, groups: seq<string>): seq<Sight> {
    if history == [] then []
    else
      var front, e := history[..|history| - 1], history[|history| - 1];
      Sights(front, groups)
      + if Allows(e.acl, groups) then [Shown(e.doc)]
        else if Seen(Visible(Store(front), groups), e.doc.id) then [Gone(e.doc.id)]
        else []
  }

  function Replay(sights: seq<Sight>): seq<Document> {
    if sights == [] then []
    else
      var before := Replay(sights[..|sights| - 1]);
      match sights[|sights| - 1]
      case Shown(doc) => DropDoc(before, doc.id) + [doc]
      case Gone(id) => DropDoc(before, id)
  }

  lemma {:induction false} VisibleAppend(es: seq<Entry>, e: Entry, groups: seq<string>)
    ensures Visible(es + [e], groups) == Visible(es, groups) + if Allows(e.acl, groups) then [e.doc] else []
  {
    if es == [] {
      assert es + [e] == [e] && [e][1..] == [];
    } else {
      VisibleAppend(es[1..], e, groups);
      assert (es + [e])[1..] == es[1..] + [e];
    }
  }

  lemma {:induction false} VisibleWithout(es: seq<Entry>, id: string, groups: seq<string>)
    ensures Visible(Without(es, id), groups) == DropDoc(Visible(es, groups), id)
  {
    if es != [] {
      VisibleWithout(es[1..], id, groups);
      var rest, docs := Without(es[1..], id), Visible(es[1..], groups);
      assert ([es[0]] + rest)[1..] == rest;
      assert DropDoc([es[0].doc] + docs, id) == (if es[0].doc.id == id then [] else [es[0].doc]) + DropDoc(docs, id) by {
        assert ([es[0].doc] + docs)[1..] == docs;
      }
      if es[0].doc.id == id {
        assert Without(es, id) == rest;
      } else {
        assert Without(es, id) == [es[0]] + rest;
        assert Visible([es[0]] + rest, groups) == (if Allows(es[0].acl, groups) then [es[0].doc] else []) + Visible(rest, groups);
      }
      if !Allows(es[0].acl, groups) { assert Visible(es, groups) == docs; }
    }
  }

  lemma {:induction false} DropUnseen(docs: seq<Document>, id: string)
    requires !Seen(docs, id)
    ensures DropDoc(docs, id) == docs
  {
    if docs != [] {
      assert docs[0].id != id;
      forall i | 0 <= i < |docs[1..]| ensures docs[1..][i].id != id { assert docs[i + 1].id != id; }
      DropUnseen(docs[1..], id);
    }
  }

  /** What a caller may read is determined by what it can tell about the history. */
  lemma {:induction false} SightsDecide(history: seq<Entry>, groups: seq<string>)
    ensures Visible(Store(history), groups) == Replay(Sights(history, groups))
  {
    if history != [] {
      var front, e := history[..|history| - 1], history[|history| - 1];
      SightsDecide(front, groups);
      var store, sights := Store(front), Sights(front, groups);
      VisibleAppend(Without(store, e.doc.id), e, groups);
      VisibleWithout(store, e.doc.id, groups);
      if Allows(e.acl, groups) {
        assert (sights + [Shown(e.doc)])[..|sights|] == sights;
      } else if Seen(Visible(store, groups), e.doc.id) {
        assert (sights + [Gone(e.doc.id)])[..|sights|] == sights;
      } else {
        DropUnseen(Visible(store, groups), e.doc.id);
        assert Sights(history, groups) == sights;
      }
    }
  }

  /**
   * Non-interference: two histories that look the same to a caller give that caller the same results for
   * every query and limit. The contents and entitlements of what it may not read never matter.
   */
  lemma NonInterference(h1: seq<Entry>, h2: seq<Entry>, groups: seq<string>, query: string, limit: int, score: Scorer)
    requires Sights(h1, groups) == Sights(h2, groups)
    ensures Query(Store(h1), query, limit, groups, score) == Query(Store(h2), query, limit, groups, score)
  {
    SightsDecide(h1, groups);
    SightsDecide(h2, groups);
  }

  /** In particular, ingesting something unreadable under an id the caller does not see changes nothing. */
  lemma HiddenIngestInvisible(history: seq<Entry>, e: Entry, groups: seq<string>, query: string, limit: int, score: Scorer)
    requires !Allows(e.acl, groups) && !Seen(Visible(Store(history), groups), e.doc.id)
    ensures Query(Store(history + [e]), query, limit, groups, score) == Query(Store(history), query, limit, groups, score)
  {
    assert (history + [e])[..|history|] == history;
    NonInterference(history + [e], history, groups, query, limit, score);
  }
}
