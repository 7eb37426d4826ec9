/** The retrieval engine: a document store with a brute-force similarity search, and the
    retrieval-augmented layer above it that filters and ranks hits, builds snippets and
    highlighted terms, assembles a token-budgeted context window and scores its confidence.
    Embeddings are abstract vectors; the similarity of a stored embedding to the query is an
    oracle function supplied by the caller. */
module Rag {
  import opened Wrappers
  import PyDict
  import PySeq
  import PyStr
  import Json

  datatype DocumentType = Code | Documentation | ApiReference | Configuration | Log | Conversation | TaskDoc
  {
    function Value(): string
    {
      match this
      case Code => "code"
      case Documentation => "documentation"
      case ApiReference => "api_reference"
      case Configuration => "configuration"
      case Log => "log"
      case Conversation => "conversation"
      case TaskDoc => "task"
    }
  }

  type Embedding = seq<real>

  datatype Document = Document(
    id: string,
    content: string,
    docType: DocumentType,
    metadata: map<string, Json.Value>,
    timestamp: string,
    embedding: Option<Embedding>,
    embeddingModel: Option<string>,
    source: Option<string>,
    tags: seq<string>)

  /** One `(document_id, similarity)` pair returned by the store's search. */
  datatype Hit = Hit(docId: string, similarity: real)

  datatype SearchResult = SearchResult(
    document: Document,
    similarityScore: real,
    relevanceRank: int,
    contextSnippet: string,
    highlightedTerms: seq<string>)

  datatype RagContext = RagContext(
    query: string,
    retrievedDocuments: seq<SearchResult>,
    contextWindow: string,
    totalTokens: int,
    confidenceScore: real,
    retrievalMethod: string)

  // ---------------------------------------------------------------------------------------
  // Ordering hits: `list.sort(key=lambda x: x[1], reverse=True)`
  // ---------------------------------------------------------------------------------------

  ghost predicate SortedDesc(hits: seq<Hit>)
  {
    forall i, j :: 0 <= i < j < |hits| ==> hits[i].similarity >= hits[j].similarity
  }

  /** Places `h` in front of the first hit that does not score strictly higher. */
  function InsertDesc(h: Hit, hits: seq<Hit>): (r: seq<Hit>)
    ensures |r| == |hits| + 1
  {
    if hits == [] || hits[0].similarity <= h.similarity then [h] + hits
    else [hits[0]] + InsertDesc(h, hits[1..])
  }

  lemma {:induction false} InsertDescPermutes(h: Hit, hits: seq<Hit>)
    ensures multiset(InsertDesc(h, hits)) == multiset(hits) + multiset{h}
  {
    if !(hits == [] || hits[0].similarity <= h.similarity) {
      InsertDescPermutes(h, hits[1..]);
      assert hits == [hits[0]] + hits[1..];
    }
  }

  /** A bound on every hit and on `h` bounds every hit after the insertion. */
  lemma {:induction false} InsertDescBelow(h: Hit, hits: seq<Hit>, b: real)
    requires h.similarity <= b && forall i :: 0 <= i < |hits| ==> hits[i].similarity <= b
    ensures forall i :: 0 <= i < |InsertDesc(h, hits)| ==> InsertDesc(h, hits)[i].similarity <= b
  {
    if !(hits == [] || hits[0].similarity <= h.similarity) {
      InsertDescBelow(h, hits[1..], b);
    }
  }

  lemma {:induction false} InsertDescSorted(h: Hit, hits: seq<Hit>)
    requires SortedDesc(hits)
    ensures SortedDesc(InsertDesc(h, hits))
  {
    if !(hits == [] || hits[0].similarity <= h.similarity) {
      var rest := InsertDesc(h, hits[1..]);
      InsertDescSorted(h, hits[1..]);
      InsertDescBelow(h, hits[1..], hits[0].similarity);
      var r := [hits[0]] + rest;
      assert InsertDesc(h, hits) == r;
      forall i, j | 0 <= i < j < |r|
        ensures r[i].similarity >= r[j].similarity
      {
        assert r[j] == rest[j - 1];
        if i > 0 {
          assert r[i] == rest[i - 1];
        }
      }
    }
  }

  /** Python's stable sort by similarity, highest first. */
  function SortDesc(hits: seq<Hit>): (r: seq<Hit>)
    ensures multiset(r) == multiset(hits)
    ensures SortedDesc(r)
  {
    if hits == [] then []
    else
      assert hits == [hits[0]] + hits[1..];
      InsertDescSorted(hits[0], SortDesc(hits[1..]));
      InsertDescPermutes(hits[0], SortDesc(hits[1..]));
      InsertDesc(hits[0], SortDesc(hits[1..]))
  }

  /** The hits of similarity exactly `v`, in their order. */
  function WithScore(hits: seq<Hit>, v: real): (r: seq<Hit>)
    ensures |r| <= |hits|
  {
    if hits == [] then []
    else (if hits[0].similarity == v then [hits[0]] else []) + WithScore(hits[1..], v)
  }

  lemma WithScoreCons(x: Hit, t: seq<Hit>, v: real)
    ensures WithScore([x] + t, v) == (if x.similarity == v then [x] else []) + WithScore(t, v)
  {
    assert ([x] + t)[1..] == t;
  }

  lemma {:induction false} InsertDescStable(h: Hit, hits: seq<Hit>, v: real)
    ensures WithScore(InsertDesc(h, hits), v) == (if h.similarity == v then [h] else []) + WithScore(hits, v)
  {
    if hits == [] || hits[0].similarity <= h.similarity {
      WithScoreCons(h, hits, v);
    } else {
      var rest := InsertDesc(h, hits[1..]);
      InsertDescStable(h, hits[1..], v);
      WithScoreCons(hits[0], rest, v);
      WithScoreCons(hits[0], hits[1..], v);
      assert hits == [hits[0]] + hits[1..];
      var w := WithScore(hits[1..], v);
      if hits[0].similarity == v {
        assert WithScore(InsertDesc(h, hits), v) == [hits[0]] + w;
      } else if h.similarity == v {
        assert WithScore(InsertDesc(h, hits), v) == [h] + w;
      } else {
        assert WithScore(InsertDesc(h, hits), v) == w;
      }
    }
  }

  /** Equal-scoring hits keep their original relative order. */
  lemma {:induction false} SortDescStable(hits: seq<Hit>, v: real)
    ensures WithScore(SortDesc(hits), v) == WithScore(hits, v)
  {
    if hits != [] {
      SortDescStable(hits[1..], v);
      InsertDescStable(hits[0], SortDesc(hits[1..]), v);
    }
  }

  // ---------------------------------------------------------------------------------------
  // The store's fallback search
  // ---------------------------------------------------------------------------------------

  /** The scan over the stored documents, in storage order: every document with an embedding
      whose similarity reaches the threshold. */
  function Candidates(ids: seq<string>, docs: seq<Document>, similarity: Embedding -> real,
                      threshold: real): (r: seq<Hit>)
    requires |ids| == |docs|
    ensures |r| <= |ids|
  {
    if ids == [] then []
    else
      var n := |ids| - 1;
      var c := Candidates(ids[..n], docs[..n], similarity, threshold);
      var d := docs[n];
      if d.embedding.Some? && similarity(d.embedding.value) >= threshold
      then c + [Hit(ids[n], similarity(d.embedding.value))]
      else c
  }

  /** A candidate comes from a stored document with an embedding that reaches the threshold,
      and every such document yields a candidate. */
  lemma {:induction false} CandidatesExact(ids: seq<string>, docs: seq<Document>,
                                           similarity: Embedding -> real, threshold: real)
    requires |ids| == |docs|
    ensures forall h :: h in Candidates(ids, docs, similarity, threshold) ==> exists i :: (0 <= i < |ids| && ids[i] == h.docId && docs[i].embedding.Some?
                                   && h.similarity == similarity(docs[i].embedding.value) && h.similarity >= threshold)
    ensures forall i :: 0 <= i < |ids| && docs[i].embedding.Some? && similarity(docs[i].embedding.value) >= threshold
                        ==> Hit(ids[i], similarity(docs[i].embedding.value)) in Candidates(ids, docs, similarity, threshold)
  {
    if ids != [] {
      var n := |ids| - 1;
      CandidatesExact(ids[..n], docs[..n], similarity, threshold);
    }
  }

  lemma {:induction false} CandidatesSound(ids: seq<string>, docs: seq<Document>,
                                           similarity: Embedding -> real, threshold: real)
    requires |ids| == |docs|
    ensures forall i :: 0 <= i < |Candidates(ids, docs, similarity, threshold)| ==>
              Candidates(ids, docs, similarity, threshold)[i].similarity >= threshold
              && Candidates(ids, docs, similarity, threshold)[i].docId in ids
  {
    if ids != [] {
      var n := |ids| - 1;
      CandidatesSound(ids[..n], docs[..n], similarity, threshold);
      assert forall x :: x in ids[..n] ==> x in ids;
    }
  }

  /** Sorting only reorders: every sorted hit is one of the input hits. */
  lemma SortDescElements(hits: seq<Hit>)
    ensures forall i :: 0 <= i < |SortDesc(hits)| ==> SortDesc(hits)[i] in hits
  {
    var s := SortDesc(hits);
    forall i | 0 <= i < |s|
      ensures s[i] in hits
    {
      assert s[i] in multiset(s);
    }
  }

  /** `VectorDatabase.search` without a vector index: the top `k` candidates by similarity. */
  function FallbackSearch(docs: PyDict.Table<string, Document>, similarity: Embedding -> real, k: int,
                          threshold: real): (r: seq<Hit>)
    ensures docs.keys == [] ==> r == []
    ensures SortedDesc(r)
    ensures forall i :: 0 <= i < |r| ==> r[i].similarity >= threshold && r[i].docId in docs.keys
    ensures 0 <= k ==> |r| <= k
  {
    if docs.keys == [] then []
    else
      var c := Candidates(docs.keys, docs.values, similarity, threshold);
      CandidatesSound(docs.keys, docs.values, similarity, threshold);
      SortDescElements(c);
      PySeq.Prefix(SortDesc(c), k)
  }

  // ---------------------------------------------------------------------------------------
  // The document store
  // ---------------------------------------------------------------------------------------

  class VectorDatabase {
    const dimension: int
    const indexType: string
    const metric: string
    var documents: PyDict.Table<string, Document>
    var idToIndex: map<string, nat>
    var indexToId: map<nat, string>
    var nextIndex: nat

    /** The bookkeeping the store keeps: each document filed under its own id and holding an
        embedding; every stored id has a position; every position below `nextIndex` names an id
        whose latest position it is or was. */
    ghost predicate Valid()
      reads this
    {
      && documents.Valid()
      && (forall i :: 0 <= i < |documents.keys| ==>
            documents.values[i].id == documents.keys[i] && documents.values[i].embedding.Some?)
      && (forall id :: id in documents.keys ==> id in idToIndex)
      && (forall id :: id in idToIndex ==> idToIndex[id] in indexToId && indexToId[idToIndex[id]] == id)
      && (forall n: nat :: n in indexToId <==> n < nextIndex)
      && (forall n :: n in indexToId ==> indexToId[n] in idToIndex)
    }

    /** Without a vector index, as when the index library is unavailable. */
    constructor(dimension: int, indexType: string, metric: string)
      ensures Valid()
      ensures this.dimension == dimension && this.indexType == indexType && this.metric == metric
      ensures documents.keys == [] && idToIndex == map[] && indexToId == map[] && nextIndex == 0
    {
      this.dimension := dimension;
      this.indexType := indexType;
      this.metric := metric;
      documents := PyDict.Empty();
      idToIndex := map[];
      indexToId := map[];
      nextIndex := 0;
    }

    /** Rejects a document without an embedding; otherwise files it under its id at the next
        position. */
    method AddDocument(document: Document) returns (ok: bool)
      requires Valid()
      modifies this
      ensures Valid()
      ensures ok == document.embedding.Some?
      ensures ok ==> && documents == old(documents).Put(document.id, document)
                     && idToIndex == old(idToIndex)[document.id := old(nextIndex)]
                     && indexToId == old(indexToId)[old(nextIndex) := document.id]
                     && nextIndex == old(nextIndex) + 1
      ensures !ok ==> && documents == old(documents) && idToIndex == old(idToIndex)
                      && indexToId == old(indexToId) && nextIndex == old(nextIndex)
    {
      if document.embedding.None? {
        return false;
      }
      ghost var d0 := documents;
      documents := documents.Put(document.id, document);
      forall i | 0 <= i < |documents.keys|
        ensures documents.values[i].id == documents.keys[i] && documents.values[i].embedding.Some?
      {
        if i < |d0.keys| && d0.keys[i] != document.id {
          PyDict.IndexOfUnique(d0, i);
        }
      }
      idToIndex := idToIndex[document.id := nextIndex];
      indexToId := indexToId[nextIndex := document.id];
      nextIndex := nextIndex + 1;
      ok := true;
    }

    /** `get_document`: the document filed under `id`, if any. */
    function GetDocument(id: string): (r: Option<Document>)
      reads this
      ensures r.None? <==> id !in documents.keys
      ensures Valid() && r.Some? ==> r.value.id == id && r.value.embedding.Some? && r.value in documents.values
    {
      var r := documents.Get(id);
      assert r.Some? ==> documents.keys[PyDict.IndexOf(documents.keys, id)] == id;
      r
    }

    /** Deletes the document only; its positions stay in both index maps. */
    method RemoveDocument(id: string) returns (ok: bool)
      requires Valid()
      modifies this`documents
      ensures Valid()
      ensures ok == (id in old(documents.keys))
      ensures documents == old(documents).Remove(id)
      ensures GetDocument(id) == None
      ensures forall x :: x != id ==> GetDocument(x) == old(GetDocument(x))
    {
      ghost var d0 := documents;
      ok := id in documents.keys;
      if ok {
        ghost var j := PyDict.IndexOf(d0.keys, id);
        documents := documents.Remove(id);
        forall i | 0 <= i < |documents.keys|
          ensures documents.values[i].id == documents.keys[i] && documents.values[i].embedding.Some?
                  && documents.keys[i] in d0.keys
        {
          var i' := if i < j then i else i + 1;
          assert documents.keys[i] == d0.keys[i'] && documents.values[i] == d0.values[i'];
        }
      }
      PyDict.GetRemove(d0, id);
      forall x | x != id
        ensures documents.Get(x) == d0.Get(x)
      {
        PyDict.GetRemoveOther(d0, id, x);
      }
    }

    /** `search` on the numpy fallback path: scan, sort by similarity, keep the first `k`. */
    method Search(similarity: Embedding -> real, k: int, threshold: real) returns (r: seq<Hit>)
      ensures r == FallbackSearch(documents, similarity, k, threshold)
    {
      if |documents.keys| == 0 {
        return [];
      }
      var similarities: seq<Hit> := [];
      var i := 0;
      while i < |documents.keys|
        invariant 0 <= i <= |documents.keys|
        invariant similarities == Candidates(documents.keys[..i], documents.values[..i], similarity, threshold)
      {
        assert documents.keys[..i + 1][..i] == documents.keys[..i];
        assert documents.values[..i + 1][..i] == documents.values[..i];
        var document := documents.values[i];
        if document.embedding.Some? {
          var score := similarity(document.embedding.value);
          if score >= threshold {
            similarities := similarities + [Hit(documents.keys[i], score)];
          }
        }
        i := i + 1;
      }
      assert documents.keys[..i] == documents.keys && documents.values[..i] == documents.values;
      r := PySeq.Prefix(SortDesc(similarities), k);
    }
  }

  // ---------------------------------------------------------------------------------------
  // Filtering and ranking
  // ---------------------------------------------------------------------------------------

  /** An empty filter list passes everything (Python's `if doc_types and ...`). */
  predicate Passes(d: Document, docTypes: seq<DocumentType>, tags: seq<string>)
  {
    && (docTypes == [] || d.docType in docTypes)
    && (tags == [] || exists t :: t in tags && t in d.tags)
  }

  /** The raw hits whose document is still stored and passes the filters, paired with it. */
  function Passing(raw: seq<Hit>, docs: PyDict.Table<string, Document>, docTypes: seq<DocumentType>,
                   tags: seq<string>): (r: seq<(Document, real)>)
    ensures |r| <= |raw|
  {
    if raw == [] then []
    else
      var p := Passing(raw[..|raw| - 1], docs, docTypes, tags);
      var h := raw[|raw| - 1];
      match docs.Get(h.docId)
      case None => p
      case Some(d) => if Passes(d, docTypes, tags) then p + [(d, h.similarity)] else p
  }

  lemma {:induction false} PassingSound(raw: seq<Hit>, docs: PyDict.Table<string, Document>,
                                        docTypes: seq<DocumentType>, tags: seq<string>, lo: real)
    requires forall j :: 0 <= j < |raw| ==> raw[j].similarity >= lo
    ensures forall i :: 0 <= i < |Passing(raw, docs, docTypes, tags)| ==>
              && Passing(raw, docs, docTypes, tags)[i].1 >= lo
              && Passing(raw, docs, docTypes, tags)[i].0 in docs.values
              && Passes(Passing(raw, docs, docTypes, tags)[i].0, docTypes, tags)
  {
    if raw != [] {
      var init := raw[..|raw| - 1];
      var h := raw[|raw| - 1];
      PassingSound(init, docs, docTypes, tags, lo);
      var q := Passing(init, docs, docTypes, tags);
      var p := Passing(raw, docs, docTypes, tags);
      if docs.Get(h.docId).Some? {
        var d := docs.Get(h.docId).value;
        assert d == docs.values[PyDict.IndexOf(docs.keys, h.docId)];
        if Passes(d, docTypes, tags) {
          assert p == q + [(d, h.similarity)];
          forall i | 0 <= i < |p|
            ensures p[i].1 >= lo && p[i].0 in docs.values && Passes(p[i].0, docTypes, tags)
          {
            if i < |q| {
              assert p[i] == q[i];
              assert q[i].1 >= lo;
              assert q[i].0 in docs.values;
              assert Passes(q[i].0, docTypes, tags);
            } else {
              assert p[i] == (d, h.similarity);
              assert h.similarity >= lo;
            }
          }
        }
      }
    }
  }

  lemma {:induction false} PassingSorted(raw: seq<Hit>, docs: PyDict.Table<string, Document>,
                                         docTypes: seq<DocumentType>, tags: seq<string>)
    requires SortedDesc(raw)
    ensures forall i, j :: 0 <= i < j < |Passing(raw, docs, docTypes, tags)| ==>
              Passing(raw, docs, docTypes, tags)[i].1 >= Passing(raw, docs, docTypes, tags)[j].1
  {
    if raw != [] {
      var init := raw[..|raw| - 1];
      var h := raw[|raw| - 1];
      PassingSorted(init, docs, docTypes, tags);
      PassingSound(init, docs, docTypes, tags, h.similarity);
      var q := Passing(init, docs, docTypes, tags);
      var p := Passing(raw, docs, docTypes, tags);
      if docs.Get(h.docId).Some? && Passes(docs.Get(h.docId).value, docTypes, tags) {
        assert p == q + [(docs.Get(h.docId).value, h.similarity)];
        forall i, j | 0 <= i < j < |p|
          ensures p[i].1 >= p[j].1
        {
          assert p[i] == q[i];
          if j < |q| {
            assert p[j] == q[j];
          }
        }
      }
    }
  }

  /** One step of the filtering loop of `RAGSystem.search` on the results `c` so far: it has
      stopped once a result brought the count to `k`, so it always keeps the first survivor. */
  function CollectNext(c: seq<(Document, real)>, h: Hit, docs: PyDict.Table<string, Document>,
                       docTypes: seq<DocumentType>, tags: seq<string>, k: int): seq<(Document, real)>
  {
    if c != [] && |c| >= k then c
    else match docs.Get(h.docId)
      case None => c
      case Some(d) => if Passes(d, docTypes, tags) then c + [(d, h.similarity)] else c
  }

  /** A step keeps the results so far, or appends the hit's document when it is stored and
      passes the filters. */
  lemma CollectNextGrows(c: seq<(Document, real)>, h: Hit, docs: PyDict.Table<string, Document>,
                         docTypes: seq<DocumentType>, tags: seq<string>, k: int)
    ensures var n := CollectNext(c, h, docs, docTypes, tags, k);
            || n == c
            || (&& docs.Get(h.docId).Some? && Passes(docs.Get(h.docId).value, docTypes, tags)
                && n == c + [(docs.Get(h.docId).value, h.similarity)])
  {
  }

  function Collect(raw: seq<Hit>, docs: PyDict.Table<string, Document>, docTypes: seq<DocumentType>,
                   tags: seq<string>, k: int): (r: seq<(Document, real)>)
  {
    if raw == [] then []
    else CollectNext(Collect(raw[..|raw| - 1], docs, docTypes, tags, k), raw[|raw| - 1], docs, docTypes, tags, k)
  }

  lemma CollectStep(raw: seq<Hit>, i: nat, docs: PyDict.Table<string, Document>, docTypes: seq<DocumentType>,
                    tags: seq<string>, k: int)
    requires i < |raw|
    ensures Collect(raw[..i + 1], docs, docTypes, tags, k)
            == CollectNext(Collect(raw[..i], docs, docTypes, tags, k), raw[i], docs, docTypes, tags, k)
  {
    assert raw[..i + 1][..i] == raw[..i];
  }

  function Take<T>(s: seq<T>, n: nat): (r: seq<T>)
    ensures |r| == PySeq.Min(|s|, n) && r == s[..|r|]
  {
    if |s| <= n then s else s[..n]
  }

  lemma {:induction false} PassingPrefix(raw: seq<Hit>, docs: PyDict.Table<string, Document>,
                                         docTypes: seq<DocumentType>, tags: seq<string>)
    requires raw != []
    ensures var p := Passing(raw, docs, docTypes, tags);
            var q := Passing(raw[..|raw| - 1], docs, docTypes, tags);
            |q| <= |p| <= |q| + 1 && p[..|q|] == q
  {
  }

  /** The loop keeps exactly the first `max(k, 1)` surviving hits. */
  lemma {:induction false} CollectIsTake(raw: seq<Hit>, docs: PyDict.Table<string, Document>,
                                         docTypes: seq<DocumentType>, tags: seq<string>, k: int)
    ensures Collect(raw, docs, docTypes, tags, k) == Take(Passing(raw, docs, docTypes, tags), PySeq.Max(k, 1))
  {
    if raw != [] {
      var init := raw[..|raw| - 1];
      var cap := PySeq.Max(k, 1);
      CollectIsTake(init, docs, docTypes, tags, k);
      PassingPrefix(raw, docs, docTypes, tags);
      var q := Passing(init, docs, docTypes, tags);
      var p := Passing(raw, docs, docTypes, tags);
      if |q| >= cap {
        assert p[..cap] == q[..cap];
      }
    }
  }

  /** Once the loop has stopped, later hits change nothing. */
  lemma {:induction false} CollectStopped(raw: seq<Hit>, docs: PyDict.Table<string, Document>,
                                          docTypes: seq<DocumentType>, tags: seq<string>, k: int, i: nat, j: nat)
    requires i <= j <= |raw|
    requires var c := Collect(raw[..i], docs, docTypes, tags, k); c != [] && |c| >= k
    ensures Collect(raw[..j], docs, docTypes, tags, k) == Collect(raw[..i], docs, docTypes, tags, k)
    decreases j - i
  {
    if i < j {
      CollectStopped(raw, docs, docTypes, tags, k, i, j - 1);
      assert raw[..j][..j - 1] == raw[..j - 1];
    }
  }

  /** What the filtering loop keeps from threshold-passing, descending hits: at most `max(k, 1)`
      of them, stored, passing the filters, above the threshold and still descending. */
  lemma CollectFacts(raw: seq<Hit>, docs: PyDict.Table<string, Document>, docTypes: seq<DocumentType>,
                     tags: seq<string>, k: int, threshold: real, c: seq<(Document, real)>)
    requires SortedDesc(raw)
    requires forall j :: 0 <= j < |raw| ==> raw[j].similarity >= threshold
    requires 0 <= k ==> |raw| <= k * 2
    requires c == Collect(raw, docs, docTypes, tags, k)
    ensures 0 <= k ==> |c| <= k
    ensures k < 0 ==> |c| <= 1
    ensures forall i :: 0 <= i < |c| ==> c[i].1 >= threshold && c[i].0 in docs.values && Passes(c[i].0, docTypes, tags)
    ensures forall i, j :: 0 <= i < j < |c| ==> c[i].1 >= c[j].1
  {
    var p := Passing(raw, docs, docTypes, tags);
    CollectIsTake(raw, docs, docTypes, tags, k);
    PassingSound(raw, docs, docTypes, tags, threshold);
    PassingSorted(raw, docs, docTypes, tags);
    assert c == p[..|c|];
    forall i | 0 <= i < |c|
      ensures c[i].1 >= threshold && c[i].0 in docs.values && Passes(c[i].0, docTypes, tags)
    {
      assert c[i] == p[i];
    }
    forall i, j | 0 <= i < j < |c|
      ensures c[i].1 >= c[j].1
    {
      assert c[i] == p[i] && c[j] == p[j];
    }
  }

  /** The search result for a surviving hit at the given rank. */
  function ResultFor(p: (Document, real), rank: int, query: string): SearchResult
  {
    SearchResult(p.0, p.1, rank, ContextSnippet(p.0.content, query, 200), HighlightedTerms(query, p.0.content))
  }

  /** Numbers the results 1, 2, ... and attaches snippet and highlighted terms. */
  function Ranked(ps: seq<(Document, real)>, query: string): (r: seq<SearchResult>)
    ensures |r| == |ps|
    ensures forall i :: 0 <= i < |r| ==>
              r[i].document == ps[i].0 && r[i].similarityScore == ps[i].1 && r[i].relevanceRank == i + 1
  {
    if ps == [] then []
    else
      var r := Ranked(ps[..|ps| - 1], query);
      assert forall i :: 0 <= i < |ps| - 1 ==> ps[..|ps| - 1][i] == ps[i];
      r + [ResultFor(ps[|ps| - 1], |ps|, query)]
  }

  lemma RankedSnoc(ps: seq<(Document, real)>, p: (Document, real), query: string)
    ensures Ranked(ps + [p], query) == Ranked(ps, query) + [ResultFor(p, |ps| + 1, query)]
  {
    assert (ps + [p])[..|ps|] == ps;
  }

  /** `RAGSystem.search`: at most `2k` raw hits are examined, in store order; results are
      numbered consecutively, respect the filters and the threshold, come from stored documents
      and keep the descending similarity order. */
  function RankedSearch(docs: PyDict.Table<string, Document>, query: string, k: int,
                        docTypes: seq<DocumentType>, tags: seq<string>, threshold: real,
                        similarity: Embedding -> real): (r: seq<SearchResult>)
    ensures forall i :: 0 <= i < |r| ==> r[i].relevanceRank == i + 1
    ensures 0 <= k ==> |r| <= k
    ensures k < 0 ==> |r| <= 1
    ensures forall i :: 0 <= i < |r| ==>
              && r[i].similarityScore >= threshold
              && r[i].document in docs.values
              && Passes(r[i].document, docTypes, tags)
    ensures forall i, j :: 0 <= i < j < |r| ==> r[i].similarityScore >= r[j].similarityScore
  {
    var raw := FallbackSearch(docs, similarity, k * 2, threshold);
    var c := Collect(raw, docs, docTypes, tags, k);
    CollectFacts(raw, docs, docTypes, tags, k, threshold, c);
    Ranked(c, query)
  }

  // ---------------------------------------------------------------------------------------
  // Snippets and highlighted terms
  // ---------------------------------------------------------------------------------------

  predicate MatchesQuery(word: string, queryWords: seq<string>)
  {
    exists qw :: qw in queryWords && PyStr.Contains(word, qw)
  }

  /** How many words of `section` contain some query word as a substring. */
  function Hits(section: seq<string>, queryWords: seq<string>): (n: nat)
    ensures n <= |section|
  {
    if section == [] then 0
    else Hits(section[..|section| - 1], queryWords) + (if MatchesQuery(section[|section| - 1], queryWords) then 1 else 0)
  }

  /** The score of every window start the loop examines. */
  function WindowScores(words: seq<string>, queryWords: seq<string>, n: nat, m: nat): (s: seq<nat>)
    requires m <= |words|
    ensures |s| == m
    ensures forall i :: 0 <= i < m ==> s[i] == Hits(PySeq.Window(words, i, n), queryWords)
  {
    seq(m, i requires 0 <= i < m => Hits(PySeq.Window(words, i, n), queryWords))
  }

  /** `(best_start, best_score)` after the scoring loop has seen `scores`: a start is taken only
      when it beats the best so far strictly, beginning from `(0, 0)`. */
  function BestStart(scores: seq<nat>): (b: (nat, nat))
    ensures b.0 == 0 || b.0 < |scores|
  {
    if scores == [] then (0, 0)
    else
      var prev := BestStart(scores[..|scores| - 1]);
      if scores[|scores| - 1] > prev.1 then (|scores| - 1, scores[|scores| - 1]) else prev
  }

  /** The chosen start is the earliest window with the most hits, and 0 when nothing hits. */
  lemma {:induction false} BestStartIsFirstMax(scores: seq<nat>)
    ensures forall i :: 0 <= i < |scores| ==> scores[i] <= BestStart(scores).1
    ensures forall i :: 0 <= i < BestStart(scores).0 ==> scores[i] < BestStart(scores).1
    ensures BestStart(scores).1 == 0 ==> BestStart(scores).0 == 0
    ensures BestStart(scores).1 > 0 ==> BestStart(scores).0 < |scores| && scores[BestStart(scores).0] == BestStart(scores).1
  {
    if scores != [] {
      var init := scores[..|scores| - 1];
      BestStartIsFirstMax(init);
      assert forall i :: 0 <= i < |init| ==> init[i] == scores[i];
    }
  }

  /** The number of window starts the scoring loop examines: `range(len(words) - n)`, which
      leaves out the last full window `len(words) - n`. */
  function SnippetStarts(words: seq<string>, n: nat): (m: nat)
    ensures m <= |words|
  {
    if |words| >= n then |words| - n else 0
  }

  /** `_create_context_snippet`: the best window of `max_length // 10` lower-cased words, cut
      to `max_length` characters plus an ellipsis. */
  function ContextSnippet(content: string, query: string, maxLength: nat): (r: string)
    ensures |r| <= maxLength + 3
  {
    var words := PyStr.Words(PyStr.Lower(content));
    var queryWords := PyStr.Words(PyStr.Lower(query));
    var n := maxLength / 10;
    var start := BestStart(WindowScores(words, queryWords, n, SnippetStarts(words, n))).0;
    var snippet := PyStr.Join(PySeq.Window(words, start, n), " ");
    if |snippet| > maxLength then snippet[..maxLength] + "..." else snippet
  }

  method CreateContextSnippet(content: string, query: string, maxLength: nat) returns (snippet: string)
    ensures snippet == ContextSnippet(content, query, maxLength)
  {
    var words := PyStr.Words(PyStr.Lower(content));
    var queryWords := PyStr.Words(PyStr.Lower(query));
    var n := maxLength / 10;
    var bestStart := FindBestStart(words, queryWords, n);
    snippet := PyStr.Join(PySeq.Window(words, bestStart, n), " ");
    if |snippet| > maxLength {
      snippet := snippet[..maxLength] + "...";
    }
  }

  lemma WindowScoresSnoc(words: seq<string>, queryWords: seq<string>, n: nat, i: nat)
    requires i < |words|
    ensures WindowScores(words, queryWords, n, i + 1)
            == WindowScores(words, queryWords, n, i) + [Hits(PySeq.Window(words, i, n), queryWords)]
  {
  }

  lemma BestStartSnoc(scores: seq<nat>, x: nat)
    ensures BestStart(scores + [x]) == if x > BestStart(scores).1 then (|scores|, x) else BestStart(scores)
  {
    assert (scores + [x])[..|scores|] == scores;
  }

  /** The scoring loop of `_create_context_snippet`. */
  method FindBestStart(words: seq<string>, queryWords: seq<string>, n: nat) returns (bestStart: nat)
    ensures bestStart == BestStart(WindowScores(words, queryWords, n, SnippetStarts(words, n))).0
  {
    var bestScore: nat := 0;
    bestStart := 0;
    var m := SnippetStarts(words, n);
    for i := 0 to m
      invariant (bestStart, bestScore) == BestStart(WindowScores(words, queryWords, n, i))
    {
      var score := Hits(PySeq.Window(words, i, n), queryWords);
      WindowScoresSnoc(words, queryWords, n, i);
      BestStartSnoc(WindowScores(words, queryWords, n, i), score);
      if score > bestScore {
        bestScore := score;
        bestStart := i;
      }
    }
  }

  /** The words of `queryWords` that also occur in `contentWords`, in query order. */
  function CommonWords(queryWords: seq<string>, contentWords: seq<string>): (r: seq<string>)
    ensures forall w :: w in r <==> w in queryWords && w in contentWords
  {
    if queryWords == [] then []
    else
      var rest := CommonWords(queryWords[1..], contentWords);
      assert forall w :: w in queryWords <==> w == queryWords[0] || w in queryWords[1..];
      (if queryWords[0] in contentWords then [queryWords[0]] else []) + rest
  }

  /** `_extract_highlighted_terms`: up to ten distinct words shared by query and content; when
      fewer than ten are returned, none is missing. */
  function HighlightedTerms(query: string, content: string): (r: seq<string>)
    ensures |r| <= 10
    ensures PySeq.NoDuplicates(r)
    ensures forall t :: t in r ==> t in PyStr.Words(PyStr.Lower(query)) && t in PyStr.Words(PyStr.Lower(content))
    ensures |r| < 10 ==> forall t :: t in PyStr.Words(PyStr.Lower(query)) && t in PyStr.Words(PyStr.Lower(content)) ==> t in r
  {
    var common := PySeq.Dedup(CommonWords(PyStr.Words(PyStr.Lower(query)), PyStr.Words(PyStr.Lower(content))));
    var r := PySeq.Prefix(common, 10);
    assert forall t :: t in r ==> t in common;
    r
  }

  // ---------------------------------------------------------------------------------------
  // Confidence and context assembly
  // ---------------------------------------------------------------------------------------

  function RMin(a: real, b: real): real { if a <= b then a else b }

  function Sum(xs: seq<real>): real
  {
    if xs == [] then 0.0 else Sum(xs[..|xs| - 1]) + xs[|xs| - 1]
  }

  function CountAbove(xs: seq<real>, bound: real): (n: nat)
    ensures n <= |xs|
  {
    if xs == [] then 0 else CountAbove(xs[..|xs| - 1], bound) + (if xs[|xs| - 1] > bound then 1 else 0)
  }

  function Mean(xs: seq<real>): real
    requires xs != []
  {
    Sum(xs) / (|xs| as real)
  }

  /** `_calculate_confidence` on the results' similarity scores: the mean plus 0.1 per score
      above 0.8 (at most 0.3), capped at 1. */
  function Confidence(scores: seq<real>): (c: real)
    ensures scores == [] ==> c == 0.0
    ensures c <= 1.0
    ensures scores != [] ==> RMin(Mean(scores), 1.0) <= c <= Mean(scores) + 0.3
  {
    if scores == [] then 0.0
    else RMin(Mean(scores) + RMin(CountAbove(scores, 0.8) as real * 0.1, 0.3), 1.0)
  }

  function Scores(results: seq<SearchResult>): (s: seq<real>)
    ensures |s| == |results| && forall i :: 0 <= i < |s| ==> s[i] == results[i].similarityScore
  {
    seq(|results|, i requires 0 <= i < |results| => results[i].similarityScore)
  }

  /** The state of `get_context`'s assembly loop; `full` means the loop has broken off. */
  datatype Assembly = Assembly(parts: seq<string>, totalTokens: int, used: seq<SearchResult>, full: bool)

  /** The token estimate: one token per four characters. */
  function Tokens(d: Document): nat
  {
    |d.content| / 4
  }

  function TokenSum(rs: seq<SearchResult>): nat
  {
    if rs == [] then 0 else TokenSum(rs[..|rs| - 1]) + Tokens(rs[|rs| - 1].document)
  }

  /** `[Source: ...]` followed by a line break; a missing or empty source reads "Unknown". */
  function SourceHeader(d: Document): string
  {
    "[Source: " + (if d.source.None? || d.source.value == "" then "Unknown" else d.source.value) + "]\n"
  }

  /** One iteration of the loop: the whole document if it fits the budget, otherwise a
      truncated tail when more than 100 tokens remain, and then stop. */
  function Feed(a: Assembly, r: SearchResult, maxTokens: int): (b: Assembly)
    ensures a.full ==> b == a
    ensures b.used == a.used || b.used == a.used + [r]
    ensures |b.parts| - |a.parts| == |b.used| - |a.used|
    ensures !b.full ==> b.used == a.used + [r] && b.totalTokens == a.totalTokens + Tokens(r.document)
  {
    if a.full then a
    else
      var d := r.document;
      if a.totalTokens + Tokens(d) <= maxTokens then
        Assembly(a.parts + [SourceHeader(d) + d.content], a.totalTokens + Tokens(d), a.used + [r], false)
      else
        var remaining := maxTokens - a.totalTokens;
        if remaining > 100 then
          Assembly(a.parts + [SourceHeader(d) + PySeq.Prefix(d.content, remaining * 4) + "..."], maxTokens,
                   a.used + [r], true)
        else a.(full := true)
  }

  function Assemble(rs: seq<SearchResult>, maxTokens: int): (b: Assembly)
    ensures |b.used| <= |rs|
  {
    if rs == [] then Assembly([], 0, [], false)
    else Feed(Assemble(rs[..|rs| - 1], maxTokens), rs[|rs| - 1], maxTokens)
  }

  /** The assembled context uses a prefix of the results, one part each, and only stops early
      at a document that does not fit. */
  lemma {:induction false} AssembleUsed(rs: seq<SearchResult>, maxTokens: int)
    ensures |Assemble(rs, maxTokens).parts| == |Assemble(rs, maxTokens).used| <= |rs|
    ensures Assemble(rs, maxTokens).used == rs[..|Assemble(rs, maxTokens).used|]
    ensures !Assemble(rs, maxTokens).full ==> Assemble(rs, maxTokens).used == rs
  {
    if rs != [] {
      var init := rs[..|rs| - 1];
      var r := rs[|rs| - 1];
      AssembleUsed(init, maxTokens);
      var a := Assemble(init, maxTokens);
      var b := Feed(a, r, maxTokens);
      assert rs[..|a.used|] == init[..|a.used|];
      if !a.full && b.used != a.used {
        assert b.used == a.used + [r];
        assert rs == init + [r];
      }
    }
  }

  /** A non-negative budget is respected.  While the loop runs on, the total is the token
      count of the documents used; it differs from that count only after a truncated tail,
      which ends the loop with the total set to the budget itself. */
  lemma {:induction false} AssembleBudget(rs: seq<SearchResult>, maxTokens: int)
    ensures 0 <= maxTokens ==> 0 <= Assemble(rs, maxTokens).totalTokens <= maxTokens
    ensures Assemble(rs, maxTokens).totalTokens == maxTokens
            || Assemble(rs, maxTokens).totalTokens == TokenSum(Assemble(rs, maxTokens).used)
    ensures !Assemble(rs, maxTokens).full ==>
              Assemble(rs, maxTokens).totalTokens == TokenSum(Assemble(rs, maxTokens).used)
    ensures Assemble(rs, maxTokens).totalTokens != TokenSum(Assemble(rs, maxTokens).used) ==>
              Assemble(rs, maxTokens).full && Assemble(rs, maxTokens).totalTokens == maxTokens
  {
    if rs != [] {
      var init := rs[..|rs| - 1];
      var r := rs[|rs| - 1];
      AssembleBudget(init, maxTokens);
      var a := Assemble(init, maxTokens);
      var b := Feed(a, r, maxTokens);
      if !a.full && a.totalTokens + Tokens(r.document) <= maxTokens {
        assert b.used == a.used + [r];
        assert (a.used + [r])[..|a.used|] == a.used;
      }
    }
  }

  lemma AssembleStep(rs: seq<SearchResult>, i: nat, maxTokens: int)
    requires i < |rs|
    ensures Assemble(rs[..i + 1], maxTokens) == Feed(Assemble(rs[..i], maxTokens), rs[i], maxTokens)
  {
    assert rs[..i + 1][..i] == rs[..i];
  }

  /** Once the loop has broken off, later results change nothing. */
  lemma {:induction false} AssembleStopped(rs: seq<SearchResult>, maxTokens: int, i: nat, j: nat)
    requires i <= j <= |rs| && Assemble(rs[..i], maxTokens).full
    ensures Assemble(rs[..j], maxTokens) == Assemble(rs[..i], maxTokens)
    decreases j - i
  {
    if i < j {
      AssembleStopped(rs, maxTokens, i, j - 1);
      assert rs[..j][..j - 1] == rs[..j - 1];
    }
  }

  /** `max_tokens or self.max_context_tokens`. */
  function Budget(maxTokens: Option<int>, default: int): int
  {
    if maxTokens.None? || maxTokens.value == 0 then default else maxTokens.value
  }

  /** The context package `get_context` returns for the given search results. */
  function ContextFor(query: string, results: seq<SearchResult>, maxTokens: int): (ctx: RagContext)
    ensures 0 <= maxTokens ==> 0 <= ctx.totalTokens <= maxTokens
    ensures |ctx.retrievedDocuments| <= |results|
    ensures ctx.retrievedDocuments == results[..|ctx.retrievedDocuments|]
    ensures ctx.retrievedDocuments == [] ==> ctx.confidenceScore == 0.0
    ensures ctx.confidenceScore <= 1.0
  {
    var a := Assemble(results, maxTokens);
    AssembleUsed(results, maxTokens);
    AssembleBudget(results, maxTokens);
    RagContext(query, a.used, PyStr.Join(a.parts, "\n\n"), a.totalTokens,
               if a.used == [] then 0.0 else Confidence(Scores(a.used)), "vector_similarity")
  }

  /** The body of `get_context`'s assembly loop for one search result, before the loop has
      broken off. */
  method AddPart(parts: seq<string>, totalTokens: int, used: seq<SearchResult>, r: SearchResult, budget: int)
    returns (parts': seq<string>, totalTokens': int, used': seq<SearchResult>, full: bool)
    ensures Assembly(parts', totalTokens', used', full) == Feed(Assembly(parts, totalTokens, used, false), r, budget)
  {
    parts', totalTokens', used', full := parts, totalTokens, used, false;
    var d := r.document;
    var contentTokens := |d.content| / 4;
    if totalTokens + contentTokens <= budget {
      parts' := parts + [SourceHeader(d) + d.content];
      totalTokens' := totalTokens + contentTokens;
      used' := used + [r];
    } else {
      var remaining := budget - totalTokens;
      if remaining > 100 {
        parts' := parts + [SourceHeader(d) + PySeq.Prefix(d.content, remaining * 4) + "..."];
        totalTokens' := budget;
        used' := used + [r];
      }
      full := true;
    }
  }

  // ---------------------------------------------------------------------------------------
  // The retrieval-augmented layer
  // ---------------------------------------------------------------------------------------

  class RagSystem {
    const vectorDb: VectorDatabase
    const maxContextTokens: int
    const contextOverlap: int

    constructor(dimension: int, indexType: string, metric: string)
      ensures fresh(vectorDb) && vectorDb.Valid() && vectorDb.documents.keys == []
      ensures vectorDb.dimension == dimension && vectorDb.indexType == indexType && vectorDb.metric == metric
      ensures maxContextTokens == 4000 && contextOverlap == 200
    {
      vectorDb := new VectorDatabase(dimension, indexType, metric);
      maxContextTokens := 4000;
      contextOverlap := 200;
    }

    /** `add_document` with the generated id and the computed embedding given: the embedding
        is always present, so the document is always stored and its id returned. */
    method AddDocument(content: string, docType: DocumentType, metadata: Option<map<string, Json.Value>>,
                       source: Option<string>, tags: Option<seq<string>>, docId: string,
                       embedding: Embedding, embeddingModel: string, now: string) returns (id: string)
      requires vectorDb.Valid()
      modifies vectorDb
      ensures vectorDb.Valid()
      ensures id == docId
      ensures vectorDb.documents == old(vectorDb.documents).Put(docId, Document(docId, content, docType,
                if metadata.None? then map[] else metadata.value, now, Some(embedding), Some(embeddingModel),
                source, if tags.None? then [] else tags.value))
      ensures vectorDb.idToIndex == old(vectorDb.idToIndex)[docId := old(vectorDb.nextIndex)]
      ensures vectorDb.indexToId == old(vectorDb.indexToId)[old(vectorDb.nextIndex) := docId]
      ensures vectorDb.nextIndex == old(vectorDb.nextIndex) + 1
    {
      var document := Document(docId, content, docType, if metadata.None? then map[] else metadata.value,
                               now, Some(embedding), Some(embeddingModel), source,
                               if tags.None? then [] else tags.value);
      var ok := vectorDb.AddDocument(document);
      id := if ok then docId else "";
    }

    /** `search`: the store is asked for `2k` hits, which are filtered and numbered. */
    method Search(query: string, k: int, docTypes: seq<DocumentType>, tags: seq<string>, threshold: real,
                  similarity: Embedding -> real) returns (results: seq<SearchResult>)
      ensures results == RankedSearch(vectorDb.documents, query, k, docTypes, tags, threshold, similarity)
    {
      var raw := vectorDb.Search(similarity, k * 2, threshold);
      results := FilterHits(raw, query, k, docTypes, tags);
    }

    /** The `SearchResult` built for a hit that survives the filters. */
    method MakeResult(document: Document, similarity: real, rank: int, query: string) returns (result: SearchResult)
      ensures result == ResultFor((document, similarity), rank, query)
    {
      var snippet := CreateContextSnippet(document.content, query, 200);
      var terms := HighlightedTerms(query, document.content);
      result := SearchResult(document, similarity, rank, snippet, terms);
    }

    /** One pass of the filtering loop of `search`, before it has stopped: a hit whose document
        is stored and passes the filters gets the next rank. */
    method FilterOne(h: Hit, ghost kept: seq<(Document, real)>, results: seq<SearchResult>, query: string,
                     k: int, docTypes: seq<DocumentType>, tags: seq<string>)
      returns (ghost kept': seq<(Document, real)>, results': seq<SearchResult>)
      requires results == Ranked(kept, query)
      requires !(kept != [] && |kept| >= k)
      ensures kept' == CollectNext(kept, h, vectorDb.documents, docTypes, tags, k)
      ensures results' == Ranked(kept', query)
    {
      var document := vectorDb.GetDocument(h.docId);
      assert document == vectorDb.documents.Get(h.docId);
      kept', results' := kept, results;
      if document.Some? && Passes(document.value, docTypes, tags) {
        var result := MakeResult(document.value, h.similarity, |results| + 1, query);
        RankedSnoc(kept, (document.value, h.similarity), query);
        kept' := kept + [(document.value, h.similarity)];
        results' := results + [result];
      }
    }

    /** The filtering loop of `search` over the store's raw hits. */
    method FilterHits(raw: seq<Hit>, query: string, k: int, docTypes: seq<DocumentType>, tags: seq<string>)
      returns (results: seq<SearchResult>)
      ensures results == Ranked(Collect(raw, vectorDb.documents, docTypes, tags, k), query)
    {
      ghost var docs := vectorDb.documents;
      ghost var kept: seq<(Document, real)> := [];
      results := [];
      var i := 0;
      var stop := false;
      while i < |raw| && !stop
        invariant 0 <= i <= |raw|
        invariant kept == Collect(raw[..i], docs, docTypes, tags, k)
        invariant results == Ranked(kept, query)
        invariant stop <==> kept != [] && |kept| >= k
      {
        CollectStep(raw, i, docs, docTypes, tags, k);
        kept, results := FilterOne(raw[i], kept, results, query, k, docTypes, tags);
        stop := results != [] && |results| >= k;
        i := i + 1;
      }
      if stop {
        CollectStopped(raw, docs, docTypes, tags, k, i, |raw|);
      }
      assert raw[..|raw|] == raw;
    }

    /** `get_context`: ten filtered results, assembled greedily within the token budget. */
    method GetContext(query: string, maxTokens: Option<int>, docTypes: seq<DocumentType>,
                      similarity: Embedding -> real) returns (ctx: RagContext)
      ensures ctx == ContextFor(query, RankedSearch(vectorDb.documents, query, 10, docTypes, [], 0.7, similarity),
                                Budget(maxTokens, maxContextTokens))
    {
      var budget := if maxTokens.None? || maxTokens.value == 0 then maxContextTokens else maxTokens.value;
      var results := Search(query, 10, docTypes, [], 0.7, similarity);
      var parts: seq<string> := [];
      var totalTokens := 0;
      var used: seq<SearchResult> := [];
      var full := false;
      var i := 0;
      while i < |results| && !full
        invariant 0 <= i <= |results|
        invariant Assembly(parts, totalTokens, used, full) == Assemble(results[..i], budget)
      {
        AssembleStep(results, i, budget);
        parts, totalTokens, used, full := AddPart(parts, totalTokens, used, results[i], budget);
        i := i + 1;
      }
      if full {
        AssembleStopped(results, budget, i, |results|);
      }
      assert results[..|results|] == results;
      var confidence := if used == [] then 0.0 else Confidence(Scores(used));
      ctx := RagContext(query, used, PyStr.Join(parts, "\n\n"), totalTokens, confidence, "vector_similarity");
    }
  }
}
