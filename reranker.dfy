/**
 * Retrieve-then-rerank, as `CohereReranker` in reranker.py does it: turn the
 * search service's hits into documents, send the documents' `full_text`
 * fields with the query to the rerank service, and join the service's ordered
 * `(index, relevance_score)` answers back onto the documents.
 *
 * The two network clients are parameters (`SearchService`, `RerankService`):
 * total functions from the request to either the decoded response or the
 * reason the client raised. Scores are copied, never computed, so the search
 * score type `S` and the rerank score type `R` are opaque type parameters.
 */
module Reranker {
  import opened Wrappers

  // ------------------------------------------------------------------ data

  /** A raw search hit: `_id`, `_score`, `_source`. */
  datatype Hit<S> = Hit(id: string, score: S, source: map<string, string>)

  /** A retrieved document: `id`, `score`, `source`. */
  datatype Document<S> = Document(id: string, score: S, source: map<string, string>)

  /** What reaches the search service: the index name, the query text and the page size. */
  datatype SearchRequest = SearchRequest(index: string, query: string, size: int)

  /** The rerank request body: `query`, `documents`, `top_n`, `api_version`. */
  datatype RerankRequest = RerankRequest(query: string, documents: seq<string>, topN: int, apiVersion: int)

  /** One entry of the rerank service's `results` list. */
  datatype ServiceResult<R> = ServiceResult(index: int, relevanceScore: R)

  /** One reranked document: `id`, `original_score`, `rerank_score`, `source`. */
  datatype RerankedDoc<S, R> = RerankedDoc(id: string, originalScore: S, rerankScore: R, source: map<string, string>)

  /** The record `search_and_rerank` returns: `query`, `original_results`, `reranked_results`. */
  datatype Outcome<S, R> = Outcome(query: string, originalResults: seq<Document<S>>, rerankedResults: seq<RerankedDoc<S, R>>)

  /** What can propagate out of the pipeline; nothing is caught anywhere. */
  datatype Error =
    | RetrievalError(reason: string)  // the search client raised
    | RerankError(reason: string)     // the rerank client raised
    | IndexError(index: int)          // `documents[index]` raised: the service named no such document

  /** The search client: the hits of the response, or why the call raised. */
  type SearchService<S> = SearchRequest -> Result<seq<Hit<S>>, string>

  /** The rerank client: the decoded `results` list, or why the call raised. */
  type RerankService<R> = RerankRequest -> Result<seq<ServiceResult<R>>, string>

  const FullTextField: string := "full_text"
  const ApiVersion: int := 2
  const DefaultSearchSize: int := 20
  const DefaultTopN: int := 10

  // --------------------------------------------------- hit normalisation

  function ToDocument<S>(hit: Hit<S>): Document<S>
  {
    Document(hit.id, hit.score, hit.source)
  }

  /** The document list `search_opensearch` builds, one document appended per hit. */
  function Normalize<S>(hits: seq<Hit<S>>): seq<Document<S>>
  {
    if hits == [] then []
    else Normalize(hits[..|hits| - 1]) + [ToDocument(hits[|hits| - 1])]
  }

  /** One document per hit, in hit order, with `id`, `score` and `source` copied unchanged. */
  lemma {:induction false} NormalizeAligned<S>(hits: seq<Hit<S>>)
    ensures |Normalize(hits)| == |hits|
    ensures forall i :: 0 <= i < |hits| ==>
      && Normalize(hits)[i].id == hits[i].id
      && Normalize(hits)[i].score == hits[i].score
      && Normalize(hits)[i].source == hits[i].source
  {
    if hits != [] {
      NormalizeAligned(hits[..|hits| - 1]);
    }
  }

  // -------------------------------------------- candidate-text extraction

  /** The candidate text of a document: its `full_text` value, or `""` when it has none. */
  function TextOf<S>(doc: Document<S>): string
  {
    if FullTextField in doc.source then doc.source[FullTextField] else ""
  }

  /** The `doc_texts` list, one text appended per document. */
  function ExtractTexts<S>(docs: seq<Document<S>>): seq<string>
  {
    if docs == [] then []
    else ExtractTexts(docs[..|docs| - 1]) + [TextOf(docs[|docs| - 1])]
  }

  /**
   * The texts are index-aligned with the documents: text `i` is document
   * `i`'s whole `full_text` value, or `""` when the document has none.
   */
  lemma {:induction false} ExtractTextsAligned<S>(docs: seq<Document<S>>)
    ensures |ExtractTexts(docs)| == |docs|
    ensures forall i :: 0 <= i < |docs| && FullTextField in docs[i].source ==>
      ExtractTexts(docs)[i] == docs[i].source[FullTextField]
    ensures forall i :: 0 <= i < |docs| && FullTextField !in docs[i].source ==>
      ExtractTexts(docs)[i] == ""
  {
    if docs != [] {
      ExtractTextsAligned(docs[..|docs| - 1]);
    }
  }

  /**
   * The rerank request for `docs`: the query and `top_n` as given, API
   * version 2, and one candidate text per document, in document order.
   */
  function BuildRequest<S>(query: string, docs: seq<Document<S>>, topN: int): (request: RerankRequest)
    ensures request.query == query && request.topN == topN && request.apiVersion == 2
    ensures |request.documents| == |docs|
    ensures forall i :: 0 <= i < |docs| && FullTextField in docs[i].source ==>
      request.documents[i] == docs[i].source[FullTextField]
    ensures forall i :: 0 <= i < |docs| && FullTextField !in docs[i].source ==>
      request.documents[i] == ""
  {
    ExtractTextsAligned(docs);
    RerankRequest(query, ExtractTexts(docs), topN, ApiVersion)
  }

  // ------------------------------------------------ result reconciliation

  /**
   * Python's `s[i]` on a list: an index in `0 .. |s|-1` counts from the
   * front, one in `-|s| .. -1` counts from the end, anything else raises
   * `IndexError` (here `None`). The model keeps this wrap-around for
   * negative indices rather than rejecting them.
   */
  function PyIndex<T>(s: seq<T>, i: int): (r: Option<T>)
    ensures r.Some? <==> -|s| <= i < |s|
    ensures r.Some? ==> r.value == s[i % |s|]
  {
    if 0 <= i < |s| then Some(s[i])
    else if -|s| <= i < 0 then Some(s[|s| + i])
    else None
  }

  /** The reranked entry for one service result, or `None` when its index names no document. */
  function Join<S, R>(docs: seq<Document<S>>, result: ServiceResult<R>): Option<RerankedDoc<S, R>>
  {
    match PyIndex(docs, result.index)
    case None => None
    case Some(doc) => Some(RerankedDoc(doc.id, doc.score, result.relevanceScore, doc.source))
  }

  /**
   * The `reranked_docs` list, one entry appended per service result in the
   * service's order; the first result whose index names no document raises.
   */
  function Reconcile<S, R>(docs: seq<Document<S>>, results: seq<ServiceResult<R>>): Result<seq<RerankedDoc<S, R>>, Error>
  {
    if results == [] then Ok([])
    else
      var last := results[|results| - 1];
      match Reconcile(docs, results[..|results| - 1])
      case Err(e) => Err(e)
      case Ok(done) =>
        match Join(docs, last)
        case None => Err(IndexError(last.index))
        case Some(entry) => Ok(done + [entry])
  }

  /** Reconciliation succeeds exactly when every index the service returned is a valid Python index. */
  lemma {:induction false} ReconcileSucceedsIff<S, R>(docs: seq<Document<S>>, results: seq<ServiceResult<R>>)
    ensures Reconcile(docs, results).Ok? <==>
      forall k :: 0 <= k < |results| ==> -|docs| <= results[k].index < |docs|
  {
    if results != [] {
      var init := results[..|results| - 1];
      ReconcileSucceedsIff(docs, init);
      assert forall k :: 0 <= k < |init| ==> init[k] == results[k];
    }
  }

  /**
   * A successful reconciliation has one entry per service result, in the
   * service's order, and entry `k` carries the `id`, `score` and `source` of
   * the document that result `k` names, with result `k`'s relevance score.
   */
  lemma {:induction false} ReconcileContents<S, R>(docs: seq<Document<S>>, results: seq<ServiceResult<R>>)
    requires Reconcile(docs, results).Ok?
    ensures |Reconcile(docs, results).value| == |results|
    ensures forall k :: 0 <= k < |results| ==>
      && -|docs| <= results[k].index < |docs|
      && Reconcile(docs, results).value[k].id == docs[results[k].index % |docs|].id
      && Reconcile(docs, results).value[k].originalScore == docs[results[k].index % |docs|].score
      && Reconcile(docs, results).value[k].rerankScore == results[k].relevanceScore
      && Reconcile(docs, results).value[k].source == docs[results[k].index % |docs|].source
  {
    if results != [] {
      var init := results[..|results| - 1];
      ReconcileContents(docs, init);
      assert forall k :: 0 <= k < |init| ==> init[k] == results[k];
    }
  }

  /** An index already in `0 .. n-1` is its own residue modulo `n`. */
  lemma SmallModulus(i: int, n: int)
    requires 0 <= i < n
    ensures i % n == i
  {
  }

  /** With indices in `0 .. |docs|-1`, as the service's contract promises, entry `k` is `docs[results[k].index]`. */
  lemma {:induction false} ReconcileInRange<S, R>(docs: seq<Document<S>>, results: seq<ServiceResult<R>>)
    requires forall k :: 0 <= k < |results| ==> 0 <= results[k].index < |docs|
    ensures Reconcile(docs, results).Ok?
    ensures |Reconcile(docs, results).value| == |results|
    ensures forall k :: 0 <= k < |results| ==>
      && Reconcile(docs, results).value[k].id == docs[results[k].index].id
      && Reconcile(docs, results).value[k].originalScore == docs[results[k].index].score
      && Reconcile(docs, results).value[k].rerankScore == results[k].relevanceScore
      && Reconcile(docs, results).value[k].source == docs[results[k].index].source
  {
    ReconcileSucceedsIff(docs, results);
    ReconcileContents(docs, results);
    var out := Reconcile(docs, results).value;
    forall k | 0 <= k < |results|
      ensures out[k].id == docs[results[k].index].id
      ensures out[k].originalScore == docs[results[k].index].score
      ensures out[k].source == docs[results[k].index].source
    {
      SmallModulus(results[k].index, |docs|);
    }
  }

  /** Once a prefix of the results has raised, later results change nothing: the first failure is the one raised. */
  lemma {:induction false} ReconcileErrPersists<S, R>(docs: seq<Document<S>>, results: seq<ServiceResult<R>>, k: nat)
    requires k <= |results|
    requires Reconcile(docs, results[..k]).Err?
    ensures Reconcile(docs, results) == Reconcile(docs, results[..k])
  {
    if k < |results| {
      var init := results[..|results| - 1];
      assert init[..k] == results[..k];
      ReconcileErrPersists(docs, init, k);
    } else {
      assert results[..k] == results;
    }
  }

  /**
   * A failed reconciliation raises `IndexError` for the first service result
   * whose index names no document; every result before it was valid.
   */
  lemma {:induction false} ReconcileFailsAtFirstBadIndex<S, R>(docs: seq<Document<S>>, results: seq<ServiceResult<R>>)
    requires Reconcile(docs, results).Err?
    ensures exists k ::
      && 0 <= k < |results|
      && !(-|docs| <= results[k].index < |docs|)
      && (forall j :: 0 <= j < k ==> -|docs| <= results[j].index < |docs|)
      && Reconcile(docs, results).error == IndexError(results[k].index)
  {
    var init := results[..|results| - 1];
    assert forall j :: 0 <= j < |init| ==> init[j] == results[j];
    if Reconcile(docs, init).Err? {
      ReconcileFailsAtFirstBadIndex(docs, init);
      var k :| 0 <= k < |init|
        && !(-|docs| <= init[k].index < |docs|)
        && (forall j :: 0 <= j < k ==> -|docs| <= init[j].index < |docs|)
        && Reconcile(docs, init).error == IndexError(init[k].index);
      assert results[k] == init[k];
    } else {
      ReconcileSucceedsIff(docs, init);
      assert results[|results| - 1] == results[|init|];
    }
  }

  /** Every reranked entry is drawn from the input documents: reconciliation adds no document of its own. */
  lemma {:induction false} ReconcileDrawsFromDocuments<S, R>(docs: seq<Document<S>>, results: seq<ServiceResult<R>>)
    requires Reconcile(docs, results).Ok?
    ensures forall k :: 0 <= k < |Reconcile(docs, results).value| ==>
      exists j ::
        && 0 <= j < |docs|
        && Reconcile(docs, results).value[k].id == docs[j].id
        && Reconcile(docs, results).value[k].originalScore == docs[j].score
        && Reconcile(docs, results).value[k].source == docs[j].source
  {
    ReconcileContents(docs, results);
    var out := Reconcile(docs, results).value;
    forall k | 0 <= k < |out|
      ensures exists j ::
        && 0 <= j < |docs|
        && out[k].id == docs[j].id && out[k].originalScore == docs[j].score && out[k].source == docs[j].source
    {
      var j := results[k].index % |docs|;
      assert out[k].id == docs[j].id && out[k].originalScore == docs[j].score && out[k].source == docs[j].source;
    }
  }

  /**
   * A service that answers with the identity order (result `k` names
   * document `k`, for every document) gives back the documents' ids in their
   * original order.
   */
  lemma {:induction false} IdentityOrderKeepsIds<S, R>(docs: seq<Document<S>>, results: seq<ServiceResult<R>>)
    requires |results| == |docs|
    requires forall k :: 0 <= k < |results| ==> results[k].index == k
    ensures Reconcile(docs, results).Ok?
    ensures |Reconcile(docs, results).value| == |docs|
    ensures forall k :: 0 <= k < |docs| ==> Reconcile(docs, results).value[k].id == docs[k].id
  {
    ReconcileInRange(docs, results);
  }

  /** What `rerank_with_cohere` returns: the service's answer to the built request, reconciled. */
  function Rerank<S, R>(query: string, docs: seq<Document<S>>, topN: int, service: RerankService<R>): Result<seq<RerankedDoc<S, R>>, Error>
  {
    match service(BuildRequest(query, docs, topN))
    case Err(reason) => Err(RerankError(reason))
    case Ok(results) => Reconcile(docs, results)
  }

  function Min(a: int, b: int): int
  {
    if a <= b then a else b
  }

  /**
   * When the service keeps its side of the protocol (it returns
   * `min(top_n, |docs|)` results, each naming a document by a valid Python
   * index in `-|docs| .. |docs|-1`), reranking succeeds with exactly that
   * many entries.
   */
  lemma {:induction false} RerankHonoursTopN<S, R>(query: string, docs: seq<Document<S>>, topN: int, service: RerankService<R>)
    requires service(BuildRequest(query, docs, topN)).Ok?
    requires |service(BuildRequest(query, docs, topN)).value| == Min(topN, |docs|)
    requires forall k :: 0 <= k < |service(BuildRequest(query, docs, topN)).value| ==>
      -|docs| <= service(BuildRequest(query, docs, topN)).value[k].index < |docs|
    ensures Rerank(query, docs, topN, service).Ok?
    ensures |Rerank(query, docs, topN, service).value| == Min(topN, |docs|)
  {
    var results := service(BuildRequest(query, docs, topN)).value;
    ReconcileSucceedsIff(docs, results);
    ReconcileContents(docs, results);
  }

  // -------------------------------------------------------- the operations

  /**
   * `search_opensearch`: ask the search service for `size` hits on `query`
   * and turn each hit into a document, in hit order.
   */
  method SearchOpenSearch<S>(search: SearchService<S>, indexName: string, query: string, size: int := DefaultSearchSize)
    returns (r: Result<seq<Document<S>>, Error>)
    ensures var response := search(SearchRequest(indexName, query, size));
      && (response.Err? ==> r == Err(RetrievalError(response.error)))
      && (response.Ok? ==> r == Ok(Normalize(response.value)))
  {
    var response := search(SearchRequest(indexName, query, size));
    if response.Err? {
      return Err(RetrievalError(response.error));
    }
    var hits := response.value;
    var documents: seq<Document<S>> := [];
    for i := 0 to |hits|
      invariant documents == Normalize(hits[..i])
    {
      assert hits[..i + 1][..i] == hits[..i];
      documents := documents + [Document(hits[i].id, hits[i].score, hits[i].source)];
    }
    assert hits[..|hits|] == hits;
    return Ok(documents);
  }

  /**
   * `rerank_with_cohere`: send the query, the documents' candidate texts and
   * `top_n` to the rerank service, then join each returned index back onto
   * the documents, keeping the service's order.
   */
  method RerankWithCohere<S, R>(rerank: RerankService<R>, query: string, documents: seq<Document<S>>, topN: int := DefaultTopN)
    returns (r: Result<seq<RerankedDoc<S, R>>, Error>)
    ensures r == Rerank(query, documents, topN, rerank)
  {
    var docTexts: seq<string> := [];
    for i := 0 to |documents|
      invariant docTexts == ExtractTexts(documents[..i])
    {
      assert documents[..i + 1][..i] == documents[..i];
      var fullText := if FullTextField in documents[i].source then documents[i].source[FullTextField] else "";
      docTexts := docTexts + [fullText];
    }
    assert documents[..|documents|] == documents;
    var requestBody := RerankRequest(query, docTexts, topN, ApiVersion);
    var response := rerank(requestBody);
    if response.Err? {
      return Err(RerankError(response.error));
    }
    var results := response.value;
    var rerankedDocs: seq<RerankedDoc<S, R>> := [];
    for k := 0 to |results|
      invariant Reconcile(documents, results[..k]) == Ok(rerankedDocs)
    {
      assert results[..k + 1][..k] == results[..k];
      var originalDoc := PyIndex(documents, results[k].index);
      if originalDoc.None? {
        ReconcileErrPersists(documents, results, k + 1);
        return Err(IndexError(results[k].index));
      }
      rerankedDocs := rerankedDocs + [RerankedDoc(originalDoc.value.id, originalDoc.value.score, results[k].relevanceScore, originalDoc.value.source)];
    }
    assert results[..|results|] == results;
    return Ok(rerankedDocs);
  }

  /**
   * `search_and_rerank`: search, then rerank the unmodified search output.
   * The query comes back unchanged, the original results are the search
   * output, and a failure of either stage is returned as it is, with no
   * partial result.
   */
  method SearchAndRerank<S, R>(search: SearchService<S>, rerank: RerankService<R>, indexName: string,
                               query: string, initialSize: int := DefaultSearchSize, topN: int := DefaultTopN)
    returns (r: Result<Outcome<S, R>, Error>)
    ensures match search(SearchRequest(indexName, query, initialSize))
      case Err(reason) => r == Err(RetrievalError(reason))
      case Ok(hits) =>
        match Rerank(query, Normalize(hits), topN, rerank)
        case Err(e) => r == Err(e)
        case Ok(reranked) => r == Ok(Outcome(query, Normalize(hits), reranked))
  {
    var originalDocs := SearchOpenSearch(search, indexName, query, initialSize);
    if originalDocs.Err? {
      return Err(originalDocs.error);
    }
    var rerankedDocs := RerankWithCohere(rerank, query, originalDocs.value, topN);
    if rerankedDocs.Err? {
      return Err(rerankedDocs.error);
    }
    return Ok(Outcome(query, originalDocs.value, rerankedDocs.value));
  }
}
