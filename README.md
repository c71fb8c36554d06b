# Retrieve-then-rerank reconciliation, modelled in Dafny

`CohereReranker` (reranker.py) answers a free-text query in two stages. It
asks an OpenSearch index for the best `size` hits. Then it sends the query and
the `full_text` of every hit to a hosted Cohere rerank model. It turns the
model's ordered `(index, relevance_score)` answers back into documents. This
project models the data handling around those two network calls:

- **hit normalisation** (`search_opensearch`): every hit `{_id, _score, _source}`
  becomes a document `{id, score, source}`, in hit order;
- **candidate-text extraction** (`rerank_with_cohere`): one text per document,
  its whole `full_text` value or `""` when it has none, packed with the query,
  `top_n` and `api_version: 2` into the rerank request;
- **result reconciliation** (`rerank_with_cohere`): each service result
  `{index, relevance_score}` is joined to `documents[index]` and becomes
  `{id, original_score, rerank_score, source}`, in the service's order;
- **composition** (`search_and_rerank`): search, rerank the unmodified search
  output, return `{query, original_results, reranked_results}`.

Everything lives in module `Reranker` (reranker.dfy); `Wrappers`
(wrappers.dfy) holds `Option` and `Result`.

The two clients are parameters: `SearchService` and `RerankService` are total
functions from a request to either the decoded response or the reason the
client raised. An exception becomes an `Err` of `Error`: `RetrievalError`,
`RerankError`, or `IndexError` for a service index that names no document.
Nothing is caught, so every `Err` propagates unchanged to the caller. Scores are
copied and never compared or computed. The search score type `S` and the rerank
score type `R` are therefore opaque type parameters.

The three loops of the source are methods with loop invariants
(`SearchOpenSearch`, `RerankWithCohere`). Each is proved equal to a recursive
specification function that appends one element per step: `Normalize`,
`ExtractTexts` (through `BuildRequest`) and `Reconcile`, joined by `Rerank`.
The lemmas state what those functions promise. `SearchAndRerank` is the
straight-line composition, a method calling the other two.

Indexing follows Python. `documents[i]` accepts any `i` with
`-len <= i < len`, and a negative `i` counts from the end. Only indices outside
that range raise `IndexError`. The model keeps this behaviour (`PyIndex`). The
code does not reject a negative index, so a service answer of `-1` yields the
last document. `ReconcileInRange` gives the plain `documents[i]` reading for the
indices the service's protocol promises. Two further points about the code.
First, it never checks that the document list is non-empty. An
empty list is sent to the service as it is. Second, it does not enforce
that the output has `min(top_n, len)` entries. It returns one entry per service
result, and `RerankHonoursTopN` proves the `min` length only for a service that
keeps that contract.

## Model

| member | source | states |
|---|---|---|
| `Reranker.NormalizeAligned` | reranker.py:81-87 | search output has exactly one document per hit, in hit order, with `id`, `score` and `source` equal to the hit's `_id`, `_score`, `_source` |
| `Reranker.SearchOpenSearch` | reranker.py:76-89 | sends index, query and size to the search service; a raising client propagates as `RetrievalError`; otherwise the result is the normalised hit list, built by the loop |
| `Reranker.ExtractTextsAligned` | reranker.py:104-109 | `doc_texts` has one entry per document; entry `i` is document `i`'s whole `full_text` value, or `""` when the key is missing |
| `Reranker.BuildRequest` | reranker.py:112-117 | the rerank request carries the caller's query and `top_n` unchanged, `api_version` 2, and the index-aligned, untruncated candidate texts (`""` for a document without `full_text`) |
| `Reranker.PyIndex` | reranker.py:133 | `documents[i]` succeeds exactly when `-len <= i < len`, and then yields `documents[i mod len]` (negative indices count from the end) |
| `Reranker.ReconcileSucceedsIff` | reranker.py:131-141 | reconciliation returns a list if and only if every index the service returned is a valid list index; otherwise it raises |
| `Reranker.ReconcileContents` | reranker.py:131-139 | a successful reconciliation has exactly one entry per service result, in the service's order; entry `k` has the `id`, `source` and `score` (as `original_score`) of the document result `k` names, and result `k`'s `relevance_score` as `rerank_score` |
| `Reranker.ReconcileInRange` | reranker.py:131-139 | when every service index is in `0 .. len-1`, reconciliation succeeds and entry `k` is built from `documents[results[k].index]` and `results[k].relevance_score` |
| `Reranker.ReconcileErrPersists` | reranker.py:132-133 | once a result has raised, the later results cannot change the outcome: the lookup error of the first bad result is what propagates |
| `Reranker.ReconcileFailsAtFirstBadIndex` | reranker.py:132-133 | a failed reconciliation raises `IndexError` for the first service index outside the list, and every result before it was valid; no bad index is skipped or clamped |
| `Reranker.ReconcileDrawsFromDocuments` | reranker.py:131-139 | every reranked entry takes its `id`, `original_score` and `source` from one of the input documents; nothing is invented |
| `Reranker.IdentityOrderKeepsIds` | reranker.py:131-141 | a service answering with the identity order (result `k` names document `k`) returns the documents' ids in their original order |
| `Reranker.RerankHonoursTopN` | reranker.py:112-141 | a service that answers the built request with `min(top_n, len)` results, each a valid Python index (`-len <= index < len`), yields a reranked list of exactly that length |
| `Reranker.RerankWithCohere` | reranker.py:91-141 | the text-extraction and reconciliation loops compute `Rerank`: the service's answer to `BuildRequest(query, documents, top_n)`, a raising client as `RerankError`, otherwise `Reconcile(documents, results)` |
| `Reranker.SearchAndRerank` | reranker.py:143-167 | returns the query unchanged, the search output as `original_results`, and the rerank of that same list as `reranked_results`; a failure of either stage is returned as it is, with no partial result |

## Left out

- Construction (`__init__`, reranker.py:15-53): credential lookup, request signing, client set-up and the region. The index name is a parameter of the search methods.
- The network calls themselves (reranker.py:76-79, 120-125): they are the `SearchService` and `RerankService` parameters. Their ranking, timeouts and transport are not modelled. A raising client is an `Err` carrying a message.
- JSON encoding and decoding of the rerank call (reranker.py:122, 128). The model works on decoded records. Structures missing a key would raise `KeyError` in Python: a search response without `hits`, a hit without `_id`, `_score` or `_source` (reranker.py:84-86; `_source` is absent when the index does not store sources), a document without `source` (reranker.py:108), a rerank response without `results`, or a result without `index` or `relevance_score`. A typed record cannot lack a field, so that case is left out, as are non-integer indices.
- The `multi_match` query body (reranker.py:66-74): `SearchRequest` keeps only the index name, the query text and the size.
- `_source` values: the model types a source as `map<string, string>`. Non-string field values, including a `full_text` that is not a string, are not modelled.
- Console logging in `search_and_rerank` (reranker.py:155-161) and all of `main()` (reranker.py:170-208): interactive input, printing with float formatting, and writing the results file.
- The service's ordering by `relevance_score`: the code trusts the order and never compares scores, so the model neither checks nor assumes it.
