# Manifold client model

A Dafny model of the PostEra Manifold API client (`manifold`). The model covers:

- batching SMILES queries with `make_batches`;
- the base `Manifold` object, which holds the API key and builds endpoint URLs;
- parsing catalog entries into records, each with optional purchase information and an optional InChIKey match;
- classifying single-query responses by status code and decoded body;
- the batched exact search;
- the synthetic-accessibility parsers for the fast and retrosynthesis response shapes, with their single and batched wrappers and `as_floats`.

Modules, one per source file, plus one for decoded JSON:

- `Json` (`json.dfy`): decoded JSON values and the outcome of decoding a body, which is either a value or undecodable. It also holds Python truthiness and the `dict.get` forms that cannot fail.
- `ManifoldCore` (`manifold.dfy`) covers `manifold/manifold.py`:
  - the exceptions that reach callers, and a `Result` type that carries them;
  - how subscripting and iterating decoded JSON behaves in Python, including the `KeyError` or `TypeError` it raises;
  - `Traverse`, which is what a `for` loop that stops at the first exception computes, with lemmas about it;
  - the batches of `make_batches` (`Chunks`) and the imperative `MakeBatches`;
  - the `Manifold` class.
- `ExactSearchApi` (`exactsearch.dfy`) covers `manifold/exactsearch.py`.
- `SyntheticAccessibilityApi` (`syntheticaccessibility.dfy`) covers `manifold/syntheticaccessibility.py`.

Each wrapper constructor sends requests and may raise. It becomes a static `Create` method that returns the object or the error. The single-query wrappers take the status code and the decoded body as inputs. The batched wrappers take a function `post` that maps one batch to its decoded body. Each loop in the source is a Dafny method with loop invariants. The method is proved equal to a function that specifies it, and lemmas state properties of that function.

## Model

| member | source | states |
|---|---|---|
| ManifoldCore.Manifold.constructor | manifold/manifold.py:23-27 | `api_key()` returns the key given to the constructor |
| ManifoldCore.Manifold.ApiEndpoint | manifold/manifold.py:29-30 | the URL is `URL_API` followed by the endpoint, and the endpoint can be read back off its end |
| ManifoldCore.ChunksFlatten | manifold/manifold.py:37-42 | concatenating the batches gives back the input exactly, in order |
| ManifoldCore.ChunksSizes | manifold/manifold.py:40-41 | every batch holds between 1 and `batch_size` values, and every batch but the last holds exactly `batch_size` |
| ManifoldCore.ChunksCount | manifold/manifold.py:40 | there are ceil(len(values) / batch_size) batches, so no batches for an empty input |
| ManifoldCore.MakeBatches | manifold/manifold.py:37-42 | the slicing loop produces exactly the batches `Chunks` describes, so it keeps the order, sizes and count proved about them; requires `batch_size > 0` |
| ExactSearchApi.ParsePurchaseInfo | manifold/exactsearch.py:35-49 | the record is absent exactly when one of the four fields is missing; the price range and lead time are copied, the flags are truthiness; only a non-dict raises |
| ExactSearchApi.ParseInchiMatches | manifold/exactsearch.py:52-57 | succeeds exactly when `exact`, `parent` and `connectivity` are all present, giving their truthiness; otherwise a KeyError names the first missing key in that order |
| ExactSearchApi.ParseCatalogEntry | manifold/exactsearch.py:63-84 | supplier, id and link default to "N/A" and smiles to "" only when the key is absent, and are copied otherwise; the match is None exactly when `inchikeyMatches` is absent or null; purchase info is None when `purchaseInfo` is absent, null or incomplete; fails exactly when a present InChIKey record is incomplete or a present purchase record is not a dict |
| ExactSearchApi.CatalogEntriesAligned | manifold/exactsearch.py:60-85 | one entry per item, in input order; the list is returned exactly when no item raises |
| ExactSearchApi.IncompleteSubrecords | manifold/exactsearch.py:41-57 | an incomplete purchase-info record is dropped and the entry kept, while an incomplete InChIKey record fails the parse |
| ExactSearchApi.ParseCatalogEntries | manifold/exactsearch.py:60-85 | the appending loop computes `CatalogEntries`, including which item's exception escapes |
| ExactSearchApi.ExactSearchResponse | manifold/exactsearch.py:104-115 | an undecodable body or status 500 gives no entries; 422 always raises, with `InvalidSmilesError(body["error"])` when the key is present; InvalidSmilesError only on 422; never TooManyRequestsError; otherwise `body.get("results", [])` is parsed |
| ExactSearchApi.DetailIsNotChecked | manifold/exactsearch.py:110-115 | a status-200 body holding only `detail` gives no entries rather than a rate-limit error |
| ExactSearchApi.ExactSearch.constructor | manifold/exactsearch.py:93-95 | the object keeps the query and the API key |
| ExactSearchApi.ExactSearch.Create | manifold/exactsearch.py:93-115 | the object is built exactly when the classification succeeds, and its results are the classified entries; otherwise the classification's error is raised |
| ExactSearchApi.ExactMatchesAppend | manifold/exactsearch.py:120-125 | filtering for exact matches distributes over concatenation, so kept entries keep their relative order |
| ExactSearchApi.ExactMatchesMembers | manifold/exactsearch.py:120-125 | an entry is kept exactly when it is a result whose match is present with `is_exact` true; nothing is added |
| ExactSearchApi.ExactSearch.ResultExactMatches | manifold/exactsearch.py:120-125 | the loop returns the exact matches in original order, and membership is exactly "result and exact" |
| ExactSearchApi.BatchItem | manifold/exactsearch.py:146-150 | an item with `error` gives an empty list; otherwise its `catalogEntries` are parsed, and a missing key raises KeyError |
| ExactSearchApi.BatchBody | manifold/exactsearch.py:145-150 | an undecodable batch body raises, a body without `results` raises KeyError, and a success has one list per result item |
| ExactSearchApi.BatchBodyAligned | manifold/exactsearch.py:146-150 | for any decoded body whose `results` is a list, list i comes from item i, and the batch succeeds exactly when every item does |
| ExactSearchApi.ParseBatchBody | manifold/exactsearch.py:145-150 | the per-item loop of one batch computes `BatchBody` |
| ExactSearchApi.SearchBatchesAppend | manifold/exactsearch.py:139-150 | batch results are joined in batch order: searching two runs of batches is searching the first, then the second |
| ExactSearchApi.SearchBatchesFailsAt | manifold/exactsearch.py:139-150 | the first batch that raises ends the search with its error |
| ExactSearchApi.ExactSearchBatch.constructor | manifold/exactsearch.py:133-136 | the object keeps the queries and the key, and starts with no results |
| ExactSearchApi.ExactSearchBatch.Create | manifold/exactsearch.py:133-150 | batches of 1000 are posted in order and the results are the per-item lists of all batches, concatenated; the first failure is raised |
| ExactSearchApi.BatchSizesExample | manifold/exactsearch.py:131-138 | 2500 queries go out as batches of 1000, 1000 and 500 |
| SyntheticAccessibilityApi.MaxBatchSize | manifold/syntheticaccessibility.py:171-190 | fast scoring uses batches of 100 and retrosynthesis batches of 10 |
| SyntheticAccessibilityApi.FastBatchSizesExample | manifold/syntheticaccessibility.py:141-173 | 250 queries scored by the fast algorithm go out as batches of 100, 100 and 50 |
| SyntheticAccessibilityApi.ParseSyntheticAccessibility | manifold/syntheticaccessibility.py:17-43 | with `fastSAScore`, the score is that value and the URL is `SAAlertImgURL`; otherwise, with `score`, the score is that value and the URL is `manifoldLink`; with neither it raises ValueError; steps and warning come from `minNumSteps` and `SAAlertLevel`, None when absent or null |
| SyntheticAccessibilityApi.FastShapeWins | manifold/syntheticaccessibility.py:32-37 | a record with `fastSAScore` parses the same whether or not it also has `score` |
| SyntheticAccessibilityApi.ParseItem | manifold/syntheticaccessibility.py:48-54 | a dict item without `SAData` gives None, not an error, and None arises only that way; otherwise `SAData` is parsed and its error propagates; a non-dict item raises |
| SyntheticAccessibilityApi.AccessibilitiesAligned | manifold/syntheticaccessibility.py:46-56 | one result per item, in order: None exactly where the item lacks `SAData`, the parsed record elsewhere; returned exactly when no item raises |
| SyntheticAccessibilityApi.ParseSyntheticAccessibilities | manifold/syntheticaccessibility.py:46-56 | the appending loop computes `Accessibilities` |
| SyntheticAccessibilityApi.SingleResponse | manifold/syntheticaccessibility.py:70-84 | in order: an undecodable body or status 500 gives None; 422 raises, with `InvalidSmilesError(body["error"])` when present; a `detail` key raises `TooManyRequestsError(body["detail"])`; otherwise the result is the body parsed as one record, or that parse's error |
| SyntheticAccessibilityApi.DetailTakesPrecedence | manifold/syntheticaccessibility.py:82-84 | with status 200, a `detail` key raises even when the body would parse as a score |
| SyntheticAccessibilityApi.ItemScores | manifold/syntheticaccessibility.py:167-168 | the float reported for a batch item is 1.0 without `SAData`, otherwise its `fastSAScore`, or its `score` when it has no `fastSAScore` |
| SyntheticAccessibilityApi.SyntheticAccessibility.constructor | manifold/syntheticaccessibility.py:60-63 | the object keeps the query and the key |
| SyntheticAccessibilityApi.SyntheticAccessibility.ParseResponse | manifold/syntheticaccessibility.py:70-84 | sets the result to the classification's value, or reports its error and leaves the result unchanged |
| SyntheticAccessibilityApi.SyntheticAccessibility.AsFloats | manifold/syntheticaccessibility.py:89-92 | 1.0 for an absent result, the score otherwise |
| SyntheticAccessibilityApi.SyntheticAccessibility.Create | manifold/syntheticaccessibility.py:59-65 | the object is built exactly when the classification succeeds, holding its result; otherwise its error is raised |
| SyntheticAccessibilityApi.ResponseResults | manifold/syntheticaccessibility.py:154-162 | a response with `results` gives its parsed list; without it, `detail` raises TooManyRequestsError and anything else a KeyError |
| SyntheticAccessibilityApi.ParseBatchesAppend | manifold/syntheticaccessibility.py:152-162 | responses are handled in order and the first failing one stops the rest |
| SyntheticAccessibilityApi.ParseBatchesCompletes | manifold/syntheticaccessibility.py:152-162 | parsing completes exactly when every response has a parseable `results` list |
| SyntheticAccessibilityApi.ParseBatchesStep | manifold/syntheticaccessibility.py:153-162 | a response that parses extends the results of the earlier ones |
| SyntheticAccessibilityApi.ParseBatchesStop | manifold/syntheticaccessibility.py:153-162 | a response that raises ends the parse with its error, after the lists of all earlier responses |
| SyntheticAccessibilityApi.SyntheticAccessibilityBatch.constructor | manifold/syntheticaccessibility.py:134-137 | the object keeps the queries, algorithm and key, and starts with no results |
| SyntheticAccessibilityApi.SyntheticAccessibilityBatch.SetupRequests | manifold/syntheticaccessibility.py:141-147 | one request per batch of the algorithm's size, in order; the first body that does not decode raises |
| SyntheticAccessibilityApi.SyntheticAccessibilityBatch.ParseOneResponse | manifold/syntheticaccessibility.py:154-162 | the loop body for one response computes `ResponseResults` |
| SyntheticAccessibilityApi.SyntheticAccessibilityBatch.ParseResponse | manifold/syntheticaccessibility.py:152-162 | the results are extended with each response's list in order; a failing response leaves the earlier lists in place, and its error is reported |
| SyntheticAccessibilityApi.SyntheticAccessibilityBatch.AsFloats | manifold/syntheticaccessibility.py:167-168 | one float per result, in order: 1.0 for an absent result, its score otherwise |
| SyntheticAccessibilityApi.SyntheticAccessibilityBatch.Create | manifold/syntheticaccessibility.py:134-139 | the object is built exactly when every batch decodes and parses, holding the concatenated results; otherwise the first error is raised |

## Left out

- HTTP transport is not modelled. This covers `requests.post`, the `X-API-KEY` header, the request bodies and the per-wrapper URLs. Single wrappers take the status code and decoded body. Batched wrappers take a pure function from a batch to its decoded body, so the same batch is assumed to get the same answer.
- The `alerts` flag of the fast wrappers only changes the request body, so it is not modelled.
- `ExactSearchApi.ParsePurchaseInfo`: `float()` on the lead time is not modelled. The value is kept as decoded, so a value that `float()` would reject does not raise in the model.
- Score values are likewise kept as decoded JSON, not converted to floats.
- Indexing a value that is not a dict, or iterating one that is not a list, is a single `TypeMismatch` error. This stands for Python's TypeError or AttributeError.
- Python iterates any dict (over its keys) or any string (over its characters) without error. The model treats iterating either as `TypeMismatch`. For example, the exact-search batch body `{"results": {"error": 1}}` gives `[[]]` in Python but `TypeMismatch` in the model.
- `"key" in v` counts only dict keys. Python also checks list membership and substrings. So in the exact-search batch, a string item containing `error` gives an empty list in Python but `TypeMismatch` in the model.
- The bare `raise KeyError` of the batched synthetic-accessibility parser is modelled as `KeyError("results")`.
- The class hierarchy is not modelled. The abstract `_setup_request`, the `NotImplementedError` of `Manifold.result`, and the fast and retrosynthesis subclasses are replaced by an `Algorithm` tag that selects the batch size.
- The `result()` accessors are not modelled as methods; they just return the `results` field.
- `make_batches` does not modify its input. In the model this holds by construction, since Dafny sequences are values.
- The `smiles[:]` copies are not modelled, for the same reason.
- `ExactSearchApi.ExactSearchBatch.Create`: each batch's lists are collected locally and appended when the batch completes. Python appends item by item. Both agree on every outcome the caller can observe, because a raise discards the half-built object.

Two behaviours of the code that the model keeps as written:

- `ExactSearch` has no check for a `detail` key (`manifold/exactsearch.py:110-115`). A rate-limit body with status 200 yields no entries.
- The batched wrappers call `.json()` on each batch response without a guard (`manifold/exactsearch.py:145`, `manifold/syntheticaccessibility.py:146`). An undecodable batch body therefore raises `DecodeError`, and is not treated as an empty result.
