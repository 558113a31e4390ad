# Enterprise knowledge-base gateway, modelled in Dafny

The system stores and queries document chunks in an Endee vector database. It has three parts:

- an **ingestion client** (`langchain-service/ingestion`). It turns text chunks into records: a dense vector, an optional sparse pair and metadata. It then upserts them to the gateway in batches of at most 950.
- a Flask **gateway** (`endee-service/api.py`). It forwards index creation, upserts and queries to an Endee client. It normalises query hits into `{id, similarity, distance, text}`.
- a **retrieval client** (`langchain-service/rag/rag_helper.py`). It posts a query payload and maps the returned `results` to LangChain `Document`s.

The field validators of `endee-service/validators.py` sit beside the gateway. The gateway does not call them.

## How the model is built

- **`Python`.** Holds the runtime fragment the code depends on:
  - JSON values (`Json`), Python truthiness, `dict.get` (a non-dict raises `AttributeError`) and `len`;
  - `str` of an int, `repr` of a string, and `sorted` of strings (an insertion sort, proved sorted and a permutation);
  - the exceptions the code raises or catches. Each call that can raise returns `Outcome<T>`, which is `Returned(value)` or `Raised(exception)`.
- **`Http`.** What a `requests.post` call ends with: a response (status plus JSON or non-JSON body), a connection error, a read timeout or another request exception. `raise_for_status` raises for statuses 400..599.
- **`Validators`.** Each validator is a pure function, specified by if-and-only-if clauses for every message. The index-name pattern is modelled as its character class plus a `fullmatch` of one-or-more. It is proved to mean "non-empty, only ASCII letters, digits and `_`".
- **`Upsert`.** `get_slices` is a loop method proved against the function `Slices`. Lemmas show that `Slices` tiles `[0, n)` and count its slices as `ceil(n / b)`.
  - `upsertVectors` is a function of the transport outcome.
  - `batch_upsert_vectors` is a loop method. The post is a parameter: the outcome of the i-th post of a request.
  - Its contract, `BatchContract`, says:
    - which requests are posted: a prefix of one request per slice, in slice order;
    - what is returned: the last result, or `{}` for no vectors;
    - that it stops only when `upsertVectors` itself raises.
  - Lemmas show that the batches put together give back the input, that failed results do not stop the batch, and that the contract allows exactly one behaviour.
- **`VectorizeData`.** The single and hybrid vectorisers are loop methods. The encoders are opaque function values.
  - The hybrid one is proved against the function `Hybrid`.
  - Its records are well formed, its ids strictly increase, and kept plus skipped chunks equal the input.
  - The record with id `i + 6000` exists exactly when chunk `i` is kept.
- **`Api`.** The Endee client is a class (`EndeeClient`) that records every call made on it. Its answers (an exception, or a query's raw hits) are fixed per call by oracle functions.
  - Each route handler is a method. Its contract gives the exact calls made and the response.
  - Request parsing with defaults, the precision lookup and hit normalisation are pure functions.
- **`RagHelper`.** The payload builders are functions.
  - `_endee_base_retriever` is a loop method proved against the function `Retrieve`.
  - Lemmas give the shape of the mapped documents and the error of the first entry that fails.
- **`Pipeline`.** Lemmas across the three parts:
  - ingestion payloads and retrieval payloads as the gateway reads them;
  - gateway hits as the retrieval client maps them.

### Behaviour of the code worth knowing

- The gateway's normalisation reads `meta["content"]`, but ingestion stores the text under `meta["text"]`. So if the backend returns the `meta` it was given, every hit has `text: null` (`Pipeline.StoredTextNotReturned`).
- The retrieval client then passes that `null` as a `Document`'s page content. pydantic's `str` validation rejects it (`Pipeline.StoredHitFailsRetrieval`). A query that returns any stored record therefore fails in the retrieval client.
- The gateway never returns `source`, `title` or `description`. They are always `None` in the retrieved metadata (`Pipeline.HitAsDocument`).
- `validate_vector` accepts booleans as numbers, because `bool` is a subclass of `int`. `validate_dimension` and `validate_top_k` reject them.
- `validate_index_name` raises `TypeError` for a truthy value that is not a string.
- `get_slices` raises `ValueError` for a batch size of 0 and returns `[]` for a negative one.
- The hybrid vectoriser skips every chunk when the model declares no dimension (`None`).
- In `upsertVectors`, an HTTP error whose JSON body is not a dict makes `err.get` raise `AttributeError` inside the handler. That exception escapes the function.
- A success response whose body is not JSON is reported as `Unexpected error: …`.
- The ingestion client's default server URL is `http://localhost:8080`. The gateway serves on port 8000.
- Neither the ingestion client's `/index/hybrid/upsert` route nor the retrieval client's `/index/hybrid/query` route exists in the gateway. These payloads are modelled only on the client side.

## Model

| member | source | states |
|---|---|---|
| Python.DictGet | endee-service/api.py:17-20 | `d.get(k, default)` on a dict gives the stored value when `k` is a key and the default otherwise |
| Python.Get | endee-service/api.py:17-20 | `d.get(k, default)` gives the stored value or the default, and raises `AttributeError` exactly when `d` is not a dict |
| Python.Len | endee-service/api.py:56 | `len` is defined exactly on strings, lists and dicts, and gives a list's length |
| Python.DecimalStringRoundTrip | endee-service/validators.py:33 | the decimal text of an int parses back to that int |
| Python.Sort | endee-service/validators.py:49 | `sorted` returns a permutation of its input of the same length |
| Python.SortSorted | endee-service/validators.py:49 | `sorted` output is ascending in code-point lexicographic order |
| Python.SortDeterministic | endee-service/validators.py:49 | two inputs with the same elements sort to the same list |
| Python.PlainRepr | endee-service/validators.py:49 | `repr` of a string of printable ASCII characters other than quotes and backslashes is that string in single quotes |
| Validators.NameRangesMeanNameChar | endee-service/validators.py:3 | a character is in the pattern's class iff it is an ASCII letter, digit or underscore |
| Validators.FullMatchMeansValidName | endee-service/validators.py:3 | `fullmatch` of the pattern accepts exactly the non-empty strings of name characters |
| Validators.ValidateIndexName | endee-service/validators.py:6-11 | "required" iff falsy; None iff a valid name; "invalid" iff a non-empty string that is not valid; `TypeError` iff truthy and not a string |
| Validators.ValidateDimension | endee-service/validators.py:15-22 | each message holds iff its guard is the first to fail; None iff a non-bool int > 0 |
| Validators.ValidateTopK | endee-service/validators.py:26-34 | None iff a non-bool int in `[1, max_k]`, with `max_k` defaulting to 512; otherwise the one message for `max_k` |
| Validators.TopKMessageNamesBound | endee-service/validators.py:33 | the message is the fixed prefix followed by the decimal text of `max_k` |
| Validators.AllNumbers | endee-service/validators.py:41 | the `all(...)` check holds iff every element is an int, float or bool |
| Validators.ValidateVector | endee-service/validators.py:38-43 | "non-empty list" iff not a list or empty; then "only numbers" iff some element is not numeric; None otherwise |
| Validators.ValidateChoice | endee-service/validators.py:47-50 | None iff the value is allowed; otherwise the message lists `sorted(allowed)` |
| Validators.ChoiceMessageDeterministic | endee-service/validators.py:49 | the result depends only on the multiset of allowed values; the listed order is sorted and a permutation |
| Validators.ChoiceExample | endee-service/validators.py:47-50 | an unknown precision is refused with the five precision names listed ascending |
| Http.ResponseJson | langchain-service/rag/rag_helper.py:24 | `response.json()` returns the decoded value of a JSON body, and raises `JSONDecodeError` with the decoder's message for any other body |
| Upsert.SlicesPartition | langchain-service/ingestion/upsert.py:14-19 | no slices iff no vectors; otherwise the slices start at 0, are contiguous, each non-empty and at most `batch_size`, all but the last exactly `batch_size`, and end at `len(vectors)` |
| Upsert.SlicesCount | langchain-service/ingestion/upsert.py:14-19 | there are `ceil(n / batch_size)` slices |
| Upsert.SlicesExample | langchain-service/ingestion/upsert.py:13-19 | 2100 vectors give (0,950), (950,1900), (1900,2100) |
| Upsert.GetSlices | langchain-service/ingestion/upsert.py:14-19 | the loop returns the slices of the input; step 0 raises `ValueError`; a negative step gives none |
| Upsert.UpsertVectors | langchain-service/ingestion/upsert.py:22-70 | success iff a JSON response with a status `raise_for_status` accepts (any status outside 400..599), with that JSON as data; fixed messages for a connection error, a timeout and an HTTP error (its `error` field, its default or the raw text); "Unexpected error: …" otherwise; data None on every failure |
| Upsert.Requests | langchain-service/ingestion/upsert.py:78-82 | one request per slice |
| Upsert.BatchUpsertVectors | langchain-service/ingestion/upsert.py:74-86 | posts the per-slice requests in order and returns the last result, or `{}` when none; stops only when `upsertVectors` raises |
| Upsert.UpsertSingleIndex | langchain-service/ingestion/upsert.py:89-90 | the batch with the single index name and `/index/upsert` URL |
| Upsert.UpsertHybridIndex | langchain-service/ingestion/upsert.py:93-94 | the batch with the hybrid index name and `/index/hybrid/upsert` URL |
| Upsert.RequestsCoverInput | langchain-service/ingestion/upsert.py:78-82 | every request carries the given name and URL and 1..950 vectors (below the 1000 limit); the batches concatenate to the input |
| Upsert.FailureDoesNotStopBatch | langchain-service/ingestion/upsert.py:78-84 | when no call raises, every request is posted, failed results included, and a result is returned |
| Upsert.PostedIsSentCount | langchain-service/ingestion/upsert.py:78-84 | the number posted is the number up to and including the first call that raises |
| Upsert.BatchContractUnique | langchain-service/ingestion/upsert.py:74-86 | the batch contract determines what is posted and what is returned |
| VectorizeData.VectorizeSingleIndex | langchain-service/ingestion/vectorize_data.py:5-27 | one record per chunk in order, with id `i + 6000`, the chunk's embedding, and meta copied from the chunk (`""` defaults) |
| VectorizeData.VectorizeHybridIndex | langchain-service/ingestion/vectorize_data.py:30-67 | the kept-chunk records in order; kept plus skipped is the input; every record has the declared dimension and equal-length sparse lists; ids strictly increase |
| VectorizeData.HybridShape | langchain-service/ingestion/vectorize_data.py:35-54 | records are well formed with strictly increasing ids in `[6000, 6000 + n)` |
| VectorizeData.HybridExact | langchain-service/ingestion/vectorize_data.py:35-65 | id `i + 6000` is present iff chunk `i` is kept, and that record is built from chunk `i` alone |
| VectorizeData.RecordJsonOfChunk | langchain-service/ingestion/vectorize_data.py:16-25 | a record of chunk `c` is sent as `id`, `vector`, `meta` and, on a hybrid record only, the sparse pair; `meta` has exactly `title`, `description`, `source` (`""` defaults) and `text`, the chunk's page content |
| VectorizeData.HybridMetaCopied | langchain-service/ingestion/vectorize_data.py:53-64 | every hybrid record's id names a chunk, and its metadata is that chunk's |
| Api.EndeeClient.constructor | endee-service/api.py:9 | a fresh client with no calls made |
| Api.EndeeClient.Invoke | endee-service/api.py:22-27 | a call is appended to the client's history and answered by the backend's oracle |
| Api.CreateIndexArgs | endee-service/api.py:17-20 | the fields read, with `space_type` "cosine" and `precision` "INT8D" by default; `AttributeError` iff the body is not a dict |
| Api.PrecisionByName | endee-service/api.py:26 | `Precision[p]` succeeds iff `p` is a member name; otherwise `KeyError`, or `TypeError` for an unhashable key |
| Api.CreateIndex | endee-service/api.py:14-29 | no call when parsing or the precision lookup fails; otherwise exactly one create call, and the response echoes the name |
| Api.GetIndex | endee-service/api.py:35-41 | one get call for the name; the response echoes it |
| Api.UpsertedResponse | endee-service/api.py:56 | `count` is the number of `embedded_vectors`; `len` raises on a non-sized value |
| Api.UpsertVectors | endee-service/api.py:47-56 | get, then upsert on that name, then the count; a failing call ends the handler with its exception |
| Api.CleanRecord | endee-service/api.py:80-85 | `id`, `similarity` and `distance` copied or None; `text` is `meta["content"]` or None; `AttributeError` iff the record or its `meta` is not a dict |
| Api.NormalizeResults | endee-service/api.py:79-87 | same length as the raw results, entry i cleaned from raw entry i; fails iff some record fails |
| Api.NormalizeConcat | endee-service/api.py:79-87 | normalising distributes over concatenation, so nothing is reordered |
| Api.QueryResponse | endee-service/api.py:89-93 | exactly `index_name`, `top_k` and `results`, with the hits in order |
| Api.QueryIndexArgs | endee-service/api.py:65-68 | `top_k` defaults to 5 and `include_vectors` to False |
| Api.QueryIndex | endee-service/api.py:62-93 | get, then query with the defaulted arguments; the response echoes `index_name` and `top_k` and lists the normalised hits |
| RagHelper.SinglePayload | langchain-service/rag/rag_helper.py:42-49 | exactly `index_name` (the single index), the query's dense vector and `top_k = 20` |
| RagHelper.HybridPayload | langchain-service/rag/rag_helper.py:56-66 | the hybrid index name, the dense vector and sparse pair of the same query, and `top_k = 20` |
| RagHelper.PayloadsDiffer | langchain-service/rag/rag_helper.py:45-66 | the single payload has no sparse fields; the hybrid payload is the single one with its index name changed and the sparse pair added |
| RagHelper.ToDocument | langchain-service/rag/rag_helper.py:28-38 | page content is `text` or ""; the four metadata fields are copied or None; non-dict entries and non-string text raise |
| RagHelper.DocumentsInOrder | langchain-service/rag/rag_helper.py:27-38 | one Document per entry, in order, exactly when every entry converts |
| RagHelper.DocumentsFirstFailure | langchain-service/rag/rag_helper.py:27-38 | a failed mapping ends with the error of the first entry that does not convert |
| RagHelper.DocumentsFailurePersists | langchain-service/rag/rag_helper.py:27-38 | once an entry fails, later entries do not change the outcome |
| RagHelper.ResultDocuments | langchain-service/rag/rag_helper.py:27 | a list is mapped entry by entry; an empty string or dict gives nothing; a non-empty one raises `AttributeError`; scalars raise `TypeError` |
| RagHelper.Retrieve | langchain-service/rag/rag_helper.py:16-40 | transport errors propagate; an error status raises before decoding or mapping; a non-JSON body raises its decode error; missing `results` gives no documents |
| RagHelper.BaseRetriever | langchain-service/rag/rag_helper.py:16-40 | the loop computes `Retrieve` of the post's outcome |
| RagHelper.SingleIndexRetriever | langchain-service/rag/rag_helper.py:42-54 | retrieval of the single payload at the single query URL |
| RagHelper.HybridIndexRetriever | langchain-service/rag/rag_helper.py:56-71 | retrieval of the hybrid payload at the hybrid query URL |
| Pipeline.UpsertBatchCounted | endee-service/api.py:50-56 | the gateway reads an ingestion batch under the keys it was sent with, forwards each record as the dict it was sent as, and counts the records |
| Pipeline.IndexNamesAgree | langchain-service/ingestion/upsert.py:10-11 | ingestion and retrieval use the same index names |
| Pipeline.SingleQueryAsRead | endee-service/api.py:65-68 | the gateway reads the single query with its name, vector and `top_k = 20`, and `include_vectors` False |
| Pipeline.StoredTextNotReturned | endee-service/api.py:84 | a hit whose `meta` is the one a vectorised record of a chunk was sent with holds the chunk's text under `text`, yet normalises to text None |
| Pipeline.HitAsDocument | langchain-service/rag/rag_helper.py:28-38 | a gateway hit converts iff its text is a string; source, title and description are then None |
| Pipeline.StoredHitFailsRetrieval | langchain-service/rag/rag_helper.py:30 | the retrieval client rejects the normalised hit of a stored record of a chunk |
| Pipeline.HybridHitFailsRetrieval | langchain-service/rag/rag_helper.py:30 | the same for every record the hybrid vectoriser produces |
| Pipeline.QueryResponseRetrieved | langchain-service/rag/rag_helper.py:27-40 | a gateway query response is retrieved iff every hit has string text |

## Left out

- HTTP transport: the network, the 15 s and 20 s timeouts, and exception messages apart from the ones the code puts in a result. Each post is a parameter that gives its outcome.
- `ENDEE_DB_URL` from the environment: the ingestion URL is a parameter, and `Upsert.DefaultEndeeUrl` is its default.
- Flask:
  - routing, CORS and `app.run`;
  - `request.get_json()` failures such as a non-JSON body or a wrong content type;
  - `jsonify` serialisation;
  - the error response sent when a handler raises. The model stops at `Raised`.
- The Endee client library: index storage, and the identity of the index object that `get_index` returns. The backend's answers are oracle functions, and the `Precision` member names are a parameter.
- The embedding and sparse models (`load_embeddingModel`, `sparse_encoder`): opaque functions. Their float32 values are reals, and `.tolist()` is the identity.
- The `Document` class: only its `str` check on `page_content` is modelled, as pydantic's `ValidationError`. The metadata dict is not validated.
- Floating point arithmetic: no float is computed, only passed on.
- Key order of Python dicts: JSON objects are maps. For a non-empty dict `results`, the model uses the fact that its first key, whatever it is, is a string without `get`.
- Validators.ValidateChoice: takes only a string value and a list of strings. Non-string values, containers other than a list, and `sorted` over mixed types are not modelled.
- Python.Repr: escapes backslash, `\n`, `\r`, `\t` and the chosen quote only, and writes other control and non-printable characters unchanged, where Python writes `\x..` or `\u....` escapes.
- Upsert.GetSlices: a non-integer `batch_size` is not modelled.
- Http.PostOutcome: `raise_for_status` is modelled as raising a plain `HTTPError` without its message. The decode error's message is an opaque string.
- UI, loading, preprocessing, chunking, embedding-model loading and the LLM pipeline (`app.py`, `helpers.py`, `loaders.py`, `preprocessing.py`, `chunking.py`, `embeddings.py`, `rag_pipeline.py`, `prompts.py`) are not part of this model.
