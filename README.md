# A verified model of the core logic of a RAG service

The service indexes documents from blob storage into a vector search
index. It answers questions by retrieving relevant chunks and handing
them to a chat model. Almost all of it is cloud plumbing. This project
models only its sequential logic, in Dafny:

- **Ingestion** (`chunker.dfy`, `worker.dfy`):
  - `DocumentChunker.chunk_text` slides a window of `chunk_size`
    characters by `chunk_size - chunk_overlap`. It moves a window's end
    to a sentence separator, numbers the non-blank chunks from 0 and
    derives their ids from `(doc_id, chunk_index)`.
  - `IngestionWorker` holds `extract_text`, `process_blob` and
    `scan_and_process`. The last keeps the set of
    `"name:last_modified"` keys already processed.
- **Embedding batcher** (`embeddings.dfy`): `embed_batch` slices its
  input, drops blank strings, restores the provider's order by `index`
  and concatenates. `embed_text` refuses blank text. Both, and `chat`,
  retry three times and then raise tenacity's `RetryError` (`retry.dfy`).
- **Vector-store** requests (`vector_store.dfy`): `index_documents`
  attaches vectors in place and counts results. `search` builds its
  parameters and maps the hits. `delete_documents` builds its payload.
- **Chat client** (`llm.dfy`): the cost estimate, the message token
  count, and the message lists of `chat` and `chat_stream`.
- **Response cache** (`cache.dfy`): `SimpleCache` with its
  query-normalising key helpers.
- **Query pipeline** (`pipeline.dfy`): `RAGPipeline.query`. It covers
  the cache key and the cache-hit short cut, which changes the stored
  dict in place. It also covers the threshold filter, the context and
  source formatting, the response and the cache write. Beside it sit
  the event order of `query_stream` and `RAGResponse.to_dict`.
- **Settings** (`config.dfy`): field bounds, the `app_env` whitelist,
  `is_production` and `embedding_dimensions`.
- **Index seeding script** (`seed_index.dfy`): its dimension rule,
  `create_index`, the record assembly of `upload_documents` and the
  missing-variable check of `main`, and `main`'s exit code.

`common.dfy` holds `Option`/`Result`. `text.dfy` models the Python
string built-ins the code uses: `strip`, ASCII `lower`, `rfind`, `in`,
`str(int)` and `join`. `records.dfy` holds the document dict shared by
the chunker and the vector store.

External services and opaque computations are function-typed
parameters:

- the embeddings API, one per retry attempt;
- the chat API and its stream;
- the search client, the index upload and delete calls;
- the blob download;
- the UTF-8 decoder and the JSON pretty-printer;
- the tokenizer's token count, together with the encoding's
  special-token strings, on which tiktoken's `encode` raises;
- MD5 and SHA-256 as hex strings;
- the process environment;
- the clock, whose readings (`latency_ms`, `created_at`) are parameters.

Scores and costs are `real`.

Code that changes state is imperative Dafny:

- the chunker loop, the separator loop, the embedding batch loop, the
  token count, the result mapping and formatting loops, and the upload
  loop are `method`s with loop invariants;
- `SimpleCache`, `IngestionWorker` and `RAGPipeline` are classes, and
  the cached response dict is a class too, because a cache hit changes
  it in place;
- `index_documents` writes into an `array` of documents.

Each method is proved equal to a specification function, and the
properties are lemmas about those functions.

The service's design describes several things the code does not do,
among them:

- cache entries that expire;
- cache keys that include `top_k` and model versions;
- a check that the overlap is smaller than the chunk size;
- a cache hit whose latency is that of the lookup alone;
- retries of retryable errors only;
- rejection of a `top_k` of zero or less and of an empty question;
- context deduplicated by source, ordered by descending score and
  capped in size.

The model follows the code in all of these. `get` ignores the TTL
(`Cache.GetIgnoresTtl`). The key depends on the question alone
(`Pipeline.RagCacheKeyOfNormalForm`). A settings object with an
overlap equal to the size loads (`Config.LoadAdmitsEqualOverlap`). A
hit returns the stored dict, with the first answer's `latency_ms`
(`Pipeline.RagPipeline.AskAgain`). Every error is retried, up to three
attempts in all (`Retry.Retried`). A `top_k` of zero falls back to the
configured value, and a negative one reaches the search
(`VectorStore.EffectiveTopK`). A blank question fails only because its
embedding raises (`VectorStore.BlankQueryIsNotSearched`). The context
is the relevant results in retrieval order, one document each, with no
cap (`Pipeline.FormatContext`).

## Model

| member | source | states |
|---|---|---|
| Config.ValidateEnv | src/common/config.py:89-95 | accepts exactly "development", "staging" and "production", returns the value unchanged, and rejects anything else with `BadAppEnv` |
| Config.DeploymentDimensions | src/common/config.py:101-107 | the one dimension rule: 3072 exactly when the deployment name contains "large", and 1536 otherwise |
| Config.EmbeddingDimensions | src/common/config.py:101-107 | the settings' dimension is 3072 exactly when their embedding deployment name contains "large", and 1536 otherwise |
| Config.Load | src/common/config.py:21-87 | a rejected settings object comes with at least one error |
| Config.LoadedSettingsAreValid | src/common/config.py:57-99 | loaded settings satisfy every field bound and name an allowed environment; `is_production` holds exactly when `APP_ENV` was "production" |
| Config.LoadAccepts | src/common/config.py:31-95 | settings with the five required fields set, an allowed or absent `APP_ENV` and every bounded value in range or absent do load. Given values are kept, and absent ones take the defaults "development", "gpt-4o", "text-embedding-3-large", "rag-documents", "documents", 1000, 200, 5 and 0.75 |
| Config.LoadRejects | src/common/config.py:31-79 | any one of the five required fields missing, an out-of-range value given for a bounded field, or a bad `APP_ENV` rejects the settings |
| Config.MissingFieldsAreNamed | src/common/config.py:37-49 | each missing required field is reported as `MissingField` with its own name |
| Config.DefaultDimensionIs3072 | src/common/config.py:41 | the default embedding deployment "text-embedding-3-large" gives 3072 dimensions |
| Config.AdaDimensionIs1536 | src/common/config.py:101-107 | "text-embedding-ada-002" gives 1536 dimensions |
| Config.LoadAdmitsEqualOverlap | src/common/config.py:57-67 | as written, settings with every required field set and size 100 with overlap 100 load, keeping 100 and 100 |
| Config.CorrectedLoad | src/common/config.py:57-67 | the corrected settings load exactly when the settings load and the overlap is below the size, and are then the same settings |
| Config.CorrectedLoadMakesProgress | src/common/config.py:57-67 | corrected settings have a size of at least 100 and an overlap from 0 to one below the size, so the step is from 1 to the size |
| Config.CorrectedLoadRejectsEqualOverlap | src/common/config.py:57-67 | the corrected settings reject size 100 with overlap 100 |
| Retry.Retried | src/rag_api/embeddings.py:74-77 | the retried call succeeds exactly when one of the three attempts succeeds, with the first successful attempt's value; otherwise it raises a `RetryError` holding the third attempt's error |
| Retry.RetriedFirstSuccess | src/rag_api/embeddings.py:74-77 | a call whose first attempt succeeds returns that attempt's value |
| Retry.RetriedConstantFailure | src/rag_api/llm_client.py:93-96 | a call that fails with the same error on every attempt raises a `RetryError` holding that error |
| Chunking.DocumentChunker.ChunkText | src/ingestion/worker.py:53-107 | the `while` loop returns exactly the chunk list `ChunkSpec`; blank text gives no chunks |
| Chunking.DocumentChunker.BreakPoint | src/ingestion/worker.py:65-74 | the end the loop body computes for a window is `WindowEnd` |
| Chunking.FindSeparatorEnd | src/ingestion/worker.py:70-74 | the `for sep` loop returns the end after the last occurrence of the first separator found in the search range, or nothing |
| Chunking.SeparatorEndMeaning | src/ingestion/worker.py:70-74 | a separator end is found exactly when some separator occurs in the range, and it lies just after an occurrence |
| Chunking.WindowEnd | src/ingestion/worker.py:65-74 | a window ends after its start and at most `chunk_size + 100` past it. Near the end of the text it ends at `start + chunk_size`; a moved end lies between `start + chunk_size // 2 + 2` and the end of the text |
| Chunking.WindowStartsShape | src/ingestion/worker.py:61-97 | window starts begin at 0 and grow by exactly `chunk_size - chunk_overlap`, whatever the window ends. The last one is inside the text and the next would be past it |
| Chunking.ExampleWindowStarts | src/ingestion/worker.py:61-97 | for 2500 characters, size 1000 and overlap 200, the windows start at 0, 800, 1600 and 2400 |
| Chunking.ChunkSpecShape | src/ingestion/worker.py:76-92 | chunk k has index k, with no gaps, and an id derived from `(doc_id, k)`. Its title is "`source` - Part k+1". Its content is its own stripped window, never empty, and `chunk_size` is the content's length. Chunks come in text order, each starting at a window start |
| Chunking.ChunkSpecIncludesEveryWindow | src/ingestion/worker.py:61-97 | every window start whose stripped window is not blank yields a chunk that starts there, ends where that window ends and holds its stripped text |
| Chunking.SameDocIdSameIds | src/ingestion/worker.py:78-80 | two chunkings with the same `doc_id` give the same id to every chunk number both produce |
| Chunking.EmitKeepsInvariant | src/ingestion/worker.py:76-95 | appending a non-blank window's chunk and advancing keeps the loop's invariant |
| Chunking.SkipKeepsInvariant | src/ingestion/worker.py:76-95 | skipping a blank window and advancing keeps the loop's invariant |
| Chunking.GapExample | src/ingestion/worker.py:68-76 | as written, in "abcde. fghij" with size 10 and overlap 2 the character at 7 is in no chunk |
| Chunking.CorrectedChunksCover | src/ingestion/worker.py:68-76 | with the separator search starting no earlier than the next window, every non-blank character of the stripped text is inside some chunk |
| Chunking.NoProgressWithoutPositiveStep | src/ingestion/worker.py:61-97 | with an overlap of at least the size, `start` is at most 0 after any number of loop passes, so on non-blank text neither the loop test nor the break ends `chunk_text` |
| Chunking.StartsAreStartAfter | src/ingestion/worker.py:61-97 | for a valid chunker, window start k is `start` after k passes of the loop |
| Ingestion.Extension | src/ingestion/worker.py:161 | the extension is the lower-cased text after the last dot, containing no dot, or "txt" when there is no dot |
| Ingestion.ExtractText | src/ingestion/worker.py:159-172 | every extension decodes UTF-8: the JSON branch is never taken |
| Ingestion.IngestionWorker.constructor | src/ingestion/worker.py:121-130 | a new worker has recorded no blob |
| Ingestion.IngestionWorker.ProcessBlob | src/ingestion/worker.py:174-214 | `process_blob` returns 0 without a blob client, on a failed download, on blank text, on no chunks or on an indexing error. Otherwise it returns the number of chunks |
| Ingestion.IngestionWorker.ScanAndProcess | src/ingestion/worker.py:216-240 | without a blob client it reports so and changes nothing; a failed listing reports zero counts and the error. Otherwise the counters and the new key set are those of `Scan` |
| Ingestion.ScanCounts | src/ingestion/worker.py:221-234 | every listed blob is scanned. No more blobs are new, or processed, than scanned, and keys are only added |
| Ingestion.ScanRecordsSuccesses | src/ingestion/worker.py:229-234 | after a scan, every blob whose processing produced chunks has its key recorded |
| Ingestion.ScanOfKnownBlobs | src/ingestion/worker.py:225-234 | when every blob is recorded or produces nothing, a scan records nothing and counts nothing new. Only unrecorded blobs are processed |
| Ingestion.RescanFindsNothingNew | src/ingestion/worker.py:216-240 | a second scan of the same listing records nothing new, creates no chunks and processes only blobs that produced nothing |
| Ingestion.LoadedChunkerStalls | src/ingestion/worker.py:121-124 | as written, settings with size 100 and overlap 100 load and give the worker a chunker that is not valid, with step 0, whose `chunk_text` never ends on non-blank text |
| Ingestion.CorrectedLoadGivesValidChunker | src/ingestion/worker.py:121-124 | a chunker built from corrected settings is always valid |
| Embeddings.EmbedTextBlankFails | src/rag_api/embeddings.py:74-89 | blank text raises `EmptyText` on every attempt whatever the provider does, so `embed_text` raises a `RetryError` holding `EmptyText` |
| Embeddings.EmbedBatchEmpty | src/rag_api/embeddings.py:131-132 | `embed_batch([])` returns [] and makes no provider call |
| Embeddings.EmbedBatchZeroSize | src/rag_api/embeddings.py:107-136 | a zero batch size on non-empty input raises on every attempt, as `range` does, so `embed_batch` raises a `RetryError` holding `InvalidBatchSize` |
| Embeddings.EmbedBatchOnce | src/rag_api/embeddings.py:131-160 | one attempt's loop returns `BatchAttempt` and sends exactly the calls `AttemptCalls` |
| Embeddings.BatchesFlatten | src/rag_api/embeddings.py:136-142 | the batches sent, put together, are the non-blank inputs in input order |
| Embeddings.BatchesBounded | src/rag_api/embeddings.py:136-142 | every batch sent holds 1 to `batch_size` texts, none blank; all-blank slices cause no call |
| Embeddings.NonBlankMembers | src/rag_api/embeddings.py:139 | a text is kept exactly when it is non-blank and among the inputs |
| Embeddings.SortIsPermutation | src/rag_api/embeddings.py:149-151 | sorting the response items by index keeps the same items |
| Embeddings.SortIsSorted | src/rag_api/embeddings.py:149-151 | the sorted response items are in index order |
| Embeddings.FaithfulBatchEmbeddings | src/rag_api/embeddings.py:149-151 | whatever order the provider returns its items in, the batch's vectors come out in input order |
| Embeddings.EmbedBatchFaithful | src/rag_api/embeddings.py:131-160 | with a provider that embeds each text, one attempt returns the vectors of the non-blank inputs, in order; one per non-blank text |
| Embeddings.CallsOnSuccess | src/rag_api/embeddings.py:136-152 | a successful attempt sends every batch |
| Embeddings.CallsArePrefix | src/rag_api/embeddings.py:136-152 | the calls of an attempt are a prefix of its batches |
| Embeddings.CallsReturnBeforeLast | src/rag_api/embeddings.py:136-152 | every call of an attempt but the last returns |
| Embeddings.CallsOnFailure | src/rag_api/embeddings.py:136-152 | a failed attempt fails with the error of its last call |
| Embeddings.RetryResendsEveryBatch | src/rag_api/embeddings.py:107-111 | when the first attempt fails and the second succeeds, the result is the second attempt's value, and it sends every batch again |
| VectorStore.IndexDocuments | src/rag_api/vector_store.py:203-242 | `index_documents` returns `IndexOutcome` and leaves the documents as `PreparedDocs` |
| VectorStore.AttachVectors | src/rag_api/vector_store.py:226-227 | the zip loop writes vector k into document k, in place |
| VectorStore.AttachedFacts | src/rag_api/vector_store.py:222-227 | document k gets vector k; documents past the vectors are untouched; no other field changes |
| VectorStore.NoEmbeddingLeavesDocuments | src/rag_api/vector_store.py:222 | without embedding generation the documents are untouched |
| VectorStore.EmptyIndexDoesNothing | src/rag_api/vector_store.py:218-219 | `index_documents([])` reports 0 indexed and 0 failed and changes no document |
| VectorStore.Stats | src/rag_api/vector_store.py:232-233 | `indexed + failed` is the number of results, and `indexed` counts the successes |
| VectorStore.StatsCountEveryResult | src/rag_api/vector_store.py:230-242 | a successful indexing reports one count per upload result |
| VectorStore.ZipMisaligns | src/rag_api/vector_store.py:222-227 | as written, a blank document before a non-blank one takes that one's vector, and the non-blank one gets none |
| VectorStore.AlignedAttachFaithful | src/rag_api/vector_store.py:222-227 | the corrected attachment gives every non-blank document its own content's vector and leaves blank ones alone |
| VectorStore.EffectiveTopK | src/rag_api/vector_store.py:263 | a missing or zero `top_k` falls back to the configured value |
| VectorStore.BuildSearchParams | src/rag_api/vector_store.py:268-287 | `top == k_nearest_neighbors == top_k`. `search_text` is set exactly when hybrid search is on, and `filter` exactly when the filter is truthy |
| VectorStore.MapHits | src/rag_api/vector_store.py:291-305 | hits map one to one and in order to results, a missing score becoming 0; nothing is filtered |
| VectorStore.Search | src/rag_api/vector_store.py:244-314 | when embedding the query fails, nothing is searched and the embedding's `RetryError` is raised. Otherwise the built parameters are sent; a failing search call raises its error, and a successful one has every hit mapped, one result per hit, in order |
| VectorStore.BlankQueryIsNotSearched | src/rag_api/vector_store.py:266 | a blank query fails before any search, with a `RetryError` holding `EmptyText` |
| VectorStore.DeletePayloadKeys | src/rag_api/vector_store.py:318 | the delete payload holds one key per id, in order |
| VectorStore.DeleteDocuments | src/rag_api/vector_store.py:316-322 | a delete fails exactly when the call fails, with its error. Otherwise the count is the number of results whose `succeeded` is true; it is at most the number of results, and at most the number of ids when there is one result per id |
| Llm.LlmResponse.EstimatedCostUsd | src/rag_api/llm_client.py:45-51 | the cost is non-negative for non-negative counts and zero for zero counts |
| Llm.CostMonotone | src/rag_api/llm_client.py:46-51 | the cost grows with both token counts |
| Llm.OutputTokenCostsThreeInputTokens | src/rag_api/llm_client.py:49-50 | an output token costs three input tokens |
| Llm.CountMessagesTokens | src/rag_api/llm_client.py:79-91 | succeeds exactly when every content and role encodes, with 2 plus, per message, 4 and the tokens of its content and role; otherwise it fails on the first text whose encoding raises |
| Llm.FirstRejectedMeaning | src/rag_api/llm_client.py:79-91 | no text is rejected exactly when every message encodes; a rejected text belongs to a message all of whose predecessors encode |
| Llm.MessagesTokensFacts | src/rag_api/llm_client.py:83-91 | the count is 2 for no messages, additive over concatenation apart from the single 2, and at least 4 per message |
| Llm.SumMessageTokensAppend | src/rag_api/llm_client.py:85-89 | per-message tokens add up over concatenation |
| Llm.SystemContent | src/rag_api/llm_client.py:121-134 | the system content starts with the prompt or the default one. Without documents it is just that; with documents it ends in a newline |
| Llm.BuildMessages | src/rag_api/llm_client.py:118-137 | the list ends with the user message and has 1 or 2 messages. It has 2, the first a system message with `SystemContent`, exactly when there is a prompt or there are documents |
| Llm.JoinHasPart | src/rag_api/llm_client.py:126 | every part occurs in the joined string |
| Llm.ContextDocumentsAreQuoted | src/rag_api/llm_client.py:124-135 | every context document occurs in the system message |
| Llm.ChatOnce | src/rag_api/llm_client.py:139-157 | a chat attempt whose messages do not all encode fails with the rejected text before any request. Otherwise it sends the built messages and fails on an API error or no choices; otherwise it copies the first choice, the model and the usage counts |
| Llm.RejectedMessagesFailChat | src/rag_api/llm_client.py:93-140 | messages the encoder rejects make `chat` end in `RetryError` of a tokenizer error, with the same result whatever the endpoint would answer |
| Llm.SpecialTokenInQuestionFailsChat | src/rag_api/llm_client.py:79-81 | a special-token string in the user's message makes `chat` raise |
| Llm.SpecialTokenInContextFailsChat | src/rag_api/llm_client.py:116-141 | a special-token string in any context document makes `chat` raise |
| Llm.ChatCopiesUsage | src/rag_api/llm_client.py:150-157 | a successful `chat` carries the token counts of a successful attempt's usage unchanged |
| Llm.ChatStream | src/rag_api/llm_client.py:186-212 | `chat_stream` sends the stream-style messages and yields the stream's deltas |
| Llm.DeltasFacts | src/rag_api/llm_client.py:210-212 | only non-empty deltas are yielded, at most one per stream chunk |
| Llm.DeltaIsYielded | src/rag_api/llm_client.py:210-212 | a chunk with a non-empty first delta yields it, in stream order |
| Cache.CacheKey | src/rag_api/cache.py:53-56 | a cache key is at most 16 characters |
| Cache.CacheKeyOfNormalForm | src/rag_api/cache.py:53-56 | queries equal after `lower().strip()` share a key |
| Text.NormalizeIdempotent | src/rag_api/cache.py:55 | `lower().strip()` applied twice is applied once |
| Cache.StoredTtl | src/rag_api/cache.py:84-89 | a missing or zero TTL stores the default, any other the given one |
| Cache.SimpleCache.constructor | src/rag_api/cache.py:70-72 | a new cache is empty and keeps its default TTL |
| Cache.SimpleCache.Get | src/rag_api/cache.py:74-82 | `get` returns the stored value exactly when the key is present |
| Cache.SimpleCache.Set | src/rag_api/cache.py:84-90 | `set` stores the value with its TTL under the key and changes no other key |
| Cache.SimpleCache.Delete | src/rag_api/cache.py:92-94 | `delete` removes the key and nothing else |
| Cache.SimpleCache.Clear | src/rag_api/cache.py:96-98 | `clear` empties the store |
| Cache.SetThenGet | src/rag_api/cache.py:74-90 | a get after a set of the same key returns the value; other keys read as before; a key never set reads as nothing |
| Cache.GetIgnoresTtl | src/rag_api/cache.py:76-80 | what a get returns does not depend on the stored TTL: entries never expire |
| Cache.DeleteFacts | src/rag_api/cache.py:92-94 | a deleted key reads as nothing and other keys read as before. Deleting an absent key changes nothing |
| Cache.GetCachedResponse | src/rag_api/cache.py:113-117 | looks the query up under its derived key |
| Cache.SetCachedResponse | src/rag_api/cache.py:120-124 | stores the response under the query's derived key with the given TTL |
| Cache.CachedResponseRoundTrip | src/rag_api/cache.py:113-124 | a response stored under one query is found under any query with the same normal form |
| Cache.CacheRoundTrip | src/rag_api/cache.py:113-124 | the same round trip through the two helpers on one cache |
| Pipeline.RagCacheKey | src/rag_api/rag_pipeline.py:133-135 | every pipeline cache key starts with "rag:" |
| Pipeline.RagCacheKeyOfNormalForm | src/rag_api/rag_pipeline.py:133-135 | questions equal after `lower().strip()` share a key, and nothing else enters it |
| Pipeline.RelevantMembers | src/rag_api/rag_pipeline.py:185-188 | a result is relevant exactly when it was retrieved and scores at least the threshold |
| Pipeline.RelevantKeepsOrder | src/rag_api/rag_pipeline.py:185-188 | the relevant results keep their retrieval order |
| Pipeline.RelevantAppend | src/rag_api/rag_pipeline.py:185-188 | filtering distributes over concatenation |
| Pipeline.DisplayName | src/rag_api/rag_pipeline.py:200 | a document's name is never empty: title, else source, else "Unknown" |
| Pipeline.ContextDocumentFacts | src/rag_api/rag_pipeline.py:200 | a context document is its label "[Document i+1: name]" on its own line, then the content |
| Pipeline.Excerpt | src/rag_api/rag_pipeline.py:208 | the excerpt is the content when it has at most 200 characters, else its first 200 and "..." |
| Pipeline.FormatContext | src/rag_api/rag_pipeline.py:195-209 | the formatting loop of `query` returns one context document and one source per relevant result, in order |
| Pipeline.FormatStreamContext | src/rag_api/rag_pipeline.py:275-285 | the loop of `query_stream`, naming documents by title or "Unknown" |
| Pipeline.ToDict | src/rag_api/rag_pipeline.py:75-90 | `to_dict` builds a fresh dict holding the response's answer, sources and metadata, with the cost estimate |
| Pipeline.FreshAnswerFacts | src/rag_api/rag_pipeline.py:225-233 | a fresh response is not from the cache and echoes the question and the answer. The number of sources is `retrieved_count`, the number of relevant results, and every source scores at least the threshold |
| Pipeline.SpecialTokenQuestionFails | src/rag_api/rag_pipeline.py:216-221 | once the search succeeds, a question holding a special-token string of the encoder fails with the chat's `RetryError` of a tokenizer error |
| Pipeline.NoContextStillAsks | src/rag_api/rag_pipeline.py:190-221 | with no relevant result the model is still asked, with the system prompt alone |
| Pipeline.RagPipeline.constructor | src/rag_api/rag_pipeline.py:126-129 | the pipeline holds the cache, settings and services it is given |
| Pipeline.RagPipeline.Query | src/rag_api/rag_pipeline.py:137-246 | a cache hit returns the stored dict with `from_cache` set in place, leaving the store as it was. On a miss `query` answers; a failed search or chat raises and leaves the store as it was. With the cache on, a fresh dict of the response is stored under the key with TTL 3600. With the cache off, no key changes and no dict changes |
| Pipeline.RagPipeline.AskAgain | src/rag_api/rag_pipeline.py:166-174 | asking again with a question of the same normal form is served from the cache, marked as such |
| Pipeline.RagPipeline.Answer | src/rag_api/rag_pipeline.py:176-233 | the miss path builds `FreshAnswer`: a hybrid search, whose failure is raised, then the chat, whose `RetryError` is raised |
| Pipeline.RagPipeline.QueryStream | src/rag_api/rag_pipeline.py:248-296 | `query_stream` fails when the query cannot be embedded, when the search call fails or when the stream fails; otherwise it yields every delta, then the sources |
| Pipeline.Events | src/rag_api/rag_pipeline.py:288-296 | the event loop yields the content events and then the sources event |
| Pipeline.ContentEventsFacts | src/rag_api/rag_pipeline.py:292-293 | one content event per delta, in order |
| Pipeline.StreamEventOrder | src/rag_api/rag_pipeline.py:288-296 | all content events come first and then exactly one sources event, which is last |
| SeedIndex.ScriptDimensions | scripts/init_search_index.py:43 | as written, the dimension is 1536 exactly when the name contains "small", else 3072 |
| SeedIndex.ScriptDefaultIs1536 | scripts/init_search_index.py:39-43 | the script's default deployment "text-embedding-3-small" gives 1536 |
| SeedIndex.ScriptIndexDisagreesWithSettings | scripts/init_search_index.py:39-43 | as written, reading the same environment, the script sizes the index for 1536 and the settings give 3072 when the deployment variable is unset, and 3072 against 1536 for "text-embedding-ada-002" |
| SeedIndex.RulesAgreeOnSizedNames | scripts/init_search_index.py:43 | the script's rule and the settings' rule agree on names that contain exactly one of "small" and "large" |
| SeedIndex.CorrectedDimensionsMatchSettings | scripts/init_search_index.py:39-43 | the corrected dimension, from the settings' default and rule, is the settings' `embedding_dimensions` for every environment the settings load from |
| SeedIndex.CreateIndex | scripts/init_search_index.py:174-219 | nothing is created exactly when the index exists. Otherwise the definition has the name and seven fields, the key only on "id" and the vector dimension only on "content_vector" |
| SeedIndex.SampleContents | scripts/init_search_index.py:240 | the texts embedded are the documents' contents, in order |
| SeedIndex.UploadDocuments | scripts/init_search_index.py:231-260 | an embedding failure sends nothing. Otherwise the records sent are `UploadRecords`, and `succeeded` counts the successes, at most the number of results |
| SeedIndex.RecordsFacts | scripts/init_search_index.py:244-255 | record i carries document i's id, content, title and source, embedding i and chunk index i. There are `min(len(documents), len(embeddings))` records, sharing one `created_at` |
| SeedIndex.MissingMembers | scripts/init_search_index.py:265-272 | a name is listed missing exactly when it is required and unset |
| SeedIndex.MissingAppend | scripts/init_search_index.py:272 | missing names keep declaration order |
| SeedIndex.RunMain | scripts/init_search_index.py:263-308 | with a variable missing, `main` returns 1 before creating or uploading anything. Otherwise it creates the index if absent, sized by the script's own rule; a failed creation exits 1 with nothing uploaded. It then uploads the records, and exits 0 exactly when the embedding and the upload succeed |
| SeedIndex.MissingVariableStopsMain | scripts/init_search_index.py:265-278 | an unset required variable is listed missing |
| SeedIndex.AllSetNothingMissing | scripts/init_search_index.py:272-278 | with every required variable set, nothing is missing |

## Left out

- Async/await scheduling, `initialize` and the module-level singletons
  `get_*`: these are concurrency and global state. The model calls
  everything in order.
- `IngestionWorker.run_poll_loop`: an infinite loop with
  `asyncio.sleep`.
- `VectorStore.create_index_if_not_exists`
  (src/rag_api/vector_store.py:107-201): SDK calls that build an index
  definition. The seeding script's `create_index` is modelled instead.
- Tenacity's exponential backoff waits. Only the three-attempt limit and
  the final `RetryError` are modelled, each attempt getting its own
  provider.
- The lazy paging of `list_blobs()`: a listing is a whole list or an
  error. An error raised midway through a listing is not modelled, and
  a listing error reports zero counts.
- Parsing of environment strings: `RawSettings` values arrive already
  typed, so pydantic's errors for a value such as `CHUNK_SIZE=abc` are
  not modelled.
- The internals of MD5, SHA-256, UTF-8 decoding, `json.dumps`, the
  tokenizer's count and the cloud SDKs: they are parameters.
- The choice of encoding by `tiktoken.encoding_for_model("gpt-4o")`,
  with its `KeyError` fallback to `cl100k_base`: the encoder is a
  parameter, and its special-token strings are a list.
- The clock: `time.time()` latency and `created_at` are parameters.
- Floating point: scores, temperatures and costs are `real`.
  `cosine_similarity` (numpy) is not modelled.
- Text.Lower: only ASCII letters are lower-cased. Python's full Unicode
  case mapping is not modelled.
- The sample documents' texts in the seeding script: they are a
  parameter.
- SeedIndex.CreateIndex: `get_index` succeeding is the `indexExists`
  parameter. Any exception from it counts as the index being absent,
  as in the code.
- Logging, `print` and structlog: they do not change any result.
- The value of the `count_messages_tokens` call inside `chat`: it is
  only logged. Its failure is modelled: text the encoder rejects ends
  the attempt before any request.
- A chat completion whose message content is `None`: content is a
  string here.
- A stream that fails after some deltas: a stream either fails to open
  or yields all its chunks.
- The unused module-level `_cache` in src/rag_api/cache.py.
- Pipeline.RagPipeline.Query: the `if cached:` test is modelled as key
  presence. Every stored dict is non-empty, so the two agree.
- Ingestion.ExtractText: the JSON pretty-print branch is modelled but
  never taken, because "json" is also in the first tuple.
- Chunking.DocumentChunker.ChunkText: requires `0 < chunk_size` and
  `chunk_overlap < chunk_size`. With an overlap of at least the size
  the Python loop never ends on non-blank text
  (`Chunking.NoProgressWithoutPositiveStep`, `Ingestion.LoadedChunkerStalls`).
  A size of 0 or less is excluded by the settings bounds and is not
  modelled.
- VectorStore.IndexDocuments and Chunking.DocumentChunker.ChunkText
  follow the code as written. The corrected behaviour of the two
  findings below is stated about separate definitions.
- src/rag_api/main.py, src/admin_ui/chat_app.py,
  scripts/add_documents.py and src/common/logging.py are not part of
  this model. They hold the HTTP routes, the UI, a thin wrapper and
  logging configuration.

## Findings

| source | as written | input that shows it | evidently intended | confidence | as-written member | corrected member |
|---|---|---|---|---|---|---|
| src/ingestion/worker.py:68-76 | the separator search starts at `start + chunk_size // 2`, so a window can end before the next window starts | "abcde. fghij" with size 10 and overlap 2: the window ends at 7 after ". ", the next starts at 8, and the "f" at 7 is in no chunk | every character of the text lies in some chunk, as with the search starting no earlier than the next window | not executed | Chunking.GapExample | Chunking.CorrectedChunksCover |
| src/rag_api/vector_store.py:222-227 | vectors are zipped with all documents, but `embed_batch` returns vectors only for non-blank contents | documents with contents "" and "b": the blank document gets the vector of "b" and "b" gets none | each document gets the vector of its own content | not executed | VectorStore.ZipMisaligns | VectorStore.AlignedAttachFaithful |
| src/common/config.py:57-67 | `chunk_overlap` is only checked to be at least 0, not below `chunk_size` | `chunk_size = 100`, `chunk_overlap = 100`: the settings load, and the worker's chunker never advances `start` past 0 | settings that load give the worker a chunker that makes progress | not executed | Ingestion.LoadedChunkerStalls | Ingestion.CorrectedLoadGivesValidChunker |
| scripts/init_search_index.py:39-43 | the script defaults to "text-embedding-3-small" and gives 1536 only for names containing "small", else 3072 | `AZURE_OPENAI_EMBEDDING_DEPLOYMENT` unset: the index gets 1536 dimensions while the settings default to "text-embedding-3-large" and send 3072; "text-embedding-ada-002" gives 3072 against 1536 | the index dimension equals the settings' `embedding_dimensions` | not executed | SeedIndex.ScriptIndexDisagreesWithSettings | SeedIndex.CorrectedDimensionsMatchSettings |
