# financial-rag core in Dafny

This project models the document pipeline of the financial-rag service, a retrieval-augmented question-answering API over financial documents. It covers:

- **Character chunker.** The `RAGSystem._chunk_text` loop: a hard boundary at `start + CHUNK_SIZE`, a backward search for whitespace, and a step back by `CHUNK_OVERLAP`.
- **Ingestion.** Each chunk is embedded in turn. Chunks whose embedding fails are skipped, and the ingestion fails only when none succeeded.
- **Embedding service.** A Redis cache in front of the embedding provider. Batches merge cached and fresh vectors back into text order, and the misses go to the provider in rounds of five.
- **Qdrant adapter.** Filter construction, point ids and payloads, the reshaping of search hits into sources, and the per-document grouping of `list_documents`.
- **Response evaluator.** Citation-marker counting, mean similarity, and the weighted confidence formula.
- **Azure OpenAI client.** URL construction, the prompt and messages built from the retrieved sources, and how replies and failures become results.
- **Role-based authorisation.** The permission table and the decision of the security dependency.
- **Settings.** The chunking and retrieval defaults, and the normalised endpoint.
- **Query paths.** The non-streaming query answer, the event sequence of the streaming query, and the Server-Sent-Events framing that always ends in `[DONE]`.

Every external service is a function-typed parameter and never a model. These are:

- the embedding provider and the completion provider (whole answer or token stream);
- Qdrant search, scroll, upsert and delete;
- Redis, held as a map plus an "up" flag;
- blob storage;
- SHA-256;
- `json.dumps`;
- `urlparse` scheme detection.

Each parameter gives the service's answer, or the message of the exception it raises, as a function of the request.

The modules follow the source files:

- `Chunker` (`chunker.dfy`): `_chunk_text`
- `Rag` (`rag.dfy`): the rest of `core/rag.py`
- `Embeddings` (`embeddings.dfy`): `services/embeddings.py`
- `VectorStore` (`vector_store.dfy`): `services/vector_store.py`
- `Evaluation` (`evaluation.dfy`): `services/evaluation.py`
- `AzureClient` (`azure_client.dfy`): `services/azure_client.py`
- `Security` (`security.dfy`): `core/security.py`
- `Config` (`config.dfy`): `core/config.py`
- `QueryRoute` (`query_route.dfy`): `api/routes/query.py`

`Text` (Python string built-ins), `Seqs` (masks, selection, slicing), `Values` and `Wrappers` are shared helpers.

Facts about the code that the model makes explicit:

- **Chunk count.** 2500 whitespace-free characters with the 1000/200 defaults give four chunks. The starts are 0, 800, 1600 and 2400, and the fourth chunk is a 100-character suffix of the third (`Chunker.SpaceFreeSpans2500`, `Chunker.SpaceFreeTailChunks2500`).
- **Deleting a missing document.** It raises the generic "Error deleting document: Document not found", an exception like any other failure of `delete_document` (`Rag.DeleteDocument`).
- **Partial ingestion.** It reports `chunk_count = len(chunks)`, counting the chunks whose embedding failed as well as those stored (`Rag.IngestDocument`).
- **Total ingestion failure.** When no chunk embeds, the uploaded blob stays in storage (`Rag.IngestDocument`).
- **Chunker termination.** The chunker is not guaranteed to terminate. With the defaults, 200 letters, a space and 1000 letters make the first step return to offset 0 (`Chunker.DefaultSettingsStall`). `Chunker.ChunkText` therefore requires the progress predicate `Chunker.Advances`.

## Model

| member | source | states |
|---|---|---|
| `Config.FormattedEndpoint` | api/src/core/config.py:48-57 | The formatted endpoint always ends in `/`. It starts with the stripped endpoint, prefixed with `https://` when scheme detection finds none. An endpoint already ending in `/` gets no extra slash; otherwise exactly one character is added |
| `Config.FormattedEndpointIdempotent` | api/src/core/config.py:48-57 | Formatting a formatted endpoint changes nothing, given scheme detection that accepts `https://…` and is stable under appending `/` |
| `Config.LoadSettings` | api/src/core/config.py:15-64 | The endpoint is the formatted raw endpoint (`__init__`, lines 62-64, stores `formatted_endpoint` back), so it ends in `/`. Chunk size 1000, overlap 200 (a step of 800), `MAX_DOCUMENTS` and `EMBEDDING_BATCH_SIZE` 5, and the similarity threshold 0.7, strictly between 0 and 1 |
| `Config.ReloadKeepsEndpoint` | api/src/core/config.py:62-64 | Loading settings again from an already stored endpoint gives the same settings |
| `Text.Strip` | api/src/core/rag.py:149 | `str.strip()`: the result is a slice of the input with no whitespace at either end, and only whitespace was removed |
| `Text.StripIdempotent` | api/src/core/rag.py:149 | Stripping twice is stripping once |
| `Text.TrimTrailing` | api/src/services/azure_client.py:21 | `rstrip('/')`: a prefix of the input with no trailing `/`, from which only `/` characters were removed |
| `Text.NatToString` | api/src/services/vector_store.py:50 | `str(i)` for a natural number: a non-empty string of decimal digits |
| `Text.NatToStringInjective` | api/src/services/vector_store.py:50 | Distinct numbers have distinct decimal renderings |
| `Text.JoinContainsPart` | api/src/services/azure_client.py:89-92 | Every part of a `"\n".join` occurs in the joined text |
| `Chunker.Slice` | api/src/core/rag.py:149 | Python's `text[start:end]` with the end clamped to the text |
| `Chunker.BreakSearchIsLastBreak` | api/src/core/rag.py:144-145 | The backward search stops on the last whitespace in `(start, end]`, or at `start` when there is none |
| `Chunker.ChunkEndIsLastBreak` | api/src/core/rag.py:140-147 | With the hard end inside the text, the chosen end is the largest whitespace index in `(start, start+CHUNK_SIZE]`; without one it is the hard end |
| `Chunker.FindEnd` | api/src/core/rag.py:140-147 | The inner loop computes the end the specification function chooses, which lies in `(start, start+size]` |
| `Chunker.ChunkOfIsStrippedSlice` | api/src/core/rag.py:149 | Each emitted chunk is `text[start:end].strip()` |
| `Chunker.ChunkText` | api/src/core/rag.py:133-152 | Given progress, the loop emits exactly the chunks of the spans visited from offset 0, in order |
| `Chunker.ChunksOfIndex` | api/src/core/rag.py:149 | There is one chunk per span, and the k-th chunk is the chunk of the k-th span |
| `Chunker.SpansStep` | api/src/core/rag.py:139-150 | One iteration: the current span, then the spans from `end - CHUNK_OVERLAP`, a strictly larger start |
| `Chunker.SpansBounds` | api/src/core/rag.py:140-149 | No spans exactly when `start` is past the text. Every span starts inside the text, is non-empty, is at most `CHUNK_SIZE` long, and ends at the chosen end |
| `Chunker.SpansLinked` | api/src/core/rag.py:150 | The first span starts at `start`, consecutive spans overlap by exactly `CHUNK_OVERLAP` characters, and the last end reaches past the text |
| `Chunker.SpansShape` | api/src/core/rag.py:139-150 | The bounds and the overlap chaining together |
| `Chunker.SpansCoverText` | api/src/core/rag.py:139-150 | Every character of the text lies in some span |
| `Chunker.ShortTextChunks` | api/src/core/rag.py:136-150 | Empty text gives no chunks; text of length at most `size - overlap` gives exactly one chunk, the stripped text |
| `Chunker.TwoChunkTexts` | api/src/core/rag.py:136-150 | Lengths in `(size - overlap, size]` (within two steps) give exactly two spans |
| `Chunker.TwoChunkContents` | api/src/core/rag.py:149-150 | Those two chunks are the stripped text and the stripped suffix from `size - overlap` |
| `Chunker.SpaceFreeEnd` | api/src/core/rag.py:144-147 | In whitespace-free text every end is the hard end |
| `Chunker.SpaceFreeAdvances` | api/src/core/rag.py:139-150 | In whitespace-free text with `overlap < size` the loop always advances |
| `Chunker.SpaceFreeSpanLength` | api/src/core/rag.py:140-149 | In whitespace-free text every span is exactly `size` long |
| `Chunker.SpaceFreeSpanCount` | api/src/core/rag.py:139-150 | In whitespace-free text the number of spans is the remaining length divided by the step, rounded up |
| `Chunker.SpaceFreeSpans2500` | api/src/core/rag.py:139-150 | 2500 whitespace-free characters with 1000/200 give the spans starting at 0, 800, 1600 and 2400 |
| `Chunker.SpaceFreeTailChunks2500` | api/src/core/rag.py:149-150 | The third and fourth of those chunks are the suffixes from 1600 and 2400 |
| `Chunker.StallWhenBreakNearStart` | api/src/core/rag.py:144-150 | Whitespace within `overlap` of `start` makes the next start not larger, so the loop does not progress |
| `Chunker.DefaultSettingsStall` | api/src/core/rag.py:139-150 | A concrete 1201-character text on which the default settings return to offset 0 |
| `Rag.StrictSumAgrees` | api/src/core/rag.py:55 | `sum(doc["similarity"])` succeeds exactly when every source has a similarity, and then equals the evaluator's sum; otherwise it is a `KeyError` |
| `Rag.ConfidenceIsMeanRelevance` | api/src/core/rag.py:55 | The confidence is the mean similarity, 0 with no sources, and equals the evaluator's `source_relevance.mean` whenever every source has a similarity |
| `Rag.ConfidenceOfSearchResults` | api/src/core/rag.py:364 | Sources produced by a vector search always have a similarity, so the confidence never fails and lies in [0, 1] when the scores do |
| `Rag.ChunkMetadata` | api/src/core/rag.py:102-106 | The chunk metadata is the document metadata plus `chunk_index = i` and `chunk_total = len(chunks)`, with every other key kept |
| `Rag.KeptEmpty` | api/src/core/rag.py:95-113 | At most one entry per chunk. No entry exactly when every embedding failed, which is when ingestion raises |
| `Rag.KeptComplete` | api/src/core/rag.py:96-107 | Every chunk whose embedding succeeded is kept with its index and the chunk total |
| `Rag.KeptSound` | api/src/core/rag.py:96-110 | Every kept entry belongs to a chunk whose embedding succeeded; failures are skipped |
| `Rag.EmbedChunks` | api/src/core/rag.py:95-110 | The loop's list is the kept entries of all chunks, in chunk order |
| `Rag.StoredChunks` | api/src/core/rag.py:117-120 | The vector store receives each kept entry's content and embedding, in order |
| `Rag.IngestDocument` | api/src/core/rag.py:74-131 | Chunker progress is required only when the id lookup and the upload succeed, the one path that reaches `_chunk_text`. The outcomes in source order: a missing `document_id` raises `'document_id'`, and an upload failure is raised again. Then the text is chunked and the chunks embedded. No embedding raises "Failed to generate any valid embeddings". Otherwise the points are upserted and the answer holds the id, the URL and `chunk_count = len(chunks)`. Every error carries the "Error ingesting document: " prefix |
| `Rag.IngestionKeepsEmbeddedChunks` | api/src/core/rag.py:95-113 | One successful embedding suffices for ingestion to proceed, and that chunk is stored with its position and total |
| `Rag.ProcessQuery` | api/src/core/rag.py:18-72 | It succeeds exactly when embedding, retrieval and completion succeed and every source has a similarity. The first failing stage's error is raised as "Error processing query: " followed by that error, and a source without a similarity gives "Error processing query: 'similarity'". The answer holds the retrieved sources, the completion text and usage, and the evaluator's metrics for exactly that response, sources, elapsed time and usage. Its confidence equals the evaluator's confidence score, the mean similarity |
| `Rag.TokenEvents` | api/src/core/rag.py:352-358 | One token event per streamed token, in order |
| `Rag.ProcessQueryStream` | api/src/core/rag.py:300-383 | The stream is well formed on every path. It is one error event when embedding or search fails or finds nothing. Otherwise it is the sources, one event per token, and then the error the stream raised, or a metadata event carrying the confidence, `token_count` equal to the number of tokens and `sources_count` |
| `Rag.ListFilters` | api/src/core/rag.py:233-237 | `document_type` and `tags` enter the filter exactly when given and non-empty, and no other key does |
| `Rag.ListDocuments` | api/src/core/rag.py:224-264 | No filter exactly when neither type nor tag is given. The page is the vector store's grouping of the scrolled points. Errors are wrapped twice in "Error listing documents: " |
| `Rag.DeleteDocument` | api/src/core/rag.py:266-298 | A lookup failure or missing or empty metadata raises, the latter as "Document not found". Otherwise the points are deleted and the answer reports `vector_store_deleted = true` and the blob outcome |
| `Embeddings.CacheKey` | api/src/services/embeddings.py:156-159 | The key is `emb:` followed by the 64-digit lower-case hex digest of the text |
| `Embeddings.CacheKeyCollision` | api/src/services/embeddings.py:156-159 | Two texts share a key exactly when their digests are equal, so equal texts always do |
| `Embeddings.CacheKeyNeverCleared` | api/src/services/embeddings.py:156-159 | No key written by the service matches `emb:doc:<id>:*`, because a hex digest contains neither `o` nor `:` |
| `Embeddings.ClearKeepsEmbeddings` | api/src/services/embeddings.py:194-200 | Clearing a document's keys keeps every cached embedding |
| `Embeddings.HitVectors` | api/src/services/embeddings.py:85-92 | The hits are the non-empty cached vectors of the texts the cache serves, in text order |
| `Embeddings.MissTexts` | api/src/services/embeddings.py:85-94 | The misses are the texts the cache does not serve, in text order; with caching off, all of them |
| `Embeddings.HitVectorsSelect` | api/src/services/embeddings.py:85-92 | The hits are the cached vectors selected by the hit mask |
| `Embeddings.MissTextsSelect` | api/src/services/embeddings.py:85-94 | The misses are the texts left out by the hit mask |
| `Embeddings.NoCacheAllMiss` | api/src/services/embeddings.py:93-94 | With `use_cache` false, every text goes to the provider |
| `Embeddings.EmbeddedAllAppend` | api/src/services/embeddings.py:98-117 | Asking the provider round by round is asking it about all the misses |
| `Embeddings.StoreAppend` | api/src/services/embeddings.py:109-115 | Caching round by round is caching all the misses in order |
| `Embeddings.StoreHits` | api/src/services/embeddings.py:144-152 | After non-empty vectors are stored, every stored text is a hit and every earlier hit stays one |
| `Embeddings.SelectEmbedded` | api/src/services/embeddings.py:97-117 | Selecting texts commutes with asking the provider |
| `Embeddings.MergedBatch` | api/src/services/embeddings.py:119-130 | Merging the hits with the provider vectors of the misses gives, at each position, the cached vector for a hit and the provider vector otherwise |
| `Embeddings.FailureInSlice` | api/src/services/embeddings.py:98-107 | A failing text in a round is a failing text of the misses |
| `Embeddings.MissesEmbedded` | api/src/services/embeddings.py:97-117 | The provider succeeds on all misses exactly when it succeeds on every text the mask leaves out |
| `Embeddings.RepeatBatchHitsCache` | api/src/services/embeddings.py:85-115 | With a working cache and non-empty vectors, repeating a batch is served entirely from the cache |
| `Embeddings.TakeLast` | api/src/services/embeddings.py:184 | `a[-k:]`: the last `k` elements for `k > 0`, and all of them for `k == 0` |
| `Embeddings.FindMostSimilar` | api/src/services/embeddings.py:171-192 | One entry per selected index, carrying that index's score |
| `Embeddings.TopKCount` | api/src/services/embeddings.py:184 | `top_k >= 1` gives `min(top_k, n)` entries, and `top_k == 0` gives all `n` |
| `Embeddings.TopKDescending` | api/src/services/embeddings.py:184-192 | The answer is ordered by descending similarity |
| `Embeddings.TopKBest` | api/src/services/embeddings.py:184 | With `order` an ascending permutation of the indices, as `np.argsort` returns, the answer is the end of `order` reversed. Every index of `scores` left out of the answer scores no higher than every similarity returned |
| `Embeddings.EmbedSlice` | api/src/services/embeddings.py:103-107 | A round succeeds exactly when the provider succeeds on every text, with the vectors in order; otherwise it fails with a failing text's error |
| `Embeddings.MergeInOrder` | api/src/services/embeddings.py:119-130 | `final_embeddings[i]` is the next cached result when `i` is a cached index, and the next computed vector otherwise |
| `Embeddings.MarksOfHits` | api/src/services/embeddings.py:82-90 | `cached_indices` marks exactly the hit positions |
| `Embeddings.EmbeddingsService.constructor` | api/src/services/embeddings.py:19-29 | The service starts with the given cache and no provider requests |
| `Embeddings.EmbeddingsService.GetCachedEmbedding` | api/src/services/embeddings.py:132-142 | The stored vector, or None when absent or when Redis fails; the state is unchanged |
| `Embeddings.EmbeddingsService.CacheEmbedding` | api/src/services/embeddings.py:144-154 | The vector is stored under the text's key, or dropped when Redis fails |
| `Embeddings.EmbeddingsService.GenerateSingleEmbedding` | api/src/services/embeddings.py:56-72 | A truthy hit is returned with no provider request. A miss asks the provider exactly once, and with `use_cache` stores a successful result under the text's key |
| `Embeddings.EmbeddingsService.ReadCache` | api/src/services/embeddings.py:80-94 | Hits in order, misses in order, and the set of hit positions |
| `Embeddings.EmbeddingsService.CacheSlice` | api/src/services/embeddings.py:109-115 | One round's vectors are stored in order |
| `Embeddings.EmbeddingsService.EmbedRound` | api/src/services/embeddings.py:98-117 | One request per round. It succeeds exactly when every text embeds, and the cache is written only on success with `use_cache` |
| `Embeddings.EmbeddingsService.EmbedMisses` | api/src/services/embeddings.py:97-117 | The misses go out in consecutive slices of at most 5, in order. It succeeds exactly when every miss embeds, with the vectors in order |
| `Embeddings.EmbeddingsService.EmbedAndMerge` | api/src/services/embeddings.py:96-130 | Embedding the misses and merging gives, at each position, the hit or the provider vector, with every round sent and cached. On failure, the rounds before the failing one are sent and cached (with caching on) and nothing else is; the error is that of a miss in the failing round |
| `Embeddings.EmbeddingsService.GenerateBatchEmbeddings` | api/src/services/embeddings.py:74-130 | The output has `len(texts)` entries: entry `i` is the cached vector when `texts[i]` hits, else the provider's vector. It fails exactly when some miss fails. Then the misses of the rounds before the failing one are cached (with caching on and Redis up), the cache is otherwise unchanged, and the error is that of a miss in the failing round |
| `Embeddings.EmbeddingsService.ClearDocumentCache` | api/src/services/embeddings.py:194-204 | The keys matching the document pattern are deleted; a Redis failure is raised again |
| `VectorStore.MetadataPath` | api/src/services/vector_store.py:82 | The condition key is `metadata.` followed by the filter key |
| `VectorStore.BuildFilter` | api/src/services/vector_store.py:76-86 | No filter exactly when the criteria are missing or empty. Otherwise one `must` condition per key on `metadata.<key>`, with lists matched as any-of when asked |
| `VectorStore.FilterIsConjunction` | api/src/services/vector_store.py:114-139 | A point satisfies the filter exactly when it satisfies every condition |
| `VectorStore.ListValuesMatchAny` | api/src/services/vector_store.py:118-136 | In `list_documents` a list value becomes `Match(any=…)` and a scalar becomes `Match(value=…)` |
| `VectorStore.PointId` | api/src/services/vector_store.py:50 | The point id is `"<document_id>_<i>"` |
| `VectorStore.PointIdsDistinct` | api/src/services/vector_store.py:50 | Different positions give different point ids |
| `VectorStore.BuildPoints` | api/src/services/vector_store.py:47-59 | Point `i` has id `"<document_id>_<i>"`, the chunk's embedding, and a payload with the document-level metadata and `chunk_index = i` |
| `VectorStore.BuiltPointIdsDistinct` | api/src/services/vector_store.py:47-59 | The ids of one call are pairwise distinct |
| `VectorStore.StoreEmbeddings` | api/src/services/vector_store.py:40-67 | A missing `document_id` raises `'document_id'` when there is at least one chunk. With no chunks nothing is read, and an empty list of points is upserted. Otherwise the points are built and upserted, and the answer is true unless the client raises, which gives "Error storing embeddings: " |
| `VectorStore.ToSources` | api/src/services/vector_store.py:96-100 | The hits map one-to-one, in order, to `{content, metadata, similarity = score}` |
| `VectorStore.SearchSimilar` | api/src/services/vector_store.py:69-102 | The filter uses `Match(value=…)`. Qdrant is asked for at most `MAX_DOCUMENTS` hits above the threshold, and the hits it returns are reshaped. Errors carry the "Error searching vectors: " prefix |
| `VectorStore.Ids` | api/src/services/vector_store.py:152-162 | The distinct document ids in first-appearance order |
| `VectorStore.CountOf` | api/src/services/vector_store.py:159-162 | An id's number of points is at most the page size |
| `VectorStore.IdsCharacterised` | api/src/services/vector_store.py:152-162 | An id is listed exactly when some point has it, and no id is listed twice |
| `VectorStore.FirstMetadataIsFirst` | api/src/services/vector_store.py:155-158 | A document's metadata is that of its first point |
| `VectorStore.IdsOccurOnce` | api/src/services/vector_store.py:155-160 | Each listed id occurs exactly once |
| `VectorStore.ChunkCountsSum` | api/src/services/vector_store.py:152-166 | The chunk counts of the listed documents sum to the number of scrolled points |
| `VectorStore.GroupByDocument` | api/src/services/vector_store.py:151-165 | One summary per distinct id in first-appearance order, each with the first point's metadata and the id's point count |
| `VectorStore.ListDocuments` | api/src/services/vector_store.py:105-172 | `total` is the number of distinct documents, each document is its summary, and `limit` and `offset` are echoed. Errors carry the "Error listing documents: " prefix |
| `VectorStore.DocumentFilter` | api/src/services/vector_store.py:178-187 | A single exact-match condition on the top-level `document_id`, not a metadata path |
| `VectorStore.GetDocumentMetadata` | api/src/services/vector_store.py:200-227 | The first point's metadata, None when the scroll is empty, and a prefixed error when the client raises |
| `VectorStore.MetadataAgreesWithListing` | api/src/services/vector_store.py:222-223 | For the same page, the metadata reported is the listing's metadata for that document |
| `VectorStore.DeleteDocument` | api/src/services/vector_store.py:174-198 | True whenever the client does not raise, even if nothing matched; otherwise "Error deleting document: " |
| `Evaluation.CitationMarker` | api/src/services/evaluation.py:51 | The marker `"[i]"` is bracketed |
| `Evaluation.CitationMarkersDistinct` | api/src/services/evaluation.py:51 | Distinct source numbers have distinct markers |
| `Evaluation.CitationCount` | api/src/services/evaluation.py:51 | The count of numbers in `1..n` whose marker occurs is at most `n` |
| `Evaluation.CitationsPresentIffCounted` | api/src/services/evaluation.py:51-52 | `citations.present` is true exactly when `citations.count > 0`, and the count is `n` exactly when every marker occurs |
| `Evaluation.SimilaritySum` | api/src/services/evaluation.py:54-57 | With every similarity in [0, 1], the sum lies in `[0, n]` |
| `Evaluation.MeanRelevance` | api/src/services/evaluation.py:54-57 | The mean is 0 with no sources, otherwise mean times count equals the sum (a missing similarity counts as 0); it lies in [0, 1] when the similarities do |
| `Evaluation.EvaluateResponse` | api/src/services/evaluation.py:33-66 | `latency_ms = execution_time * 1000`, the lengths, the citation count (at most the source count) and presence, and `confidence_score == source_relevance.mean` |
| `Evaluation.ConfidenceScoreBounds` | api/src/services/evaluation.py:102-121 | With both relevances in [0, 1] the score is in [0.1, 1]. Citations add exactly 0.1, and the score grows with either relevance |
| `AzureClient.NewClient` | api/src/services/azure_client.py:16-23 | The endpoint is the configured one with every trailing `/` removed, so it never ends in `/`. The embedding and completion deployments and the key come from the settings. The API version is the fixed `2024-02-15-preview` |
| `AzureClient.UrlsHaveOneSlash` | api/src/services/azure_client.py:51 | Both URLs start with the endpoint followed by exactly one `/` before `openai` |
| `AzureClient.DocumentBlock` | api/src/services/azure_client.py:89-92 | A block starts with `Document <i+1>:\n` and ends with the content |
| `AzureClient.DocumentBlocks` | api/src/services/azure_client.py:89-92 | One block per source, numbered from 1 in retrieval order |
| `AzureClient.ContextHoldsEverySource` | api/src/services/azure_client.py:89-92 | Every source's block occurs in the context |
| `AzureClient.PromptHoldsContextAndQuery` | api/src/services/azure_client.py:102-110 | The prompt holds the context and the question |
| `AzureClient.Messages` | api/src/services/azure_client.py:95-112 | Exactly two messages: the fixed system prompt, then the user prompt |
| `AzureClient.UserMessageHoldsContextAndQuery` | api/src/services/azure_client.py:100-111 | The user message holds the context and the question |
| `AzureClient.CompletionPost` | api/src/services/azure_client.py:86-124 | The completion request goes to the completions URL with the key, `temperature 0`, `max_tokens 500`, the deployment and the two messages |
| `AzureClient.GenerateEmbedding` | api/src/services/azure_client.py:48-77 | It succeeds exactly on a 200 reply that parses. A non-200 reply raises "Embedding request failed: <text>", and every failure is raised again under "Error generating embedding: " |
| `AzureClient.GenerateCompletion` | api/src/services/azure_client.py:79-141 | The same for completions, with the "Completion request failed: " and "Error generating completion: " prefixes |
| `AzureClient.TestConnection` | api/src/services/azure_client.py:143-172 | True exactly for a 200 reply to the test embedding; false otherwise, never raising |
| `AzureClient.StoreJson` | api/src/services/azure_client.py:174-198 | The blob's URL, or None on any failure |
| `Security.PermissionsOf` | api/src/core/security.py:92 | An unknown role, or one that is not a string, has no permissions |
| `Security.PermissionsNested` | api/src/core/security.py:27-43 | admin has all four permissions, analyst all but delete, and user read and query. user ⊆ analyst ⊆ admin, and only admin may delete |
| `Security.Authorize` | api/src/core/security.py:79-117 | An expired token gives 401 "Token has expired", and another decode error gives 401 "Invalid token: …". 403 arises exactly when decoding succeeded and the role lacks a required permission. A role that cannot be looked up, or a missing `sub` or `email`, gives 401 "Authentication failed". The 403 detail is always "Not enough permissions", and every 401 after decoding has the detail "Authentication failed". Otherwise the user is `{id = sub, email, role, permissions}` |
| `Security.AnalystCannotDelete` | tests/test_rag_system.py:144-148 | An analyst requiring `delete:documents` is refused with 403, and an admin with `sub` and `email` is let through |
| `Security.DefaultsOfAuthorize` | api/src/core/security.py:91-101 | A token without a role gets the user permissions. An empty requirement never yields 403, and passes when the claims name the user |
| `Security.AccessTokenClaims` | api/src/core/security.py:67-72 | A copy of the input with `exp = now + delta`, defaulting to 30 minutes when the delta is missing or zero |
| `QueryRoute.Frame` | api/src/api/routes/query.py:59 | A frame is `data: ` + JSON + a blank line |
| `QueryRoute.FrameInjective` | api/src/api/routes/query.py:59 | Equal frames carry equal texts |
| `QueryRoute.StreamFrames` | api/src/api/routes/query.py:54-63 | The last frame is always `data: [DONE]\n\n` |
| `QueryRoute.Frames` | api/src/api/routes/query.py:57-59 | One frame per event, in order |
| `QueryRoute.EventFramesAvoidDone` | api/src/api/routes/query.py:57-61 | No frame before the terminal one is `[DONE]`, and there is at most one frame per event plus one |
| `QueryRoute.DoneExactlyOnceAndLast` | api/src/api/routes/query.py:62-63 | `[DONE]` is sent exactly once, last, on every path |
| `QueryRoute.FramesFollowEvents` | api/src/api/routes/query.py:57-61 | When every event serialises, the frames are the events' frames in order, then one error frame if the source raised |
| `QueryRoute.FramesStopAtFirstFailure` | api/src/api/routes/query.py:57-61 | At the first event that does not serialise, the frames are those before it followed by exactly one error frame |
| `QueryRoute.RouteQuery` | api/src/api/routes/query.py:65-100 | A failure becomes a 500 carrying its message. An answer becomes the response with `confidence` taken from `evaluation.confidence_score` and the other fields copied |
| `QueryRoute.RouteConfidenceIsRagConfidence` | api/src/api/routes/query.py:88-90 | The confidence the route reports equals the one `process_query` computed, the mean similarity. A failure reaches the client as a 500 with the "Error processing query: " prefix |

## Left out

- I/O is left out: HTTP sessions, Redis, Qdrant, blob storage, logging and clocks. Each service is a function parameter, and time readings (query ids, timestamps, elapsed seconds) are inputs.
- Redis TTLs are not modelled, and neither is the JSON round trip of cached vectors: a cached value is read back as the vector that was written.
- `asyncio.gather` is modelled sequentially. When several texts of a round fail, the error reported is that of the first failing text.
- The tenacity `@retry` on `generate_embeddings` is not modelled.
- The `isinstance` dispatch of `generate_embeddings` is left out. Single and batch embedding are modelled separately, and batch pairs `(i, text)` are modelled as texts only.
- The embedding provider is deterministic in the model: asking twice for a text gives the same answer.
- Floating point is left out, including cosine similarity (`compute_similarity`, `_calculate_cosine_similarity`). Similarities and latencies are exact reals, and `find_most_similar` takes the scores and their `argsort` order as inputs.
- SHA-256, JWT encoding and decoding, `json.dumps`/`json.loads` and `urlparse` are function parameters. The only facts assumed are these:
  - a digest is 64 lower-case hex digits;
  - the error dictionary serialises and no event serialises to `[DONE]`;
  - scheme detection accepts every string starting with `https://`;
  - scheme detection keeps accepting a string after a `/` is appended;
  - scheme detection rejects the empty string.

  The last three are needed only by `Config.FormattedEndpointIdempotent` and `Config.ReloadKeepsEndpoint`.
- `Chunker.ChunkText` requires the progress predicate `Chunker.Advances`, because the source loop can stall or step back (`Chunker.DefaultSettingsStall` exhibits it). On a stalling text the model says nothing, while the source loops forever.
- The settings' environment overrides are left out. `Config.LoadSettings` uses the defaults, but the chunker and ingestion take any `Config.Settings`.
- Blob enrichment in `list_documents` (rag.py:245-259) is left out. It adds size and last-modified to each document and swallows the per-document errors. A failure of `get_container_client` (rag.py:246-248) lies outside that `try`, and would surface as "Error listing documents: …"; it is not modelled either. Blob deletion in `delete_document` (rag.py:278-288) is reduced to its boolean outcome.
- `AzureClient.store_document` is called by `ingest_document` but is not defined in the client, so the upload is a function parameter.
- `generate_completion_stream` is called by the stream but is not defined in the client. The token stream is a parameter: the tokens it yields, then the exception it raises, if any.
- The first `process_query_stream` (rag.py:154-222) is dead code, shadowed by the second, and is not modelled.
- Evaluation.EvaluateResponse: the evaluator's error branch (evaluation.py:68-74) is not modelled; the model's completion text is always a string. In the source, a 200 completion whose `content` is null passes through unchanged (azure_client.py:131). Then `len(response)` raises (evaluation.py:48), and `process_query` returns the `{error, latency_ms, token_usage}` dictionary as its evaluation.
- `_store_metrics` and `_store_evaluation` are best-effort: their failures are swallowed and the metrics do not depend on them, so they are left out.
- The feedback collector in evaluation.py is left out.
- `Embeddings.MatchesDocumentPattern` reads the Redis glob `emb:doc:<id>:*` as a plain prefix. Glob metacharacters inside a document id are not interpreted.
- `VectorStore.GroupByDocument` treats every document id as a dictionary key. Unhashable ids (lists or objects), which make the source raise, are not modelled.
- The `chunk["embedding"]`/`chunk["content"]` lookups in `store_embeddings` cannot fail in the model, because a chunk always has both fields.
- The token-based chunker (utils/text_processing.py) is left out. It depends on the tokenizer's encode and decode.
- Call sites that do not match their callee are left out: documents.py passes `user_context`, and routes/evaluation.py and evaluation.py call methods that do not exist.
- `QueryRoute.RouteQuery`: the `result.get("query_id", "")` default is not modelled. `process_query` always sets `query_id`, so the default cannot arise from it.
- The route's `if not result` check is left out, because an answer dictionary is never empty.
- The pydantic re-validation of the answer is left out: the fields are copied as they are.
- FastAPI's `HTTPBearer` handling of missing or malformed credentials happens before `SecurityHandler.__call__` decodes the token. It is not modelled, and neither is the mock `USERS` store with its login route.
- `VectorStore._ensure_collection` (collection creation at start-up) is left out.
