/** `RAGSystem`: ingestion (chunk, embed each chunk, skip failures, store), the confidence of an answer,
    the non-streaming and streaming query paths, and the listing and deletion of documents. Every
    service it calls is an oracle parameter: the embedding provider, the vector-store search, the
    completion (whole or as a token stream), blob storage and the Qdrant client. */
module Rag {
  import opened Wrappers
  import opened Values
  import opened Text
  import Config
  import Chunker
  import VectorStore
  import Evaluation
  import AzureClient

  // ---------------------------------------------------------------------------------------------
  // Confidence

  /** The `KeyError` message of a source without a similarity. */
  const MissingSimilarity: string := "'similarity'"

  /** `sum(doc["similarity"] for doc in docs)`: the sum of the similarities, raising `KeyError` at the
      first source that has none. */
  function StrictSum(sources: seq<Source>): Result<real, string> {
    if sources == [] then Success(0.0)
    else match StrictSum(sources[..|sources| - 1])
      case Failure(e) => Failure(e)
      case Success(total) =>
        var last := sources[|sources| - 1];
        if last.similarity.None? then Failure(MissingSimilarity) else Success(total + last.similarity.value)
  }

  /** The confidence of `process_query` and of the stream's metadata event: the mean similarity, 0 with
      no sources. */
  function Confidence(sources: seq<Source>): Result<real, string> {
    if sources == [] then Success(0.0)
    else match StrictSum(sources)
      case Failure(e) => Failure(e)
      case Success(total) => Success(total / |sources| as real)
  }

  /** The strict sum succeeds exactly when every source has a similarity, and then equals the
      evaluator's sum, which counts a missing similarity as 0. */
  lemma {:induction false} StrictSumAgrees(sources: seq<Source>)
    ensures StrictSum(sources).Success? <==> forall k :: 0 <= k < |sources| ==> sources[k].similarity.Some?
    ensures StrictSum(sources).Success? ==> StrictSum(sources).value == Evaluation.SimilaritySum(sources)
    ensures StrictSum(sources).Failure? ==> StrictSum(sources).error == MissingSimilarity
  {
    if sources != [] {
      var init := sources[..|sources| - 1];
      StrictSumAgrees(init);
      if StrictSum(sources).Success? {
        forall k | 0 <= k < |sources|
          ensures sources[k].similarity.Some?
        {
          if k < |init| {
            assert sources[k] == init[k];
          }
        }
      }
      if forall k :: 0 <= k < |sources| ==> sources[k].similarity.Some? {
        assert forall k :: 0 <= k < |init| ==> init[k] == sources[k];
      }
    }
  }

  /** The confidence is the evaluator's mean relevance whenever every source has a similarity, and a
      `KeyError` on "similarity" otherwise. */
  lemma ConfidenceIsMeanRelevance(sources: seq<Source>)
    ensures Confidence(sources).Success? <==> forall k :: 0 <= k < |sources| ==> sources[k].similarity.Some?
    ensures Confidence(sources).Success? ==> Confidence(sources).value == Evaluation.MeanRelevance(sources)
    ensures Confidence(sources).Failure? ==> Confidence(sources).error == MissingSimilarity
  {
    StrictSumAgrees(sources);
  }

  /** The sources of a vector search all carry a similarity, so their confidence never fails and is the
      evaluator's mean relevance; in particular it lies in [0, 1] when every score does. */
  lemma ConfidenceOfSearchResults(hits: seq<VectorStore.ScoredPoint>)
    ensures Confidence(VectorStore.ToSources(hits)) == Success(Evaluation.MeanRelevance(VectorStore.ToSources(hits)))
    ensures (forall k :: 0 <= k < |hits| ==> 0.0 <= hits[k].score <= 1.0) ==>
      0.0 <= Confidence(VectorStore.ToSources(hits)).value <= 1.0
  {
    var sources := VectorStore.ToSources(hits);
    ConfidenceIsMeanRelevance(sources);
    assert forall k :: 0 <= k < |sources| ==> Evaluation.Similarity(sources[k]) == hits[k].score;
  }

  // ---------------------------------------------------------------------------------------------
  // Ingestion

  /** One entry of `chunk_embeddings`. */
  datatype ChunkEmbedding = ChunkEmbedding(content: string, embedding: Vector, metadata: Metadata)

  /** `{**metadata, "chunk_index": i, "chunk_total": total}`. */
  function ChunkMetadata(metadata: Metadata, i: nat, total: nat): (m: Metadata)
    ensures m.Keys == metadata.Keys + {"chunk_index", "chunk_total"}
    ensures m["chunk_index"] == Num(i as real) && m["chunk_total"] == Num(total as real)
    ensures forall k :: k in metadata && k != "chunk_index" && k != "chunk_total" ==> m[k] == metadata[k]
  {
    metadata["chunk_index" := Num(i as real)]["chunk_total" := Num(total as real)]
  }

  /** The entry kept for chunk `i` when its embedding succeeds. */
  function Entry(embed: string -> Result<Vector, string>, chunks: seq<string>, metadata: Metadata, i: nat): ChunkEmbedding
    requires i < |chunks| && embed(chunks[i]).Success?
  {
    ChunkEmbedding(chunks[i], embed(chunks[i]).value, ChunkMetadata(metadata, i, |chunks|))
  }

  /** The entries kept after the first `n` chunks. */
  function Kept(embed: string -> Result<Vector, string>, chunks: seq<string>, metadata: Metadata, n: nat): seq<ChunkEmbedding>
    requires n <= |chunks|
  {
    if n == 0 then []
    else Kept(embed, chunks, metadata, n - 1) +
         (if embed(chunks[n - 1]).Success? then [Entry(embed, chunks, metadata, n - 1)] else [])
  }

  /** At most one entry per chunk, and none exactly when every embedding failed. */
  lemma {:induction false} KeptEmpty(embed: string -> Result<Vector, string>, chunks: seq<string>,
                                     metadata: Metadata, n: nat)
    requires n <= |chunks|
    ensures |Kept(embed, chunks, metadata, n)| <= n
    ensures Kept(embed, chunks, metadata, n) == [] <==> forall i :: 0 <= i < n ==> embed(chunks[i]).Failure?
  {
    if n > 0 {
      KeptEmpty(embed, chunks, metadata, n - 1);
    }
  }

  /** Every chunk whose embedding succeeded has its entry kept. */
  lemma {:induction false} KeptComplete(embed: string -> Result<Vector, string>, chunks: seq<string>,
                                        metadata: Metadata, n: nat, i: nat)
    requires i < n <= |chunks| && embed(chunks[i]).Success?
    ensures Entry(embed, chunks, metadata, i) in Kept(embed, chunks, metadata, n)
  {
    if i < n - 1 {
      KeptComplete(embed, chunks, metadata, n - 1, i);
    }
  }

  /** Every kept entry is the entry of a chunk whose embedding succeeded. */
  lemma {:induction false} KeptSound(embed: string -> Result<Vector, string>, chunks: seq<string>,
                                     metadata: Metadata, n: nat, e: ChunkEmbedding)
    requires n <= |chunks| && e in Kept(embed, chunks, metadata, n)
    ensures exists i :: 0 <= i < n && embed(chunks[i]).Success? && e == Entry(embed, chunks, metadata, i)
  {
    var prev := Kept(embed, chunks, metadata, n - 1);
    if e in prev {
      KeptSound(embed, chunks, metadata, n - 1, e);
    } else {
      assert embed(chunks[n - 1]).Success? && e == Entry(embed, chunks, metadata, n - 1);
    }
  }

  /** The loop of `ingest_document`: embed each chunk, skipping (and logging) the ones whose embedding
      fails. */
  method EmbedChunks(embed: string -> Result<Vector, string>, chunks: seq<string>, metadata: Metadata)
    returns (kept: seq<ChunkEmbedding>)
    ensures kept == Kept(embed, chunks, metadata, |chunks|)
  {
    kept := [];
    for i := 0 to |chunks|
      invariant kept == Kept(embed, chunks, metadata, i)
    {
      var embedding := embed(chunks[i]);
      if embedding.Failure? {
        continue;
      }
      kept := kept + [ChunkEmbedding(chunks[i], embedding.value, ChunkMetadata(metadata, i, |chunks|))];
    }
  }

  /** What the vector store receives: content and embedding of each kept entry. */
  function StoredChunks(kept: seq<ChunkEmbedding>): (stored: seq<VectorStore.Chunk>)
    ensures |stored| == |kept|
    ensures forall k :: 0 <= k < |kept| ==> stored[k] == VectorStore.Chunk(kept[k].content, kept[k].embedding)
  {
    seq(|kept|, k requires 0 <= k < |kept| => VectorStore.Chunk(kept[k].content, kept[k].embedding))
  }

  /** The answer of `ingest_document`. */
  datatype Ingested = Ingested(documentId: Json, url: string, chunkCount: nat, status: string)

  const NoEmbeddings: string := "Failed to generate any valid embeddings"

  /** `ingest_document`: upload the text, chunk it, embed the chunks and store the ones that succeeded.
      The count returned is the number of chunks, not the number stored; every failure is raised again
      under "Error ingesting document: ". Once the id is read and the upload succeeded, the chunker
      must make progress on the text (see `Chunker.Advances`); otherwise the source loops forever there. */
  method IngestDocument(settings: Config.Settings, render: Json -> string,
                        upload: (string, string, Metadata) -> Result<string, string>,
                        embed: string -> Result<Vector, string>,
                        upsert: seq<VectorStore.Point> -> Option<string>,
                        content: string, metadata: Metadata)
    returns (r: Result<Ingested, string>, ghost chunks: seq<string>, ghost kept: seq<ChunkEmbedding>,
             ghost points: seq<VectorStore.Point>)
    requires "document_id" in metadata && upload(render(metadata["document_id"]) + ".txt", content, metadata).Success? ==>
      Chunker.Advances(content, settings.chunkSize, settings.chunkOverlap, 0)
    ensures "document_id" !in metadata ==> r == Failure("Error ingesting document: 'document_id'")
    ensures "document_id" in metadata ==>
      var id := metadata["document_id"];
      var blob := upload(render(id) + ".txt", content, metadata);
      && (blob.Failure? ==> r == Failure("Error ingesting document: " + blob.error))
      && (blob.Success? ==>
            && chunks == Chunker.ChunksOf(content, Chunker.Spans(content, settings.chunkSize, settings.chunkOverlap, 0))
            && kept == Kept(embed, chunks, metadata, |chunks|)
            && (kept == [] ==> r == Failure("Error ingesting document: " + NoEmbeddings))
            && (kept != [] ==>
                  && VectorStore.PointsFor(render, StoredChunks(kept), metadata, id, points)
                  && (upsert(points).Some? ==>
                        r == Failure("Error ingesting document: " + ("Error storing embeddings: " + upsert(points).value)))
                  && (upsert(points).None? ==> r == Success(Ingested(id, blob.value, |chunks|, "success")))))
  {
    chunks, kept, points := [], [], [];
    if "document_id" !in metadata {
      return Failure("Error ingesting document: 'document_id'"), chunks, kept, points;
    }
    var id := metadata["document_id"];
    var blob := upload(render(id) + ".txt", content, metadata);
    if blob.Failure? {
      return Failure("Error ingesting document: " + blob.error), chunks, kept, points;
    }
    var pieces := Chunker.ChunkText(content, settings.chunkSize, settings.chunkOverlap);
    chunks := pieces;
    var entries := EmbedChunks(embed, pieces, metadata);
    kept := entries;
    if entries == [] {
      return Failure("Error ingesting document: " + NoEmbeddings), chunks, kept, points;
    }
    var stored;
    stored, points := VectorStore.StoreEmbeddings(render, upsert, StoredChunks(entries), metadata);
    if stored.Failure? {
      return Failure("Error ingesting document: " + stored.error), chunks, kept, points;
    }
    r := Success(Ingested(id, blob.value, |pieces|, "success"));
  }

  /** Ingestion fails for lack of embeddings exactly when every chunk's embedding fails, and a chunk
      whose embedding succeeds is kept with its position and the chunk total in its metadata. */
  lemma IngestionKeepsEmbeddedChunks(embed: string -> Result<Vector, string>, chunks: seq<string>,
                                     metadata: Metadata, i: nat)
    requires i < |chunks| && embed(chunks[i]).Success?
    ensures Kept(embed, chunks, metadata, |chunks|) != []
    ensures var e := Entry(embed, chunks, metadata, i);
      && e in Kept(embed, chunks, metadata, |chunks|)
      && e.content == chunks[i] && e.embedding == embed(chunks[i]).value
      && e.metadata["chunk_index"] == Num(i as real) && e.metadata["chunk_total"] == Num(|chunks| as real)
  {
    KeptComplete(embed, chunks, metadata, |chunks|, i);
    KeptEmpty(embed, chunks, metadata, |chunks|);
  }

  // ---------------------------------------------------------------------------------------------
  // Queries

  /** `completion["usage"]` as the dictionary handed to the evaluator. */
  function UsageMap(u: Usage): map<string, int> {
    map["prompt_tokens" := u.promptTokens, "completion_tokens" := u.completionTokens, "total_tokens" := u.totalTokens]
  }

  /** The answer of `process_query`. */
  datatype QueryResult = QueryResult(queryId: string, response: string, sources: seq<Source>,
                                     evaluation: Evaluation.Metrics, usage: Usage, confidence: real)

  /** The clock readings of one query: the query id, the evaluator's own id and timestamp, and the
      elapsed seconds. */
  datatype Clock = Clock(queryId: string, evaluationId: string, timestamp: string, elapsed: real)

  const QueryError: string := "Error processing query: "

  /** `process_query`: embed the query, retrieve sources, complete, evaluate and compute the
      confidence; the first failing stage's error is raised again under "Error processing query: ". */
  function ProcessQuery(embed: string -> Result<Vector, string>, retrieve: Vector -> Result<seq<Source>, string>,
                        complete: (string, seq<Source>) -> Result<AzureClient.Completion, string>,
                        clock: Clock, query: string): (r: Result<QueryResult, string>)
    ensures r.Failure? ==> StartsWith(r.error, QueryError)
    ensures embed(query).Failure? ==> r == Failure(QueryError + embed(query).error)
    ensures embed(query).Success? && retrieve(embed(query).value).Failure? ==>
      r == Failure(QueryError + retrieve(embed(query).value).error)
    ensures embed(query).Success? && retrieve(embed(query).value).Success? ==>
      var sources := retrieve(embed(query).value).value;
      && (complete(query, sources).Failure? ==> r == Failure(QueryError + complete(query, sources).error))
      && (complete(query, sources).Success? && (exists k :: 0 <= k < |sources| && sources[k].similarity.None?) ==>
            r == Failure(QueryError + MissingSimilarity))
    ensures r.Success? <==>
      && embed(query).Success?
      && retrieve(embed(query).value).Success?
      && complete(query, retrieve(embed(query).value).value).Success?
      && forall k :: 0 <= k < |retrieve(embed(query).value).value| ==>
           retrieve(embed(query).value).value[k].similarity.Some?
    ensures r.Success? ==>
      && r.value.sources == retrieve(embed(query).value).value
      && r.value.response == complete(query, r.value.sources).value.text
      && r.value.usage == complete(query, r.value.sources).value.usage
      && r.value.queryId == clock.queryId
      && r.value.evaluation == Evaluation.EvaluateResponse(r.value.response, r.value.sources, clock.elapsed,
                                                           UsageMap(r.value.usage), clock.evaluationId, clock.timestamp)
      && r.value.confidence == r.value.evaluation.confidenceScore == Evaluation.MeanRelevance(r.value.sources)
  {
    match embed(query)
    case Failure(e) => Failure(QueryError + e)
    case Success(vector) =>
      match retrieve(vector)
      case Failure(e) => Failure(QueryError + e)
      case Success(sources) =>
        match complete(query, sources)
        case Failure(e) => Failure(QueryError + e)
        case Success(completion) =>
          var evaluation := Evaluation.EvaluateResponse(completion.text, sources, clock.elapsed,
                                                        UsageMap(completion.usage), clock.evaluationId, clock.timestamp);
          ConfidenceIsMeanRelevance(sources);
          match Confidence(sources)
          case Failure(e) => Failure(QueryError + e)
          case Success(confidence) =>
            Success(QueryResult(clock.queryId, completion.text, sources, evaluation, completion.usage, confidence))
  }

  /** What the completion stream yields: its tokens, then the exception it raises, if any. */
  datatype TokenStream = TokenStream(tokens: seq<string>, failure: Option<string>)

  /** The events `process_query_stream` yields. */
  datatype Event =
    | ErrorEvent(message: string)
    | SourcesEvent(sources: seq<Source>)
    | TokenEvent(token: string)
    | MetadataEvent(queryId: string, confidence: real, responseTime: real, sourcesCount: nat, tokenCount: nat)

  const NoResults: string := "No relevant information found."

  /** The indentation of the stream's prompt literal. */
  const StreamIndent: string := "            "

  /** The prompt the stream sends: the same text as the completion's user message, indented as in its
      own literal. */
  function StreamPrompt(query: string, sources: seq<Source>): string {
    AzureClient.Prompt(StreamIndent, AzureClient.ContextText(sources), query)
  }

  /** One token event per token, in order. */
  function TokenEvents(tokens: seq<string>): (events: seq<Event>)
    ensures |events| == |tokens|
    ensures forall k :: 0 <= k < |tokens| ==> events[k] == TokenEvent(tokens[k])
  {
    seq(|tokens|, k requires 0 <= k < |tokens| => TokenEvent(tokens[k]))
  }

  /** The shapes a stream can take: one error event alone, or the sources, then tokens only, then either
      an error or a metadata event that counts the tokens and the sources. */
  predicate WellFormedStream(events: seq<Event>) {
    || (|events| == 1 && events[0].ErrorEvent?)
    || (&& |events| >= 2
        && events[0].SourcesEvent? && events[0].sources != []
        && (forall k :: 1 <= k < |events| - 1 ==> events[k].TokenEvent?)
        && var last := events[|events| - 1];
           (|| last.ErrorEvent?
            || (last.MetadataEvent? && last.tokenCount == |events| - 2 && last.sourcesCount == |events[0].sources|)))
  }

  /** The second `process_query_stream` (the one in effect): an error event alone when the query cannot
      be embedded, the search fails or finds nothing; otherwise the sources, one event per streamed
      token, and finally the metadata, or an error event where the stream or the confidence raises. */
  method ProcessQueryStream(embed: string -> Result<Vector, string>, retrieve: Vector -> Result<seq<Source>, string>,
                            complete: string -> TokenStream, clock: Clock, query: string)
    returns (events: seq<Event>)
    ensures WellFormedStream(events)
    ensures embed(query).Failure? ==> events == [ErrorEvent(embed(query).error)]
    ensures embed(query).Success? ==>
      var found := retrieve(embed(query).value);
      && (found.Failure? ==> events == [ErrorEvent(found.error)])
      && (found.Success? && found.value == [] ==> events == [ErrorEvent(NoResults)])
      && (found.Success? && found.value != [] ==>
            var stream := complete(StreamPrompt(query, found.value));
            var head := [SourcesEvent(found.value)] + TokenEvents(stream.tokens);
            && (stream.failure.Some? ==> events == head + [ErrorEvent(stream.failure.value)])
            && (stream.failure.None? && Confidence(found.value).Failure? ==>
                  events == head + [ErrorEvent(Confidence(found.value).error)])
            && (stream.failure.None? && Confidence(found.value).Success? ==>
                  events == head + [MetadataEvent(clock.queryId, Confidence(found.value).value, clock.elapsed * 1000.0,
                                                  |found.value|, |stream.tokens|)]))
  {
    var vector := embed(query);
    if vector.Failure? {
      return [ErrorEvent(vector.error)];
    }
    var found := retrieve(vector.value);
    if found.Failure? {
      return [ErrorEvent(found.error)];
    }
    var sources := found.value;
    if sources == [] {
      return [ErrorEvent(NoResults)];
    }
    events := [SourcesEvent(sources)];
    var stream := complete(StreamPrompt(query, sources));
    var tokenCount := 0;
    while tokenCount < |stream.tokens|
      invariant tokenCount <= |stream.tokens|
      invariant events == [SourcesEvent(sources)] + TokenEvents(stream.tokens[..tokenCount])
    {
      assert TokenEvents(stream.tokens[..tokenCount + 1]) ==
             TokenEvents(stream.tokens[..tokenCount]) + [TokenEvent(stream.tokens[tokenCount])];
      events := events + [TokenEvent(stream.tokens[tokenCount])];
      tokenCount := tokenCount + 1;
    }
    assert stream.tokens[..tokenCount] == stream.tokens;
    if stream.failure.Some? {
      events := events + [ErrorEvent(stream.failure.value)];
      return;
    }
    var confidence := Confidence(sources);
    if confidence.Failure? {
      events := events + [ErrorEvent(confidence.error)];
      return;
    }
    events := events + [MetadataEvent(clock.queryId, confidence.value, clock.elapsed * 1000.0, |sources|, tokenCount)];
  }

  // ---------------------------------------------------------------------------------------------
  // Listing and deletion

  /** The filter dictionary of `list_documents`: an empty or missing type or tag adds no entry. */
  function ListFilters(documentType: Option<string>, tag: Option<string>): (criteria: seq<(string, Json)>)
    ensures ("document_type", Str(documentType.GetOr(""))) in criteria <==> documentType.GetOr("") != ""
    ensures ("tags", Str(tag.GetOr(""))) in criteria <==> tag.GetOr("") != ""
    ensures forall k :: 0 <= k < |criteria| ==> criteria[k].0 in {"document_type", "tags"}
    ensures criteria == [] <==> documentType.GetOr("") == "" && tag.GetOr("") == ""
  {
    (if documentType.Some? && documentType.value != "" then [("document_type", Str(documentType.value))] else [])
    + (if tag.Some? && tag.value != "" then [("tags", Str(tag.value))] else [])
  }

  /** `RAGSystem.list_documents`: the vector store's page for the type and tag filter; its errors are
      raised again under a second "Error listing documents: ". */
  method ListDocuments(scroll: (Option<VectorStore.Filter>, int, Option<int>) -> Result<seq<VectorStore.Payload>, string>,
                       documentType: Option<string>, tag: Option<string>, limit: int, offset: int)
    returns (r: Result<VectorStore.DocumentPage, string>, filter: Option<VectorStore.Filter>)
    ensures filter.None? <==> documentType.GetOr("") == "" && tag.GetOr("") == ""
    ensures filter.Some? ==> VectorStore.BuiltFrom(filter.value, ListFilters(documentType, tag), true)
    ensures var answer := scroll(filter, limit, Some(offset));
      && (answer.Failure? ==> r == Failure("Error listing documents: " + ("Error listing documents: " + answer.error)))
      && (answer.Success? ==>
            && r.Success?
            && |r.value.documents| == r.value.total == |VectorStore.Ids(answer.value)|
            && (forall k :: 0 <= k < r.value.total ==>
                  r.value.documents[k] == VectorStore.Summary(answer.value, VectorStore.Ids(answer.value)[k]))
            && r.value.limit == limit && r.value.offset == offset)
  {
    var page;
    page, filter := VectorStore.ListDocuments(scroll, Some(ListFilters(documentType, tag)), limit, offset);
    if page.Failure? {
      return Failure("Error listing documents: " + page.error), filter;
    }
    r := page;
  }

  /** The answer of `delete_document`. */
  datatype Deleted = Deleted(documentId: string, status: string, vectorStoreDeleted: bool, blobStorageDeleted: bool)

  /** `RAGSystem.delete_document`: look the document up, refuse it when it has no (or empty) metadata,
      delete its points, then try to delete its blob; errors are raised again under "Error deleting
      document: ". */
  function DeleteDocument(scroll: (Option<VectorStore.Filter>, int, Option<int>) -> Result<seq<VectorStore.Payload>, string>,
                          delete: VectorStore.Filter -> Option<string>, deleteBlob: string -> bool,
                          documentId: string): (r: Result<Deleted, string>)
    ensures var answer := scroll(Some(VectorStore.DocumentFilter(documentId)), 1, None);
      && (answer.Failure? ==>
            r == Failure("Error deleting document: " + ("Error getting document metadata: " + answer.error)))
      && (answer.Success? && (answer.value == [] || answer.value[0].metadata == map[]) ==>
            r == Failure("Error deleting document: Document not found"))
      && (answer.Success? && answer.value != [] && answer.value[0].metadata != map[] ==>
            var outcome := delete(VectorStore.DocumentFilter(documentId));
            && (outcome.Some? ==> r == Failure("Error deleting document: " + ("Error deleting document: " + outcome.value)))
            && (outcome.None? ==> r == Success(Deleted(documentId, "deleted", true, deleteBlob(documentId + ".txt")))))
  {
    match VectorStore.GetDocumentMetadata(scroll, documentId)
    case Failure(e) => Failure("Error deleting document: " + e)
    case Success(metadata) =>
      if metadata.None? || metadata.value == map[] then Failure("Error deleting document: Document not found")
      else match VectorStore.DeleteDocument(delete, documentId)
        case Failure(e) => Failure("Error deleting document: " + e)
        case Success(vectorDeleted) => Success(Deleted(documentId, "deleted", vectorDeleted, deleteBlob(documentId + ".txt")))
  }
}
