/** The Qdrant adapter: the filters it builds, the points it stores, the sources it returns from a
    search and the per-document listing it builds from a scrolled page. Qdrant itself is an oracle:
    each operation receives the client's answer (or its exception message) as a function parameter. */
module VectorStore {
  import opened Wrappers
  import opened Values
  import opened Text
  import Config

  /** `Match(value=...)` or `Match(any=[...])`. */
  datatype Match = MatchValue(value: Json) | MatchAny(any: seq<Json>)

  /** `FieldCondition(key=..., match=...)`. */
  datatype Condition = FieldCondition(key: string, matching: Match)

  /** `Filter(must=[...])`: every condition has to hold. */
  datatype Filter = Filter(must: seq<Condition>)

  /** The stored payload of one chunk. */
  datatype Payload = Payload(documentId: Json, content: string, metadata: Metadata, chunkIndex: nat)

  /** `PointStruct(id, vector, payload)`. */
  datatype Point = Point(id: string, vector: Vector, payload: Payload)

  /** A chunk handed to `store_embeddings`: `{"content", "embedding"}`. */
  datatype Chunk = Chunk(content: string, embedding: Vector)

  /** A search hit: the stored payload and Qdrant's score. */
  datatype ScoredPoint = ScoredPoint(payload: Payload, score: real)

  /** One entry of the listing: `{document_id, metadata, chunk_count}`. */
  datatype DocumentSummary = DocumentSummary(documentId: Json, metadata: Metadata, chunkCount: nat)

  /** The listing: `{documents, total, limit, offset}`. */
  datatype DocumentPage = DocumentPage(documents: seq<DocumentSummary>, total: nat, limit: int, offset: int)

  const MetadataPrefix: string := "metadata."

  /** The payload path of a metadata field. */
  function MetadataPath(key: string): (path: string)
    ensures StartsWith(path, MetadataPrefix) && path[|MetadataPrefix|..] == key
  {
    MetadataPrefix + key
  }

  /** The match for one filter value: with `listsAsAny`, a list value matches any of its items. */
  function MatchFor(value: Json, listsAsAny: bool): Match {
    if listsAsAny && value.List? then MatchAny(value.items) else MatchValue(value)
  }

  /** The filter holds condition `k` for entry `k` of the criteria, and nothing else. */
  predicate BuiltFrom(f: Filter, criteria: seq<(string, Json)>, listsAsAny: bool) {
    && |f.must| == |criteria|
    && forall k :: 0 <= k < |criteria| ==>
         f.must[k] == FieldCondition(MetadataPath(criteria[k].0), MatchFor(criteria[k].1, listsAsAny))
  }

  /** The filter of `search_similar` (`listsAsAny` false) and of `list_documents` (`listsAsAny` true):
      no filter for a missing or empty dictionary, otherwise one `must` condition per entry, in order. */
  method BuildFilter(criteria: Option<seq<(string, Json)>>, listsAsAny: bool) returns (f: Option<Filter>)
    ensures f.None? <==> criteria.None? || criteria.value == []
    ensures f.Some? ==> BuiltFrom(f.value, criteria.value, listsAsAny)
  {
    f := None;
    if criteria.Some? && criteria.value != [] {
      var items := criteria.value;
      var conditions: seq<Condition> := [];
      for k := 0 to |items|
        invariant |conditions| == k
        invariant forall j :: 0 <= j < k ==>
          conditions[j] == FieldCondition(MetadataPath(items[j].0), MatchFor(items[j].1, listsAsAny))
      {
        conditions := conditions + [FieldCondition(MetadataPath(items[k].0), MatchFor(items[k].1, listsAsAny))];
      }
      f := Some(Filter(conditions));
    }
  }

  /** Qdrant's reading of a filter, given how one field value is tested against one match: every
      condition names a metadata field the payload has, and that field's value passes the match. */
  predicate Satisfies(matches: (Json, Match) -> bool, metadata: Metadata, f: Filter) {
    forall c :: c in f.must ==>
      && StartsWith(c.key, MetadataPrefix)
      && c.key[|MetadataPrefix|..] in metadata
      && matches(metadata[c.key[|MetadataPrefix|..]], c.matching)
  }

  /** The filter is the conjunction of its entries: a payload passes exactly when each entry's key is
      present and its value passes that entry's match. */
  lemma FilterIsConjunction(matches: (Json, Match) -> bool, metadata: Metadata, f: Filter,
                            criteria: seq<(string, Json)>, listsAsAny: bool)
    requires BuiltFrom(f, criteria, listsAsAny)
    ensures Satisfies(matches, metadata, f) <==>
      forall k :: 0 <= k < |criteria| ==>
        criteria[k].0 in metadata && matches(metadata[criteria[k].0], MatchFor(criteria[k].1, listsAsAny))
  {
    if Satisfies(matches, metadata, f) {
      forall k | 0 <= k < |criteria|
        ensures criteria[k].0 in metadata && matches(metadata[criteria[k].0], MatchFor(criteria[k].1, listsAsAny))
      {
        assert f.must[k] in f.must;
      }
    }
  }

  /** `search_similar` never builds an any-of match; `list_documents` builds one exactly for list
      values. */
  lemma ListValuesMatchAny(value: Json)
    ensures MatchFor(value, false) == MatchValue(value)
    ensures MatchFor(value, true).MatchAny? <==> value.List?
    ensures value.List? ==> MatchFor(value, true).any == value.items
  {
  }

  /** The point id `"<document_id>_<i>"`; `render` is Python's `str()` of the id value. */
  function PointId(render: Json -> string, documentId: Json, i: nat): (id: string)
    ensures StartsWith(id, render(documentId) + "_")
  {
    render(documentId) + "_" + NatToString(i)
  }

  /** Two chunk positions of the same document never share a point id. */
  lemma PointIdsDistinct(render: Json -> string, documentId: Json, i: nat, j: nat)
    requires i != j
    ensures PointId(render, documentId, i) != PointId(render, documentId, j)
  {
    var prefix := render(documentId) + "_";
    if PointId(render, documentId, i) == PointId(render, documentId, j) {
      assert PointId(render, documentId, i)[|prefix|..] == NatToString(i);
      assert PointId(render, documentId, j)[|prefix|..] == NatToString(j);
      NatToStringInjective(i, j);
    }
  }

  /** Point i carries chunk i's vector, the id `"<document_id>_<i>"`, and a payload with the document
      id, the chunk's content, the document-level metadata and `chunk_index` i. */
  predicate PointsFor(render: Json -> string, chunks: seq<Chunk>, metadata: Metadata, documentId: Json, points: seq<Point>) {
    && |points| == |chunks|
    && forall i :: 0 <= i < |chunks| ==>
      && points[i].id == PointId(render, documentId, i)
      && points[i].vector == chunks[i].embedding
      && points[i].payload == Payload(documentId, chunks[i].content, metadata, i)
  }

  /** The point-building loop of `store_embeddings`. */
  method BuildPoints(render: Json -> string, chunks: seq<Chunk>, metadata: Metadata, documentId: Json)
    returns (points: seq<Point>)
    ensures PointsFor(render, chunks, metadata, documentId, points)
  {
    points := [];
    for i := 0 to |chunks|
      invariant PointsFor(render, chunks[..i], metadata, documentId, points)
    {
      points := points + [Point(PointId(render, documentId, i), chunks[i].embedding,
                                Payload(documentId, chunks[i].content, metadata, i))];
    }
    assert chunks[..|chunks|] == chunks;
  }

  /** The ids of the points built for one call are pairwise distinct. */
  lemma BuiltPointIdsDistinct(render: Json -> string, points: seq<Point>, documentId: Json)
    requires forall i :: 0 <= i < |points| ==> points[i].id == PointId(render, documentId, i)
    ensures forall i, j :: 0 <= i < j < |points| ==> points[i].id != points[j].id
  {
    forall i, j | 0 <= i < j < |points|
      ensures points[i].id != points[j].id
    {
      PointIdsDistinct(render, documentId, i, j);
    }
  }

  /** `store_embeddings`: the point loop reads `metadata["document_id"]` for each chunk, so a missing
      "document_id" raises a KeyError only when there is a chunk; otherwise the points are upserted and
      the answer is true unless the client raises. */
  method StoreEmbeddings(render: Json -> string, upsert: seq<Point> -> Option<string>,
                         chunks: seq<Chunk>, metadata: Metadata)
    returns (r: Result<bool, string>, ghost points: seq<Point>)
    ensures chunks != [] && "document_id" !in metadata ==> r == Failure("Error storing embeddings: 'document_id'")
    ensures chunks == [] ==> points == []
    ensures "document_id" in metadata ==> PointsFor(render, chunks, metadata, metadata["document_id"], points)
    ensures chunks == [] || "document_id" in metadata ==>
      && (upsert(points).None? ==> r == Success(true))
      && (upsert(points).Some? ==> r == Failure("Error storing embeddings: " + upsert(points).value))
  {
    var built: seq<Point> := [];
    if chunks != [] {
      if "document_id" !in metadata {
        return Failure("Error storing embeddings: 'document_id'"), [];
      }
      built := BuildPoints(render, chunks, metadata, metadata["document_id"]);
    }
    points := built;
    var outcome := upsert(built);
    if outcome.Some? {
      return Failure("Error storing embeddings: " + outcome.value), points;
    }
    r := Success(true);
  }

  /** The results of `search_similar`, one source per hit and in the same order, with the hit's score
      as its similarity. */
  function ToSources(hits: seq<ScoredPoint>): (sources: seq<Source>)
    ensures |sources| == |hits|
    ensures forall k :: 0 <= k < |hits| ==>
      && sources[k].content == hits[k].payload.content
      && sources[k].metadata == hits[k].payload.metadata
      && sources[k].similarity == Some(hits[k].score)
  {
    if hits == [] then []
    else ToSources(hits[..|hits| - 1]) + [Source(hits[|hits| - 1].payload.content, hits[|hits| - 1].payload.metadata,
                                                 Some(hits[|hits| - 1].score))]
  }

  /** `search_similar`: build the filter, ask Qdrant for at most MaxDocuments hits above the similarity
      threshold, and reshape them; a client error is raised with a prefix. */
  method SearchSimilar(search: (Vector, Option<Filter>, nat, real) -> Result<seq<ScoredPoint>, string>,
                       query: Vector, criteria: Option<seq<(string, Json)>>)
    returns (r: Result<seq<Source>, string>, filter: Option<Filter>)
    ensures filter.None? <==> criteria.None? || criteria.value == []
    ensures filter.Some? ==> BuiltFrom(filter.value, criteria.value, false)
    ensures var answer := search(query, filter, Config.MaxDocuments, Config.SimilarityThreshold);
      && (answer.Failure? ==> r == Failure("Error searching vectors: " + answer.error))
      && (answer.Success? ==> r == Success(ToSources(answer.value)))
  {
    var f := BuildFilter(criteria, false);
    filter := f;
    var answer := search(query, f, Config.MaxDocuments, Config.SimilarityThreshold);
    if answer.Failure? {
      return Failure("Error searching vectors: " + answer.error), filter;
    }
    r := Success(ToSources(answer.value));
  }

  /** The document ids of `page` in order of first appearance. */
  function Ids(page: seq<Payload>): (ids: seq<Json>)
    ensures |ids| <= |page|
  {
    if page == [] then []
    else
      var init := Ids(page[..|page| - 1]);
      var id := page[|page| - 1].documentId;
      if id in init then init else init + [id]
  }

  /** How many payloads of `page` belong to `id`. */
  function CountOf(page: seq<Payload>, id: Json): (n: nat)
    ensures n <= |page|
  {
    if page == [] then 0
    else CountOf(page[..|page| - 1], id) + (if page[|page| - 1].documentId == id then 1 else 0)
  }

  /** The metadata of the first payload of `page` that belongs to `id`. */
  function FirstMetadata(page: seq<Payload>, id: Json): Metadata
    requires id in Ids(page)
  {
    var init := page[..|page| - 1];
    if id in Ids(init) then FirstMetadata(init, id) else page[|page| - 1].metadata
  }

  /** The listing's entry for `id`. */
  function Summary(page: seq<Payload>, id: Json): DocumentSummary
    requires id in Ids(page)
  {
    DocumentSummary(id, FirstMetadata(page, id), CountOf(page, id))
  }

  /** A payload's id is listed exactly when some payload of the page carries it, and no id is listed
      twice. */
  lemma {:induction false} IdsCharacterised(page: seq<Payload>)
    ensures forall id :: id in Ids(page) <==> exists k :: 0 <= k < |page| && page[k].documentId == id
    ensures forall a, b :: 0 <= a < b < |Ids(page)| ==> Ids(page)[a] != Ids(page)[b]
  {
    if page != [] {
      var init := page[..|page| - 1];
      IdsCharacterised(init);
      forall id | id in Ids(page)
        ensures exists k :: 0 <= k < |page| && page[k].documentId == id
      {
        if id in Ids(init) {
          var k :| 0 <= k < |init| && init[k].documentId == id;
          assert page[k].documentId == id;
        }
      }
      forall id | exists k :: 0 <= k < |page| && page[k].documentId == id
        ensures id in Ids(page)
      {
        var k :| 0 <= k < |page| && page[k].documentId == id;
        if k < |init| {
          assert init[k].documentId == id;
        }
      }
    }
  }

  /** The first payload of `page` with id `id` has the metadata the listing reports. */
  lemma {:induction false} FirstMetadataIsFirst(page: seq<Payload>, id: Json)
    requires id in Ids(page)
    ensures exists k ::
      && 0 <= k < |page| && page[k].documentId == id && page[k].metadata == FirstMetadata(page, id)
      && forall j :: 0 <= j < k ==> page[j].documentId != id
  {
    var init := page[..|page| - 1];
    IdsCharacterised(init);
    if id in Ids(init) {
      FirstMetadataIsFirst(init, id);
      var k :| 0 <= k < |init| && init[k].documentId == id && init[k].metadata == FirstMetadata(init, id)
        && forall j :: 0 <= j < k ==> init[j].documentId != id;
      assert page[k] == init[k];
      assert forall j :: 0 <= j < k ==> page[j] == init[j];
    } else {
      var k := |page| - 1;
      assert forall j :: 0 <= j < k ==> page[j] == init[j];
    }
  }

  /** The counts of the listed ids add up to the number of payloads in the page. */
  function SumCounts(page: seq<Payload>, ids: seq<Json>): nat {
    if ids == [] then 0 else SumCounts(page, ids[..|ids| - 1]) + CountOf(page, ids[|ids| - 1])
  }

  /** Adding a payload adds one to the count of its own id and nothing to any other. */
  lemma {:induction false} SumCountsSnoc(page: seq<Payload>, ids: seq<Json>, p: Payload)
    ensures SumCounts(page + [p], ids) == SumCounts(page, ids) + Occurrences(ids, p.documentId)
  {
    assert (page + [p])[..|page|] == page;
    if ids != [] {
      SumCountsSnoc(page, ids[..|ids| - 1], p);
    }
  }

  /** How often `id` occurs in `ids`. */
  function Occurrences(ids: seq<Json>, id: Json): nat {
    if ids == [] then 0 else Occurrences(ids[..|ids| - 1], id) + (if ids[|ids| - 1] == id then 1 else 0)
  }

  /** Each id of a page is listed exactly once. */
  lemma {:induction false} IdsOccurOnce(page: seq<Payload>, id: Json)
    ensures Occurrences(Ids(page), id) == if id in Ids(page) then 1 else 0
  {
    if page != [] {
      var init := page[..|page| - 1];
      IdsOccurOnce(init, id);
      var last := page[|page| - 1].documentId;
      if last !in Ids(init) {
        assert (Ids(init) + [last])[..|Ids(init)|] == Ids(init);
      }
    }
  }

  /** The chunk counts of the listing add up to the number of scrolled points. */
  lemma {:induction false} ChunkCountsSum(page: seq<Payload>)
    ensures SumCounts(page, Ids(page)) == |page|
  {
    if page != [] {
      var init := page[..|page| - 1];
      var p := page[|page| - 1];
      ChunkCountsSum(init);
      assert init + [p] == page;
      SumCountsSnoc(init, Ids(page), p);
      IdsOccurOnce(page, p.documentId);
      IdsCharacterised(page);
      assert p.documentId in Ids(page) by {
        assert page[|page| - 1].documentId == p.documentId;
      }
      if p.documentId !in Ids(init) {
        // The new id's own count in the old page is zero.
        SumCountsExtend(init, Ids(init), p.documentId);
      }
    }
  }

  /** An id the page does not hold adds nothing to the sum. */
  lemma SumCountsExtend(page: seq<Payload>, ids: seq<Json>, id: Json)
    requires id !in Ids(page)
    ensures SumCounts(page, ids + [id]) == SumCounts(page, ids)
  {
    assert (ids + [id])[..|ids|] == ids;
    CountOfAbsent(page, id);
  }

  lemma {:induction false} CountOfAbsent(page: seq<Payload>, id: Json)
    requires id !in Ids(page)
    ensures CountOf(page, id) == 0
  {
    if page != [] {
      CountOfAbsent(page[..|page| - 1], id);
    }
  }

  /** One more payload: a listed id keeps its first metadata and gains one chunk if it is the payload's
      id; the payload's id, when new, is listed with the payload's metadata and one chunk. */
  lemma SummarySnoc(page: seq<Payload>, i: nat, id: Json)
    requires i < |page| && id in Ids(page[..i + 1])
    ensures id in Ids(page[..i]) ==>
      Summary(page[..i + 1], id) == Summary(page[..i], id).(chunkCount := Summary(page[..i], id).chunkCount + (if page[i].documentId == id then 1 else 0))
    ensures id !in Ids(page[..i]) ==>
      id == page[i].documentId && Summary(page[..i + 1], id) == DocumentSummary(id, page[i].metadata, 1)
  {
    assert page[..i + 1][..i] == page[..i];
    if id !in Ids(page[..i]) {
      CountOfAbsent(page[..i], id);
    }
  }

  /** The grouping loop of `list_documents`: one entry per distinct document id of the page, in order
      of first appearance, with the first point's metadata and the number of points of that id. */
  method GroupByDocument(page: seq<Payload>) returns (documents: seq<DocumentSummary>)
    ensures |documents| == |Ids(page)|
    ensures forall k :: 0 <= k < |documents| ==> documents[k] == Summary(page, Ids(page)[k])
  {
    var docs: map<Json, DocumentSummary> := map[];
    var order: seq<Json> := [];  // the dictionary's insertion order
    for i := 0 to |page|
      invariant order == Ids(page[..i])
      invariant forall id :: id in docs <==> id in order
      invariant forall id :: id in order ==> docs[id] == Summary(page[..i], id)
    {
      var id := page[i].documentId;
      assert page[..i + 1][..i] == page[..i];
      if id !in docs {
        docs := docs[id := DocumentSummary(id, page[i].metadata, 1)];
        order := order + [id];
      } else {
        docs := docs[id := docs[id].(chunkCount := docs[id].chunkCount + 1)];
      }
      forall x | x in order
        ensures docs[x] == Summary(page[..i + 1], x)
      {
        SummarySnoc(page, i, x);
      }
    }
    assert page[..|page|] == page;
    documents := seq(|order|, k requires 0 <= k < |order| => docs[order[k]]);
  }

  /** `list_documents`: build the filter (lists matched as any-of), scroll one page, and group it; a
      client error is raised with a prefix. */
  method ListDocuments(scroll: (Option<Filter>, int, Option<int>) -> Result<seq<Payload>, string>,
                       filters: Option<seq<(string, Json)>>, limit: int, offset: int)
    returns (r: Result<DocumentPage, string>, filter: Option<Filter>)
    ensures filter.None? <==> filters.None? || filters.value == []
    ensures filter.Some? ==> BuiltFrom(filter.value, filters.value, true)
    ensures var answer := scroll(filter, limit, Some(offset));
      && (answer.Failure? ==> r == Failure("Error listing documents: " + answer.error))
      && (answer.Success? ==>
            && r.Success?
            && |r.value.documents| == r.value.total == |Ids(answer.value)|
            && (forall k :: 0 <= k < r.value.total ==> r.value.documents[k] == Summary(answer.value, Ids(answer.value)[k]))
            && r.value.limit == limit && r.value.offset == offset)
  {
    var f := BuildFilter(filters, true);
    filter := f;
    var answer := scroll(f, limit, Some(offset));
    if answer.Failure? {
      return Failure("Error listing documents: " + answer.error), filter;
    }
    var documents := GroupByDocument(answer.value);
    r := Success(DocumentPage(documents, |documents|, limit, offset));
  }

  /** The filter that selects one document's points by their top-level `document_id` field. */
  function DocumentFilter(documentId: string): (f: Filter)
    ensures |f.must| == 1 && f.must[0].matching == MatchValue(Str(documentId))
    ensures !StartsWith(f.must[0].key, MetadataPrefix)
  {
    assert "document_id"[0] != MetadataPrefix[0];
    Filter([FieldCondition("document_id", MatchValue(Str(documentId)))])
  }

  /** `get_document_metadata`: the metadata of the first point the document filter returns (limit 1),
      None when there is none; a client error is raised with a prefix. */
  function GetDocumentMetadata(scroll: (Option<Filter>, int, Option<int>) -> Result<seq<Payload>, string>,
                               documentId: string): (r: Result<Option<Metadata>, string>)
    ensures var answer := scroll(Some(DocumentFilter(documentId)), 1, None);
      && (r.Failure? <==> answer.Failure?)
      && (r.Failure? ==> r.error == "Error getting document metadata: " + answer.error)
      && (r.Success? ==> (r.value.None? <==> answer.value == []))
      && (r.Success? && answer.value != [] ==> r.value == Some(answer.value[0].metadata))
  {
    match scroll(Some(DocumentFilter(documentId)), 1, None)
    case Failure(e) => Failure("Error getting document metadata: " + e)
    case Success(page) => if page != [] then Success(Some(page[0].metadata)) else Success(None)
  }

  /** For the same page, the metadata `get_document_metadata` reports is the one the listing reports for
      the first point's document. */
  lemma MetadataAgreesWithListing(page: seq<Payload>)
    requires page != []
    ensures page[0].documentId in Ids(page)
    ensures Summary(page, page[0].documentId).metadata == page[0].metadata
  {
    IdsCharacterised(page);
    FirstMetadataIsFirst(page, page[0].documentId);
  }

  /** `delete_document`: delete by the document filter; true whenever the client does not raise, whether
      or not anything matched. */
  function DeleteDocument(delete: Filter -> Option<string>, documentId: string): (r: Result<bool, string>)
    ensures r.Success? <==> delete(DocumentFilter(documentId)).None?
    ensures r.Success? ==> r.value
    ensures r.Failure? ==> r.error == "Error deleting document: " + delete(DocumentFilter(documentId)).value
  {
    match delete(DocumentFilter(documentId))
    case Some(e) => Failure("Error deleting document: " + e)
    case None => Success(true)
  }
}
