/** `VectorStore`: `index_documents` embeds the contents of the documents
    and writes the vectors into them in place before uploading them,
    `search` shapes the request parameters and maps the raw hits, and
    `delete_documents` builds one key per id. The search client and the
    upload and delete calls are functions given as parameters; the
    embedding calls are those of the `Embeddings` model. */
module VectorStore {
  import opened Common
  import opened Text
  import opened Records
  import opened Config
  import opened Retry
  import opened Embeddings

  /** The `batch_size` default of `embed_batch`, which `index_documents`
      does not override. */
  const DefaultBatchSize: int := 100

  /** The `{"indexed": ..., "failed": ...}` dictionary. */
  datatype IndexStats = IndexStats(indexed: nat, failed: nat)

  datatype IndexError =
    | EmbeddingFailed(cause: RetryError<EmbedError>)
    | UploadFailed(message: string)

  /** `upload_documents(documents)` and `delete_documents(documents)`:
      the `succeeded` flag of each per-document result, or an error. */
  type Upload = seq<Document> -> Result<seq<bool>, string>

  // ---------------------------------------------------------------------
  // `index_documents`

  /** `[doc["content"] for doc in documents]`. */
  function Contents(docs: seq<Document>): (r: seq<string>)
    ensures |r| == |docs|
    ensures forall k :: 0 <= k < |docs| ==> r[k] == docs[k].content
  {
    seq(|docs|, k requires 0 <= k < |docs| => docs[k].content)
  }

  /** The documents after `for doc, embedding in zip(documents, embeddings):
      doc["content_vector"] = embedding`. */
  function Attached(docs: seq<Document>, vectors: seq<Vector>): seq<Document> {
    seq(|docs|, k requires 0 <= k < |docs| =>
      if k < |vectors| then docs[k].(contentVector := Some(vectors[k])) else docs[k])
  }

  /** The zip pairs document `k` with vector `k`, stops at the shorter
      list and touches no other field. */
  lemma AttachedFacts(docs: seq<Document>, vectors: seq<Vector>)
    ensures |Attached(docs, vectors)| == |docs|
    ensures forall k :: 0 <= k < |docs| && k < |vectors| ==>
              Attached(docs, vectors)[k].contentVector == Some(vectors[k])
    ensures forall k :: 0 <= k < |docs| && |vectors| <= k ==> Attached(docs, vectors)[k] == docs[k]
    ensures forall k :: 0 <= k < |docs| ==>
              Attached(docs, vectors)[k].(contentVector := None) == docs[k].(contentVector := None)
  {
  }

  /** `sum(1 for r in result if r.succeeded)` and the rest. */
  function Stats(flags: seq<bool>): (r: IndexStats)
    ensures r.indexed + r.failed == |flags|
    ensures r.indexed == CountWhere(flags, (b: bool) => b)
  {
    var succeeded := CountWhere(flags, (b: bool) => b);
    IndexStats(succeeded, |flags| - succeeded)
  }

  /** The documents as uploaded: with vectors attached when embedding is
      asked for and succeeds. */
  function PreparedDocs(docs: seq<Document>, generate: bool, api: nat -> Provider): seq<Document> {
    if docs == [] || !generate then docs
    else
      match EmbedBatch(Contents(docs), DefaultBatchSize, api)
      case Failure(_) => docs
      case Success(vectors) => Attached(docs, vectors)
  }

  /** The outcome of `index_documents`. */
  function IndexOutcome(docs: seq<Document>, generate: bool, api: nat -> Provider, upload: Upload): Result<IndexStats, IndexError> {
    if docs == [] then Success(IndexStats(0, 0))
    else if generate && EmbedBatch(Contents(docs), DefaultBatchSize, api).Failure? then
      Failure(EmbeddingFailed(EmbedBatch(Contents(docs), DefaultBatchSize, api).error))
    else
      match upload(PreparedDocs(docs, generate, api))
      case Failure(e) => Failure(UploadFailed(e))
      case Success(flags) => Success(Stats(flags))
  }

  /** The zip loop, writing into the caller's documents. */
  method AttachVectors(docs: array<Document>, vectors: seq<Vector>)
    modifies docs
    ensures docs[..] == Attached(old(docs[..]), vectors)
  {
    var k := 0;
    while k < docs.Length && k < |vectors|
      invariant 0 <= k <= docs.Length
      invariant k <= |vectors|
      invariant forall j :: 0 <= j < k ==> docs[j] == old(docs[j]).(contentVector := Some(vectors[j]))
      invariant forall j :: k <= j < docs.Length ==> docs[j] == old(docs[j])
    {
      docs[k] := docs[k].(contentVector := Some(vectors[k]));
      k := k + 1;
    }
  }

  /** `index_documents(documents, generate_embeddings)`: the documents end
      up as uploaded, and the outcome is the specification's. */
  method IndexDocuments(docs: array<Document>, generate: bool, api: nat -> Provider, upload: Upload)
    returns (r: Result<IndexStats, IndexError>)
    modifies docs
    ensures r == IndexOutcome(old(docs[..]), generate, api, upload)
    ensures docs[..] == PreparedDocs(old(docs[..]), generate, api)
  {
    if docs.Length == 0 {
      return Success(IndexStats(0, 0));
    }
    if generate {
      var embeddings := EmbedBatch(Contents(docs[..]), DefaultBatchSize, api);
      if embeddings.Failure? {
        return Failure(EmbeddingFailed(embeddings.error));
      }
      AttachVectors(docs, embeddings.value);
    }
    var result := upload(docs[..]);
    if result.Failure? {
      return Failure(UploadFailed(result.error));
    }
    r := Success(Stats(result.value));
  }

  /** Every success and every failure is counted once. */
  lemma StatsCountEveryResult(docs: seq<Document>, generate: bool, api: nat -> Provider, upload: Upload)
    requires docs != [] && IndexOutcome(docs, generate, api, upload).Success?
    ensures var s := IndexOutcome(docs, generate, api, upload).value;
      upload(PreparedDocs(docs, generate, api)).Success?
      && s.indexed + s.failed == |upload(PreparedDocs(docs, generate, api)).value|
  {
  }

  /** With embedding switched off the documents go out untouched. */
  lemma NoEmbeddingLeavesDocuments(docs: seq<Document>, api: nat -> Provider)
    ensures PreparedDocs(docs, false, api) == docs
  {
  }

  /** `index_documents([])` reports nothing indexed and nothing failed,
      and the documents stay as they are. */
  lemma EmptyIndexDoesNothing(generate: bool, api: nat -> Provider, upload: Upload)
    ensures IndexOutcome([], generate, api, upload) == Success(IndexStats(0, 0))
    ensures PreparedDocs([], generate, api) == []
  {
  }

  /** The counterexample to the zip's alignment: `embed_batch` drops the
      blank first content, so the blank document is given the vector of
      the second document's content, and the second document none. */
  lemma ZipMisaligns(api: nat -> Provider, f: string -> Vector)
    requires forall a: nat :: FaithfulProvider(api(a), f)
    ensures var docs := [BareDocument("1", ""), BareDocument("2", "b")];
      var prepared := PreparedDocs(docs, true, api);
      prepared[0].contentVector == Some(f("b")) && prepared[1].contentVector == None
  {
    var docs := [BareDocument("1", ""), BareDocument("2", "b")];
    var contents := Contents(docs);
    assert contents == ["", "b"];
    assert !IsBlank(contents[1]) by {
      assert contents[1][0] == 'b';
    }
    assert NonBlankBetween(contents, 1, 2) == ["b"] + NonBlankBetween(contents, 2, 2);
    assert NonBlank(contents) == ["b"];
    EmbedBatchFaithful(contents, DefaultBatchSize, api(0), f);
    assert MapVectors(f, ["b"]) == [f("b")];
    assert BatchAttempt(contents, DefaultBatchSize, api(0)) == Success([f("b")]);
  }

  /** A document with only an id and content. */
  function BareDocument(id: string, content: string): Document {
    Document(id, content, None, None, None, None)
  }

  /** How many of the first `k` documents have non-blank content: the
      position of document `k`'s vector in the output of `embed_batch`. */
  function VectorPosition(docs: seq<Document>, k: nat): nat
    requires k <= |docs|
  {
    |NonBlankBetween(Contents(docs), 0, k)|
  }

  /** The evidently intended pairing: each document with non-blank
      content gets the vector that `embed_batch` computed for it, and
      documents with blank content get none. */
  function AttachedAligned(docs: seq<Document>, vectors: seq<Vector>): seq<Document> {
    seq(|docs|, k requires 0 <= k < |docs| =>
      var p := VectorPosition(docs, k);
      if IsBlank(docs[k].content) || p >= |vectors| then docs[k]
      else docs[k].(contentVector := Some(vectors[p])))
  }

  /** The non-blank content of document `k` sits at its vector position
      among the non-blank contents. */
  lemma PositionOfContent(docs: seq<Document>, k: nat)
    requires k < |docs| && !IsBlank(docs[k].content)
    ensures VectorPosition(docs, k) < |NonBlank(Contents(docs))|
    ensures NonBlank(Contents(docs))[VectorPosition(docs, k)] == docs[k].content
  {
    var cs := Contents(docs);
    NonBlankSplit(cs, 0, k, |cs|);
    assert NonBlankBetween(cs, k, |cs|) == [cs[k]] + NonBlankBetween(cs, k + 1, |cs|);
  }

  /** With the aligned pairing and a faithful provider, every document
      with content carries the vector of its own content. */
  lemma AlignedAttachFaithful(docs: seq<Document>, f: string -> Vector)
    ensures var r := AttachedAligned(docs, MapVectors(f, NonBlank(Contents(docs))));
      && |r| == |docs|
      && forall k :: 0 <= k < |docs| ==>
           r[k].contentVector == (if IsBlank(docs[k].content) then docs[k].contentVector
                                  else Some(f(docs[k].content)))
  {
    var vectors := MapVectors(f, NonBlank(Contents(docs)));
    forall k | 0 <= k < |docs| && !IsBlank(docs[k].content)
      ensures AttachedAligned(docs, vectors)[k].contentVector == Some(f(docs[k].content))
    {
      PositionOfContent(docs, k);
    }
  }

  // ---------------------------------------------------------------------
  // `search`

  /** `VectorizedQuery(vector=..., k_nearest_neighbors=..., fields=...)`. */
  datatype VectorQuery = VectorQuery(vector: Vector, kNearestNeighbors: int, fields: string)

  /** The keyword arguments of `search_client.search`. A key that the
      dictionary lacks is `None`. */
  datatype SearchParams = SearchParams(
    vectorQueries: seq<VectorQuery>,
    top: int,
    select: seq<string>,
    searchText: Option<string>,
    filter: Option<string>)

  const SelectedFields: seq<string> := ["id", "content", "title", "source", "chunk_index"]

  /** `top_k or settings.top_k_results`: `None` and 0 are falsy. */
  function EffectiveTopK(topK: Option<int>, settings: Settings): (k: int)
    ensures topK.Some? && topK.value != 0 ==> k == topK.value
    ensures topK.None? || topK.value == 0 ==> k == settings.topKResults
  {
    if topK.Some? && topK.value != 0 then topK.value else settings.topKResults
  }

  /** The search parameters: one vector query with the query vector and
      the effective `top_k`, which is also `top`; the query text only for
      hybrid search; the filter only when it is truthy. */
  function BuildSearchParams(query: string, vector: Vector, topK: Option<int>, filter: Option<string>,
                             useHybrid: bool, settings: Settings): (p: SearchParams)
    ensures p.vectorQueries == [VectorQuery(vector, EffectiveTopK(topK, settings), "content_vector")]
    ensures p.top == p.vectorQueries[0].kNearestNeighbors == EffectiveTopK(topK, settings)
    ensures p.select == SelectedFields
    ensures p.searchText.Some? <==> useHybrid
    ensures p.searchText.Some? ==> p.searchText.value == query
    ensures p.filter.Some? <==> Truthy(filter)
    ensures p.filter.Some? ==> p.filter == filter
  {
    var k := EffectiveTopK(topK, settings);
    var base := SearchParams([VectorQuery(vector, k, "content_vector")], k, SelectedFields, None, None);
    var withText := if useHybrid then base.(searchText := Some(query)) else base;
    if Truthy(filter) then withText.(filter := filter) else withText
  }

  /** One hit as the search client returns it. */
  datatype RawHit = RawHit(
    id: string,
    content: string,
    score: Option<real>,
    title: Option<string>,
    source: Option<string>,
    chunkIndex: Option<int>)

  /** `SearchResult`; its metadata holds only `chunk_index`. */
  datatype SearchResult = SearchResult(
    id: string,
    content: string,
    score: real,
    title: Option<string>,
    source: Option<string>,
    chunkIndex: Option<int>)

  /** One hit mapped: the score defaults to 0. */
  function ToResult(h: RawHit): SearchResult {
    SearchResult(h.id, h.content, h.score.GetOr(0.0), h.title, h.source, h.chunkIndex)
  }

  /** The result-mapping loop of `search`: nothing is filtered out,
      whatever the scores. */
  method MapHits(hits: seq<RawHit>) returns (results: seq<SearchResult>)
    ensures |results| == |hits|
    ensures forall k :: 0 <= k < |hits| ==>
      && results[k].id == hits[k].id && results[k].content == hits[k].content
      && results[k].score == (if hits[k].score.Some? then hits[k].score.value else 0.0)
      && results[k].title == hits[k].title && results[k].source == hits[k].source
      && results[k].chunkIndex == hits[k].chunkIndex
  {
    results := [];
    for k := 0 to |hits|
      invariant |results| == k
      invariant forall j :: 0 <= j < k ==> results[j] == ToResult(hits[j])
    {
      results := results + [ToResult(hits[k])];
    }
  }

  /** The search client: the hits for the given parameters, or the error
      raised by the call or while iterating over its results (either way
      `search` raises and returns nothing). */
  type SearchClient = SearchParams -> Result<seq<RawHit>, string>

  /** Why `search` raises: the query could not be embedded (the retried
      `embed_text` gave up), or the search call failed. */
  datatype SearchError =
    | QueryNotEmbedded(cause: RetryError<EmbedError>)
    | SearchCallFailed(message: string)

  /** What `search` returns: embed the query, send the parameters built
      around its vector, and map every hit. */
  function SearchOutcome(query: string, topK: Option<int>, filter: Option<string>, useHybrid: bool,
                         settings: Settings, api: nat -> Provider, client: SearchClient)
    : Result<seq<SearchResult>, SearchError>
  {
    match EmbedText(query, api)
    case Failure(e) => Failure(QueryNotEmbedded(e))
    case Success(vector) =>
      match client(BuildSearchParams(query, vector, topK, filter, useHybrid, settings))
      case Failure(m) => Failure(SearchCallFailed(m))
      case Success(hits) => Success(seq(|hits|, k requires 0 <= k < |hits| => ToResult(hits[k])))
  }

  /** `search(query, top_k, filter_expression, use_hybrid)`: the query is
      embedded first, so an embedding error means no search; otherwise
      the parameters are sent and either the client's error is raised or
      its hits are mapped, one result per hit, in order. */
  method Search(query: string, topK: Option<int>, filter: Option<string>, useHybrid: bool,
                settings: Settings, api: nat -> Provider, client: SearchClient)
    returns (r: Result<seq<SearchResult>, SearchError>, sent: Option<SearchParams>)
    ensures r == SearchOutcome(query, topK, filter, useHybrid, settings, api, client)
    ensures EmbedText(query, api).Failure? ==>
      r == Failure(QueryNotEmbedded(EmbedText(query, api).error)) && sent.None?
    ensures EmbedText(query, api).Success? ==>
      && sent == Some(BuildSearchParams(query, EmbedText(query, api).value, topK, filter, useHybrid, settings))
      && (client(sent.value).Failure? ==> r == Failure(SearchCallFailed(client(sent.value).error)))
      && (client(sent.value).Success? ==>
            && r.Success? && |r.value| == |client(sent.value).value|
            && forall k :: 0 <= k < |r.value| ==> r.value[k] == ToResult(client(sent.value).value[k]))
  {
    var queryVector := EmbedText(query, api);
    if queryVector.Failure? {
      return Failure(QueryNotEmbedded(queryVector.error)), None;
    }
    var params := BuildSearchParams(query, queryVector.value, topK, filter, useHybrid, settings);
    var hits := client(params);
    if hits.Failure? {
      return Failure(SearchCallFailed(hits.error)), Some(params);
    }
    var results := MapHits(hits.value);
    assert results == seq(|hits.value|, k requires 0 <= k < |hits.value| => ToResult(hits.value[k]));
    return Success(results), Some(params);
  }

  /** A blank query never reaches the search client. */
  lemma BlankQueryIsNotSearched(query: string, topK: Option<int>, filter: Option<string>, useHybrid: bool,
                                 settings: Settings, api: nat -> Provider, client: SearchClient)
    requires IsBlank(query)
    ensures SearchOutcome(query, topK, filter, useHybrid, settings, api, client) == Failure(QueryNotEmbedded(RetryError(EmptyText)))
  {
    EmbedTextBlankFails(query, api);
  }

  // ---------------------------------------------------------------------
  // `delete_documents`

  /** The dictionary `{"id": doc_id}`. */
  datatype DocumentKey = DocumentKey(id: string)

  /** `delete_documents(documents)`: the `succeeded` flag of each
      per-key result, or an error. */
  type Delete = seq<DocumentKey> -> Result<seq<bool>, string>

  /** `[{"id": doc_id} for doc_id in ids]`. */
  function DeletePayload(ids: seq<string>): (r: seq<DocumentKey>)
    ensures |r| == |ids|
  {
    seq(|ids|, k requires 0 <= k < |ids| => DocumentKey(ids[k]))
  }

  /** The ids of a payload. */
  function Keys(keys: seq<DocumentKey>): (r: seq<string>)
    ensures |r| == |keys|
  {
    seq(|keys|, k requires 0 <= k < |keys| => keys[k].id)
  }

  /** One key per id, in order: reading the ids back gives the input. */
  lemma DeletePayloadKeys(ids: seq<string>)
    ensures Keys(DeletePayload(ids)) == ids
  {
  }

  /** `delete_documents(ids)`: the number of keys whose result says
      `succeeded`, or the client's error. */
  function DeleteDocuments(ids: seq<string>, delete: Delete): (r: Result<nat, string>)
    ensures r.Failure? <==> delete(DeletePayload(ids)).Failure?
    ensures r.Failure? ==> r.error == delete(DeletePayload(ids)).error
    ensures r.Success? ==> var flags := delete(DeletePayload(ids)).value;
      r.value == |set i | 0 <= i < |flags| && flags[i]|
    ensures r.Success? ==> r.value <= |delete(DeletePayload(ids)).value|
    ensures r.Success? && |delete(DeletePayload(ids)).value| == |ids| ==> r.value <= |ids|
  {
    match delete(DeletePayload(ids))
    case Failure(e) => Failure(e)
    case Success(flags) =>
      CountTrueIsCardinality(flags);
      Success(CountWhere(flags, (b: bool) => b))
  }
}
