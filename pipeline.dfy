/** `RAGPipeline`: the answer to a question is served from the cache
    when its `"rag:"`-prefixed key is present, otherwise it is built by
    searching, keeping the results at or above the similarity threshold,
    numbering them as context documents and sources, asking the chat
    model, and caching the response dictionary. The streaming variant
    yields the model's deltas and then the sources. MD5 as a hex string,
    the embedding provider, the search client and the chat endpoint are
    functions given as parameters; the elapsed time is a parameter. */
module Pipeline {
  import opened Common
  import opened Text
  import opened Config
  import opened Retry
  import opened Embeddings
  import opened VectorStore
  import opened Llm
  import opened Cache

  const RagSystemPrompt: string :=
    "You are a knowledgeable AI assistant that answers questions based on provided documentation.\n\n## Instructions:\n1. Answer ONLY based on the retrieved context provided below\n2. If the context doesn't contain enough information, say: \"I don't have enough information in the documentation to answer this question.\"\n3. When citing information, reference the source document\n4. Be concise but thorough\n5. Use bullet points or numbered lists for complex answers\n6. If asked about code, provide examples when available in context\n\n## Response Format:\n- Start with a direct answer\n- Provide supporting details\n- Cite sources in [brackets]\n- End with relevant caveats if any\n\n## Important:\n- Never make up information not in the context\n- If partially relevant info exists, acknowledge the limitation\n- Maintain a helpful, professional tone\n"

  /** The length of a source excerpt before `"..."` is added. */
  const ExcerptLength: nat := 200
  /** The TTL a fresh response is cached with. */
  const ResponseTtlSeconds: int := 3600
  /** `chat` and `chat_stream` defaults the pipeline does not override. */
  const ChatMaxTokens: int := 2000
  const StreamTemperature: real := 0.1

  /** `_get_cache_key(query)`: `"rag:"` and the MD5 of the lower-cased,
      stripped question. */
  function RagCacheKey(md5Hex: string -> string, question: string): (key: string)
    ensures |key| >= 4 && key[..4] == "rag:"
  {
    "rag:" + md5Hex(Normalize(question))
  }

  /** Questions with the same normal form share a key, and a key is that
      of its question's normal form. */
  lemma RagCacheKeyOfNormalForm(md5Hex: string -> string, q: string, q': string)
    requires Normalize(q) == Normalize(q')
    ensures RagCacheKey(md5Hex, q) == RagCacheKey(md5Hex, q')
    ensures RagCacheKey(md5Hex, q) == RagCacheKey(md5Hex, Normalize(q))
  {
    NormalizeIdempotent(q);
  }

  // ---------------------------------------------------------------------
  // Threshold filter

  /** `[r for r in search_results if r.score >= threshold]`. */
  function RelevantResults(results: seq<SearchResult>, threshold: real): (relevant: seq<SearchResult>)
    ensures |relevant| <= |results|
    decreases |results|
  {
    if results == [] then []
    else
      var last := results[|results| - 1];
      RelevantResults(results[..|results| - 1], threshold) + (if last.score >= threshold then [last] else [])
  }

  lemma {:induction false} RelevantAppend(a: seq<SearchResult>, b: seq<SearchResult>, threshold: real)
    ensures RelevantResults(a + b, threshold) == RelevantResults(a, threshold) + RelevantResults(b, threshold)
    decreases |b|
  {
    if b == [] {
      assert a + b == a;
    } else {
      var init := b[..|b| - 1];
      assert (a + b)[..|a + b| - 1] == a + init;
      assert (a + b)[|a + b| - 1] == b[|b| - 1];
      RelevantAppend(a, init, threshold);
    }
  }

  /** The relevant results are exactly the results at or above the
      threshold. */
  lemma {:induction false} RelevantMembers(results: seq<SearchResult>, threshold: real)
    ensures forall r :: r in RelevantResults(results, threshold) <==> r in results && r.score >= threshold
    decreases |results|
  {
    if results != [] {
      var init := results[..|results| - 1];
      RelevantMembers(init, threshold);
      assert results == init + [results[|results| - 1]];
    }
  }

  /** The filter keeps the original order: a result's place among the
      relevant ones is the count of relevant results before it. */
  lemma RelevantKeepsOrder(results: seq<SearchResult>, threshold: real, k: nat)
    requires k < |results| && results[k].score >= threshold
    ensures RelevantResults(results, threshold)
         == RelevantResults(results[..k], threshold) + [results[k]] + RelevantResults(results[k + 1..], threshold)
  {
    var head := results[..k + 1];
    assert head + results[k + 1..] == results;
    RelevantAppend(head, results[k + 1..], threshold);
    assert head[..k] == results[..k];
  }

  // ---------------------------------------------------------------------
  // Context and sources

  /** `a or b or "Unknown"` on optional strings. */
  function DisplayName(title: Option<string>, source: Option<string>): (name: string)
    ensures name != ""
  {
    if Truthy(title) then title.value else if Truthy(source) then source.value else "Unknown"
  }

  /** `f"[Document {i+1}: {name}]\n{content}"`. */
  function ContextDocument(i: nat, name: string, content: string): (doc: string)
  {
    "[Document " + NatToString(i + 1) + ": " + name + "]\n" + content
  }

  /** A context document opens with its one-based number and its name
      and closes with the whole content. */
  lemma ContextDocumentFacts(i: nat, name: string, content: string)
    ensures var doc := ContextDocument(i, name, content);
      var heading := "[Document " + NatToString(i + 1) + ": " + name + "]\n";
      && |doc| == |heading| + |content|
      && doc[..|heading|] == heading
      && doc[|heading|..] == content
      && doc[|doc| - |content|..] == content
  {
  }

  /** The content, cut to 200 characters and marked with `"..."` when it
      is longer. */
  function Excerpt(content: string): (e: string)
    ensures |content| <= ExcerptLength ==> e == content
    ensures |content| > ExcerptLength ==>
              |e| == ExcerptLength + 3 && e[..ExcerptLength] == content[..ExcerptLength] && e[ExcerptLength..] == "..."
  {
    if |content| > ExcerptLength then content[..ExcerptLength] + "..." else content
  }

  /** One entry of `sources` in `query`. */
  datatype Source = Source(id: string, title: Option<string>, source: Option<string>, score: real, excerpt: string)

  function SourceOf(r: SearchResult): Source {
    Source(r.id, r.title, r.source, r.score, Excerpt(r.content))
  }

  /** One entry of `sources` in `query_stream`. */
  datatype StreamSource = StreamSource(title: Option<string>, source: Option<string>, score: real)

  function StreamSourceOf(r: SearchResult): StreamSource {
    StreamSource(r.title, r.source, r.score)
  }

  /** The context documents of `query`: numbered from 1, named by title,
      else source, else "Unknown". */
  function ContextDocuments(relevant: seq<SearchResult>): seq<string> {
    seq(|relevant|, i requires 0 <= i < |relevant| =>
      ContextDocument(i, DisplayName(relevant[i].title, relevant[i].source), relevant[i].content))
  }

  function Sources(relevant: seq<SearchResult>): seq<Source> {
    seq(|relevant|, i requires 0 <= i < |relevant| => SourceOf(relevant[i]))
  }

  /** The context documents of `query_stream`: named by title, else
      "Unknown". */
  function StreamContextDocuments(relevant: seq<SearchResult>): seq<string> {
    seq(|relevant|, i requires 0 <= i < |relevant| =>
      ContextDocument(i, DisplayName(relevant[i].title, None), relevant[i].content))
  }

  function StreamSources(relevant: seq<SearchResult>): seq<StreamSource> {
    seq(|relevant|, i requires 0 <= i < |relevant| => StreamSourceOf(relevant[i]))
  }

  /** The formatting loop of `query`. */
  method FormatContext(relevant: seq<SearchResult>) returns (contextDocuments: seq<string>, sources: seq<Source>)
    ensures contextDocuments == ContextDocuments(relevant)
    ensures sources == Sources(relevant)
  {
    contextDocuments, sources := [], [];
    for i := 0 to |relevant|
      invariant |contextDocuments| == i && |sources| == i
      invariant forall j :: 0 <= j < i ==> contextDocuments[j] == ContextDocuments(relevant)[j]
      invariant forall j :: 0 <= j < i ==> sources[j] == Sources(relevant)[j]
    {
      var result := relevant[i];
      var docText := ContextDocument(i, DisplayName(result.title, result.source), result.content);
      contextDocuments := contextDocuments + [docText];
      sources := sources + [Source(result.id, result.title, result.source, result.score, Excerpt(result.content))];
    }
  }

  /** The formatting loop of `query_stream`. */
  method FormatStreamContext(relevant: seq<SearchResult>)
    returns (contextDocuments: seq<string>, sources: seq<StreamSource>)
    ensures contextDocuments == StreamContextDocuments(relevant)
    ensures sources == StreamSources(relevant)
  {
    contextDocuments, sources := [], [];
    for i := 0 to |relevant|
      invariant |contextDocuments| == i && |sources| == i
      invariant forall j :: 0 <= j < i ==> contextDocuments[j] == StreamContextDocuments(relevant)[j]
      invariant forall j :: 0 <= j < i ==> sources[j] == StreamSources(relevant)[j]
    {
      var result := relevant[i];
      var docText := ContextDocument(i, DisplayName(result.title, None), result.content);
      contextDocuments := contextDocuments + [docText];
      sources := sources + [StreamSource(result.title, result.source, result.score)];
    }
  }

  // ---------------------------------------------------------------------
  // Responses

  /** `RAGResponse`. */
  datatype RagResponse = RagResponse(
    answer: string,
    sources: seq<Source>,
    query: string,
    llmResponse: LlmResponse,
    retrievedCount: nat,
    fromCache: bool,
    latencyMs: real)

  /** The `"metadata"` dictionary of `to_dict()`. */
  datatype Metadata = Metadata(
    query: string,
    retrievedDocuments: nat,
    inputTokens: int,
    outputTokens: int,
    totalTokens: int,
    estimatedCostUsd: real,
    fromCache: bool,
    latencyMs: real)

  function MetadataOf(r: RagResponse): Metadata {
    Metadata(r.query, r.retrievedCount, r.llmResponse.inputTokens, r.llmResponse.outputTokens,
             r.llmResponse.totalTokens, r.llmResponse.EstimatedCostUsd(), r.fromCache, r.latencyMs)
  }

  /** The dictionary `to_dict()` builds; the cache holds these, and a
      cache hit changes one in place. */
  class ResponseDict {
    var answer: string
    var sources: seq<Source>
    var metadata: Metadata

    constructor(answer: string, sources: seq<Source>, metadata: Metadata)
      ensures this.answer == answer && this.sources == sources && this.metadata == metadata
    {
      this.answer := answer;
      this.sources := sources;
      this.metadata := metadata;
    }

    /** The dictionary holds the response `r`. */
    predicate Holds(r: RagResponse)
      reads this
    {
      answer == r.answer && sources == r.sources && metadata == MetadataOf(r)
    }
  }

  /** `to_dict()`. */
  method ToDict(r: RagResponse) returns (d: ResponseDict)
    ensures fresh(d) && d.Holds(r)
  {
    d := new ResponseDict(r.answer, r.sources, MetadataOf(r));
  }

  datatype QueryError =
    | SearchFailed(searchError: SearchError)
    | ChatFailed(chatError: RetryError<ChatError>)
    | StreamFailed(message: string)

  /** What `query` returns: a fresh `RAGResponse`, or the cached
      dictionary itself. */
  datatype QueryResult = Answered(response: RagResponse) | FromCache(dict: ResponseDict)

  /** The services the pipeline calls. */
  datatype Services = Services(
    md5Hex: string -> string,
    embedApi: nat -> Provider,
    searchClient: SearchClient,
    encoder: Encoder,
    chatApi: nat -> ChatApi,
    openStream: ChatRequest -> Result<seq<StreamChunk>, string>)

  /** The pipeline's `vector_store.search` call: always a hybrid search
      with the services' embedding provider and search client. */
  function Retrieval(query: string, topK: Option<int>, filter: Option<string>, settings: Settings,
                     services: Services): Result<seq<SearchResult>, SearchError>
  {
    SearchOutcome(query, topK, filter, true, settings, services.embedApi, services.searchClient)
  }

  /** `custom_system_prompt or RAG_SYSTEM_PROMPT`. */
  function SystemPrompt(customSystemPrompt: Option<string>): string {
    if Truthy(customSystemPrompt) then customSystemPrompt.value else RagSystemPrompt
  }

  /** The response `query` builds on a cache miss. */
  function FreshAnswer(question: string, topK: int, filterExpression: Option<string>, temperature: real,
                       customSystemPrompt: Option<string>, latencyMs: real, settings: Settings,
                       services: Services): Result<RagResponse, QueryError>
  {
    match Retrieval(question, Some(topK), filterExpression, settings, services)
    case Failure(e) => Failure(SearchFailed(e))
    case Success(results) =>
      var relevant := RelevantResults(results, settings.similarityThreshold);
      match Chat(settings.deploymentName, question, Some(SystemPrompt(customSystemPrompt)), temperature,
                 ChatMaxTokens, Some(ContextDocuments(relevant)), services.encoder, services.chatApi)
      case Failure(e) => Failure(ChatFailed(e))
      case Success(llm) =>
        Success(RagResponse(llm.content, Sources(relevant), question, llm, |relevant|, false, latencyMs))
  }

  /** A fresh answer is not from the cache, echoes the question and the
      model's content, and carries one source per relevant result; each
      source met the threshold and came from the search. */
  lemma FreshAnswerFacts(question: string, topK: int, filterExpression: Option<string>, temperature: real,
                         customSystemPrompt: Option<string>, latencyMs: real, settings: Settings, services: Services)
    requires FreshAnswer(question, topK, filterExpression, temperature, customSystemPrompt, latencyMs, settings, services).Success?
    ensures var resp := FreshAnswer(question, topK, filterExpression, temperature, customSystemPrompt, latencyMs, settings, services).value;
      var results := Retrieval(question, Some(topK), filterExpression, settings, services).value;
      && !resp.fromCache
      && resp.query == question
      && resp.answer == resp.llmResponse.content
      && |resp.sources| == resp.retrievedCount
      && resp.retrievedCount == |RelevantResults(results, settings.similarityThreshold)|
      && forall i :: 0 <= i < |resp.sources| ==> resp.sources[i].score >= settings.similarityThreshold
  {
    var results := Retrieval(question, Some(topK), filterExpression, settings, services).value;
    var relevant := RelevantResults(results, settings.similarityThreshold);
    RelevantMembers(results, settings.similarityThreshold);
    forall i | 0 <= i < |relevant|
      ensures relevant[i].score >= settings.similarityThreshold
    {
      assert relevant[i] in relevant;
    }
  }

  /** A question holding a special-token string of the encoder fails
      with the chat's `RetryError` once the search has succeeded, so a
      cache miss on it stores nothing. */
  lemma SpecialTokenQuestionFails(question: string, topK: int, filterExpression: Option<string>, temperature: real,
                                  customSystemPrompt: Option<string>, latencyMs: real, settings: Settings,
                                  services: Services, t: string, k: int)
    requires t in services.encoder.specialTokens && IsAt(question, t, k)
    requires Retrieval(question, Some(topK), filterExpression, settings, services).Success?
    ensures var r := FreshAnswer(question, topK, filterExpression, temperature, customSystemPrompt, latencyMs, settings, services);
      r.Failure? && r.error.ChatFailed? && r.error.chatError.last.TokenizerError?
  {
    var relevant := RelevantResults(Retrieval(question, Some(topK), filterExpression, settings, services).value,
                                    settings.similarityThreshold);
    SpecialTokenInQuestionFailsChat(settings.deploymentName, question, Some(SystemPrompt(customSystemPrompt)), temperature,
                                    ChatMaxTokens, Some(ContextDocuments(relevant)), services.encoder, services.chatApi, t, k);
  }

  /** With nothing above the threshold the model is still asked, with
      the system prompt alone as the system message. */
  lemma NoContextStillAsks(question: string, customSystemPrompt: Option<string>, relevant: seq<SearchResult>)
    requires relevant == []
    ensures var msgs := BuildMessages(question, Some(SystemPrompt(customSystemPrompt)), Some(ContextDocuments(relevant)), ChatStyle);
      |msgs| == 2 && Field(msgs[0], "content") == SystemPrompt(customSystemPrompt)
  {
    assert |RagSystemPrompt| > 0;
  }

  /** The objects a query may change: the dictionary cached under its key. */
  function CachedAt(cache: SimpleCache<ResponseDict>, key: string): set<ResponseDict>
    reads cache
  {
    if key in cache.store then {cache.store[key].value} else {}
  }

  class RagPipeline {
    const cache: SimpleCache<ResponseDict>
    const settings: Settings
    const services: Services

    constructor(cache: SimpleCache<ResponseDict>, settings: Settings, services: Services)
      ensures this.cache == cache && this.settings == settings && this.services == services
    {
      this.cache := cache;
      this.settings := settings;
      this.services := services;
    }

    /** `query(...)`. On a hit the cached dictionary is marked as coming
        from the cache and returned, whatever the other arguments; on a
        miss the fresh response is returned and, with `use_cache`, a new
        dictionary holding it is cached for an hour. */
    method Query(question: string, topK: Option<int>, filterExpression: Option<string>, useCache: bool,
                 temperature: real, customSystemPrompt: Option<string>, latencyMs: real)
      returns (r: Result<QueryResult, QueryError>)
      modifies cache, CachedAt(cache, RagCacheKey(services.md5Hex, question))
      ensures var key := RagCacheKey(services.md5Hex, question);
        useCache && key in old(cache.store) ==>
          var d := old(cache.store)[key].value;
          && r == Success(FromCache(d))
          && cache.store == old(cache.store)
          && d.answer == old(d.answer) && d.sources == old(d.sources)
          && d.metadata == old(d.metadata).(fromCache := true)
      ensures var key := RagCacheKey(services.md5Hex, question);
        !(useCache && key in old(cache.store)) ==>
          match FreshAnswer(question, EffectiveTopK(topK, settings), filterExpression, temperature, customSystemPrompt, latencyMs, settings, services)
          case Failure(e) => r == Failure(e) && cache.store == old(cache.store)
          case Success(resp) =>
            && r == Success(Answered(resp))
            && (!useCache ==> cache.store == old(cache.store))
            && (useCache ==>
                  && key in cache.store
                  && fresh(cache.store[key].value)
                  && cache.store[key].value.Holds(resp)
                  && cache.store == old(cache.store)[key := Entry(cache.store[key].value, ResponseTtlSeconds)])
      ensures !useCache ==> unchanged(old(CachedAt(cache, RagCacheKey(services.md5Hex, question))))
    {
      var effectiveTopK := EffectiveTopK(topK, settings);
      var cacheKey := RagCacheKey(services.md5Hex, question);
      if useCache {
        var cached := cache.Get(cacheKey);
        if cached.Some? {
          var d := cached.value;
          d.metadata := d.metadata.(fromCache := true);
          return Success(FromCache(d));
        }
      }
      var answer := Answer(question, effectiveTopK, filterExpression, temperature, customSystemPrompt, latencyMs);
      if answer.Failure? {
        return Failure(answer.error);
      }
      if useCache {
        var d := ToDict(answer.value);
        cache.Set(cacheKey, d, Some(ResponseTtlSeconds));
      }
      return Success(Answered(answer.value));
    }

    /** Once a question has been answered with caching on, asking it
        again — in any case, with any surrounding whitespace and any other
        arguments — is served from the cache; a fresh first answer comes
        back as its dictionary, now marked as coming from the cache. */
    method AskAgain(q: string, q': string, topK: Option<int>, topK': Option<int>, filterExpression: Option<string>,
                    temperature: real, customSystemPrompt: Option<string>, latencyMs: real)
      returns (first: Result<QueryResult, QueryError>, second: Result<QueryResult, QueryError>)
      requires Normalize(q) == Normalize(q')
      modifies cache, CachedAt(cache, RagCacheKey(services.md5Hex, q))
      ensures first.Success? ==> second.Success? && second.value.FromCache? && second.value.dict.metadata.fromCache
      ensures first.Success? && first.value.Answered? ==>
                second.value.dict.Holds(first.value.response.(fromCache := true))
    {
      RagCacheKeyOfNormalForm(services.md5Hex, q, q');
      first := Query(q, topK, filterExpression, true, temperature, customSystemPrompt, latencyMs);
      second := Query(q', topK', None, true, temperature, None, latencyMs);
    }

    /** The retrieval and generation steps of `query`. */
    method Answer(question: string, effectiveTopK: int, filterExpression: Option<string>, temperature: real,
                  customSystemPrompt: Option<string>, latencyMs: real)
      returns (r: Result<RagResponse, QueryError>)
      ensures r == FreshAnswer(question, effectiveTopK, filterExpression, temperature, customSystemPrompt, latencyMs, settings, services)
    {
      var searchResults, sent := Search(question, Some(effectiveTopK), filterExpression, true, settings,
                                        services.embedApi, services.searchClient);
      if searchResults.Failure? {
        return Failure(SearchFailed(searchResults.error));
      }
      var relevantResults := RelevantResults(searchResults.value, settings.similarityThreshold);
      var contextDocuments, sources := FormatContext(relevantResults);
      var systemPrompt := SystemPrompt(customSystemPrompt);
      var llmResponse := Chat(settings.deploymentName, question, Some(systemPrompt), temperature, ChatMaxTokens,
                              Some(contextDocuments), services.encoder, services.chatApi);
      if llmResponse.Failure? {
        return Failure(ChatFailed(llmResponse.error));
      }
      var llm := llmResponse.value;
      return Success(RagResponse(llm.content, sources, question, llm, |relevantResults|, false, latencyMs));
    }

    /** `query_stream(...)`: the content events in the order the model
        produced them, then one sources event. */
    method QueryStream(question: string, topK: Option<int>, filterExpression: Option<string>)
      returns (r: Result<seq<StreamEvent>, QueryError>)
      ensures match Retrieval(question, Some(EffectiveTopK(topK, settings)), filterExpression, settings, services)
        case Failure(e) => r == Failure(SearchFailed(e))
        case Success(results) =>
          var relevant := RelevantResults(results, settings.similarityThreshold);
          var request := ChatRequest(settings.deploymentName,
                                     BuildMessages(question, Some(RagSystemPrompt), Some(StreamContextDocuments(relevant)), StreamStyle),
                                     StreamTemperature, ChatMaxTokens, true);
          match services.openStream(request)
          case Failure(e) => r == Failure(StreamFailed(e))
          case Success(chunks) => r == Success(StreamEvents(Deltas(chunks), StreamSources(relevant)))
    {
      var effectiveTopK := EffectiveTopK(topK, settings);
      var searchResults, sent := Search(question, Some(effectiveTopK), filterExpression, true, settings,
                                     services.embedApi, services.searchClient);
      if searchResults.Failure? {
        return Failure(SearchFailed(searchResults.error));
      }
      var relevantResults := RelevantResults(searchResults.value, settings.similarityThreshold);
      var contextDocuments, sources := FormatStreamContext(relevantResults);
      var stream := ChatStream(settings.deploymentName, question, Some(RagSystemPrompt), StreamTemperature,
                               ChatMaxTokens, Some(contextDocuments), services.openStream);
      if stream.Failure? {
        return Failure(StreamFailed(stream.error));
      }
      var events := Events(stream.value, sources);
      return Success(events);
    }
  }

  /** The yields of `query_stream`: one content event per delta, then the
      sources. */
  method Events(deltas: seq<string>, sources: seq<StreamSource>) returns (events: seq<StreamEvent>)
    ensures events == StreamEvents(deltas, sources)
  {
    events := [];
    for k := 0 to |deltas|
      invariant events == ContentEvents(deltas[..k])
    {
      assert deltas[..k + 1][..k] == deltas[..k];
      events := events + [ContentEvent(deltas[k])];
    }
    assert deltas[..|deltas|] == deltas;
    events := events + [SourcesEvent(sources)];
  }

  /** `{"type": "content", "data": chunk}` and `{"type": "sources",
      "data": sources}`. */
  datatype StreamEvent = ContentEvent(data: string) | SourcesEvent(sources: seq<StreamSource>)

  function ContentEvents(deltas: seq<string>): seq<StreamEvent>
    decreases |deltas|
  {
    if deltas == [] then []
    else ContentEvents(deltas[..|deltas| - 1]) + [ContentEvent(deltas[|deltas| - 1])]
  }

  function StreamEvents(deltas: seq<string>, sources: seq<StreamSource>): seq<StreamEvent> {
    ContentEvents(deltas) + [SourcesEvent(sources)]
  }

  lemma {:induction false} ContentEventsFacts(deltas: seq<string>)
    ensures |ContentEvents(deltas)| == |deltas|
    ensures forall i :: 0 <= i < |deltas| ==> ContentEvents(deltas)[i] == ContentEvent(deltas[i])
    decreases |deltas|
  {
    if deltas != [] {
      var init := deltas[..|deltas| - 1];
      ContentEventsFacts(init);
      assert forall i :: 0 <= i < |init| ==> init[i] == deltas[i];
    }
  }

  /** The event stream is the deltas in order, each as a content event,
      followed by exactly one sources event, which is the last. */
  lemma StreamEventOrder(deltas: seq<string>, sources: seq<StreamSource>)
    ensures var events := StreamEvents(deltas, sources);
      && |events| == |deltas| + 1
      && (forall i :: 0 <= i < |deltas| ==> events[i] == ContentEvent(deltas[i]))
      && events[|deltas|] == SourcesEvent(sources)
      && forall i :: 0 <= i < |events| ==> (events[i].SourcesEvent? <==> i == |deltas|)
  {
    ContentEventsFacts(deltas);
  }
}
