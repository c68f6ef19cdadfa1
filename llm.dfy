/** The chat client: the message list sent for `chat` and
    `chat_stream`, the token count of a message list, the response
    record with its cost estimate, and the filtering of streamed deltas.
    The tokenizer's count and the chat-completions endpoint are
    functions given as parameters, and the encoder rejects text holding
    one of its special-token strings; prices and token counts are reals and integers, with
    no floating-point rounding. */
module Llm {
  import opened Common
  import opened Text
  import opened Retry

  /** `LLMResponse`. */
  datatype LlmResponse = LlmResponse(
    content: string,
    model: string,
    inputTokens: int,
    outputTokens: int,
    totalTokens: int,
    finishReason: string)
  {
    /** `estimated_cost_usd`: $5 per million input tokens and $15 per
        million output tokens. */
    function EstimatedCostUsd(): (cost: real)
      ensures inputTokens >= 0 && outputTokens >= 0 ==> cost >= 0.0
      ensures inputTokens == 0 && outputTokens == 0 ==> cost == 0.0
    {
      inputTokens as real * 0.000005 + outputTokens as real * 0.000015
    }
  }

  /** The estimate grows with either count. */
  lemma CostMonotone(a: LlmResponse, b: LlmResponse)
    requires a.inputTokens <= b.inputTokens && a.outputTokens <= b.outputTokens
    ensures a.EstimatedCostUsd() <= b.EstimatedCostUsd()
  {
  }

  /** One more output token costs three times as much as one more input
      token. */
  lemma OutputTokenCostsThreeInputTokens(r: LlmResponse)
    ensures r.(outputTokens := r.outputTokens + 1).EstimatedCostUsd() - r.EstimatedCostUsd()
         == 3.0 * (r.(inputTokens := r.inputTokens + 1).EstimatedCostUsd() - r.EstimatedCostUsd())
  {
  }

  // ---------------------------------------------------------------------
  // Token counting

  /** A chat message is a dictionary of strings. */
  type Message = map<string, string>

  /** `message.get(key, "")`. */
  function Field(m: Message, key: string): string {
    if key in m then m[key] else ""
  }

  /** `count_tokens` on text the encoder accepts: the length of its
      encoding. */
  type Tokenizer = string -> nat

  /** The tiktoken encoding behind `count_tokens`: the token count, and
      the encoding's special-token strings. `encode` allows no special
      token by default, so it raises `ValueError` on any text in which
      one of these strings occurs. */
  datatype Encoder = Encoder(count: Tokenizer, specialTokens: seq<string>)

  /** `encoder.encode(text)` returns rather than raises. */
  predicate Encodes(enc: Encoder, text: string) {
    forall t :: t in enc.specialTokens ==> !Contains(text, t)
  }

  /** The first of a message's content and role that the encoder
      rejects, in the order `count_messages_tokens` encodes them. */
  function Rejected(m: Message, enc: Encoder): Option<string> {
    if !Encodes(enc, Field(m, "content")) then Some(Field(m, "content"))
    else if !Encodes(enc, Field(m, "role")) then Some(Field(m, "role"))
    else None
  }

  /** Every message's content and role encode. */
  predicate AllEncode(msgs: seq<Message>, enc: Encoder) {
    forall i :: 0 <= i < |msgs| ==> Rejected(msgs[i], enc).None?
  }

  /** The text whose encoding raises first, if any. */
  function FirstRejected(msgs: seq<Message>, enc: Encoder): Option<string>
    decreases |msgs|
  {
    if msgs == [] then None
    else if Rejected(msgs[0], enc).Some? then Rejected(msgs[0], enc)
    else FirstRejected(msgs[1..], enc)
  }

  /** The first rejected text is absent exactly when every message
      encodes; otherwise it is the rejected field of a message all of
      whose predecessors encode. */
  lemma {:induction false} FirstRejectedMeaning(msgs: seq<Message>, enc: Encoder)
    ensures FirstRejected(msgs, enc).None? <==> AllEncode(msgs, enc)
    ensures FirstRejected(msgs, enc).Some? ==>
              exists i :: 0 <= i < |msgs| && AllEncode(msgs[..i], enc)
                          && Rejected(msgs[i], enc) == FirstRejected(msgs, enc)
    decreases |msgs|
  {
    if msgs != [] {
      FirstRejectedMeaning(msgs[1..], enc);
      if Rejected(msgs[0], enc).Some? {
        assert AllEncode(msgs[..0], enc);
      } else {
        assert forall i :: 0 < i < |msgs| ==> msgs[i] == msgs[1..][i - 1];
        if FirstRejected(msgs[1..], enc).Some? {
          var i :| 0 <= i < |msgs[1..]| && AllEncode(msgs[1..][..i], enc)
                   && Rejected(msgs[1..][i], enc) == FirstRejected(msgs[1..], enc);
          assert msgs[..i + 1] == [msgs[0]] + msgs[1..][..i];
          assert Rejected(msgs[i + 1], enc) == FirstRejected(msgs, enc);
        }
      }
    }
  }

  /** A special-token string in a message's content makes the encoding
      of the list raise. */
  lemma SpecialTokenIsRejected(msgs: seq<Message>, enc: Encoder, i: nat, t: string, k: int)
    requires i < |msgs| && t in enc.specialTokens && IsAt(Field(msgs[i], "content"), t, k)
    ensures !AllEncode(msgs, enc)
  {
    ContainsIsAt(Field(msgs[i], "content"), t, k);
    assert !Encodes(enc, Field(msgs[i], "content"));
    FirstRejectedMeaning(msgs, enc);
  }

  const MessageOverhead: nat := 4
  const PrimingTokens: nat := 2

  /** The tokens one message adds: the formatting overhead, its content
      and its role. */
  function MessageTokens(m: Message, tok: Tokenizer): nat {
    MessageOverhead + tok(Field(m, "content")) + tok(Field(m, "role"))
  }

  /** The sum of `MessageTokens` over a list. */
  function SumMessageTokens(msgs: seq<Message>, tok: Tokenizer): nat
    decreases |msgs|
  {
    if msgs == [] then 0
    else SumMessageTokens(msgs[..|msgs| - 1], tok) + MessageTokens(msgs[|msgs| - 1], tok)
  }

  lemma FirstRejectedStep(msgs: seq<Message>, k: nat, enc: Encoder)
    requires k < |msgs|
    ensures FirstRejected(msgs[k..], enc)
         == if Rejected(msgs[k], enc).Some? then Rejected(msgs[k], enc) else FirstRejected(msgs[k + 1..], enc)
  {
    assert msgs[k..][0] == msgs[k];
    assert msgs[k..][1..] == msgs[k + 1..];
  }

  lemma AllEncodeExtend(msgs: seq<Message>, k: nat, enc: Encoder)
    requires k < |msgs| && AllEncode(msgs[..k], enc) && Rejected(msgs[k], enc).None?
    ensures AllEncode(msgs[..k + 1], enc)
    ensures SumMessageTokens(msgs[..k + 1], enc.count)
         == SumMessageTokens(msgs[..k], enc.count) + MessageTokens(msgs[k], enc.count)
  {
    assert msgs[..k + 1][..k] == msgs[..k];
    assert forall i :: 0 <= i < k ==> msgs[..k + 1][i] == msgs[..k][i];
  }

  /** `count_messages_tokens(messages)`: the count, or the text whose
      encoding raised. */
  method CountMessagesTokens(messages: seq<Message>, enc: Encoder) returns (r: Result<nat, string>)
    ensures r.Success? <==> AllEncode(messages, enc)
    ensures r.Success? ==> r.value == PrimingTokens + SumMessageTokens(messages, enc.count)
    ensures r.Failure? ==> FirstRejected(messages, enc) == Some(r.error)
  {
    FirstRejectedMeaning(messages, enc);
    var tokens := 0;
    for k := 0 to |messages|
      invariant tokens == SumMessageTokens(messages[..k], enc.count)
      invariant AllEncode(messages[..k], enc)
      invariant FirstRejected(messages, enc) == FirstRejected(messages[k..], enc)
    {
      FirstRejectedStep(messages, k, enc);
      tokens := tokens + MessageOverhead;
      if !Encodes(enc, Field(messages[k], "content")) {
        return Failure(Field(messages[k], "content"));
      }
      tokens := tokens + enc.count(Field(messages[k], "content"));
      if !Encodes(enc, Field(messages[k], "role")) {
        return Failure(Field(messages[k], "role"));
      }
      tokens := tokens + enc.count(Field(messages[k], "role"));
      AllEncodeExtend(messages, k, enc);
    }
    assert messages[..|messages|] == messages;
    return Success(tokens + PrimingTokens);
  }

  lemma {:induction false} SumMessageTokensAppend(a: seq<Message>, b: seq<Message>, tok: Tokenizer)
    ensures SumMessageTokens(a + b, tok) == SumMessageTokens(a, tok) + SumMessageTokens(b, tok)
    decreases |b|
  {
    if b == [] {
      assert a + b == a;
    } else {
      var init := b[..|b| - 1];
      assert (a + b)[..|a + b| - 1] == a + init;
      assert (a + b)[|a + b| - 1] == b[|b| - 1];
      SumMessageTokensAppend(a, init, tok);
    }
  }

  /** The count of a list is 2 for the empty list and otherwise the
      primer plus the counts of its halves without their primers; it is
      at least 4 tokens per message. */
  lemma MessagesTokensFacts(a: seq<Message>, b: seq<Message>, tok: Tokenizer)
    ensures PrimingTokens + SumMessageTokens([], tok) == 2
    ensures PrimingTokens + SumMessageTokens(a + b, tok)
         == (PrimingTokens + SumMessageTokens(a, tok)) + (PrimingTokens + SumMessageTokens(b, tok)) - PrimingTokens
    ensures SumMessageTokens(a, tok) >= MessageOverhead * |a|
  {
    SumMessageTokensAppend(a, b, tok);
    SumAtLeastOverhead(a, tok);
  }

  lemma {:induction false} SumAtLeastOverhead(msgs: seq<Message>, tok: Tokenizer)
    ensures SumMessageTokens(msgs, tok) >= MessageOverhead * |msgs|
    decreases |msgs|
  {
    if msgs != [] {
      SumAtLeastOverhead(msgs[..|msgs| - 1], tok);
    }
  }

  // ---------------------------------------------------------------------
  // Message construction

  const DefaultSystemPrompt: string := "You are a helpful AI assistant."
  const ContextSeparator: string := "\n\n---\n\n"

  /** The text put between the instructions and the documents: `chat`
      adds two lines of instructions, `chat_stream` only the heading. */
  datatype Style = ChatStyle | StreamStyle

  function ContextHeader(style: Style): string {
    match style
    case ChatStyle =>
      "\n\n## Retrieved Context\nUse the following documents to answer the user's question. \n"
      + "If the answer is not in the context, say so clearly.\n\n"
    case StreamStyle => "\n\n## Retrieved Context\n"
  }

  /** Python truthiness of an optional list. */
  predicate HasDocuments(docs: Option<seq<string>>) {
    docs.Some? && docs.value != []
  }

  function UserMessage(userMessage: string): Message {
    map["role" := "user", "content" := userMessage]
  }

  /** `system_prompt or "You are a helpful AI assistant."`. */
  function Instructions(systemPrompt: Option<string>): string {
    if Truthy(systemPrompt) then systemPrompt.value else DefaultSystemPrompt
  }

  /** The system message's content: the instructions, followed, when
      there are documents, by the header and the documents joined by the
      separator. */
  function SystemContent(systemPrompt: Option<string>, contextDocuments: Option<seq<string>>, style: Style): (content: string)
    ensures |Instructions(systemPrompt)| <= |content|
    ensures content[..|Instructions(systemPrompt)|] == Instructions(systemPrompt)
    ensures !HasDocuments(contextDocuments) ==> content == Instructions(systemPrompt)
    ensures HasDocuments(contextDocuments) ==> content[|content| - 1] == '\n'
  {
    var base := Instructions(systemPrompt);
    if HasDocuments(contextDocuments) then
      var quoted := ContextHeader(style) + Join(ContextSeparator, contextDocuments.value) + "\n";
      assert (base + quoted)[..|base|] == base;
      base + quoted
    else base
  }

  /** The `messages` list of `chat` and `chat_stream`. */
  function BuildMessages(userMessage: string, systemPrompt: Option<string>,
                         contextDocuments: Option<seq<string>>, style: Style): (msgs: seq<Message>)
    ensures 1 <= |msgs| <= 2
    ensures msgs[|msgs| - 1] == UserMessage(userMessage)
    ensures |msgs| == 2 <==> Truthy(systemPrompt) || HasDocuments(contextDocuments)
    ensures |msgs| == 2 ==>
              Field(msgs[0], "role") == "system" && Field(msgs[0], "content") == SystemContent(systemPrompt, contextDocuments, style)
  {
    var user := UserMessage(userMessage);
    if Truthy(systemPrompt) || HasDocuments(contextDocuments) then
      [map["role" := "system", "content" := SystemContent(systemPrompt, contextDocuments, style)], user]
    else [user]
  }

  lemma {:induction false} JoinHasPart(sep: string, parts: seq<string>, i: nat)
    requires i < |parts|
    ensures exists k :: IsAt(Join(sep, parts), parts[i], k)
    decreases |parts|
  {
    var j := Join(sep, parts);
    if i == 0 {
      assert j[0..|parts[0]|] == parts[0];
      assert IsAt(j, parts[i], 0);
    } else {
      var rest := Join(sep, parts[1..]);
      assert parts[1..][i - 1] == parts[i];
      JoinHasPart(sep, parts[1..], i - 1);
      var k :| IsAt(rest, parts[i], k);
      IsAtInside(parts[0] + sep, rest, "", parts[i], k);
      assert j == parts[0] + sep + rest + "";
    }
  }

  /** Every retrieved document is quoted whole in the system message. */
  lemma ContextDocumentsAreQuoted(userMessage: string, systemPrompt: Option<string>,
                                  contextDocuments: Option<seq<string>>, style: Style, i: nat)
    requires contextDocuments.Some? && i < |contextDocuments.value|
    ensures var msgs := BuildMessages(userMessage, systemPrompt, contextDocuments, style);
      |msgs| == 2 && exists k :: IsAt(Field(msgs[0], "content"), contextDocuments.value[i], k)
  {
    var docs := contextDocuments.value;
    var joined := Join(ContextSeparator, docs);
    JoinHasPart(ContextSeparator, docs, i);
    var k :| IsAt(joined, docs[i], k);
    var quoted := ContextHeader(style) + joined + "\n";
    IsAtInside(ContextHeader(style), joined, "\n", docs[i], k);
    IsAtInside(Instructions(systemPrompt), quoted, "", docs[i], |ContextHeader(style)| + k);
    assert Instructions(systemPrompt) + quoted + "" == SystemContent(systemPrompt, contextDocuments, style);
  }

  // ---------------------------------------------------------------------
  // Chat completions

  /** What is sent to `chat.completions.create`. */
  datatype ChatRequest = ChatRequest(
    model: string,
    messages: seq<Message>,
    temperature: real,
    maxTokens: int,
    stream: bool)

  datatype Choice = Choice(content: string, finishReason: string)
  datatype Usage = Usage(promptTokens: int, completionTokens: int, totalTokens: int)
  datatype Completion = Completion(model: string, choices: seq<Choice>, usage: Usage)

  /** The endpoint on one attempt: a completion, or the message of the
      exception it raises. */
  type ChatApi = ChatRequest -> Result<Completion, string>

  /** A chat attempt fails on the text whose token count raised, on the
      endpoint's exception, or on a completion without choices. */
  datatype ChatError = TokenizerError(text: string) | ApiError(message: string) | NoChoices

  /** One run of `chat`: count the tokens of the built messages, send the
      request, and read the first choice and the usage. The count is only
      logged, but an encoding that raises ends the attempt before any
      request. */
  function ChatOnce(deployment: string, userMessage: string, systemPrompt: Option<string>,
                    temperature: real, maxTokens: int, contextDocuments: Option<seq<string>>,
                    enc: Encoder, api: ChatApi): (r: Result<LlmResponse, ChatError>)
    ensures var msgs := BuildMessages(userMessage, systemPrompt, contextDocuments, ChatStyle);
      var request := ChatRequest(deployment, msgs, temperature, maxTokens, false);
      if !AllEncode(msgs, enc) then
        r.Failure? && r.error.TokenizerError? && !Encodes(enc, r.error.text)
        && exists i :: 0 <= i < |msgs| && AllEncode(msgs[..i], enc) && Rejected(msgs[i], enc) == Some(r.error.text)
      else match api(request)
      case Failure(e) => r == Failure(ApiError(e))
      case Success(c) =>
        if c.choices == [] then r == Failure(NoChoices)
        else (r.Success?
          && r.value.content == c.choices[0].content
          && r.value.finishReason == c.choices[0].finishReason
          && r.value.model == c.model
          && r.value.inputTokens == c.usage.promptTokens
          && r.value.outputTokens == c.usage.completionTokens
          && r.value.totalTokens == c.usage.totalTokens)
  {
    var messages := BuildMessages(userMessage, systemPrompt, contextDocuments, ChatStyle);
    FirstRejectedMeaning(messages, enc);
    match FirstRejected(messages, enc)
    case Some(text) => Failure(TokenizerError(text))
    case None =>
      match api(ChatRequest(deployment, messages, temperature, maxTokens, false))
      case Failure(e) => Failure(ApiError(e))
      case Success(response) =>
        if response.choices == [] then Failure(NoChoices)
        else
          Success(LlmResponse(
            response.choices[0].content, response.model,
            response.usage.promptTokens, response.usage.completionTokens, response.usage.totalTokens,
            response.choices[0].finishReason))
  }

  /** `chat`, under the retry decorator. */
  function Chat(deployment: string, userMessage: string, systemPrompt: Option<string>,
                temperature: real, maxTokens: int, contextDocuments: Option<seq<string>>,
                enc: Encoder, api: nat -> ChatApi): Result<LlmResponse, RetryError<ChatError>>
  {
    Retried((a: nat) => ChatOnce(deployment, userMessage, systemPrompt, temperature, maxTokens, contextDocuments, enc, api(a)))
  }

  /** A successful chat answers with the token counts of some attempt's
      usage, copied unchanged. */
  lemma ChatCopiesUsage(deployment: string, userMessage: string, systemPrompt: Option<string>,
                        temperature: real, maxTokens: int, contextDocuments: Option<seq<string>>,
                        enc: Encoder, api: nat -> ChatApi)
    requires Chat(deployment, userMessage, systemPrompt, temperature, maxTokens, contextDocuments, enc, api).Success?
    ensures var r := Chat(deployment, userMessage, systemPrompt, temperature, maxTokens, contextDocuments, enc, api).value;
      var request := ChatRequest(deployment, BuildMessages(userMessage, systemPrompt, contextDocuments, ChatStyle),
                                 temperature, maxTokens, false);
      exists a :: 0 <= a < MaxAttempts && api(a)(request).Success?
                  && api(a)(request).value.choices != []
                  && r.inputTokens == api(a)(request).value.usage.promptTokens
                  && r.outputTokens == api(a)(request).value.usage.completionTokens
                  && r.totalTokens == api(a)(request).value.usage.totalTokens
  {
    var run := (a: nat) => ChatOnce(deployment, userMessage, systemPrompt, temperature, maxTokens, contextDocuments, enc, api(a));
    var b :| 0 <= b < MaxAttempts && run(b) == Success(Retried(run).value);
    assert Success(Retried(run).value) == ChatOnce(deployment, userMessage, systemPrompt, temperature, maxTokens, contextDocuments, enc, api(b));
  }

  /** Messages the encoder rejects make every attempt fail the same way
      before any request, so `chat` raises `RetryError` whatever the
      endpoint would have answered. */
  lemma RejectedMessagesFailChat(deployment: string, userMessage: string, systemPrompt: Option<string>,
                                 temperature: real, maxTokens: int, contextDocuments: Option<seq<string>>,
                                 enc: Encoder, api: nat -> ChatApi, api': nat -> ChatApi)
    requires !AllEncode(BuildMessages(userMessage, systemPrompt, contextDocuments, ChatStyle), enc)
    ensures var r := Chat(deployment, userMessage, systemPrompt, temperature, maxTokens, contextDocuments, enc, api);
      && r.Failure? && r.error.last.TokenizerError?
      && r == Chat(deployment, userMessage, systemPrompt, temperature, maxTokens, contextDocuments, enc, api')
  {
    var msgs := BuildMessages(userMessage, systemPrompt, contextDocuments, ChatStyle);
    FirstRejectedMeaning(msgs, enc);
    var e := TokenizerError(FirstRejected(msgs, enc).value);
    var run := (a: nat) => ChatOnce(deployment, userMessage, systemPrompt, temperature, maxTokens, contextDocuments, enc, api(a));
    var run' := (a: nat) => ChatOnce(deployment, userMessage, systemPrompt, temperature, maxTokens, contextDocuments, enc, api'(a));
    forall a: nat
      ensures run(a) == Failure(e) && run'(a) == Failure(e)
    {
      assert run(a) == ChatOnce(deployment, userMessage, systemPrompt, temperature, maxTokens, contextDocuments, enc, api(a));
      assert run'(a) == ChatOnce(deployment, userMessage, systemPrompt, temperature, maxTokens, contextDocuments, enc, api'(a));
    }
    RetriedConstantFailure(run, e);
    RetriedConstantFailure(run', e);
  }

  /** A special-token string in the question, such as "<|endoftext|>",
      makes `chat` raise. */
  lemma SpecialTokenInQuestionFailsChat(deployment: string, userMessage: string, systemPrompt: Option<string>,
                                        temperature: real, maxTokens: int, contextDocuments: Option<seq<string>>,
                                        enc: Encoder, api: nat -> ChatApi, t: string, k: int)
    requires t in enc.specialTokens && IsAt(userMessage, t, k)
    ensures var r := Chat(deployment, userMessage, systemPrompt, temperature, maxTokens, contextDocuments, enc, api);
      r.Failure? && r.error.last.TokenizerError?
  {
    var msgs := BuildMessages(userMessage, systemPrompt, contextDocuments, ChatStyle);
    assert Field(msgs[|msgs| - 1], "content") == userMessage;
    SpecialTokenIsRejected(msgs, enc, |msgs| - 1, t, k);
    RejectedMessagesFailChat(deployment, userMessage, systemPrompt, temperature, maxTokens, contextDocuments, enc, api, api);
  }

  /** So does a special-token string in any retrieved document. */
  lemma SpecialTokenInContextFailsChat(deployment: string, userMessage: string, systemPrompt: Option<string>,
                                       temperature: real, maxTokens: int, contextDocuments: Option<seq<string>>,
                                       enc: Encoder, api: nat -> ChatApi, i: nat, t: string, k: int)
    requires contextDocuments.Some? && i < |contextDocuments.value|
    requires t in enc.specialTokens && IsAt(contextDocuments.value[i], t, k)
    ensures var r := Chat(deployment, userMessage, systemPrompt, temperature, maxTokens, contextDocuments, enc, api);
      r.Failure? && r.error.last.TokenizerError?
  {
    var msgs := BuildMessages(userMessage, systemPrompt, contextDocuments, ChatStyle);
    var doc := contextDocuments.value[i];
    ContextDocumentsAreQuoted(userMessage, systemPrompt, contextDocuments, ChatStyle, i);
    var j :| IsAt(Field(msgs[0], "content"), doc, j);
    IsAtWithin(Field(msgs[0], "content"), doc, t, j, k);
    SpecialTokenIsRejected(msgs, enc, 0, t, j + k);
    RejectedMessagesFailChat(deployment, userMessage, systemPrompt, temperature, maxTokens, contextDocuments, enc, api, api);
  }

  // ---------------------------------------------------------------------
  // Streaming

  /** A streamed chunk: its choices, each with an optional delta. */
  datatype StreamChunk = StreamChunk(deltas: seq<Option<string>>)

  /** The chunks `chat_stream` yields output for: those with at least one
      choice whose first delta has non-empty content. */
  function Deltas(chunks: seq<StreamChunk>): seq<string>
    decreases |chunks|
  {
    if chunks == [] then []
    else
      var c := chunks[|chunks| - 1];
      Deltas(chunks[..|chunks| - 1])
      + (if c.deltas != [] && Truthy(c.deltas[0]) then [c.deltas[0].value] else [])
  }

  /** The stream sent for `chat_stream`, and what it yields: the stream's
      error if opening it raises, otherwise the non-empty deltas. */
  method ChatStream(deployment: string, userMessage: string, systemPrompt: Option<string>,
                    temperature: real, maxTokens: int, contextDocuments: Option<seq<string>>,
                    open: ChatRequest -> Result<seq<StreamChunk>, string>)
    returns (r: Result<seq<string>, string>)
    ensures var request := ChatRequest(deployment, BuildMessages(userMessage, systemPrompt, contextDocuments, StreamStyle),
                                       temperature, maxTokens, true);
      match open(request)
      case Failure(e) => r == Failure(e)
      case Success(chunks) => r == Success(Deltas(chunks))
  {
    var messages := BuildMessages(userMessage, systemPrompt, contextDocuments, StreamStyle);
    var stream := open(ChatRequest(deployment, messages, temperature, maxTokens, true));
    if stream.Failure? {
      return Failure(stream.error);
    }
    var chunks := stream.value;
    var yielded: seq<string> := [];
    for k := 0 to |chunks|
      invariant yielded == Deltas(chunks[..k])
    {
      assert chunks[..k + 1][..k] == chunks[..k];
      var chunk := chunks[k];
      if chunk.deltas != [] && chunk.deltas[0].Some? && chunk.deltas[0].value != "" {
        yielded := yielded + [chunk.deltas[0].value];
      }
    }
    assert chunks[..|chunks|] == chunks;
    return Success(yielded);
  }

  lemma {:induction false} DeltasAppend(a: seq<StreamChunk>, b: seq<StreamChunk>)
    ensures Deltas(a + b) == Deltas(a) + Deltas(b)
    decreases |b|
  {
    if b == [] {
      assert a + b == a;
    } else {
      var init := b[..|b| - 1];
      assert (a + b)[..|a + b| - 1] == a + init;
      assert (a + b)[|a + b| - 1] == b[|b| - 1];
      DeltasAppend(a, init);
    }
  }

  /** Nothing empty is yielded, at most one string per chunk, and a
      chunk's non-empty first delta is yielded after everything before
      it. */
  lemma {:induction false} DeltasFacts(chunks: seq<StreamChunk>)
    ensures |Deltas(chunks)| <= |chunks|
    ensures forall i :: 0 <= i < |Deltas(chunks)| ==> Deltas(chunks)[i] != ""
    decreases |chunks|
  {
    if chunks != [] {
      DeltasFacts(chunks[..|chunks| - 1]);
    }
  }

  lemma DeltaIsYielded(chunks: seq<StreamChunk>, k: nat)
    requires k < |chunks| && chunks[k].deltas != [] && Truthy(chunks[k].deltas[0])
    ensures Deltas(chunks) == Deltas(chunks[..k]) + [chunks[k].deltas[0].value] + Deltas(chunks[k + 1..])
  {
    var head := chunks[..k + 1];
    assert head + chunks[k + 1..] == chunks;
    DeltasAppend(head, chunks[k + 1..]);
    DeltasOfPrefix(chunks, k);
  }

  lemma DeltasOfPrefix(chunks: seq<StreamChunk>, k: nat)
    requires k < |chunks| && chunks[k].deltas != [] && Truthy(chunks[k].deltas[0])
    ensures Deltas(chunks[..k + 1]) == Deltas(chunks[..k]) + [chunks[k].deltas[0].value]
  {
    var head := chunks[..k + 1];
    assert head[..|head| - 1] == chunks[..k];
    assert head[|head| - 1] == chunks[k];
  }
}
