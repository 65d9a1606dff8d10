/**
 * The `POST` chat handler (route.ts, lines 7-56): extract the query, retrieve
 * context when the query is not blank, build the system instruction, convert
 * the whole history and hand both to the generator.
 *
 * The embedder, the vector index and the message converter are parameters; a
 * call that throws is an `Err` result, and the handler lets it escape.
 */
module ChatHandler {
  import opened Wrappers
  import opened JsStrings
  import opened QueryExtraction
  import opened ContextAssembly
  import opened Prompt

  /** A query embedding: floats the handler passes on without reading. */
  datatype Embedding = Embedding(components: seq<real>)

  /** The argument of `embed`: the embedding model and the text to embed. */
  datatype EmbedRequest = EmbedRequest(model: string, value: string)

  /** An index query: index name, namespace, vector, `topK` and `includeMetadata`. */
  datatype IndexQuery = IndexQuery(indexName: string, namespace: string, vector: Embedding, topK: nat, includeMetadata: bool)

  /** What an external service threw. */
  datatype Fault = Fault(description: string)

  /** The arguments of `streamText`: model, system instruction and converted history. */
  datatype Generation<M> = Generation(model: string, system: string, messages: seq<M>)

  /** One call the handler makes to an external service, with its argument. */
  datatype Call<M> =
    | EmbedCall(request: EmbedRequest)
    | IndexCall(query: IndexQuery)
    | ConvertCall(history: seq<Message>)
    | GenerateCall(generation: Generation<M>)

  // The contracts below repeat these values as literals on purpose, so that the
  // proofs tie the constants the body uses to the values the handler sends.
  const EmbeddingModel := "text-embedding-3-small"
  const IndexName := "pdf-rag-project"
  const Namespace := "pdf-rag"
  const TopK: nat := 3
  const ChatModel := "gpt-4-turbo"

  /**
   * The calls made and the outcome once the context is known: the whole
   * history is converted, and if that succeeds the generator receives the
   * template filled with `context` and the converted history.
   */
  predicate GeneratesWith<M(==)>(history: seq<Message>, convert: seq<Message> -> Result<seq<M>, Fault>, context: string,
                             calls: seq<Call<M>>, response: Result<Generation<M>, Fault>)
  {
    var converted := convert(history);
    if converted.Ok? then
      var g := Generation(ChatModel, SystemPrompt(context), converted.value);
      calls == [ConvertCall(history), GenerateCall(g)] && response == Ok(g)
    else
      calls == [ConvertCall(history)] && response == Err(converted.error)
  }

  /**
   * Query extraction as the handler performs it (lines 12-21): start from
   * `''`, then take the parts when present, else a string `content`.
   */
  method ReadQuery(lastMessage: Message) returns (inputQuery: string)
    ensures inputQuery == ExtractQuery(lastMessage)
    ensures lastMessage.parts.None? && lastMessage.content.None? ==> inputQuery == ""
  {
    inputQuery := "";
    if lastMessage.parts.Some? {
      inputQuery := QueryFromParts(lastMessage.parts.value);
    } else if lastMessage.content.Some? {
      inputQuery := lastMessage.content.value;
    }
  }

  /**
   * The retrieval gate (lines 23-42): when the trimmed query is non-empty,
   * embed the untrimmed query, send the embedding to the fixed index query and
   * assemble the matches; otherwise the context stays `''`. A failing call
   * ends the gate with its error.
   */
  method RetrieveContext<M>(inputQuery: string,
                            embed: EmbedRequest -> Result<Embedding, Fault>,
                            query: IndexQuery -> Result<seq<Match>, Fault>)
    returns (context: Result<string, Fault>, calls: seq<Call<M>>)
    ensures |Trim(inputQuery)| == 0 ==> context == Ok("") && calls == []
    ensures var er := EmbedRequest("text-embedding-3-small", inputQuery);
      |Trim(inputQuery)| > 0 ==> |calls| > 0 && calls[0] == EmbedCall(er)
    ensures var er := EmbedRequest("text-embedding-3-small", inputQuery);
      |Trim(inputQuery)| > 0 && embed(er).Err? ==> calls == [EmbedCall(er)] && context == Err(embed(er).error)
    ensures var er := EmbedRequest("text-embedding-3-small", inputQuery);
      |Trim(inputQuery)| > 0 && embed(er).Ok? ==>
        var iq := IndexQuery("pdf-rag-project", "pdf-rag", embed(er).value, 3, true);
        calls == [EmbedCall(er), IndexCall(iq)]
        && context == (if query(iq).Ok? then Ok(AssembleContext(query(iq).value)) else Err(query(iq).error))
  {
    calls := [];
    var contextText := "";
    if |Trim(inputQuery)| > 0 {
      var request := EmbedRequest(EmbeddingModel, inputQuery);
      calls := calls + [EmbedCall(request)];
      var embedded := embed(request);
      if embedded.Err? {
        context := Err(embedded.error);
        return;
      }

      var indexQuery := IndexQuery(IndexName, Namespace, embedded.value, TopK, true);
      calls := calls + [IndexCall(indexQuery)];
      var queryResponse := query(indexQuery);
      if queryResponse.Err? {
        context := Err(queryResponse.error);
        return;
      }

      contextText := AssembleContext(queryResponse.value);
    }
    context := Ok(contextText);
  }

  /**
   * Conversion and generation (lines 44-53): the whole history is converted,
   * then the generator is started with the template filled with `context`.
   */
  method Generate<M(==)>(messages: seq<Message>, context: string,
                         convert: seq<Message> -> Result<seq<M>, Fault>)
    returns (response: Result<Generation<M>, Fault>, calls: seq<Call<M>>)
    ensures GeneratesWith(messages, convert, context, calls, response)
    ensures response.Ok? ==> ContextOf(response.value.system) == Some(context)
  {
    calls := [ConvertCall(messages)];
    var modelMessages := convert(messages);
    if modelMessages.Err? {
      response := Err(modelMessages.error);
      return;
    }

    ContextRoundTrip(context);
    var generation := Generation(ChatModel, SystemPrompt(context), modelMessages.value);
    calls := calls + [GenerateCall(generation)];
    response := Ok(generation);
  }

  /**
   * Handles one chat request. `response` is what the generator is started
   * with, or the error that escapes; `calls` lists the external calls in the
   * order they are made.
   */
  method Post<M(==)>(messages: seq<Message>,
                     embed: EmbedRequest -> Result<Embedding, Fault>,
                     query: IndexQuery -> Result<seq<Match>, Fault>,
                     convert: seq<Message> -> Result<seq<M>, Fault>)
    returns (response: Result<Generation<M>, Fault>, calls: seq<Call<M>>)
    requires |messages| > 0
    // an empty or whitespace-only query: no embedding, no index query, empty context
    ensures |Trim(LastQuery(messages))| == 0 ==> GeneratesWith(messages, convert, "", calls, response)
    // otherwise the untrimmed query is embedded first
    ensures |Trim(LastQuery(messages))| > 0 <==> |calls| > 0 && calls[0] == EmbedCall(EmbedRequest("text-embedding-3-small", LastQuery(messages)))
    // a failing embedder ends the request with its error
    ensures var er := EmbedRequest("text-embedding-3-small", LastQuery(messages));
      |Trim(LastQuery(messages))| > 0 && embed(er).Err? ==> calls == [EmbedCall(er)] && response == Err(embed(er).error)
    // the embedding is sent to the fixed index query; its matches make the context
    ensures var er := EmbedRequest("text-embedding-3-small", LastQuery(messages));
      |Trim(LastQuery(messages))| > 0 && embed(er).Ok? ==>
        var iq := IndexQuery("pdf-rag-project", "pdf-rag", embed(er).value, 3, true);
        |calls| >= 2 && calls[..2] == [EmbedCall(er), IndexCall(iq)]
        && (query(iq).Err? ==> |calls| == 2 && response == Err(query(iq).error))
        && (query(iq).Ok? ==> GeneratesWith(messages, convert, AssembleContext(query(iq).value), calls[2..], response))
    // the generator receives the conversion of the entire history, and is called last
    ensures response.Ok? ==>
      && convert(messages).Ok? && response.value.messages == convert(messages).value
      && |calls| >= 2 && calls[|calls| - 2] == ConvertCall(messages) && calls[|calls| - 1] == GenerateCall(response.value)
    // the instruction is the template filled with the context, which is empty for a blank query
    ensures response.Ok? ==> ContextOf(response.value.system).Some?
    ensures response.Ok? && |Trim(LastQuery(messages))| == 0 ==> ContextOf(response.value.system) == Some("")
  {
    var inputQuery := ReadQuery(messages[|messages| - 1]);
    var contextText, retrievalCalls := RetrieveContext(inputQuery, embed, query);
    if contextText.Err? {
      response, calls := Err(contextText.error), retrievalCalls;
    } else {
      var generationCalls;
      response, generationCalls := Generate(messages, contextText.value, convert);
      calls := retrievalCalls + generationCalls;
      assert calls[|retrievalCalls|..] == generationCalls;
    }
  }
}
