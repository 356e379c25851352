/** One chat turn of the retrieval-augmented pipeline: load the cached history,
    retrieve four chunks for the query, build the augmented prompt, generate,
    log the interaction, then cache the extended history. The embedder, the
    vector search and the generative model are parameters; the cache and the
    log are the state the turn reads and writes. */
module ChatService {
  import opened Wrappers
  import opened Decimal
  import opened VectorService
  import opened CacheService
  import opened LogService

  const SystemInstruction :=
    "\nYou are an expert News Intelligence Bot. Your primary function is to answer questions \n"
    + "based **ONLY** on the context provided below from news articles.\n"
    + "If the context does not contain the answer, state clearly, \"I apologize, but the required information \n"
    + "is not available in the provided news articles.\" Do not use outside knowledge.\n"
    + "Format your answer clearly, referencing specific news sources or topics where possible.\n"

  const ContextSeparator := "\n---\n"
  const RetrievalLimit: nat := 4

  /** The fixed text of the prompt template around its three slots. */
  const PromptHead := "\n        SYSTEM INSTRUCTION: "
  const PromptBeforeContext := "\n        \n        --- NEWS CONTEXT ---\n        "
  const PromptBeforeQuery := "\n        --- USER QUERY ---\n        "
  const PromptTail := "\n    "

  /** The external calls of a chat turn. `generate` consumes the whole history and
      yields the texts of the streamed response chunks. */
  datatype Services = Services(embedQuery: string -> Result<Vector>,
                               search: SearchRequest -> Result<seq<Hit>>,
                               generate: History -> Result<seq<string>>)

  /** Which of the turn's cache and log calls fail. */
  datatype Faults = Faults(cacheRead: bool, logWrite: bool, cacheWrite: bool)

  datatype Stores = Stores(cache: Cache, log: LogTable)

  /** What one turn did: its result, the stores afterwards, and the history handed
      to the model (`None`: the model was never called). */
  datatype ChatRun = ChatRun(result: Result<string>, stores: Stores, modelInput: Option<History>)

  function UserTurn(text: string): Message {
    Message(User, [Part(text)])
  }

  function ModelTurn(text: string): Message {
    Message(Model, [Part(text)])
  }

  /** The cached history, or an empty one when nothing (readable) is cached. */
  function LoadHistory(c: Cache, sessionId: string, fault: bool): (h: History)
    ensures fault || Key(sessionId) !in c ==> h == []
    ensures !fault && Key(sessionId) in c ==> h == c[Key(sessionId)].history
  {
    GetContext(c, sessionId, fault).GetOr([])
  }

  /** `[Source ID: a, Chunk: c] text` */
  function RenderChunk(c: ChunkPayload): string {
    "[Source ID: " + c.articleId + ", Chunk: " + Dec(c.chunkId) + "] " + c.text
  }

  /** `Array.prototype.join`: the parts with `sep` between neighbours, none at the ends. */
  function Join(parts: seq<string>, sep: string): string
    decreases |parts|
  {
    if |parts| == 0 then ""
    else if |parts| == 1 then parts[0]
    else parts[0] + sep + Join(parts[1..], sep)
  }

  lemma {:induction false} JoinAppend(parts: seq<string>, last: string, sep: string)
    requires |parts| > 0
    ensures Join(parts + [last], sep) == Join(parts, sep) + sep + last
    decreases |parts|
  {
    if |parts| > 1 {
      assert (parts + [last])[1..] == parts[1..] + [last];
      JoinAppend(parts[1..], last, sep);
    } else {
      assert parts + [last] == [parts[0], last];
    }
  }

  function ContextText(chunks: seq<ChunkPayload>): string {
    Join(seq(|chunks|, i requires 0 <= i < |chunks| => RenderChunk(chunks[i])), ContextSeparator)
  }

  /** The context text, built chunk by chunk in retrieval order: empty for no chunks,
      one rendered chunk for one, and each further chunk preceded by one separator,
      so no separator ever trails. */
  lemma ContextTextShape(chunks: seq<ChunkPayload>, c: ChunkPayload)
    ensures ContextText([]) == ""
    ensures ContextText([c]) == RenderChunk(c)
    ensures |chunks| > 0 ==> ContextText(chunks + [c]) == ContextText(chunks) + ContextSeparator + RenderChunk(c)
  {
    if |chunks| > 0 {
      var rendered := seq(|chunks|, i requires 0 <= i < |chunks| => RenderChunk(chunks[i]));
      var more := chunks + [c];
      assert seq(|more|, i requires 0 <= i < |more| => RenderChunk(more[i])) == rendered + [RenderChunk(c)];
      JoinAppend(rendered, RenderChunk(c), ContextSeparator);
    }
  }

  function FullPrompt(contextText: string, userQuery: string): string {
    PromptHead + SystemInstruction + PromptBeforeContext + contextText + PromptBeforeQuery + userQuery + PromptTail
  }

  /** The augmented prompt carries the system instruction, the context text and the
      raw query, in that order, each at a position fixed by the parts before it. */
  lemma FullPromptParts(contextText: string, userQuery: string)
    ensures var p := FullPrompt(contextText, userQuery);
            var i0 := |PromptHead|;
            var i1 := i0 + |SystemInstruction| + |PromptBeforeContext|;
            var i2 := i1 + |contextText| + |PromptBeforeQuery|;
            |p| == i2 + |userQuery| + |PromptTail| &&
            p[i0..i0 + |SystemInstruction|] == SystemInstruction &&
            p[i1..i1 + |contextText|] == contextText &&
            p[i2..i2 + |userQuery|] == userQuery
  {
  }

  /** The response text: the streamed chunk texts concatenated in order. */
  function Concat(texts: seq<string>): string
    decreases |texts|
  {
    if |texts| == 0 then "" else texts[0] + Concat(texts[1..])
  }

  lemma {:induction false} ConcatAppend(texts: seq<string>, t: string)
    ensures Concat(texts + [t]) == Concat(texts) + t
    decreases |texts|
  {
    if |texts| > 0 {
      assert (texts + [t])[1..] == texts[1..] + [t];
      ConcatAppend(texts[1..], t);
    }
  }

  /** The `for await` loop that accumulates the streamed response. */
  method CollectStream(stream: seq<string>) returns (llmResponse: string)
    ensures llmResponse == Concat(stream)
    ensures |stream| == 1 ==> llmResponse == stream[0]
  {
    llmResponse := "";
    var i := 0;
    while i < |stream|
      invariant 0 <= i <= |stream|
      invariant llmResponse == Concat(stream[..i])
    {
      ConcatAppend(stream[..i], stream[i]);
      assert stream[..i + 1] == stream[..i] + [stream[i]];
      llmResponse := llmResponse + stream[i];
      i := i + 1;
    }
    assert stream[..i] == stream;
  }

  /** Embeds the query and asks the vector store for `RetrievalLimit` chunks. */
  function Retrieve(userQuery: string, svc: Services): (r: Result<seq<ChunkPayload>>)
    ensures svc.embedQuery(userQuery).Err? ==> r == Err(svc.embedQuery(userQuery).message)
    ensures svc.embedQuery(userQuery).Ok? ==>
              var request := SearchRequest(svc.embedQuery(userQuery).value, RetrievalLimit, true);
              (r.Ok? <==> svc.search(request).Ok?) &&
              (r.Ok? ==> |r.value| == |svc.search(request).value| &&
                         forall i :: 0 <= i < |r.value| ==> r.value[i] == svc.search(request).value[i].payload) &&
              (r.Err? ==> r.message == SearchFailed)
  {
    var queryVector :- svc.embedQuery(userQuery);
    SearchVectors(queryVector, Some(RetrievalLimit), svc.search)
  }

  /** The history handed to the model: the prior history and one new user turn. */
  function ModelInput(prior: History, retrieved: seq<ChunkPayload>, userQuery: string): History {
    prior + [UserTurn(FullPrompt(ContextText(retrieved), userQuery))]
  }

  /** One chat turn. `responseTime` is the measured duration and `now` the log
      server's clock; neither is computed here. */
  function ProcessChatQuery(st: Stores, sessionId: string, userQuery: string, svc: Services,
                            faults: Faults, responseTime: real, now: int): (run: ChatRun)
    ensures run.result.Err? ==> run.stores == st
    ensures run.modelInput.Some? ==>
              var prior := LoadHistory(st.cache, sessionId, faults.cacheRead);
              Retrieve(userQuery, svc).Ok? &&
              run.modelInput.value == prior + [UserTurn(FullPrompt(ContextText(Retrieve(userQuery, svc).value), userQuery))]
    ensures run.result.Ok? ==>
              && run.modelInput.Some?
              && svc.generate(run.modelInput.value).Ok?
              && run.result.value == Concat(svc.generate(run.modelInput.value).value)
              && run.stores.log == LogTable(st.log.rows + [LogRecord(st.log.nextId, sessionId, now, userQuery, run.result.value, responseTime)],
                                            st.log.nextId + 1)
              && run.stores.cache == SetContext(st.cache, sessionId, run.modelInput.value + [ModelTurn(run.result.value)], faults.cacheWrite)
    ensures faults.logWrite ==> run.result.Err? && run.stores == st
    ensures Retrieve(userQuery, svc).Ok? && !faults.logWrite &&
            svc.generate(ModelInput(LoadHistory(st.cache, sessionId, faults.cacheRead), Retrieve(userQuery, svc).value, userQuery)).Ok?
            ==> run.result.Ok?
    ensures Retrieve(userQuery, svc).Err? ==>
              run.result == Err(Retrieve(userQuery, svc).message) && run.modelInput.None?
    ensures Retrieve(userQuery, svc).Ok? ==>
              var contents := ModelInput(LoadHistory(st.cache, sessionId, faults.cacheRead), Retrieve(userQuery, svc).value, userQuery);
              && run.modelInput == Some(contents)
              && (svc.generate(contents).Err? ==> run.result == Err(svc.generate(contents).message))
              && (svc.generate(contents).Ok? && faults.logWrite ==> run.result == Err(SaveFailed))
  {
    var prior := LoadHistory(st.cache, sessionId, faults.cacheRead);
    match Retrieve(userQuery, svc)
    case Err(e) => ChatRun(Err(e), st, None)
    case Ok(retrieved) =>
      var contents := ModelInput(prior, retrieved, userQuery);
      match svc.generate(contents)
      case Err(e) => ChatRun(Err(e), st, Some(contents))
      case Ok(stream) =>
        var llmResponse := Concat(stream);
        match SaveInteraction(st.log, sessionId, userQuery, llmResponse, responseTime, now, faults.logWrite)
        case Err(e) => ChatRun(Err(e), st, Some(contents))
        case Ok((log', _)) =>
          var cache' := SetContext(st.cache, sessionId, contents + [ModelTurn(llmResponse)], faults.cacheWrite);
          ChatRun(Ok(llmResponse), Stores(cache', log'), Some(contents))
  }

  /** A successful turn whose cache write goes through leaves the session's cached
      history longer by exactly two turns: the prior history unchanged as a prefix,
      then the augmented prompt as a user turn, then the response as a model turn. */
  lemma TurnAppendsTwoMessages(st: Stores, sessionId: string, userQuery: string, svc: Services,
                               faults: Faults, responseTime: real, now: int)
    requires !faults.cacheWrite
    requires ProcessChatQuery(st, sessionId, userQuery, svc, faults, responseTime, now).result.Ok?
    ensures var run := ProcessChatQuery(st, sessionId, userQuery, svc, faults, responseTime, now);
            var prior := LoadHistory(st.cache, sessionId, faults.cacheRead);
            var cached := GetContext(run.stores.cache, sessionId, false);
            cached.Some? && |cached.value| == |prior| + 2 && cached.value[..|prior|] == prior &&
            cached.value[|prior|] == UserTurn(FullPrompt(ContextText(Retrieve(userQuery, svc).value), userQuery)) &&
            cached.value[|prior| + 1] == ModelTurn(run.result.value)
  {
  }

  /** Continuity: when a first turn succeeds and is cached, and fewer than
      `TtlSeconds` pass, the next turn on the session hands the model the first
      turn's whole cached history followed by the new prompt. */
  lemma HistoryContinuity(st: Stores, sessionId: string, q1: string, q2: string, svc: Services,
                          f1: Faults, f2: Faults, rt1: real, rt2: real, now1: int, now2: int, seconds: nat)
    requires !f1.cacheWrite && !f2.cacheRead && seconds < TtlSeconds
    requires ProcessChatQuery(st, sessionId, q1, svc, f1, rt1, now1).result.Ok?
    ensures var run1 := ProcessChatQuery(st, sessionId, q1, svc, f1, rt1, now1);
            var between := Stores(Elapse(run1.stores.cache, seconds), run1.stores.log);
            var run2 := ProcessChatQuery(between, sessionId, q2, svc, f2, rt2, now2);
            run2.modelInput.Some? ==>
              run2.modelInput.value == run1.modelInput.value + [ModelTurn(run1.result.value)]
                                       + [UserTurn(FullPrompt(ContextText(Retrieve(q2, svc).value), q2))]
  {
  }

  /** A session with nothing readable in the cache starts from an empty history:
      the model sees exactly one message, the augmented prompt. */
  lemma ColdStart(st: Stores, sessionId: string, userQuery: string, svc: Services,
                  faults: Faults, responseTime: real, now: int)
    requires faults.cacheRead || Key(sessionId) !in st.cache
    ensures var run := ProcessChatQuery(st, sessionId, userQuery, svc, faults, responseTime, now);
            run.modelInput.Some? ==>
              run.modelInput.value == [UserTurn(FullPrompt(ContextText(Retrieve(userQuery, svc).value), userQuery))]
  {
  }
}
