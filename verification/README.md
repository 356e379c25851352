# RAG news-chat orchestration, modelled in Dafny

This project models the orchestration core of a retrieval-augmented-generation
news chat service. The service ingests a corpus of news articles. It splits each
article into chunks, embeds the chunks, and upserts one vector point per chunk
into a vector database. It then answers chat queries. For each query it loads the
session's cached conversation, retrieves four chunks, and builds an augmented
prompt. It asks a generative model, logs the interaction in a SQL table, and
caches the extended conversation.

The external systems are parameters of the model:

- The text splitter, the embedding API, the vector database and the generative
  model are function-typed parameters (`Splitter`, `Embedder`, `Services`,
  `upsert`, `search`).
- A failing Redis or PostgreSQL call is a boolean `fault` parameter.
- The Redis cache is a map from key to entry with a remaining time-to-live.
  Time passes only through the explicit `CacheService.Elapse` transition.
- The `interaction_logs` table is a sequence of rows plus its next serial id.
- The vector collection, used only to state what an accepted batch does, is a map
  from point id to the stored vector and payload.

Runs record what they handed to the external systems. `IngestionRun.embedded` and
`IngestionRun.stored` record what went to the embedder and the database, and
`ChatRun.modelInput` records what went to the model. `None` in these fields means
that service was never called.

Files, one module each: `wrappers.dfy` (Option/Result), `decimal.dfy` (rendering
of chunk numbers), `point_id.dfy` (the composite point id),
`vector_service.dfy`, `ingestion_service.dfy`, `cache_service.dfy`,
`log_service.dfy`, `chat_service.dfy` and `chat_controller.dfy`.

Behaviour a reader might not expect, modelled as the code does it:

- The cached user turn is the augmented prompt, not the raw query, although the
  comment at `src/services/ChatService.ts:79` speaks of storing the user query.
- Chat validation (`src/controllers/ChatController.ts:23`) rejects empty strings
  as well as missing fields, because it tests for falsy values; the route's
  description at `src/routes/chatRoutes.ts:57-65` mentions only missing fields.
- Chat pipeline errors are not replaced by one generic error. The embedder's and
  the model's own messages reach the 500 response's `details` field
  (`src/controllers/ChatController.ts:35-41`).
- The empty-corpus check (`src/services/IngestionService.ts:27-29`) happens before
  splitting, so it returns 0 without calling anything. A non-empty corpus whose
  articles all split into nothing still calls the embedder and the database,
  with empty lists.

## Model

| member | source | states |
|---|---|---|
| Decimal.Dec | src/services/IngestionService.ts:74 | a chunk number renders as a non-empty string of decimal digits with no leading zero; it starts with `0` only for 0 |
| Decimal.ParseDecOfDec | src/services/IngestionService.ts:74 | reading the rendered chunk number back gives the number: the rendering loses nothing |
| Decimal.DecInjective | src/services/IngestionService.ts:74 | two chunk numbers render alike exactly when they are equal |
| PointId.SplitComposeRoundTrip | src/services/IngestionService.ts:72-74 | splitting a composite id at its last `_` gives back the article id and chunk number it was built from, even when the article id contains `_` |
| PointId.ComposeIdInjective | src/services/IngestionService.ts:72-74 | two composite ids are equal exactly when they name the same article id and chunk number |
| VectorService.ToBatchPayload | src/services/VectorService.ts:34 | an undefined payload becomes null; a defined payload is passed through unchanged |
| VectorService.BuildBatch | src/services/VectorService.ts:31-35 | the ids, vectors and payloads arrays each have one entry per point, and entry i comes from point i |
| VectorService.BatchRoundTrip | src/services/VectorService.ts:31-35 | zipping the three arrays back gives the original points, order and absent payloads included |
| VectorService.StoreVectors | src/services/VectorService.ts:27-48 | storage succeeds exactly when the upsert replies with status "completed" or "acknowledged"; a bad status and a thrown call both fail with "Vector storage failed." |
| VectorService.SearchRequestFor | src/services/VectorService.ts:56-63 | the search asks for exactly k neighbours, 4 when k is not given, with payloads |
| VectorService.SearchVectors | src/services/VectorService.ts:56-72 | search yields one payload per hit in the database's order; any failure becomes "Vector search failed." |
| VectorService.ApplyBatchStoresEveryPoint | src/services/VectorService.ts:29-36 | when a batch's ids are pairwise distinct, every point lands under its own id and ids outside the batch are untouched |
| IngestionService.ArticleChunks | src/services/IngestionService.ts:40-46 | an article's chunks follow split order and carry chunk numbers 0..k-1 |
| IngestionService.ChunkCorpus | src/services/IngestionService.ts:32-48 | the chunking loop builds the flattened chunk list, and its counter ends equal to that list's length |
| IngestionService.FlattenLength | src/services/IngestionService.ts:36-48 | the flattened list's length is the sum of the per-article split counts |
| IngestionService.FlattenPosition | src/services/IngestionService.ts:36-46 | piece i of article k sits at offset(k)+i with chunk number i, so numbering restarts at 0 for every article |
| IngestionService.FlattenOrigin | src/services/IngestionService.ts:36-46 | every flattened chunk is piece i of some article k, found at offset(k)+i |
| IngestionService.ChunkTexts | src/services/IngestionService.ts:51 | the embedder receives one text per chunk, in chunk order |
| IngestionService.BuildPoints | src/services/IngestionService.ts:64-78 | there is one point per chunk, in order; point i carries embedding i, its chunk's payload, and an id that splits back into that chunk's article id and chunk number |
| IngestionService.RunIngestion | src/services/IngestionService.ts:21-90 | an empty corpus returns 0 and calls nothing; otherwise all chunk texts are embedded; a count-matching embedding always leads to storing the points built from it, and points are stored only then; the run succeeds exactly when that upsert is accepted, and returns the chunk count, and every failure is "Ingestion pipeline failed." |
| IngestionService.MismatchStoresNothing | src/services/IngestionService.ts:58-61 | an embedding count different from the chunk count fails the run, and nothing is sent to the database |
| IngestionService.FlattenKeysDistinct | src/services/IngestionService.ts:32-48 | with distinct ids among articles that produce chunks, no two flattened chunks share article id and chunk number |
| IngestionService.DuplicateArticleIdCollides | src/services/IngestionService.ts:32-48 | two chunk-producing articles with the same id give two distinct positions with the same article id and chunk number |
| IngestionService.PointIdsUnique | src/services/IngestionService.ts:72-74 | the batch's point ids are pairwise distinct if and only if no two chunk-producing articles share an id |
| IngestionService.IngestedChunksAddressable | src/services/IngestionService.ts:64-81 | after a successful run over distinct article ids, applying the stored batch makes each piece retrievable under its composite id, with its own embedding and payload |
| CacheService.KeyInjective | src/services/CacheService.ts:15 | the key `chat:` + session id is different for different sessions |
| CacheService.GetContext | src/services/CacheService.ts:14-23 | a missing key and a read error both yield null; otherwise the read returns the stored history |
| CacheService.SetContext | src/services/CacheService.ts:30-40 | a write stores the history with a fresh 3600-second lifetime; a write error is swallowed and leaves the cache as it was; other keys never change |
| CacheService.ClearContext | src/services/CacheService.ts:45-54 | a clear removes the key and returns 1 if it existed, else 0, leaving other keys alone; a failure is rethrown as "Redis deletion failed." |
| CacheService.Elapse | src/services/CacheService.ts:34-36 | entries outlive an elapsed span exactly when their remaining lifetime exceeds it, and survivors age by that span |
| CacheService.ElapseAdditive | src/services/CacheService.ts:34-36 | time passing in two steps has the same effect as passing in one |
| CacheService.SetThenGet | src/services/CacheService.ts:14-40 | a written history reads back unchanged before 3600 seconds pass, and reads as absent from then on |
| CacheService.SetIsolation | src/services/CacheService.ts:30-36 | writing one session never changes what another session reads |
| CacheService.ClearThenGet | src/services/CacheService.ts:45-49 | after a successful clear, the session reads as absent |
| LogService.SaveInteraction | src/services/LogService.ts:10-31 | a save appends exactly one row holding the given session, query, response and time, stamped with the server time, returns it, and keeps earlier rows; a failure is "Database logging failed." |
| LogService.Select | src/services/LogService.ts:37-41 | the filter keeps exactly the rows on the chosen side of the session test, with their multiplicities |
| LogService.InsertByTime | src/services/LogService.ts:41 | inserting into a timestamp-ordered list keeps it ordered and adds exactly that row |
| LogService.SortByTime | src/services/LogService.ts:41 | the ordering step returns a permutation of its input, sorted by timestamp |
| LogService.GetHistory | src/services/LogService.ts:36-50 | history is exactly the session's rows, each as often as in the table, in non-decreasing timestamp order; a failure is its own fixed message |
| LogService.SelectPartition | src/services/LogService.ts:56-59 | the deleted rows and the kept rows together account for every row |
| LogService.ClearHistory | src/services/LogService.ts:55-64 | a delete removes every row of the session and keeps every other row with its multiplicity; it returns the number of the session's rows, or 0 when the driver reports no row count; a failure is its own fixed message |
| LogService.ClearThenHistoryEmpty | src/services/LogService.ts:36-64 | after a session's rows are deleted, its history is empty |
| LogService.SelectOther | src/services/LogService.ts:56 | filtering out one session and then selecting another gives that other session's rows unchanged |
| LogService.ClearKeepsOtherHistories | src/services/LogService.ts:36-64 | deleting one session's rows leaves every other session's history as it was |
| LogService.SavedRecordInHistory | src/services/LogService.ts:10-50 | a saved interaction appears in its session's history |
| ChatService.LoadHistory | src/services/ChatService.ts:35 | a missing or unreadable cache entry means the turn starts from an empty history |
| ChatService.JoinAppend | src/services/ChatService.ts:43 | joining one more part adds exactly one separator and that part at the end |
| ChatService.ContextTextShape | src/services/ChatService.ts:43 | the context text renders the chunks in retrieval order, one separator between neighbours and none trailing |
| ChatService.FullPromptParts | src/services/ChatService.ts:46-53 | the augmented prompt holds the system instruction, the context text and the raw query, in that order, at fixed positions |
| ChatService.ConcatAppend | src/services/ChatService.ts:64-68 | one more streamed text extends the response by exactly that text |
| ChatService.CollectStream | src/services/ChatService.ts:64-68 | the accumulation loop yields the in-order concatenation of the streamed texts |
| ChatService.Retrieve | src/services/ChatService.ts:38-40 | retrieval embeds the query and always asks for 4 chunks with payloads, returning their payloads in order; the embedder's error passes through, and a failed search is "Vector search failed." |
| ChatService.ProcessChatQuery | src/services/ChatService.ts:31-87 | the model receives the prior history plus one user turn holding the augmented prompt; the response concatenates the stream; the log gets the raw query and that response; the cache gets the history plus the model turn; once retrieval succeeds the model is always called with that input; a failed retrieval or generation fails the turn with that call's own message, a failed log write with "Database logging failed."; any failure writes nothing |
| ChatService.TurnAppendsTwoMessages | src/services/ChatService.ts:56-84 | a successful, cached turn grows the cached history by exactly two turns, the augmented prompt then the response, and keeps the prior history as a prefix |
| ChatService.HistoryContinuity | src/services/ChatService.ts:35-84 | within the time-to-live, the next turn on a session hands the model the previous turn's whole cached history followed by the new prompt |
| ChatService.ColdStart | src/services/ChatService.ts:35-56 | with nothing readable cached, the model sees exactly one message: the augmented prompt |
| ChatController.Chat | src/controllers/ChatController.ts:19-43 | a missing or empty field yields 400 and touches nothing; success yields 200 echoing the session id with the response; a pipeline failure yields 500 with its message in details |
| ChatController.InvalidRequestTouchesNothing | src/controllers/ChatController.ts:23-26 | an invalid request's outcome does not depend on any service or fault: the pipeline is never invoked |
| ChatController.GetSessionHistory | src/controllers/ChatController.ts:48-57 | history fetch yields 200 with exactly the session's log rows, each as often as in the table, in timestamp order, or 500 on failure |
| ChatController.DeleteSessionHistory | src/controllers/ChatController.ts:62-78 | both deletions take effect unless they themselves fail; when neither fails the answer is 200 with the message reporting the session's SQL row count and the Redis key count; either failure yields 500 |
| ChatController.DeleteThenHistoryEmpty | src/controllers/ChatController.ts:62-78 | a successful session delete followed by a history fetch gives 200 with an empty list |
| ChatController.ClearThenChatStartsEmpty | src/controllers/ChatController.ts:65-68 | after a successful session delete, the next chat turn starts from an empty history |
| ChatController.PartialClearIsKept | src/controllers/ChatController.ts:65-77 | when exactly one deletion fails the answer is 500, and the other store's deletion is not undone |

## Left out

- Text splitting: the splitter is a library. It is a `Splitter` parameter, taken to be total. Chunk-size and overlap bounds are not stated, because this code does not implement them. A splitter failure is not modelled either; in the source it would escape the `try` block unwrapped.
- Embedding, generation, vector search and upsert: these are remote services. They are parameters returning `Result`. Vectors are opaque sequences, with no similarity or ranking.
- ApplyBatchStoresEveryPoint: the database's upsert is taken to insert or overwrite by id, entry by entry. That is the database's semantics, not code in this repository.
- Point ids: the source type also allows numbers, but ingestion builds only strings. The database's own rules on id format are not modelled.
- Search hits: each hit is taken to carry a chunk payload. The source casts `hit.payload` unchecked.
- Streamed response chunks: each chunk is taken to carry a text.
- Time: the measured response time and the log server's clock are parameters, with no clock and no division. The parameter comment in `src/services/LogService.ts:14` says milliseconds while the caller passes seconds; this is not modelled.
- Serialisation: JSON stringify and parse are taken to round-trip message lists exactly.
- Concurrency: the two deletions of a session clear run concurrently. They are modelled as two independent clears that both take effect. Interleaved chat turns on one session, with a lost update on the cache, are not modelled.
- Request bodies: fields are optional strings. Non-string values, such as numbers or booleans, are not modelled.
- Search limit: `k` is a natural number. Negative or fractional limits are not modelled.
- GetHistory: rows with equal timestamps come back in table order. The database promises no order for them, and the contract states only that the result is sorted and is a permutation of the session's rows.
- HTTP routing, API documentation, the Express app and its error handlers, startup, rate limiting, client configuration, the ingestion controller and the mock article data: these are plumbing. The corpus is a parameter.
