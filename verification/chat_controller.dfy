/** The chat endpoints' rules: request validation, mapping of outcomes to status
    codes and bodies, and the two-store session clear. Routing and the HTTP
    framework are not modelled; a handler here returns the response it sends. */
module ChatController {
  import opened Wrappers
  import opened Decimal
  import opened CacheService
  import opened LogService
  import opened ChatService

  /** The JSON bodies the handlers send. */
  datatype Body =
    | ChatReply(sessionId: string, response: string)
    | HistoryReply(sessionId: string, history: seq<LogRecord>)
    | Success(message: string)
    | Failure(message: string, details: Option<string>)

  datatype HttpResponse = HttpResponse(status: nat, body: Body)

  /** A chat request body; a field may be missing. */
  datatype ChatRequest = ChatRequest(sessionId: Option<string>, query: Option<string>)

  const MissingFields := "Missing required fields: sessionId and query."
  const PipelineError := "Internal Server Error during RAG pipeline execution."
  const HistoryError := "Failed to retrieve history."
  const ClearError := "Failed to clear session history."

  /** JavaScript falsiness of an optional string field: missing, or empty. */
  predicate Falsy(field: Option<string>) {
    field.None? || field.value == ""
  }

  predicate ValidRequest(req: ChatRequest) {
    !Falsy(req.sessionId) && !Falsy(req.query)
  }

  datatype ChatExchange = ChatExchange(response: HttpResponse, stores: Stores)

  /** `POST /chat` */
  function Chat(st: Stores, req: ChatRequest, svc: Services, faults: Faults, responseTime: real, now: int)
    : (x: ChatExchange)
    ensures !ValidRequest(req) ==> x == ChatExchange(HttpResponse(400, Failure(MissingFields, None)), st)
    ensures ValidRequest(req) ==>
              var run := ProcessChatQuery(st, req.sessionId.value, req.query.value, svc, faults, responseTime, now);
              && x.stores == run.stores
              && (run.result.Ok? ==> x.response == HttpResponse(200, ChatReply(req.sessionId.value, run.result.value)))
              && (run.result.Err? ==> x.response == HttpResponse(500, Failure(PipelineError, Some(run.result.message))))
    ensures x.response.status in {200, 400, 500}
  {
    if !ValidRequest(req) then ChatExchange(HttpResponse(400, Failure(MissingFields, None)), st)
    else
      var sessionId := req.sessionId.value;
      var run := ProcessChatQuery(st, sessionId, req.query.value, svc, faults, responseTime, now);
      match run.result
      case Ok(text) => ChatExchange(HttpResponse(200, ChatReply(sessionId, text)), run.stores)
      case Err(message) => ChatExchange(HttpResponse(500, Failure(PipelineError, Some(message))), run.stores)
  }

  /** An invalid request never reaches the pipeline: its answer and the stores
      afterwards are the same whatever the external services and faults would do. */
  lemma InvalidRequestTouchesNothing(st: Stores, req: ChatRequest, svc1: Services, svc2: Services,
                                     f1: Faults, f2: Faults, rt1: real, rt2: real, now1: int, now2: int)
    requires !ValidRequest(req)
    ensures Chat(st, req, svc1, f1, rt1, now1) == Chat(st, req, svc2, f2, rt2, now2)
    ensures Chat(st, req, svc1, f1, rt1, now1).stores == st
  {
  }

  /** `GET /history/:sessionId` */
  function GetSessionHistory(log: LogTable, sessionId: string, fault: bool): (resp: HttpResponse)
    ensures fault <==> resp.status == 500
    ensures fault ==> resp.body == Failure(HistoryError, None)
    ensures !fault ==> resp.status == 200 && resp.body.HistoryReply? && resp.body.sessionId == sessionId
    ensures !fault ==> SortedByTime(resp.body.history)
    ensures !fault ==> forall r :: r in resp.body.history <==> r in log.rows && r.sessionId == sessionId
    ensures !fault ==> forall r :: multiset(resp.body.history)[r] == if r.sessionId == sessionId then multiset(log.rows)[r] else 0
  {
    match GetHistory(log, sessionId, fault)
    case Ok(history) => HttpResponse(200, HistoryReply(sessionId, history))
    case Err(_) => HttpResponse(500, Failure(HistoryError, None))
  }

  function ClearedMessage(sessionId: string, sqlCount: nat, redisCount: nat): string {
    "Session " + sessionId + " cleared. Deleted " + Dec(sqlCount) + " SQL logs and " + Dec(redisCount) + " Redis keys."
  }

  /** Which of the two deletions fail, and whether the database reports a row count. */
  datatype ClearFaults = ClearFaults(log: bool, cache: bool, rowCountReported: bool)

  /** `DELETE /history/:sessionId`: both deletions are issued together and both take
      effect unless they themselves fail; either failure makes the answer 500, and
      the other store is not restored. */
  function DeleteSessionHistory(st: Stores, sessionId: string, faults: ClearFaults): (x: ChatExchange)
    ensures faults.log || faults.cache <==> x.response.status == 500
    ensures x.response.status == 500 ==> x.response.body == Failure(ClearError, None)
    ensures !faults.log && !faults.cache ==>
              var sqlCount := if faults.rowCountReported then |Select(st.log.rows, sessionId, true)| else 0;
              var redisCount := if Key(sessionId) in st.cache then 1 else 0;
              x.response == HttpResponse(200, Success(ClearedMessage(sessionId, sqlCount, redisCount)))
    ensures faults.log ==> x.stores.log == st.log
    ensures !faults.log ==> x.stores.log == ClearHistory(st.log, sessionId, false, faults.rowCountReported).value.0
    ensures faults.cache ==> x.stores.cache == st.cache
    ensures !faults.cache ==> x.stores.cache == ClearContext(st.cache, sessionId, false).value.0
    ensures x.response.status == 200 ==>
              var sqlCount := if faults.rowCountReported then |st.log.rows| - |x.stores.log.rows| else 0;
              var redisCount := if Key(sessionId) in st.cache then 1 else 0;
              x.response.body == Success(ClearedMessage(sessionId, sqlCount, redisCount))
  {
    var sql := ClearHistory(st.log, sessionId, faults.log, faults.rowCountReported);
    var redis := ClearContext(st.cache, sessionId, faults.cache);
    var log' := if sql.Ok? then sql.value.0 else st.log;
    var cache' := if redis.Ok? then redis.value.0 else st.cache;
    if sql.Ok? && redis.Ok? then
      ChatExchange(HttpResponse(200, Success(ClearedMessage(sessionId, sql.value.1, redis.value.1))), Stores(cache', log'))
    else
      ChatExchange(HttpResponse(500, Failure(ClearError, None)), Stores(cache', log'))
  }

  /** Deleting a session and then fetching its history yields an empty list. */
  lemma DeleteThenHistoryEmpty(st: Stores, sessionId: string, faults: ClearFaults)
    requires DeleteSessionHistory(st, sessionId, faults).response.status == 200
    ensures GetSessionHistory(DeleteSessionHistory(st, sessionId, faults).stores.log, sessionId, false)
            == HttpResponse(200, HistoryReply(sessionId, []))
  {
    ClearThenHistoryEmpty(st.log, sessionId, faults.rowCountReported);
  }

  /** After a cleared session, the next chat turn starts from an empty history. */
  lemma ClearThenChatStartsEmpty(st: Stores, sessionId: string, faults: ClearFaults, userQuery: string,
                                 svc: Services, chatFaults: Faults, responseTime: real, now: int)
    requires DeleteSessionHistory(st, sessionId, faults).response.status == 200
    ensures var after := DeleteSessionHistory(st, sessionId, faults).stores;
            var run := ProcessChatQuery(after, sessionId, userQuery, svc, chatFaults, responseTime, now);
            run.modelInput.Some? ==>
              run.modelInput.value == [UserTurn(FullPrompt(ContextText(Retrieve(userQuery, svc).value), userQuery))]
  {
    var after := DeleteSessionHistory(st, sessionId, faults).stores;
    ColdStart(after, sessionId, userQuery, svc, chatFaults, responseTime, now);
  }

  /** No compensation: when exactly one deletion fails, the other store has still
      lost the session while the answer reports failure. */
  lemma PartialClearIsKept(st: Stores, sessionId: string, faults: ClearFaults)
    requires faults.log != faults.cache
    ensures var x := DeleteSessionHistory(st, sessionId, faults);
            x.response.status == 500 &&
            (faults.log ==> x.stores.log == st.log && Key(sessionId) !in x.stores.cache) &&
            (faults.cache ==> x.stores.cache == st.cache &&
                              forall r :: r in x.stores.log.rows ==> r.sessionId != sessionId)
  {
  }
}
