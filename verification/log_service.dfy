/** The durable interaction log. The `interaction_logs` table is modelled as a
    sequence of rows in insertion order plus the next value of its serial id;
    the three SQL statements become operations on it, and each statement's
    failure is a `fault` parameter. */
module LogService {
  import opened Wrappers

  /** One row; `timestamp` is the server's clock when the row was inserted. */
  datatype LogRecord = LogRecord(id: nat, sessionId: string, timestamp: int,
                                 userQuery: string, llmResponse: string, responseTime: real)

  datatype LogTable = LogTable(rows: seq<LogRecord>, nextId: nat)

  const SaveFailed := "Database logging failed."
  const QueryFailed := "Database query failed to retrieve history."
  const DeleteFailed := "Database deletion failed."

  /** The insert statement: appends one row stamped with the server time `now`
      and returns the inserted row. */
  function SaveInteraction(t: LogTable, sessionId: string, userQuery: string, llmResponse: string,
                           responseTime: real, now: int, fault: bool): (r: Result<(LogTable, LogRecord)>)
    ensures fault <==> r.Err?
    ensures r.Err? ==> r.message == SaveFailed
    ensures r.Ok? ==> var (t', rec) := r.value;
                      && t'.rows == t.rows + [rec]
                      && rec.id == t.nextId && t'.nextId > rec.id
                      && rec.sessionId == sessionId && rec.userQuery == userQuery
                      && rec.llmResponse == llmResponse && rec.responseTime == responseTime
                      && rec.timestamp == now
  {
    if fault then Err(SaveFailed)
    else
      var rec := LogRecord(t.nextId, sessionId, now, userQuery, llmResponse, responseTime);
      Ok((LogTable(t.rows + [rec], t.nextId + 1), rec))
  }

  /** The rows whose session is (`keep`) or is not (`!keep`) `sessionId`, in table order. */
  function Select(rows: seq<LogRecord>, sessionId: string, keep: bool): (r: seq<LogRecord>)
    ensures forall x :: x in r <==> x in rows && (x.sessionId == sessionId) == keep
    ensures forall x :: multiset(r)[x] == if (x.sessionId == sessionId) == keep then multiset(rows)[x] else 0
    decreases |rows|
  {
    if |rows| == 0 then []
    else
      var rest := Select(rows[1..], sessionId, keep);
      assert rows == [rows[0]] + rows[1..];
      if (rows[0].sessionId == sessionId) == keep then [rows[0]] + rest else rest
  }

  /** Every row is selected by exactly one of the two complementary filters. */
  lemma {:induction false} SelectPartition(rows: seq<LogRecord>, sessionId: string)
    ensures |Select(rows, sessionId, true)| + |Select(rows, sessionId, false)| == |rows|
    decreases |rows|
  {
    if |rows| > 0 {
      SelectPartition(rows[1..], sessionId);
    }
  }

  /** Filtering on one session and then on another session leaves nothing of the first. */
  lemma {:induction false} SelectOther(rows: seq<LogRecord>, s: string, other: string)
    requires s != other
    ensures Select(Select(rows, s, false), other, true) == Select(rows, other, true)
    decreases |rows|
  {
    if |rows| > 0 {
      SelectOther(rows[1..], s, other);
    }
  }

  predicate SortedByTime(rs: seq<LogRecord>) {
    forall i, j :: 0 <= i < j < |rs| ==> rs[i].timestamp <= rs[j].timestamp
  }

  /** Inserts `r` into a timestamp-ordered list, before the first row not earlier than it. */
  function InsertByTime(r: LogRecord, rs: seq<LogRecord>): (out: seq<LogRecord>)
    requires SortedByTime(rs)
    ensures SortedByTime(out)
    ensures multiset(out) == multiset(rs) + multiset{r}
    ensures forall x :: x in out ==> x in rs || x == r
    decreases |rs|
  {
    if |rs| == 0 || r.timestamp <= rs[0].timestamp then [r] + rs
    else
      var tail := InsertByTime(r, rs[1..]);
      assert rs == [rs[0]] + rs[1..];
      assert forall j :: 0 <= j < |tail| ==> rs[0].timestamp <= tail[j].timestamp by {
        forall j | 0 <= j < |tail|
          ensures rs[0].timestamp <= tail[j].timestamp
        {
          assert tail[j] in tail;
        }
      }
      [rs[0]] + tail
  }

  /** Ascending timestamp order; rows with equal timestamps keep their table order
      here, an order the database does not promise and no contract relies on. */
  function SortByTime(rs: seq<LogRecord>): (out: seq<LogRecord>)
    ensures SortedByTime(out)
    ensures multiset(out) == multiset(rs)
    decreases |rs|
  {
    if |rs| == 0 then []
    else
      assert rs == [rs[0]] + rs[1..];
      InsertByTime(rs[0], SortByTime(rs[1..]))
  }

  /** The history query: exactly the session's rows, each as often as in the
      table, ordered by ascending timestamp. */
  function GetHistory(t: LogTable, sessionId: string, fault: bool): (r: Result<seq<LogRecord>>)
    ensures fault <==> r.Err?
    ensures r.Err? ==> r.message == QueryFailed
    ensures r.Ok? ==> SortedByTime(r.value)
    ensures r.Ok? ==> forall x :: multiset(r.value)[x] == if x.sessionId == sessionId then multiset(t.rows)[x] else 0
    ensures r.Ok? ==> forall x :: x in r.value <==> x in t.rows && x.sessionId == sessionId
  {
    if fault then Err(QueryFailed)
    else
      var out := SortByTime(Select(t.rows, sessionId, true));
      assert forall x :: x in out <==> x in multiset(out);
      Ok(out)
  }

  /** The delete statement: removes every row of the session and no other,
      returning the driver's row count, or 0 when the driver reports none. */
  function ClearHistory(t: LogTable, sessionId: string, fault: bool, rowCountReported: bool)
    : (r: Result<(LogTable, nat)>)
    ensures fault <==> r.Err?
    ensures r.Err? ==> r.message == DeleteFailed
    ensures r.Ok? ==> forall x :: x in r.value.0.rows <==> x in t.rows && x.sessionId != sessionId
    ensures r.Ok? ==> r.value.0.nextId == t.nextId
    ensures r.Ok? ==> forall x :: multiset(r.value.0.rows)[x] == if x.sessionId != sessionId then multiset(t.rows)[x] else 0
    ensures r.Ok? ==> r.value.1 == if rowCountReported then |t.rows| - |r.value.0.rows| else 0
    ensures r.Ok? ==> r.value.1 == if rowCountReported then |Select(t.rows, sessionId, true)| else 0
  {
    if fault then Err(DeleteFailed)
    else
      var remaining := Select(t.rows, sessionId, false);
      SelectPartition(t.rows, sessionId);
      Ok((LogTable(remaining, t.nextId), if rowCountReported then |Select(t.rows, sessionId, true)| else 0))
  }

  /** After a session's rows are deleted, its history is empty. */
  lemma ClearThenHistoryEmpty(t: LogTable, sessionId: string, rowCountReported: bool)
    ensures ClearHistory(t, sessionId, false, rowCountReported).Ok?
    ensures GetHistory(ClearHistory(t, sessionId, false, rowCountReported).value.0, sessionId, false) == Ok([])
  {
  }

  /** Deleting one session's rows leaves every other session's history as it was. */
  lemma ClearKeepsOtherHistories(t: LogTable, sessionId: string, other: string, rowCountReported: bool, fault: bool)
    requires sessionId != other
    ensures ClearHistory(t, sessionId, false, rowCountReported).Ok?
    ensures GetHistory(ClearHistory(t, sessionId, false, rowCountReported).value.0, other, fault) == GetHistory(t, other, fault)
  {
    SelectOther(t.rows, sessionId, other);
  }

  /** A saved interaction shows up in its session's history. */
  lemma SavedRecordInHistory(t: LogTable, sessionId: string, userQuery: string, llmResponse: string,
                             responseTime: real, now: int)
    ensures var r := SaveInteraction(t, sessionId, userQuery, llmResponse, responseTime, now, false);
            r.Ok? && r.value.1 in GetHistory(r.value.0, sessionId, false).value
  {
  }
}
