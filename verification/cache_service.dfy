/** The session cache: one key per session, `chat:` + session id, holding the
    conversation history with a time-to-live. The cache server is modelled as a
    map from key to entry; each call's failure is a `fault` parameter, and the
    passing of time is the explicit `Elapse` transition. Values are stored as
    histories directly: serialising to JSON and parsing back is taken to be exact. */
module CacheService {
  import opened Wrappers

  datatype Role = User | Model
  datatype Part = Part(text: string)
  datatype Message = Message(role: Role, parts: seq<Part>)
  type History = seq<Message>

  /** An entry and the number of seconds it has left to live. */
  datatype Entry = Entry(history: History, ttl: nat)
  type Cache = map<string, Entry>

  const KeyPrefix := "chat:"
  const TtlSeconds: nat := 3600
  const DeletionFailed := "Redis deletion failed."

  function Key(sessionId: string): (k: string)
    ensures |k| == |KeyPrefix| + |sessionId| && k[..|KeyPrefix|] == KeyPrefix && k[|KeyPrefix|..] == sessionId
  {
    KeyPrefix + sessionId
  }

  /** Distinct sessions never share a cache entry. */
  lemma KeyInjective(s1: string, s2: string)
    ensures Key(s1) == Key(s2) <==> s1 == s2
  {
    if Key(s1) == Key(s2) {
      assert s1 == Key(s1)[|KeyPrefix|..];
    }
  }

  /** The cached history of a session; a missing key and a failed read both give `None`. */
  function GetContext(c: Cache, sessionId: string, fault: bool): (r: Option<History>)
    ensures fault ==> r.None?
    ensures !fault ==> (r.Some? <==> Key(sessionId) in c)
    ensures r.Some? ==> r.value == c[Key(sessionId)].history
  {
    if fault || Key(sessionId) !in c then None else Some(c[Key(sessionId)].history)
  }

  /** Stores a session's history with a fresh time-to-live; a failed write is swallowed,
      so the call always returns and only the cache's contents tell the difference. */
  function SetContext(c: Cache, sessionId: string, history: History, fault: bool): (c': Cache)
    ensures fault ==> c' == c
    ensures !fault ==> Key(sessionId) in c' && c'[Key(sessionId)] == Entry(history, TtlSeconds)
    ensures forall k :: k != Key(sessionId) ==> (k in c' <==> k in c)
    ensures forall k :: k != Key(sessionId) && k in c ==> c'[k] == c[k]
  {
    if fault then c else c[Key(sessionId) := Entry(history, TtlSeconds)]
  }

  /** Deletes a session's key and returns the cache and the number of keys deleted;
      unlike reads and writes, a failed deletion is reported. */
  function ClearContext(c: Cache, sessionId: string, fault: bool): (r: Result<(Cache, nat)>)
    ensures fault <==> r.Err?
    ensures r.Err? ==> r.message == DeletionFailed
    ensures r.Ok? ==> Key(sessionId) !in r.value.0
    ensures r.Ok? ==> r.value.1 == if Key(sessionId) in c then 1 else 0
    ensures r.Ok? ==> forall k :: k != Key(sessionId) ==> (k in r.value.0 <==> k in c)
    ensures r.Ok? ==> forall k :: k != Key(sessionId) && k in c ==> r.value.0[k] == c[k]
  {
    if fault then Err(DeletionFailed)
    else Ok((map k | k in c && k != Key(sessionId) :: c[k], if Key(sessionId) in c then 1 else 0))
  }

  /** `seconds` pass: entries whose time-to-live runs out disappear, the others age. */
  function Elapse(c: Cache, seconds: nat): (c': Cache)
    ensures forall k :: k in c' <==> k in c && c[k].ttl > seconds
    ensures forall k :: k in c' ==> c'[k] == Entry(c[k].history, c[k].ttl - seconds)
  {
    map k | k in c && c[k].ttl > seconds :: Entry(c[k].history, c[k].ttl - seconds)
  }

  /** Time passing in two steps is time passing in one. */
  lemma ElapseAdditive(c: Cache, a: nat, b: nat)
    ensures Elapse(Elapse(c, a), b) == Elapse(c, a + b)
  {
  }

  /** A history written is read back unchanged until its hour is up, and is gone after. */
  lemma SetThenGet(c: Cache, sessionId: string, history: History, seconds: nat)
    ensures seconds < TtlSeconds ==> GetContext(Elapse(SetContext(c, sessionId, history, false), seconds), sessionId, false) == Some(history)
    ensures seconds >= TtlSeconds ==> GetContext(Elapse(SetContext(c, sessionId, history, false), seconds), sessionId, false) == None
  {
  }

  /** Writing one session's history never changes what another session reads. */
  lemma SetIsolation(c: Cache, s: string, other: string, history: History, fault: bool, readFault: bool)
    requires s != other
    ensures GetContext(SetContext(c, s, history, fault), other, readFault) == GetContext(c, other, readFault)
  {
    KeyInjective(s, other);
  }

  /** After a successful clear, the session reads as absent. */
  lemma ClearThenGet(c: Cache, sessionId: string, readFault: bool)
    ensures ClearContext(c, sessionId, false).Ok?
    ensures GetContext(ClearContext(c, sessionId, false).value.0, sessionId, readFault) == None
  {
  }
}
