/** The vector-store adapter: batch upsert of points and top-k search.
    The vector database itself is a parameter: `upsert` and `search` stand for
    the client calls and return whatever the database replies. */
module VectorService {
  import opened Wrappers

  /** An embedding; its numbers are never inspected by the model. */
  type Vector = seq<real>

  /** The metadata stored beside every chunk's vector. */
  datatype ChunkPayload = ChunkPayload(articleId: string, sourceUrl: string, text: string, chunkId: nat)

  /** A point's optional `payload` field: left `undefined`, or set. */
  datatype PayloadField = Undefined | Defined(payload: ChunkPayload)

  /** One slot of the upsert batch's `payloads` array: JSON `null`, or an object. */
  datatype BatchPayload = Null | Present(payload: ChunkPayload)

  datatype Point = Point(id: string, vector: Vector, payload: PayloadField)

  /** The column-wise batch sent to the database: three parallel arrays. */
  datatype Batch = Batch(ids: seq<string>, vectors: seq<Vector>, payloads: seq<BatchPayload>)

  /** What the upsert call produced: it threw, or it replied with a status. */
  datatype UpsertReply = UpsertThrew | UpsertStatus(status: string)

  datatype SearchRequest = SearchRequest(vector: Vector, limit: nat, withPayload: bool)

  datatype Hit = Hit(id: string, score: real, payload: ChunkPayload)

  const StorageFailed := "Vector storage failed."
  const SearchFailed := "Vector search failed."
  const DefaultSearchLimit: nat := 4

  predicate WellFormed(b: Batch) {
    |b.ids| == |b.vectors| == |b.payloads|
  }

  /** An absent payload is sent as null; a present one is sent as it is. */
  function ToBatchPayload(p: PayloadField): (b: BatchPayload)
    ensures p.Undefined? <==> b.Null?
    ensures p.Defined? ==> b.Present? && b.payload == p.payload
  {
    match p
    case Undefined => Null
    case Defined(x) => Present(x)
  }

  function ToPayloadField(b: BatchPayload): PayloadField {
    match b
    case Null => Undefined
    case Present(x) => Defined(x)
  }

  /** Transposes a list of points into the column-wise batch. */
  function BuildBatch(points: seq<Point>): (b: Batch)
    ensures WellFormed(b) && |b.ids| == |points|
    ensures forall i :: 0 <= i < |points| ==>
              && b.ids[i] == points[i].id
              && b.vectors[i] == points[i].vector
              && b.payloads[i] == ToBatchPayload(points[i].payload)
  {
    Batch(seq(|points|, i requires 0 <= i < |points| => points[i].id),
          seq(|points|, i requires 0 <= i < |points| => points[i].vector),
          seq(|points|, i requires 0 <= i < |points| => ToBatchPayload(points[i].payload)))
  }

  /** Zips a well-formed batch back into points (the inverse of `BuildBatch`). */
  function PointsOf(b: Batch): seq<Point>
    requires WellFormed(b)
  {
    seq(|b.ids|, i requires 0 <= i < |b.ids| => Point(b.ids[i], b.vectors[i], ToPayloadField(b.payloads[i])))
  }

  /** The transposition loses nothing: not the order, not an id, not a vector,
      and not the difference between an absent and a present payload. */
  lemma BatchRoundTrip(points: seq<Point>)
    ensures PointsOf(BuildBatch(points)) == points
  {
  }

  predicate AcceptedStatus(status: string) {
    status == "completed" || status == "acknowledged"
  }

  /** Upserts `points` as one batch, waiting for the database; every failure,
      a thrown call or an unexpected status, becomes `StorageFailed`. */
  function StoreVectors(points: seq<Point>, upsert: Batch -> UpsertReply): (r: Result<()>)
    ensures r.Ok? <==> exists s :: upsert(BuildBatch(points)) == UpsertStatus(s) && AcceptedStatus(s)
    ensures r.Err? ==> r.message == StorageFailed
  {
    match upsert(BuildBatch(points))
    case UpsertThrew => Err(StorageFailed)
    case UpsertStatus(s) => if AcceptedStatus(s) then Ok(()) else Err(StorageFailed)
  }

  /** The request for `k` neighbours (4 when no `k` is given) with payloads. */
  function SearchRequestFor(queryVector: Vector, k: Option<nat>): (q: SearchRequest)
    ensures q.vector == queryVector && q.withPayload
    ensures k.Some? ==> q.limit == k.value
    ensures k.None? ==> q.limit == DefaultSearchLimit
  {
    SearchRequest(queryVector, k.GetOr(DefaultSearchLimit), true)
  }

  /** Top-k search: one payload per hit, in the order the database ranked them;
      any failure becomes `SearchFailed`. */
  function SearchVectors(queryVector: Vector, k: Option<nat>, search: SearchRequest -> Result<seq<Hit>>)
    : (r: Result<seq<ChunkPayload>>)
    ensures search(SearchRequestFor(queryVector, k)).Err? <==> r.Err?
    ensures r.Err? ==> r.message == SearchFailed
    ensures r.Ok? ==> var hits := search(SearchRequestFor(queryVector, k)).value;
                      |r.value| == |hits| &&
                      forall i :: 0 <= i < |hits| ==> r.value[i] == hits[i].payload
  {
    match search(SearchRequestFor(queryVector, k))
    case Err(_) => Err(SearchFailed)
    case Ok(hits) => Ok(seq(|hits|, i requires 0 <= i < |hits| => hits[i].payload))
  }

  /** The collection as the database keeps it: point id to stored vector and payload. */
  datatype Stored = Stored(vector: Vector, payload: BatchPayload)
  type Collection = map<string, Stored>

  /** An accepted batch applied to the collection, entry by entry: a new id is
      inserted, an existing id is overwritten. */
  function ApplyBatch(c: Collection, b: Batch): Collection
    requires WellFormed(b)
    decreases |b.ids|
  {
    if |b.ids| == 0 then c
    else ApplyBatch(c[b.ids[0] := Stored(b.vectors[0], b.payloads[0])],
                    Batch(b.ids[1..], b.vectors[1..], b.payloads[1..]))
  }

  predicate DistinctIds(ids: seq<string>) {
    forall i, j :: 0 <= i < j < |ids| ==> ids[i] != ids[j]
  }

  /** With pairwise distinct ids no entry of a batch overwrites another: every
      point is found under its own id, and ids outside the batch keep their value. */
  lemma {:induction false} ApplyBatchStoresEveryPoint(c: Collection, b: Batch)
    requires WellFormed(b) && DistinctIds(b.ids)
    ensures forall i :: 0 <= i < |b.ids| ==>
              b.ids[i] in ApplyBatch(c, b) && ApplyBatch(c, b)[b.ids[i]] == Stored(b.vectors[i], b.payloads[i])
    ensures forall id :: id !in b.ids ==> (id in ApplyBatch(c, b) <==> id in c)
    ensures forall id :: id !in b.ids && id in c ==> ApplyBatch(c, b)[id] == c[id]
    decreases |b.ids|
  {
    if |b.ids| > 0 {
      var c' := c[b.ids[0] := Stored(b.vectors[0], b.payloads[0])];
      var rest := Batch(b.ids[1..], b.vectors[1..], b.payloads[1..]);
      ApplyBatchStoresEveryPoint(c', rest);
      assert b.ids[0] !in rest.ids;
      forall i | 1 <= i < |b.ids|
        ensures rest.ids[i - 1] == b.ids[i]
      {
      }
    }
  }

  /** One entry of a batch with distinct ids, as found after applying the batch. */
  lemma StoredAt(c: Collection, b: Batch, j: nat)
    requires WellFormed(b) && DistinctIds(b.ids) && j < |b.ids|
    ensures b.ids[j] in ApplyBatch(c, b) && ApplyBatch(c, b)[b.ids[j]] == Stored(b.vectors[j], b.payloads[j])
  {
    ApplyBatchStoresEveryPoint(c, b);
  }
}
