/** The ingestion pipeline: split every article of the corpus into chunks,
    embed all chunk texts in one call, and upsert one point per chunk.
    The text splitter, the embedder and the database are parameters. */
module IngestionService {
  import opened Wrappers
  import opened PointId
  import opened VectorService

  datatype Article = Article(id: string, title: string, content: string, url: string)

  /** One piece of an article's content; `chunkId` is its index within the article. */
  datatype Chunk = Chunk(text: string, article: Article, chunkId: nat)

  /** The splitter's configuration; the splitter itself is not part of the model. */
  const ChunkSize: nat := 1024
  const ChunkOverlap: nat := 128

  const PipelineFailed := "Ingestion pipeline failed."

  /** The text splitter configured with `ChunkSize` and `ChunkOverlap`. */
  type Splitter = string -> seq<string>
  /** The batch embedding call: one vector per text, or a thrown error. */
  type Embedder = seq<string> -> Result<seq<Vector>>

  /** The chunks of one article, numbered from 0 in split order. */
  function ArticleChunks(a: Article, pieces: seq<string>): (cs: seq<Chunk>)
    ensures |cs| == |pieces|
    ensures forall i :: 0 <= i < |pieces| ==> cs[i].text == pieces[i] && cs[i].article == a && cs[i].chunkId == i
  {
    seq(|pieces|, i requires 0 <= i < |pieces| => Chunk(pieces[i], a, i))
  }

  /** All chunks of the corpus, article after article, as the chunking loop pushes them. */
  function Flatten(corpus: seq<Article>, split: Splitter): seq<Chunk>
    decreases |corpus|
  {
    if |corpus| == 0 then []
    else Flatten(corpus[..|corpus| - 1], split) + ArticleChunks(corpus[|corpus| - 1], split(corpus[|corpus| - 1].content))
  }

  /** The running `totalChunks` counter: the sum of the per-article split counts. */
  function TotalChunks(corpus: seq<Article>, split: Splitter): nat
    decreases |corpus|
  {
    if |corpus| == 0 then 0
    else TotalChunks(corpus[..|corpus| - 1], split) + |split(corpus[|corpus| - 1].content)|
  }

  /** Index in the flattened list of the first chunk of article `k`. */
  function Offset(corpus: seq<Article>, split: Splitter, k: nat): nat
    requires k <= |corpus|
  {
    TotalChunks(corpus[..k], split)
  }

  /** The flattened list holds exactly as many chunks as the counter says. */
  lemma {:induction false} FlattenLength(corpus: seq<Article>, split: Splitter)
    ensures |Flatten(corpus, split)| == TotalChunks(corpus, split)
    decreases |corpus|
  {
    if |corpus| > 0 {
      FlattenLength(corpus[..|corpus| - 1], split);
    }
  }

  lemma {:induction false} FlattenPrefix(corpus: seq<Article>, split: Splitter, m: nat)
    requires m <= |corpus|
    ensures Flatten(corpus[..m], split) <= Flatten(corpus, split)
    decreases |corpus|
  {
    if m < |corpus| {
      var init := corpus[..|corpus| - 1];
      assert corpus[..m] == init[..m];
      FlattenPrefix(init, split, m);
    } else {
      assert corpus[..m] == corpus;
    }
  }

  lemma {:induction false} OffsetMonotone(corpus: seq<Article>, split: Splitter, m: nat, n: nat)
    requires m <= n <= |corpus|
    ensures Offset(corpus, split, m) <= Offset(corpus, split, n)
    decreases n
  {
    if m < n {
      OffsetMonotone(corpus, split, m, n - 1);
      assert corpus[..n][..n - 1] == corpus[..n - 1];
    }
  }

  lemma OffsetStep(corpus: seq<Article>, split: Splitter, k: nat)
    requires k < |corpus|
    ensures Offset(corpus, split, k + 1) == Offset(corpus, split, k) + |split(corpus[k].content)|
  {
    assert corpus[..k + 1][..k] == corpus[..k];
  }

  /** Piece `i` of article `k` sits at `Offset(k) + i` and carries chunk number `i`:
      numbering restarts at 0 for every article and follows split order. */
  lemma FlattenPosition(corpus: seq<Article>, split: Splitter, k: nat, i: nat)
    requires k < |corpus| && i < |split(corpus[k].content)|
    ensures Offset(corpus, split, k) + i < |Flatten(corpus, split)|
    ensures Flatten(corpus, split)[Offset(corpus, split, k) + i]
            == Chunk(split(corpus[k].content)[i], corpus[k], i)
  {
    var pre := corpus[..k + 1];
    assert pre[..k] == corpus[..k];
    assert pre[k] == corpus[k];
    FlattenLength(corpus[..k], split);
    FlattenPrefix(corpus, split, k + 1);
  }

  /** Conversely, every flattened chunk is piece `i` of some article `k`,
      found at `Offset(k) + i`. */
  lemma {:induction false} FlattenOrigin(corpus: seq<Article>, split: Splitter, j: nat) returns (k: nat, i: nat)
    requires j < |Flatten(corpus, split)|
    ensures k < |corpus| && i < |split(corpus[k].content)|
    ensures j == Offset(corpus, split, k) + i
    ensures Flatten(corpus, split)[j] == Chunk(split(corpus[k].content)[i], corpus[k], i)
    decreases |corpus|
  {
    var init := corpus[..|corpus| - 1];
    FlattenLength(init, split);
    if j < |Flatten(init, split)| {
      k, i := FlattenOrigin(init, split, j);
      assert init[..k] == corpus[..k];
    } else {
      k, i := |corpus| - 1, j - |Flatten(init, split)|;
      assert corpus[..k] == init;
    }
  }

  /** The chunking loop: each article's pieces are pushed with their index as chunk
      number, and the counter grows by the article's piece count. The list it
      builds is `Flatten`, and the counter ends equal to the list's length. */
  method ChunkCorpus(corpus: seq<Article>, split: Splitter) returns (allChunks: seq<Chunk>, totalChunks: nat)
    ensures allChunks == Flatten(corpus, split)
    ensures totalChunks == |allChunks|
  {
    allChunks, totalChunks := [], 0;
    var n := 0;
    while n < |corpus|
      invariant n <= |corpus|
      invariant allChunks == Flatten(corpus[..n], split)
      invariant totalChunks == TotalChunks(corpus[..n], split)
    {
      var article := corpus[n];
      var pieces := split(article.content);
      var i := 0;
      while i < |pieces|
        invariant i <= |pieces|
        invariant allChunks == Flatten(corpus[..n], split) + ArticleChunks(article, pieces[..i])
      {
        assert ArticleChunks(article, pieces[..i + 1]) == ArticleChunks(article, pieces[..i]) + [Chunk(pieces[i], article, i)];
        allChunks := allChunks + [Chunk(pieces[i], article, i)];
        i := i + 1;
      }
      totalChunks := totalChunks + |pieces|;
      assert corpus[..n + 1][..n] == corpus[..n];
      assert pieces[..i] == pieces;
      n := n + 1;
    }
    assert corpus[..n] == corpus;
    FlattenLength(corpus, split);
  }

  function PayloadOf(c: Chunk): ChunkPayload {
    ChunkPayload(c.article.id, c.article.url, c.text, c.chunkId)
  }

  /** One point per chunk, in chunk order, under the composite id. */
  function BuildPoints(chunks: seq<Chunk>, embeddings: seq<Vector>): (ps: seq<Point>)
    requires |embeddings| == |chunks|
    ensures |ps| == |chunks|
    ensures forall i :: 0 <= i < |chunks| ==>
              && ps[i].id == ComposeId(chunks[i].article.id, chunks[i].chunkId)
              && ps[i].vector == embeddings[i]
              && ps[i].payload == Defined(PayloadOf(chunks[i]))
    ensures forall i :: 0 <= i < |chunks| ==>
              SplitId(ps[i].id) == Some((chunks[i].article.id, chunks[i].chunkId))
  {
    var ps := seq(|chunks|, i requires 0 <= i < |chunks| =>
                Point(ComposeId(chunks[i].article.id, chunks[i].chunkId), embeddings[i], Defined(PayloadOf(chunks[i]))));
    assert forall i :: 0 <= i < |chunks| ==>
      SplitId(ps[i].id) == Some((chunks[i].article.id, chunks[i].chunkId)) by {
      forall i | 0 <= i < |chunks| {
        SplitComposeRoundTrip(chunks[i].article.id, chunks[i].chunkId);
      }
    }
    ps
  }

  function ChunkTexts(chunks: seq<Chunk>): (ts: seq<string>)
    ensures |ts| == |chunks| && forall i :: 0 <= i < |chunks| ==> ts[i] == chunks[i].text
  {
    seq(|chunks|, i requires 0 <= i < |chunks| => chunks[i].text)
  }

  /** What one ingestion run did: its result, the texts handed to the embedder
      (`None`: the embedder was never called) and the points handed to
      `StoreVectors` (`None`: nothing was sent to the database). */
  datatype IngestionRun = IngestionRun(result: Result<nat>, embedded: Option<seq<string>>, stored: Option<seq<Point>>)

  function RunIngestion(corpus: seq<Article>, split: Splitter, embed: Embedder, upsert: Batch -> UpsertReply)
    : (run: IngestionRun)
    ensures |corpus| == 0 ==> run == IngestionRun(Ok(0), None, None)
    ensures |corpus| > 0 ==> run.embedded == Some(ChunkTexts(Flatten(corpus, split)))
    ensures run.result.Err? ==> run.result.message == PipelineFailed
    ensures run.result.Ok? ==> run.result.value == |Flatten(corpus, split)|
    ensures run.stored.Some? ==>
              var es := embed(ChunkTexts(Flatten(corpus, split)));
              es.Ok? && |es.value| == |Flatten(corpus, split)| &&
              run.stored.value == BuildPoints(Flatten(corpus, split), es.value)
    ensures |corpus| > 0 ==>
              var es := embed(ChunkTexts(Flatten(corpus, split)));
              es.Ok? && |es.value| == |Flatten(corpus, split)| ==>
                run.stored == Some(BuildPoints(Flatten(corpus, split), es.value))
    ensures |corpus| > 0 ==> (run.result.Ok? <==> run.stored.Some? && StoreVectors(run.stored.value, upsert).Ok?)
  {
    if |corpus| == 0 then IngestionRun(Ok(0), None, None)
    else
      var chunks := Flatten(corpus, split);
      var total := TotalChunks(corpus, split);
      var texts := ChunkTexts(chunks);
      FlattenLength(corpus, split);
      match embed(texts)
      case Err(_) => IngestionRun(Err(PipelineFailed), Some(texts), None)
      case Ok(embeddings) =>
        if |embeddings| != total then IngestionRun(Err(PipelineFailed), Some(texts), None)
        else
          var points := BuildPoints(chunks, embeddings);
          match StoreVectors(points, upsert)
          case Err(_) => IngestionRun(Err(PipelineFailed), Some(texts), Some(points))
          case Ok(_) => IngestionRun(Ok(total), Some(texts), Some(points))
  }

  /** An embedding count different from the chunk count fails the run before
      anything is sent to the database. */
  lemma MismatchStoresNothing(corpus: seq<Article>, split: Splitter, embed: Embedder, upsert: Batch -> UpsertReply)
    requires |corpus| > 0
    requires var es := embed(ChunkTexts(Flatten(corpus, split)));
             es.Ok? && |es.value| != |Flatten(corpus, split)|
    ensures RunIngestion(corpus, split, embed, upsert) == IngestionRun(Err(PipelineFailed), Some(ChunkTexts(Flatten(corpus, split))), None)
  {
    FlattenLength(corpus, split);
  }

  /** No two articles that produce chunks share an article id. */
  predicate ChunkedIdsDistinct(corpus: seq<Article>, split: Splitter) {
    forall k1, k2 :: 0 <= k1 < k2 < |corpus| && |split(corpus[k1].content)| > 0 && |split(corpus[k2].content)| > 0
      ==> corpus[k1].id != corpus[k2].id
  }

  function PointIds(ps: seq<Point>): (ids: seq<string>)
    ensures |ids| == |ps| && forall i :: 0 <= i < |ps| ==> ids[i] == ps[i].id
  {
    seq(|ps|, i requires 0 <= i < |ps| => ps[i].id)
  }

  /** Two different positions of the flattened list never name the same
      (article id, chunk number) pair when chunk-producing articles have distinct ids. */
  lemma FlattenKeysDistinct(corpus: seq<Article>, split: Splitter, j1: nat, j2: nat)
    requires ChunkedIdsDistinct(corpus, split)
    requires j1 < j2 < |Flatten(corpus, split)|
    ensures var f := Flatten(corpus, split);
            f[j1].article.id != f[j2].article.id || f[j1].chunkId != f[j2].chunkId
  {
    var k1, i1 := FlattenOrigin(corpus, split, j1);
    var k2, i2 := FlattenOrigin(corpus, split, j2);
    if k1 < k2 {
      assert corpus[k1].id != corpus[k2].id;
    } else if k2 < k1 {
      assert corpus[k2].id != corpus[k1].id;
    }
  }

  /** Two chunk-producing articles with the same id both put a chunk numbered 0
      into the flattened list, at different positions. */
  lemma DuplicateArticleIdCollides(corpus: seq<Article>, split: Splitter) returns (j1: nat, j2: nat)
    requires !ChunkedIdsDistinct(corpus, split)
    ensures j1 < j2 < |Flatten(corpus, split)|
    ensures var f := Flatten(corpus, split);
            f[j1].article.id == f[j2].article.id && f[j1].chunkId == f[j2].chunkId
  {
    var k1, k2 :| 0 <= k1 < k2 < |corpus| && |split(corpus[k1].content)| > 0
                  && |split(corpus[k2].content)| > 0 && corpus[k1].id == corpus[k2].id;
    FlattenPosition(corpus, split, k1, 0);
    FlattenPosition(corpus, split, k2, 0);
    OffsetStep(corpus, split, k1);
    OffsetMonotone(corpus, split, k1 + 1, k2);
    j1, j2 := Offset(corpus, split, k1), Offset(corpus, split, k2);
  }

  /** The batch's point ids are pairwise distinct exactly when no two chunk-producing
      articles share an id: the composite id is unique across the whole batch, and
      repeating an article id is the only way to make two points collide. */
  lemma PointIdsUnique(corpus: seq<Article>, split: Splitter, embeddings: seq<Vector>)
    requires |embeddings| == |Flatten(corpus, split)|
    ensures DistinctIds(PointIds(BuildPoints(Flatten(corpus, split), embeddings)))
            <==> ChunkedIdsDistinct(corpus, split)
  {
    var chunks := Flatten(corpus, split);
    var ids := PointIds(BuildPoints(chunks, embeddings));
    if ChunkedIdsDistinct(corpus, split) {
      forall j1, j2 | 0 <= j1 < j2 < |ids|
        ensures ids[j1] != ids[j2]
      {
        FlattenKeysDistinct(corpus, split, j1, j2);
        ComposeIdInjective(chunks[j1].article.id, chunks[j1].chunkId, chunks[j2].article.id, chunks[j2].chunkId);
      }
    } else {
      var j1, j2 := DuplicateArticleIdCollides(corpus, split);
      assert ids[j1] == ids[j2];
    }
  }

  /** After a successful run over articles with distinct ids, applying the stored
      batch to any collection makes piece `i` of article `k` retrievable under
      `ComposeId(article id, i)`, with its own vector and payload. */
  lemma IngestedChunksAddressable(corpus: seq<Article>, split: Splitter, embed: Embedder,
                                  upsert: Batch -> UpsertReply, c: Collection, k: nat, i: nat)
    requires RunIngestion(corpus, split, embed, upsert).result.Ok?
    requires ChunkedIdsDistinct(corpus, split)
    requires k < |corpus| && i < |split(corpus[k].content)|
    ensures var run := RunIngestion(corpus, split, embed, upsert);
            var a := corpus[k];
            run.stored.Some? &&
            var after := ApplyBatch(c, BuildBatch(run.stored.value));
            ComposeId(a.id, i) in after &&
            after[ComposeId(a.id, i)].payload == Present(ChunkPayload(a.id, a.url, split(a.content)[i], i)) &&
            var es := embed(ChunkTexts(Flatten(corpus, split)));
            es.Ok? && Offset(corpus, split, k) + i < |es.value| &&
            after[ComposeId(a.id, i)].vector == es.value[Offset(corpus, split, k) + i]
  {
    var run := RunIngestion(corpus, split, embed, upsert);
    var chunks := Flatten(corpus, split);
    var es := embed(ChunkTexts(chunks)).value;
    var points := run.stored.value;
    var b := BuildBatch(points);
    assert DistinctIds(b.ids) by {
      PointIdsUnique(corpus, split, es);
      assert b.ids == PointIds(points);
    }
    FlattenPosition(corpus, split, k, i);
    var j := Offset(corpus, split, k) + i;
    assert b.ids[j] == ComposeId(corpus[k].id, i);
    assert b.payloads[j] == Present(PayloadOf(chunks[j]));
    assert b.vectors[j] == es[j];
    StoredAt(c, b, j);
  }
}
