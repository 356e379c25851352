/** The composite point identifier built during ingestion,
    `${articleId}_${chunkId}`, and the proof that it can be taken apart again. */
module PointId {
  import opened Wrappers
  import opened Decimal

  const Separator: char := '_'

  /** The id under which chunk `chunkId` of article `articleId` is stored. */
  function ComposeId(articleId: string, chunkId: nat): string {
    articleId + [Separator] + Dec(chunkId)
  }

  /** Position of the last separator in `s`, if any. */
  function LastSeparator(s: string): (r: Option<nat>)
    ensures r.Some? ==> r.value < |s| && s[r.value] == Separator
    ensures r.Some? ==> forall j :: r.value < j < |s| ==> s[j] != Separator
    ensures r.None? ==> forall j :: 0 <= j < |s| ==> s[j] != Separator
    decreases |s|
  {
    if |s| == 0 then None
    else if s[|s| - 1] == Separator then Some(|s| - 1)
    else LastSeparator(s[..|s| - 1])
  }

  /** Splits an id at its last separator into an article id and a chunk number;
      `None` when the id is not of the composite form. */
  function SplitId(id: string): Option<(string, nat)> {
    match LastSeparator(id)
    case None => None
    case Some(i) =>
      var suffix := id[i + 1..];
      if |suffix| > 0 && AllDigits(suffix) then Some((id[..i], ParseDec(suffix))) else None
  }

  /** The decimal suffix holds no separator, so the last separator of a composite
      id is the one `ComposeId` inserted, whatever the article id contains. */
  lemma SplitComposeRoundTrip(articleId: string, chunkId: nat)
    ensures SplitId(ComposeId(articleId, chunkId)) == Some((articleId, chunkId))
  {
    var id := ComposeId(articleId, chunkId);
    var digits := Dec(chunkId);
    var k := |articleId|;
    assert id[k] == Separator;
    assert forall j :: k < j < |id| ==> id[j] == digits[j - k - 1];
    var last := LastSeparator(id);
    assert last == Some(k) by {
      assert forall j :: k < j < |id| ==> IsDigit(id[j]);
    }
    assert id[k + 1..] == digits;
    assert id[..k] == articleId;
    ParseDecOfDec(chunkId);
  }

  /** Two composite ids coincide exactly when they name the same article and chunk. */
  lemma ComposeIdInjective(a1: string, c1: nat, a2: string, c2: nat)
    ensures ComposeId(a1, c1) == ComposeId(a2, c2) <==> a1 == a2 && c1 == c2
  {
    if ComposeId(a1, c1) == ComposeId(a2, c2) {
      SplitComposeRoundTrip(a1, c1);
      SplitComposeRoundTrip(a2, c2);
    }
  }
}
