/** Merging token hits and vector hits into one ranking: pkg/kb/merge.go. */
module Merge {
  import opened StableSorting
  import opened Similarity

  datatype Doc = Doc(id: string, title: string, content: string, path: string)

  datatype TokenHit = TokenHit(doc: Doc, score: int)

  datatype VectorHit = VectorHit(doc: Doc, score: real)

  datatype Source = FromTokens | FromVectors

  datatype Unified = Unified(doc: Doc, score: real, source: Source)

  const THRESHOLD: real := 0.3

  function MaxScore(hits: seq<TokenHit>): int {
    if hits == [] then 0
    else
      var m := MaxScore(hits[..|hits| - 1]);
      var s := hits[|hits| - 1].score;
      if s > m then s else m
  }

  /** Token hits with a positive score, scaled by the greatest score `top`. */
  function KeptTokens(hits: seq<TokenHit>, top: int): seq<Unified>
    requires forall i | 0 <= i < |hits| :: hits[i].score <= top
  {
    if hits == [] then []
    else
      var h := hits[|hits| - 1];
      var kept := KeptTokens(hits[..|hits| - 1], top);
      if h.score <= 0 then kept else kept + [Unified(h.doc, h.score as real / top as real, FromTokens)]
  }

  function KeptVectors(hits: seq<VectorHit>): seq<Unified> {
    if hits == [] then []
    else
      var h := hits[|hits| - 1];
      var kept := KeptVectors(hits[..|hits| - 1]);
      if h.score < THRESHOLD then kept else kept + [Unified(h.doc, h.score, FromVectors)]
  }

  lemma {:induction false} MaxScoreIsGreatest(hits: seq<TokenHit>)
    ensures MaxScore(hits) >= 0
    ensures forall i | 0 <= i < |hits| :: hits[i].score <= MaxScore(hits)
    ensures MaxScore(hits) > 0 ==> exists i | 0 <= i < |hits| :: hits[i].score == MaxScore(hits)
  {
    if hits == [] {
    } else {
      var n := |hits| - 1;
      MaxScoreIsGreatest(hits[..n]);
      assert forall i | 0 <= i < n :: hits[..n][i] == hits[i];
      if MaxScore(hits) > 0 {
        if MaxScore(hits) == hits[n].score {
        } else {
          var i :| 0 <= i < n && hits[..n][i].score == MaxScore(hits[..n]);
          assert hits[i].score == MaxScore(hits);
        }
      }
    }
  }

  function Kept(tokens: seq<TokenHit>, vectors: seq<VectorHit>): seq<Unified> {
    MaxScoreIsGreatest(tokens);
    KeptTokens(tokens, MaxScore(tokens)) + KeptVectors(vectors)
  }

  function Higher(): (Unified, Unified) -> bool { (a: Unified, b: Unified) => a.score > b.score }

  function Take<T>(xs: seq<T>, limit: nat): seq<T> { if |xs| > limit then xs[..limit] else xs }

  /** `sort` is any function that sorts stably. */
  method MergeResults(tokens: seq<TokenHit>, vectors: seq<VectorHit>, limit: nat,
                      sort: seq<Unified> -> seq<Unified>) returns (merged: seq<Unified>)
    requires forall xs :: IsStableSort(Higher(), xs, sort(xs))
    ensures merged == Take(StableSort(Higher(), Kept(tokens, vectors)), limit)
  {
    merged := [];
    MaxScoreIsGreatest(tokens);
    var maxToken := 0;
    for i := 0 to |tokens|
      invariant maxToken == MaxScore(tokens[..i])
    {
      assert tokens[..i + 1][..i] == tokens[..i];
      if tokens[i].score > maxToken {
        maxToken := tokens[i].score;
      }
    }
    assert tokens[..|tokens|] == tokens;
    for i := 0 to |tokens|
      invariant merged == KeptTokens(tokens[..i], maxToken)
    {
      assert tokens[..i + 1][..i] == tokens[..i];
      if tokens[i].score <= 0 {
        continue;
      }
      merged := merged + [Unified(tokens[i].doc, tokens[i].score as real / maxToken as real, FromTokens)];
    }
    var fromTokens := merged;
    for i := 0 to |vectors|
      invariant merged == fromTokens + KeptVectors(vectors[..i])
    {
      assert vectors[..i + 1][..i] == vectors[..i];
      if vectors[i].score < THRESHOLD {
        continue;
      }
      merged := merged + [Unified(vectors[i].doc, vectors[i].score, FromVectors)];
    }
    assert vectors[..|vectors|] == vectors;
    StableSortIsUnique(Higher(), merged, sort(merged));
    merged := sort(merged);
    if |merged| > limit {
      merged := merged[..limit];
    }
  }

  lemma {:induction false} KeptTokensScores(hits: seq<TokenHit>, top: int)
    requires forall i | 0 <= i < |hits| :: hits[i].score <= top
    ensures forall u <- KeptTokens(hits, top) :: u.source == FromTokens && 0.0 < u.score <= 1.0
  {
    if hits == [] {
    } else {
      var n := |hits| - 1;
      KeptTokensScores(hits[..n], top);
      if hits[n].score > 0 {
        Scaled(hits[n].score, top);
      }
    }
  }

  lemma Scaled(s: int, top: int)
    requires 0 < s <= top
    ensures 0.0 < s as real / top as real <= 1.0
  {
  }

  lemma {:induction false} KeptVectorsScores(hits: seq<VectorHit>)
    requires forall i | 0 <= i < |hits| :: hits[i].score <= 1.0
    ensures forall u <- KeptVectors(hits) :: u.source == FromVectors && THRESHOLD <= u.score <= 1.0
  {
    if hits == [] {
    } else {
      KeptVectorsScores(hits[..|hits| - 1]);
    }
  }

  function CountPositive(hits: seq<TokenHit>): nat {
    if hits == [] then 0 else CountPositive(hits[..|hits| - 1]) + if hits[|hits| - 1].score > 0 then 1 else 0
  }

  function CountOver(hits: seq<VectorHit>): nat {
    if hits == [] then 0 else CountOver(hits[..|hits| - 1]) + if hits[|hits| - 1].score >= 0.3 then 1 else 0
  }

  /** Each token hit with a positive score is kept behind those before it, as its document with its score as a part of
      the greatest, and nothing else is kept. */
  lemma {:induction false} KeptTokensAt(hits: seq<TokenHit>, top: int, i: nat)
    requires i < |hits| && forall j | 0 <= j < |hits| :: hits[j].score <= top
    ensures var kept, p := KeptTokens(hits, top), CountPositive(hits[..i]);
            && |kept| == CountPositive(hits)
            && (hits[i].score > 0 ==>
                  p < |kept| && kept[p] == Unified(hits[i].doc, hits[i].score as real / top as real, FromTokens))
  {
    var n := |hits| - 1;
    KeptTokensLength(hits[..n], top);
    if i == n {
    } else {
      KeptTokensAt(hits[..n], top, i);
      assert hits[..n][..i] == hits[..i];
    }
  }

  lemma {:induction false} KeptTokensLength(hits: seq<TokenHit>, top: int)
    requires forall j | 0 <= j < |hits| :: hits[j].score <= top
    ensures |KeptTokens(hits, top)| == CountPositive(hits)
  {
    if hits == [] {
    } else {
      KeptTokensLength(hits[..|hits| - 1], top);
    }
  }

  /** Each vector hit that scores at least 0.3 is kept behind those before it, with its score. */
  lemma {:induction false} KeptVectorsAt(hits: seq<VectorHit>, i: nat)
    requires i < |hits|
    ensures var kept, p := KeptVectors(hits), CountOver(hits[..i]);
            && |kept| == CountOver(hits)
            && (hits[i].score >= 0.3 ==> p < |kept| && kept[p] == Unified(hits[i].doc, hits[i].score, FromVectors))
  {
    var n := |hits| - 1;
    KeptVectorsLength(hits[..n]);
    if i == n {
    } else {
      KeptVectorsAt(hits[..n], i);
      assert hits[..n][..i] == hits[..i];
    }
  }

  lemma {:induction false} KeptVectorsLength(hits: seq<VectorHit>)
    ensures |KeptVectors(hits)| == CountOver(hits)
  {
    if hits == [] {
    } else {
      KeptVectorsLength(hits[..|hits| - 1]);
    }
  }

  /** The kept results: token hits scaled by the greatest score, then vector hits; each in place. */
  lemma KeptAre(tokens: seq<TokenHit>, vectors: seq<VectorHit>, i: nat, j: nat)
    ensures var kept := Kept(tokens, vectors);
            var n := CountPositive(tokens);
            && |kept| == n + CountOver(vectors)
            && (i < |tokens| && tokens[i].score > 0 ==>
                  && CountPositive(tokens[..i]) < n && MaxScore(tokens) > 0
                  && kept[CountPositive(tokens[..i])]
                     == Unified(tokens[i].doc, tokens[i].score as real / MaxScore(tokens) as real, FromTokens))
            && (j < |vectors| && vectors[j].score >= 0.3 ==>
                  && n + CountOver(vectors[..j]) < |kept|
                  && kept[n + CountOver(vectors[..j])] == Unified(vectors[j].doc, vectors[j].score, FromVectors))
  {
    MaxScoreIsGreatest(tokens);
    KeptTokensLength(tokens, MaxScore(tokens));
    KeptVectorsLength(vectors);
    if i < |tokens| {
      KeptTokensAt(tokens, MaxScore(tokens), i);
    }
    if j < |vectors| {
      KeptVectorsAt(vectors, j);
    }
  }

  /** Vector hits as VectorIndex.Search scores them: by cosine similarity with the query. */
  ghost predicate ScoredByCosine(query: Vector, embeddings: seq<Vector>, hits: seq<VectorHit>, sqrt: real -> real) {
    |embeddings| == |hits| && forall i | 0 <= i < |hits| :: hits[i].score == Cosine(query, embeddings[i], sqrt)
  }

  /** Every merged score lies in (0, 1]; the list descends; on equal scores token hits come before vector hits;
      nothing kept but cut off scores higher than anything returned. */
  lemma MergedRanking(tokens: seq<TokenHit>, vectors: seq<VectorHit>, limit: nat,
                      query: Vector, embeddings: seq<Vector>, sqrt: real -> real)
    requires IsSqrt(sqrt) && ScoredByCosine(query, embeddings, vectors, sqrt)
    ensures var kept := Kept(tokens, vectors);
            var merged := Take(StableSort(Higher(), kept), limit);
            && (forall u <- merged :: u in kept && 0.0 < u.score <= 1.0)
            && (forall i, j | 0 <= i < j < |merged| ::
                  && merged[i].score >= merged[j].score
                  && (merged[i].score == merged[j].score && merged[i].source == FromVectors ==>
                        merged[j].source == FromVectors))
            && |merged| == (if |kept| > limit then limit else |kept|)
            && (forall u <- kept | u !in merged :: forall v <- merged :: v.score >= u.score)
  {
    var kept := Kept(tokens, vectors);
    var all := StableSort(Higher(), kept);
    var merged := Take(all, limit);
    SortLength(Higher(), kept);
    StableSortIsStable(Higher(), kept);
    ScoresAtMostOne(query, embeddings, vectors, sqrt);
    forall u | u in kept ensures 0.0 < u.score <= 1.0 {
      KeptInRange(tokens, vectors, u);
    }
    forall u ensures u in all <==> u in kept { SortMembers(Higher(), kept, u); }
    forall i, j | 0 <= i < j < |merged|
      ensures merged[i].score >= merged[j].score
      ensures merged[i].score == merged[j].score && merged[i].source == FromVectors ==> merged[j].source == FromVectors
    {
      assert !Higher()(all[j], all[i]);
      if merged[i].score == merged[j].score && merged[i].source == FromVectors {
        TiesFavourTokens(tokens, vectors, i, j);
      }
    }
    forall u, v | u in kept && u !in merged && v in merged ensures v.score >= u.score {
      CutOffIsLower(all, limit, u, v);
    }
  }

  lemma CutOffIsLower(all: seq<Unified>, limit: nat, u: Unified, v: Unified)
    requires Sorted(Higher(), all) && u in all && u !in Take(all, limit) && v in Take(all, limit)
    ensures v.score >= u.score
  {
    var j :| 0 <= j < |all| && all[j] == u;
    var i :| 0 <= i < |Take(all, limit)| && Take(all, limit)[i] == v;
    assert forall k | 0 <= k < |Take(all, limit)| :: all[k] == Take(all, limit)[k];
    assert !Higher()(all[j], all[i]);
  }

  lemma ScoresAtMostOne(query: Vector, embeddings: seq<Vector>, vectors: seq<VectorHit>, sqrt: real -> real)
    requires IsSqrt(sqrt) && ScoredByCosine(query, embeddings, vectors, sqrt)
    ensures forall i | 0 <= i < |vectors| :: vectors[i].score <= 1.0
  {
    forall i | 0 <= i < |vectors| ensures vectors[i].score <= 1.0 {
      CosineInRange(query, embeddings[i], sqrt);
    }
  }

  lemma KeptInRange(tokens: seq<TokenHit>, vectors: seq<VectorHit>, u: Unified)
    requires forall i | 0 <= i < |vectors| :: vectors[i].score <= 1.0
    requires u in Kept(tokens, vectors)
    ensures 0.0 < u.score <= 1.0
  {
    MaxScoreIsGreatest(tokens);
    KeptTokensScores(tokens, MaxScore(tokens));
    KeptVectorsScores(vectors);
  }

  lemma TiesFavourTokens(tokens: seq<TokenHit>, vectors: seq<VectorHit>, i: nat, j: nat)
    requires forall k | 0 <= k < |vectors| :: vectors[k].score <= 1.0
    requires i < j < |StableSort(Higher(), Kept(tokens, vectors))|
    requires var all := StableSort(Higher(), Kept(tokens, vectors));
             all[i].score == all[j].score && all[i].source == FromVectors
    ensures StableSort(Higher(), Kept(tokens, vectors))[j].source == FromVectors
  {
    MaxScoreIsGreatest(tokens);
    KeptTokensScores(tokens, MaxScore(tokens));
    KeptVectorsScores(vectors);
    TiesKeepOrder(Higher(), (u: Unified) => u.source == FromVectors,
                  KeptTokens(tokens, MaxScore(tokens)), KeptVectors(vectors), i, j);
  }
}
