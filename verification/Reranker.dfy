/**
 Cross-encoder reranking (backend/app/services/reranker_service.py): cap the pool, score every
 pair, sort by raw score with ties left in order, cut, and report how far each candidate moved.
 The cross-encoder is a parameter; scores are reals and the squashing of a raw score is any
 strictly increasing function into (0, 1).
 */
module Rerankers {
  import opened Wrappers
  import opened StableSort

  type ProductId = nat
  type Metadata = map<string, string>

  datatype Candidate = Candidate(productId: ProductId, score: real, imageScore: real, textScore: real, metadata: Metadata)

  datatype Reason = Reason(originalRank: nat, finalRank: nat, rankDelta: int)

  datatype Reranked = Reranked(productId: ProductId, originalScore: real, rerankScore: real, finalRank: nat, metadata: Metadata, reason: Reason)

  datatype RerankResult = RerankResult(query: string, candidates: seq<Reranked>, originalCount: nat)

  datatype RerankError = ScoringFailed | LengthMismatch

  /** `scores` is what scoring (query, document) pairs in one batch gives; `squash` stands for the sigmoid. */
  datatype Encoder = Encoder(document: Candidate -> string, scores: seq<(string, string)> -> Option<seq<real>>, squash: real -> real)

  ghost predicate Squashes(f: real -> real) {
    && (forall x :: 0.0 < f(x) < 1.0)
    && (forall x, y :: x < y ==> f(x) < f(y))
  }

  function Pairs(e: Encoder, query: string, pool: seq<Candidate>): seq<(string, string)> {
    seq(|pool|, i requires 0 <= i < |pool| => (query, e.document(pool[i])))
  }

  ghost predicate Listed(cs: seq<Candidate>, id: ProductId) {
    exists k :: 0 <= k < |cs| && cs[k].productId == id
  }

  /** The dict of ranks by id: for an id that occurs more than once the last position stays. */
  function LastPosition(pool: seq<Candidate>, id: ProductId): (i: nat)
    requires Listed(pool, id)
    ensures i < |pool| && pool[i].productId == id
    ensures forall k :: i < k < |pool| ==> pool[k].productId != id
  {
    var n := |pool| - 1;
    if pool[n].productId == id then n
    else
      assert Listed(pool[..n], id) by {
        var k :| 0 <= k < |pool| && pool[k].productId == id;
        assert pool[..n][k].productId == id;
      }
      var i := LastPosition(pool[..n], id);
      assert forall k :: i < k < n ==> pool[..n][k] == pool[k];
      i
  }

  function ToReranked(e: Encoder, pool: seq<Candidate>, raw: seq<real>, at: nat, position: nat): Reranked
    requires |raw| == |pool| && at < |pool|
  {
    var c := pool[at];
    var originalRank, finalRank := LastPosition(pool, c.productId) + 1, position + 1;
    Reranked(c.productId, c.score, e.squash(raw[at]), finalRank, c.metadata,
             Reason(originalRank, finalRank, originalRank - finalRank))
  }

  function Kept(raw: seq<real>, topK: Option<int>): seq<nat> {
    Take(Order(raw), topK.GetOr(|raw|))
  }

  function Rerank(e: Encoder, topN: int, query: string, candidates: seq<Candidate>, topK: Option<int>): Result<RerankResult, RerankError> {
    var pool := Take(candidates, topN);
    if pool == [] then Ok(RerankResult(query, [], 0))
    else
      match e.scores(Pairs(e, query, pool))
      case None => Err(ScoringFailed)
      case Some(raw) =>
        if |raw| != |pool| then Err(LengthMismatch)
        else
          var kept := Kept(raw, topK);
          var order := Order(raw);
          assert forall i :: 0 <= i < |kept| ==> kept[i] == order[i];
          Ok(RerankResult(query, seq(|kept|, i requires 0 <= i < |kept| => ToReranked(e, pool, raw, kept[i], i)), |pool|))
  }

  // ----- What a result is -----

  /** The rank counts from 1 and is that of the last candidate with this id. */
  predicate RankOf(pool: seq<Candidate>, id: ProductId, rank: nat) {
    && 1 <= rank <= |pool| && pool[rank - 1].productId == id
    && forall k :: rank <= k < |pool| ==> pool[k].productId != id
  }

  /**
   Position `at` of the pool shows up at place i of the result, with its own fields, its squashed score
   and its movement.
   */
  predicate Shows(e: Encoder, pool: seq<Candidate>, raw: seq<real>, out: Reranked, at: nat, i: nat) {
    && at < |pool| == |raw|
    && out.productId == pool[at].productId && out.originalScore == pool[at].score && out.metadata == pool[at].metadata
    && out.rerankScore == e.squash(raw[at]) && out.finalRank == i + 1
    && RankOf(pool, out.productId, out.reason.originalRank) && out.reason.finalRank == i + 1
    && out.reason.rankDelta == out.reason.originalRank - out.reason.finalRank
  }

  ghost predicate ShowsAll(e: Encoder, pool: seq<Candidate>, raw: seq<real>, out: seq<Reranked>, kept: seq<nat>) {
    |out| == |kept| && forall i :: 0 <= i < |out| ==> Shows(e, pool, raw, out[i], kept[i], i)
  }

  /** The positions the survivors had, for a run that scored. */
  ghost predicate Scored(e: Encoder, topN: int, query: string, candidates: seq<Candidate>, topK: Option<int>, raw: seq<real>) {
    var pool := Take(candidates, topN);
    pool != [] && e.scores(Pairs(e, query, pool)) == Some(raw) && |raw| == |pool|
  }

  /**
   For any listing p of the pool in stable descending order of raw score, and there is only one,
   the result shows a front part of p: all of it without a cut, otherwise as much as the cut asks for.
   */
  lemma PrefixOfStableOrder(e: Encoder, topN: int, query: string, candidates: seq<Candidate>, topK: Option<int>, raw: seq<real>, p: seq<nat>)
    requires Scored(e, topN, query, candidates, topK, raw) && Ranking(raw, p)
    ensures var r := Rerank(e, topN, query, candidates, topK);
            && r.Ok? && r.value.originalCount == |p|
            && |r.value.candidates| <= |p|
            && (topK == None ==> |r.value.candidates| == |p|)
            && (forall k :: topK == Some(k) && k >= 0 ==> |r.value.candidates| == if k < |p| then k else |p|)
            && ShowsAll(e, Take(candidates, topN), raw, r.value.candidates, p[..|r.value.candidates|])
  {
    RankingUnique(raw, p, Order(raw));
  }

  /** The pairs the encoder scores: the query with the document of each of the first candidates, in order. */
  ghost predicate Asked(e: Encoder, topN: int, query: string, candidates: seq<Candidate>, pairs: seq<(string, string)>) {
    |pairs| == |Take(candidates, topN)| && forall i :: 0 <= i < |pairs| ==> pairs[i] == (query, e.document(candidates[i]))
  }

  /** Nothing to score gives nothing; scoring may fail, or give too many or too few scores; else the count is of what was scored. */
  lemma RerankOutcome(e: Encoder, topN: int, query: string, candidates: seq<Candidate>, topK: Option<int>)
    ensures var r, n := Rerank(e, topN, query, candidates, topK), |Take(candidates, topN)|;
            && (n == 0 ==> r == Ok(RerankResult(query, [], 0)))
            && forall pairs :: n > 0 && Asked(e, topN, query, candidates, pairs) ==>
                 match e.scores(pairs)
                 case None => r == Err(ScoringFailed)
                 case Some(raw) => if |raw| != n then r == Err(LengthMismatch) else r.Ok? && r.value.query == query && r.value.originalCount == n
  {
    TakeIsFront(candidates, topN);
    forall pairs | Asked(e, topN, query, candidates, pairs) ensures pairs == Pairs(e, query, Take(candidates, topN)) {
    }
  }

  /** Each result carries the id, the score and the metadata of its own position of the pool. */
  ghost predicate CarriesOver(pool: seq<Candidate>, out: seq<Reranked>, kept: seq<nat>) {
    && Distinct(kept) && Positions(kept, |pool|) && |kept| == |out|
    && forall i :: 0 <= i < |out| ==>
         var c := pool[kept[i]];
         out[i].productId == c.productId && out[i].originalScore == c.score && out[i].metadata == c.metadata
  }

  /** Nothing outside the first `topN` candidates comes out, and no position comes out twice. */
  lemma OnlyFromPool(e: Encoder, topN: int, query: string, candidates: seq<Candidate>, topK: Option<int>)
    requires Rerank(e, topN, query, candidates, topK).Ok?
    ensures var out := Rerank(e, topN, query, candidates, topK).value.candidates;
            exists kept :: CarriesOver(Take(candidates, topN), out, kept)
  {
    var pool := Take(candidates, topN);
    var out := Rerank(e, topN, query, candidates, topK).value.candidates;
    if pool == [] {
      assert CarriesOver(pool, out, []);
    } else {
      var raw := e.scores(Pairs(e, query, pool)).value;
      var p := Order(raw);
      PrefixOfStableOrder(e, topN, query, candidates, topK, raw, p);
      RankingDistinct(raw, p);
      var kept := p[..|out|];
      forall i | 0 <= i < |out|
        ensures out[i].productId == pool[kept[i]].productId
                && out[i].originalScore == pool[kept[i]].score && out[i].metadata == pool[kept[i]].metadata
      {
        assert Shows(e, pool, raw, out[i], kept[i], i);
      }
      assert CarriesOver(pool, out, kept);
    }
  }

  lemma SquashKeepsOrder(f: real -> real, x: real, y: real)
    requires Squashes(f)
    ensures f(x) < f(y) <==> x < y
  {
    assert x > y ==> f(x) > f(y);
  }

  /** Each result carries the squashed score of the position it was ranked from. */
  lemma SquashedScores(e: Encoder, topN: int, query: string, candidates: seq<Candidate>, topK: Option<int>, raw: seq<real>)
    requires Scored(e, topN, query, candidates, topK, raw)
    ensures var out := Rerank(e, topN, query, candidates, topK).value.candidates; var p := Order(raw);
            && |out| == |Kept(raw, topK)| <= |p| && Ranking(raw, p)
            && forall i :: 0 <= i < |out| ==> Kept(raw, topK)[i] == p[i] < |raw| && out[i].rerankScore == e.squash(raw[p[i]])
  {
    var p := Order(raw);
    var pool := Take(candidates, topN);
    var out := Rerank(e, topN, query, candidates, topK).value.candidates;
    PrefixOfStableOrder(e, topN, query, candidates, topK, raw, p);
    RankingDistinct(raw, p);
    forall i | 0 <= i < |out| ensures Kept(raw, topK)[i] == p[i] < |raw| && out[i].rerankScore == e.squash(raw[p[i]]) {
      assert Shows(e, pool, raw, out[i], p[..|out|][i], i);
    }
  }

  /** A position that was cut does not score above one that stayed. */
  lemma CutComesLater(raw: seq<real>, topK: Option<int>, i: nat, c: nat)
    requires Ranking(raw, Order(raw)) && i < |Kept(raw, topK)| <= |Order(raw)|
    requires forall b :: 0 <= b < |Kept(raw, topK)| ==> Kept(raw, topK)[b] == Order(raw)[b]
    requires c < |raw| && c !in Kept(raw, topK)
    ensures Order(raw)[i] < |raw| && raw[c] <= raw[Order(raw)[i]]
  {
    var p := Order(raw);
    RankingDistinct(raw, p);
    Hits(p, |raw|, c);
    var b :| 0 <= b < |p| && p[b] == c;
    assert Kept(raw, topK)[i] == p[i];
    assert forall k :: 0 <= k < |Kept(raw, topK)| ==> Kept(raw, topK)[k] != c;
    assert Before(raw, p[i], p[b]);
  }

  lemma SquashedFall(f: real -> real, raw: seq<real>, i: nat, j: nat)
    requires Squashes(f) && Ranking(raw, Order(raw)) && i < j < |Order(raw)|
    ensures Order(raw)[i] < |raw| && Order(raw)[j] < |raw| && f(raw[Order(raw)[i]]) >= f(raw[Order(raw)[j]])
  {
    var p := Order(raw);
    RankingDistinct(raw, p);
    assert Before(raw, p[i], p[j]);
    SquashKeepsOrder(f, raw[p[i]], raw[p[j]]);
  }

  /** Scores do not increase along the result, and no candidate that was cut scores above one that stayed. */
  lemma BestAreKept(e: Encoder, topN: int, query: string, candidates: seq<Candidate>, topK: Option<int>, raw: seq<real>)
    requires Squashes(e.squash) && Scored(e, topN, query, candidates, topK, raw)
    ensures var out := Rerank(e, topN, query, candidates, topK).value.candidates;
            && (forall i, j :: 0 <= i < j < |out| ==> out[i].rerankScore >= out[j].rerankScore)
            && (forall i :: 0 <= i < |out| ==> 0.0 < out[i].rerankScore < 1.0)
            && (forall i, c :: 0 <= i < |out| && 0 <= c < |raw| && c !in Kept(raw, topK) ==> e.squash(raw[c]) <= out[i].rerankScore)
  {
    SquashedScores(e, topN, query, candidates, topK, raw);
    var out := Rerank(e, topN, query, candidates, topK).value.candidates;
    BestOfOut(e.squash, raw, topK, out);
  }

  lemma BestOfOut(f: real -> real, raw: seq<real>, topK: Option<int>, out: seq<Reranked>)
    requires Squashes(f) && Ranking(raw, Order(raw)) && |out| == |Kept(raw, topK)| <= |Order(raw)|
    requires forall i :: 0 <= i < |out| ==>
               Kept(raw, topK)[i] == Order(raw)[i] < |raw| && out[i].rerankScore == f(raw[Order(raw)[i]])
    ensures forall i, j :: 0 <= i < j < |out| ==> out[i].rerankScore >= out[j].rerankScore
    ensures forall i :: 0 <= i < |out| ==> 0.0 < out[i].rerankScore < 1.0
    ensures forall i, c :: 0 <= i < |out| && 0 <= c < |raw| && c !in Kept(raw, topK) ==> f(raw[c]) <= out[i].rerankScore
  {
    forall i, j | 0 <= i < j < |out| ensures out[i].rerankScore >= out[j].rerankScore {
      SquashedFall(f, raw, i, j);
    }
    forall i, c | 0 <= i < |out| && 0 <= c < |raw| && c !in Kept(raw, topK) ensures f(raw[c]) <= out[i].rerankScore {
      CutComesLater(raw, topK, i, c);
      SquashKeepsOrder(f, raw[c], raw[Order(raw)[i]]);
    }
  }

  // ----- Rank arithmetic -----

  ghost predicate DistinctIds(cs: seq<Candidate>) {
    forall a, b :: 0 <= a < b < |cs| ==> cs[a].productId != cs[b].productId
  }

  function TotalDelta(out: seq<Reranked>): int {
    if out == [] then 0 else TotalDelta(out[..|out| - 1]) + out[|out| - 1].reason.rankDelta
  }

  /** The position a candidate's rank was taken from, for each survivor in turn. */
  function RankSources(pool: seq<Candidate>, kept: seq<nat>): (s: seq<nat>)
    requires Positions(kept, |pool|)
    ensures |s| == |kept| && forall i :: 0 <= i < |s| ==> s[i] == LastPosition(pool, pool[kept[i]].productId)
  {
    seq(|kept|, i requires 0 <= i < |kept| => LastPosition(pool, pool[kept[i]].productId))
  }

  lemma {:induction false} DeltaIsDifference(out: seq<Reranked>, sources: seq<nat>)
    requires |out| == |sources|
    requires forall i :: 0 <= i < |out| ==> out[i].reason.rankDelta == sources[i] - i
    ensures TotalDelta(out) == Sum(sources) - Triangle(|out|)
  {
    if out != [] {
      DeltaIsDifference(out[..|out| - 1], sources[..|out| - 1]);
    }
  }

  lemma {:induction false} SumsGrow(p: seq<nat>, q: seq<nat>)
    requires |p| == |q| && forall i :: 0 <= i < |p| ==> p[i] <= q[i]
    ensures Sum(p) <= Sum(q)
    ensures Sum(p) == Sum(q) <==> p == q
  {
    if p != [] {
      var n := |p| - 1;
      SumsGrow(p[..n], q[..n]);
      if p == q { assert p[..n] == q[..n]; }
      if p[..n] == q[..n] && p[n] == q[n] {
        assert p == p[..n] + [p[n]] && q == q[..n] + [q[n]];
      }
    }
  }

  /** What the movements add up to, for any run that scored. */
  lemma DeltaSum(e: Encoder, topN: int, query: string, candidates: seq<Candidate>, topK: Option<int>, raw: seq<real>)
    requires Scored(e, topN, query, candidates, topK, raw)
    ensures var kept := Kept(raw, topK);
            && Positions(kept, |raw|) && Distinct(kept)
            && TotalDelta(Rerank(e, topN, query, candidates, topK).value.candidates)
               == Sum(RankSources(Take(candidates, topN), kept)) - Triangle(|kept|)
  {
    var kept, order := Kept(raw, topK), Order(raw);
    RankingDistinct(raw, order);
    assert forall i :: 0 <= i < |kept| ==> kept[i] == order[i];
    DeltaIsDifference(Rerank(e, topN, query, candidates, topK).value.candidates, RankSources(Take(candidates, topN), kept));
  }

  lemma OwnPositions(pool: seq<Candidate>, kept: seq<nat>)
    requires Positions(kept, |pool|)
    ensures forall i :: 0 <= i < |kept| ==> kept[i] <= RankSources(pool, kept)[i]
    ensures DistinctIds(pool) ==> RankSources(pool, kept) == kept
  {
  }

  /** The survivors never move down on the whole, whatever is cut and even if ids repeat. */
  lemma MovementsNeverNegative(e: Encoder, topN: int, query: string, candidates: seq<Candidate>, topK: Option<int>, raw: seq<real>)
    requires Scored(e, topN, query, candidates, topK, raw)
    ensures TotalDelta(Rerank(e, topN, query, candidates, topK).value.candidates) >= 0
  {
    var kept := Kept(raw, topK);
    DeltaSum(e, topN, query, candidates, topK, raw);
    OwnPositions(Take(candidates, topN), kept);
    SumsGrow(kept, RankSources(Take(candidates, topN), kept));
    LeastSum(kept);
  }

  /**
   With distinct ids the movements cancel out exactly when the survivors are the head of the pool in
   some order; so they do whenever nothing is cut.
   */
  lemma MovementsCancelExactly(e: Encoder, topN: int, query: string, candidates: seq<Candidate>, topK: Option<int>, raw: seq<real>)
    requires Scored(e, topN, query, candidates, topK, raw) && DistinctIds(Take(candidates, topN))
    ensures var out := Rerank(e, topN, query, candidates, topK).value.candidates;
            && (TotalDelta(out) == 0 <==> Positions(Kept(raw, topK), |out|))
            && (|out| == |raw| ==> TotalDelta(out) == 0)
  {
    DeltaSum(e, topN, query, candidates, topK, raw);
    OwnPositions(Take(candidates, topN), Kept(raw, topK));
    LeastSum(Kept(raw, topK));
  }

  /** When nothing is cut the movements cancel out exactly when no id repeats in the pool. */
  lemma MovementsShowRepeatedIds(e: Encoder, topN: int, query: string, candidates: seq<Candidate>, raw: seq<real>)
    requires Scored(e, topN, query, candidates, None, raw)
    ensures TotalDelta(Rerank(e, topN, query, candidates, None).value.candidates) == 0 <==> DistinctIds(Take(candidates, topN))
  {
    var pool := Take(candidates, topN);
    var kept := Kept(raw, None);
    var sources := RankSources(pool, kept);
    DeltaSum(e, topN, query, candidates, None, raw);
    OwnPositions(pool, kept);
    LeastSum(kept);
    SumsGrow(kept, sources);
    if sources == kept {
      forall a, b | 0 <= a < b < |pool| ensures pool[a].productId != pool[b].productId {
        Hits(kept, |pool|, a);
        var i :| 0 <= i < |kept| && kept[i] == a;
        assert sources[i] == LastPosition(pool, pool[a].productId);
      }
    }
  }
}
