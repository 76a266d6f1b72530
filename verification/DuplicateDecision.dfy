/**
 Duplicate detection after retrieval (backend/app/services/duplicate/duplicate_detection_service.py):
 an optional rerank pass that substitutes text scores, one similarity result per candidate, and
 the decision over them. Similarity scoring itself is a parameter.
 */
module DuplicateDecisions {
  import opened Wrappers
  import opened StableSort
  import opened Rerankers

  type Unit = r: real | 0.0 <= r <= 1.0

  datatype Signal = Signal(name: string, score: Unit)

  datatype SimilarityResult = SimilarityResult(productId: ProductId, signals: seq<Signal>, overall: Unit)

  datatype DuplicateCandidate = DuplicateCandidate(productId: ProductId, image: Unit, text: Unit, metadata: Unit, attribute: Unit, overall: Unit)

  datatype Decision = Decision(isDuplicate: bool, confidence: Unit, matched: Option<ProductId>, topCandidates: seq<DuplicateCandidate>)

  // ----- Substituting rerank scores -----

  /** The dict of candidates by id, read at an id that is in it. */
  function ById(candidates: seq<Candidate>, id: ProductId): Candidate
    requires Listed(candidates, id)
  {
    candidates[LastPosition(candidates, id)]
  }

  lemma SurvivorsAreRetrieved(e: Encoder, topN: int, query: string, candidates: seq<Candidate>, topK: Option<int>)
    requires Rerank(e, topN, query, candidates, topK).Ok?
    ensures var out := Rerank(e, topN, query, candidates, topK).value.candidates;
            forall i :: 0 <= i < |out| ==> Listed(candidates, out[i].productId)
  {
    OnlyFromPool(e, topN, query, candidates, topK);
    var out := Rerank(e, topN, query, candidates, topK).value.candidates;
    var kept :| CarriesOver(Take(candidates, topN), out, kept);
    forall i | 0 <= i < |out| ensures Listed(candidates, out[i].productId) {
      assert candidates[kept[i]].productId == out[i].productId;
    }
  }

  function Substitute(candidates: seq<Candidate>, out: seq<Reranked>): (r: seq<Candidate>)
    requires forall i :: 0 <= i < |out| ==> Listed(candidates, out[i].productId)
  {
    seq(|out|, i requires 0 <= i < |out| => ById(candidates, out[i].productId).(textScore := out[i].rerankScore))
  }

  function RerankCandidates(e: Encoder, topN: int, query: string, candidates: seq<Candidate>, topK: int): Result<seq<Candidate>, RerankError> {
    match Rerank(e, topN, query, candidates, Some(topK))
    case Err(error) => Err(error)
    case Ok(r) =>
      SurvivorsAreRetrieved(e, topN, query, candidates, Some(topK));
      Ok(Substitute(candidates, r.candidates))
  }

  /** A retrieved candidate with nothing but its text score replaced, by a survivor's rerank score. */
  ghost predicate Rescored(candidates: seq<Candidate>, x: Candidate, survivor: Reranked) {
    exists c :: c in candidates && c.productId == survivor.productId && x == c.(textScore := survivor.rerankScore)
  }

  ghost predicate SameFields(r: seq<Candidate>, out: seq<Reranked>) {
    |r| == |out| && forall i :: 0 <= i < |r| ==> r[i].score == out[i].originalScore && r[i].metadata == out[i].metadata
  }

  /**
   Every candidate that comes back is a retrieved one with its text score replaced by the rerank
   score at the same place, and nothing else changed; with distinct ids it is the very candidate
   the reranker placed there.
   */
  lemma OnlyTextScoresChange(e: Encoder, topN: int, query: string, candidates: seq<Candidate>, topK: int)
    requires RerankCandidates(e, topN, query, candidates, topK).Ok?
    ensures Rerank(e, topN, query, candidates, Some(topK)).Ok?
    ensures var out := Rerank(e, topN, query, candidates, Some(topK)).value.candidates;
            var r := RerankCandidates(e, topN, query, candidates, topK).value;
            && |r| == |out|
            && (forall i :: 0 <= i < |r| ==> Rescored(candidates, r[i], out[i]))
            && (DistinctIds(candidates) ==> SameFields(r, out))
  {
    var out := Rerank(e, topN, query, candidates, Some(topK)).value.candidates;
    var r := RerankCandidates(e, topN, query, candidates, topK).value;
    SurvivorsAreRetrieved(e, topN, query, candidates, Some(topK));
    OnlyFromPool(e, topN, query, candidates, Some(topK));
    forall i | 0 <= i < |r| ensures Rescored(candidates, r[i], out[i]) {
      var c := ById(candidates, out[i].productId);
      assert c in candidates && r[i] == c.(textScore := out[i].rerankScore);
    }
    var kept :| CarriesOver(Take(candidates, topN), out, kept);
    if DistinctIds(candidates) {
      forall i | 0 <= i < |r| ensures r[i].score == out[i].originalScore && r[i].metadata == out[i].metadata {
        OwnCandidate(candidates, topN, out, kept, i);
        assert r[i] == ById(candidates, out[i].productId).(textScore := out[i].rerankScore);
      }
      assert SameFields(r, out);
    }
  }

  /** With distinct ids, looking a survivor up finds the candidate it came from. */
  lemma OwnCandidate(candidates: seq<Candidate>, topN: int, out: seq<Reranked>, kept: seq<nat>, i: nat)
    requires DistinctIds(candidates) && CarriesOver(Take(candidates, topN), out, kept) && i < |out|
    ensures Listed(candidates, out[i].productId)
    ensures var c := ById(candidates, out[i].productId); c.score == out[i].originalScore && c.metadata == out[i].metadata
  {
    var c := candidates[kept[i]];
    assert Take(candidates, topN)[kept[i]] == c;
    assert out[i].productId == c.productId && out[i].originalScore == c.score && out[i].metadata == c.metadata;
    OnlyPosition(candidates, kept[i]);
  }

  lemma OnlyPosition(candidates: seq<Candidate>, k: nat)
    requires DistinctIds(candidates) && k < |candidates|
    ensures Listed(candidates, candidates[k].productId) && LastPosition(candidates, candidates[k].productId) == k
  {
    assert Listed(candidates, candidates[k].productId);
    var last := LastPosition(candidates, candidates[k].productId);
    assert candidates[last].productId == candidates[k].productId;
  }

  // ----- The decision -----

  function Similarities(results: seq<SimilarityResult>): (keys: seq<real>)
    ensures |keys| == |results| && forall i :: 0 <= i < |keys| ==> keys[i] == results[i].overall
  {
    seq(|results|, i requires 0 <= i < |results| => results[i].overall as real)
  }

  /** The dict of signal scores by name, 0 for a name that is missing; a later signal replaces an earlier one. */
  function SignalScore(signals: seq<Signal>, name: string): Unit {
    if signals == [] then 0.0
    else
      var last := signals[|signals| - 1];
      if last.name == name then last.score else SignalScore(signals[..|signals| - 1], name)
  }

  function ToCandidate(r: SimilarityResult): DuplicateCandidate {
    DuplicateCandidate(r.productId, SignalScore(r.signals, "image"), SignalScore(r.signals, "text"),
                       SignalScore(r.signals, "metadata"), SignalScore(r.signals, "attribute"), r.overall)
  }

  ghost predicate LastNamed(signals: seq<Signal>, name: string, k: nat) {
    k < |signals| && signals[k].name == name && forall j :: k < j < |signals| ==> signals[j].name != name
  }

  lemma {:induction false} SignalScoreIsLast(signals: seq<Signal>, name: string, k: nat)
    ensures LastNamed(signals, name, k) ==> SignalScore(signals, name) == signals[k].score
    decreases signals
  {
    var n := |signals| - 1;
    if LastNamed(signals, name, k) && k < n {
      assert signals[n].name != name;
      assert LastNamed(signals[..n], name, k);
      SignalScoreIsLast(signals[..n], name, k);
    }
  }

  predicate NoneNamed(signals: seq<Signal>, name: string) {
    forall s | s in signals :: s.name != name
  }

  lemma {:induction false} SignalScoreMissing(signals: seq<Signal>, name: string)
    requires NoneNamed(signals, name)
    ensures SignalScore(signals, name) == 0.0
  {
    if signals != [] {
      assert signals[|signals| - 1] in signals;
      SignalScoreMissing(signals[..|signals| - 1], name);
    }
  }

  lemma KindScore(signals: seq<Signal>, name: string, k: nat)
    ensures LastNamed(signals, name, k) ==> SignalScore(signals, name) == signals[k].score
    ensures NoneNamed(signals, name) ==> SignalScore(signals, name) == 0.0
  {
    SignalScoreIsLast(signals, name, k);
    if NoneNamed(signals, name) { SignalScoreMissing(signals, name); }
  }

  /** A flattened candidate shows the score of the last signal of each kind, and 0 for a kind that is missing. */
  lemma FlattenedScores(r: SimilarityResult, k: nat)
    ensures var c := ToCandidate(r);
            && c.productId == r.productId && c.overall == r.overall
            && (LastNamed(r.signals, "image", k) ==> c.image == r.signals[k].score)
            && (LastNamed(r.signals, "text", k) ==> c.text == r.signals[k].score)
            && (LastNamed(r.signals, "metadata", k) ==> c.metadata == r.signals[k].score)
            && (LastNamed(r.signals, "attribute", k) ==> c.attribute == r.signals[k].score)
            && (NoneNamed(r.signals, "image") ==> c.image == 0.0)
            && (NoneNamed(r.signals, "text") ==> c.text == 0.0)
            && (NoneNamed(r.signals, "metadata") ==> c.metadata == 0.0)
            && (NoneNamed(r.signals, "attribute") ==> c.attribute == 0.0)
  {
    KindScore(r.signals, "image", k);
    KindScore(r.signals, "text", k);
    KindScore(r.signals, "metadata", k);
    KindScore(r.signals, "attribute", k);
  }

  function BuildDecision(results: seq<SimilarityResult>, threshold: real): Decision {
    if results == [] then Decision(false, 0.0, None, [])
    else
      var p := Order(Similarities(results));
      var best := results[p[0]];
      var top := seq(|p|, i requires 0 <= i < |p| => ToCandidate(results[p[i]]));
      if best.overall >= threshold then Decision(true, best.overall, Some(best.productId), top)
      else Decision(false, best.overall, None, top)
  }

  /** The first result whose similarity no other exceeds. */
  ghost predicate FirstBest(results: seq<SimilarityResult>, i: nat) {
    && i < |results|
    && (forall j :: 0 <= j < |results| ==> results[j].overall <= results[i].overall)
    && (forall j :: 0 <= j < i ==> results[j].overall < results[i].overall)
  }

  lemma HeadIsFirstBest(results: seq<SimilarityResult>)
    requires results != []
    ensures FirstBest(results, Order(Similarities(results))[0])
  {
    var keys := Similarities(results);
    var p := Order(keys);
    RankingDistinct(keys, p);
    forall j | 0 <= j < |results|
      ensures results[j].overall <= results[p[0]].overall && (j < p[0] ==> results[j].overall < results[p[0]].overall)
    {
      Hits(p, |keys|, j);
      var b :| 0 <= b < |p| && p[b] == j;
      assert b > 0 ==> Before(keys, p[0], p[b]);
    }
  }

  lemma FirstBestUnique(results: seq<SimilarityResult>, h: nat, i: nat)
    requires FirstBest(results, h) && FirstBest(results, i)
    ensures h == i
  {
    var best, other := results[h].overall, results[i].overall;
    assert best == other;
  }

  /** The verdict, the confidence and the match, said of the results alone. */
  lemma DecisionMeans(results: seq<SimilarityResult>, threshold: real)
    ensures var d := BuildDecision(results, threshold);
            && (d.isDuplicate <==> exists r :: r in results && r.overall >= threshold)
            && (results == [] ==> d == Decision(false, 0.0, None, []))
            && (results != [] ==> exists i: nat :: FirstBest(results, i))
            && forall i: nat :: FirstBest(results, i) ==>
                 d.confidence == results[i].overall && d.matched == if d.isDuplicate then Some(results[i].productId) else None
  {
    if results != [] {
      HeadIsFirstBest(results);
      var h := Order(Similarities(results))[0];
      assert results[h] in results;
      forall i: nat | FirstBest(results, i) ensures i == h {
        FirstBestUnique(results, h, i);
      }
    }
  }

  /** Every result is listed once, best first and ties in order; and there is only one such listing. */
  lemma TopCandidatesAreRanked(results: seq<SimilarityResult>, threshold: real, p: seq<nat>)
    requires Ranking(Similarities(results), p)
    ensures var top := BuildDecision(results, threshold).topCandidates;
            && |top| == |results|
            && (forall i :: 0 <= i < |top| ==> top[i] == ToCandidate(results[p[i]]))
            && (forall i, j :: 0 <= i < j < |top| ==> top[i].overall >= top[j].overall)
  {
    var keys := Similarities(results);
    RankingUnique(keys, p, Order(keys));
    forall i, j | 0 <= i < j < |p| ensures results[p[i]].overall >= results[p[j]].overall {
      assert Before(keys, p[i], p[j]);
    }
  }

  /**
   Moving the threshold never changes the ranking or the confidence; raising it can only withdraw the
   verdict and the match.
   */
  lemma ThresholdMonotone(results: seq<SimilarityResult>, low: real, high: real)
    requires low <= high
    ensures var d, e := BuildDecision(results, low), BuildDecision(results, high);
            && d.confidence == e.confidence && d.topCandidates == e.topCandidates
            && (e.isDuplicate ==> d == e)
            && (d.isDuplicate && !e.isDuplicate <==> results != [] && low <= d.confidence < high)
  {
  }

  // ----- From retrieval to decision -----

  /** `scorer` is the similarity scorer; a failed rerank or scoring batch stops the detection. */
  function Detect(e: Encoder, topN: int, query: string, candidates: seq<Candidate>, topK: int, rerank: bool,
                  scorer: Candidate -> SimilarityResult, threshold: real): Result<Decision, RerankError> {
    var pool := if rerank && candidates != [] then RerankCandidates(e, topN, query, candidates, topK) else Ok(candidates);
    match pool
    case Err(error) => Err(error)
    case Ok(cs) => Ok(BuildDecision(seq(|cs|, i requires 0 <= i < |cs| => scorer(cs[i])), threshold))
  }

  /** The decision is the one over these results, one for each of these candidates in turn. */
  ghost predicate DecidesOn(scorer: Candidate -> SimilarityResult, threshold: real, cs: seq<Candidate>, d: Decision) {
    exists results :: BuildDecision(results, threshold) == d && |results| == |cs| && forall i :: 0 <= i < |cs| ==> results[i] == scorer(cs[i])
  }

  /** Place by place, a retrieved candidate with the text score the reranker gave the survivor there. */
  ghost predicate RescoredAll(candidates: seq<Candidate>, cs: seq<Candidate>, out: seq<Reranked>) {
    |cs| == |out| && forall i :: 0 <= i < |cs| ==> Rescored(candidates, cs[i], out[i])
  }

  lemma RerankedDetection(e: Encoder, topN: int, query: string, candidates: seq<Candidate>, topK: int,
                          scorer: Candidate -> SimilarityResult, threshold: real)
    requires candidates != []
    ensures var r, reranked := Detect(e, topN, query, candidates, topK, true, scorer, threshold), Rerank(e, topN, query, candidates, Some(topK));
            match reranked
            case Err(error) => r == Err(error)
            case Ok(_) => r.Ok? && exists cs :: RescoredAll(candidates, cs, reranked.value.candidates) && DecidesOn(scorer, threshold, cs, r.value)
  {
    match RerankCandidates(e, topN, query, candidates, topK)
    case Err(_) =>
    case Ok(cs) =>
      OnlyTextScoresChange(e, topN, query, candidates, topK);
      var d := Detect(e, topN, query, candidates, topK, true, scorer, threshold).value;
      DecidesFor(scorer, threshold, cs);
      assert DecidesOn(scorer, threshold, cs, d);
      assert RescoredAll(candidates, cs, Rerank(e, topN, query, candidates, Some(topK)).value.candidates);
  }

  /** The decision on one score for each candidate, in their order. */
  lemma DecidesFor(scorer: Candidate -> SimilarityResult, threshold: real, cs: seq<Candidate>)
    ensures DecidesOn(scorer, threshold, cs, BuildDecision(seq(|cs|, i requires 0 <= i < |cs| => scorer(cs[i])), threshold))
  {
  }

  /**
   With reranking and something to rerank, a detection fails exactly if the reranker does, and otherwise decides
   on the survivors with their new text scores; without, it decides on what was retrieved.
   */
  lemma DetectionMeans(e: Encoder, topN: int, query: string, candidates: seq<Candidate>, topK: int, rerank: bool,
                       scorer: Candidate -> SimilarityResult, threshold: real)
    ensures var r, reranked := Detect(e, topN, query, candidates, topK, rerank, scorer, threshold), Rerank(e, topN, query, candidates, Some(topK));
            if rerank && candidates != [] then
              match reranked
              case Err(error) => r == Err(error)
              case Ok(_) => r.Ok? && exists cs :: RescoredAll(candidates, cs, reranked.value.candidates) && DecidesOn(scorer, threshold, cs, r.value)
            else r.Ok? && DecidesOn(scorer, threshold, candidates, r.value)
  {
    if rerank && candidates != [] {
      RerankedDetection(e, topN, query, candidates, topK, scorer, threshold);
    } else {
      DecidesFor(scorer, threshold, candidates);
    }
  }

  ghost predicate KeepsId(scorer: Candidate -> SimilarityResult) {
    forall c :: scorer(c).productId == c.productId
  }

  /** A match is a retrieved product that reaches the threshold, with or without reranking. */
  lemma MatchWasRetrieved(e: Encoder, topN: int, query: string, candidates: seq<Candidate>, topK: int, rerank: bool,
                          scorer: Candidate -> SimilarityResult, threshold: real)
    requires KeepsId(scorer)
    requires Detect(e, topN, query, candidates, topK, rerank, scorer, threshold).Ok?
    ensures var d := Detect(e, topN, query, candidates, topK, rerank, scorer, threshold).value;
            && (d.isDuplicate <==> d.matched.Some?)
            && (d.isDuplicate ==> d.confidence >= threshold)
            && (d.isDuplicate ==> exists c :: c in candidates && d.matched == Some(c.productId))
  {
    var cs := if rerank && candidates != [] then RerankCandidates(e, topN, query, candidates, topK).value else candidates;
    var results := seq(|cs|, i requires 0 <= i < |cs| => scorer(cs[i]));
    if results != [] {
      HeadIsFirstBest(results);
      var h := Order(Similarities(results))[0];
      DecisionMeans(results, threshold);
      assert results[h].productId == cs[h].productId;
      if rerank && candidates != [] {
        OnlyTextScoresChange(e, topN, query, candidates, topK);
      } else {
        assert cs[h] in candidates;
      }
    }
  }
}
