/**
 * Stage two of the matcher: every candidate is scored, the scored candidates
 * are sorted by overall score, highest first, with a stable sort, and the head
 * of that ranking is the best match.
 */
module Ranking {
  import opened Accounts
  import opened Sorting
  import opened Scoring
  import opened CandidateIndex

  /** A candidate with its similarity scores. */
  datatype Ranked = Ranked(shell: Shell, scores: Similarity)

  /** The rank score: the overall similarity. */
  function RankScore(r: Ranked): real {
    r.scores.overall
  }

  /** Descending order of rank scores (`reverse=True`). */
  function Greater(a: real, b: real): bool {
    a > b
  }

  lemma GreaterIsStrictOrder()
    ensures StrictOrder(Greater)
  {
  }

  /** The overall similarity of a customer to each shell. */
  function SimilarityTo(c: Customer): Shell -> Similarity {
    s => OverallSimilarity(c, s)
  }

  /** The candidates with their scores, in input order. */
  function Scored(candidates: seq<Shell>, similarity: Shell -> Similarity): (r: seq<Ranked>)
    ensures |r| == |candidates|
    ensures forall i :: 0 <= i < |r| ==> r[i] == Ranked(candidates[i], similarity(candidates[i]))
  {
    seq(|candidates|, i requires 0 <= i < |candidates| => Ranked(candidates[i], similarity(candidates[i])))
  }

  /** The ranking: the scored candidates after the stable descending sort. */
  function Ranking(candidates: seq<Shell>, similarity: Shell -> Similarity): seq<Ranked> {
    Sort(Scored(candidates, similarity), RankScore, Greater)
  }

  /** The loop of rank_shell_candidates: score every candidate in turn,
      then sort by rank score, highest first. */
  method RankBy(candidates: seq<Shell>, similarity: Shell -> Similarity) returns (ranked: seq<Ranked>)
    ensures ranked == Ranking(candidates, similarity)
  {
    var scored: seq<Ranked> := [];
    for i := 0 to |candidates|
      invariant |scored| == i
      invariant forall j :: 0 <= j < i ==> scored[j] == Ranked(candidates[j], similarity(candidates[j]))
    {
      var candidateResult := Ranked(candidates[i], similarity(candidates[i]));
      scored := scored + [candidateResult];
    }
    assert scored == Scored(candidates, similarity);
    ranked := Sort(scored, RankScore, Greater);
  }

  /** rank_shell_candidates: candidates scored by their overall similarity to the customer. */
  method RankShellCandidates(c: Customer, candidates: seq<Shell>) returns (ranked: seq<Ranked>)
    ensures ranked == Ranking(candidates, SimilarityTo(c))
  {
    ranked := RankBy(candidates, SimilarityTo(c));
  }

  /** The ranking is a permutation of the scored candidates, ordered by score
      from highest to lowest, and candidates with equal scores keep their
      input order. */
  lemma RankingSpec(candidates: seq<Shell>, similarity: Shell -> Similarity)
    ensures multiset(Ranking(candidates, similarity)) == multiset(Scored(candidates, similarity))
    ensures forall i, j :: 0 <= i < j < |Ranking(candidates, similarity)| ==>
              Ranking(candidates, similarity)[i].scores.overall >= Ranking(candidates, similarity)[j].scores.overall
    ensures forall score :: KeyFilter(Ranking(candidates, similarity), RankScore, score)
                         == KeyFilter(Scored(candidates, similarity), RankScore, score)
  {
    GreaterIsStrictOrder();
    SortSorted(Scored(candidates, similarity), RankScore, Greater);
    forall score {
      SortStable(Scored(candidates, similarity), RankScore, Greater, score);
    }
  }

  /** The head of the ranking is the first candidate, in input order, with the
      highest overall score. */
  lemma RankingHead(candidates: seq<Shell>, similarity: Shell -> Similarity) returns (m: nat)
    requires candidates != []
    ensures m < |candidates| && Ranking(candidates, similarity)[0] == Ranked(candidates[m], similarity(candidates[m]))
    ensures forall j :: 0 <= j < |candidates| ==> similarity(candidates[j]).overall <= similarity(candidates[m]).overall
    ensures forall j :: 0 <= j < m ==> similarity(candidates[j]).overall < similarity(candidates[m]).overall
  {
    GreaterIsStrictOrder();
    var xs := Scored(candidates, similarity);
    m := SortHead(xs, RankScore, Greater);
    assert forall j :: 0 <= j < |xs| ==> !Greater(RankScore(xs[j]), RankScore(xs[m]));
    assert forall j :: 0 <= j < m ==> RankScore(xs[j]) != RankScore(xs[m]);
  }

  /** best is one of the candidates with its scores, and no candidate scores higher. */
  ghost predicate IsBest(candidates: seq<Shell>, similarity: Shell -> Similarity, best: Ranked) {
    && best.shell in candidates
    && best.scores == similarity(best.shell)
    && forall x :: x in candidates ==> similarity(x).overall <= best.scores.overall
  }

  /** The head of a ranking is a best candidate. */
  lemma BestOfRanking(candidates: seq<Shell>, similarity: Shell -> Similarity)
    requires candidates != []
    ensures IsBest(candidates, similarity, Ranking(candidates, similarity)[0])
  {
    var m := RankingHead(candidates, similarity);
    forall x | x in candidates ensures similarity(x).overall <= similarity(candidates[m]).overall {
      var j :| 0 <= j < |candidates| && candidates[j] == x;
    }
  }

  // ---------------------------------------------------------------------------
  // The best match

  /** The result of find_best_shell_match. The success message, which
      formats the confidence to one decimal, is not modelled. */
  datatype MatchOutcome =
    | Failure(message: string)
    | Found(best: Ranked, candidateCount: nat, totalShells: nat)

  /** The candidates ranked: the fast filter's, or every shell when it finds none. */
  function Candidates(c: Customer, shells: seq<Shell>): seq<Shell> {
    var filtered := Filtered(c, WebsiteIndex(shells), NameIndex(shells));
    if filtered == [] then shells else filtered
  }

  lemma IdsOfAtMost(xs: seq<Shell>)
    ensures |IdsOf(xs)| <= |xs|
  {
    if xs != [] {
      var init := xs[..|xs| - 1];
      IdsOfAtMost(init);
      assert xs == init + [xs[|xs| - 1]];
      assert IdsOf(xs) == IdsOf(init) + {xs[|xs| - 1].id};
    }
  }

  lemma IdsOfDistinct(xs: seq<Shell>)
    requires DistinctIds(xs)
    ensures |IdsOf(xs)| == |xs|
  {
    if xs != [] {
      var init, last := xs[..|xs| - 1], xs[|xs| - 1];
      IdsOfDistinct(init);
      assert xs == init + [last];
      assert IdsOf(xs) == IdsOf(init) + {last.id};
      assert last.id !in IdsOf(init);
    }
  }

  /** A list of shells with distinct Ids taken from xs is no longer than xs. */
  lemma DistinctNoLonger(ys: seq<Shell>, xs: seq<Shell>)
    requires DistinctIds(ys) && forall y :: y in ys ==> y in xs
    ensures |ys| <= |xs|
  {
    IdsOfDistinct(ys);
    IdsOfAtMost(xs);
    assert IdsOf(ys) <= IdsOf(xs);
    assert |IdsOf(ys)| <= |IdsOf(xs)| by {
      SubsetCard(IdsOf(ys), IdsOf(xs));
    }
  }

  lemma SubsetCard(a: set<string>, b: set<string>)
    requires a <= b
    ensures |a| <= |b|
  {
    assert b == a + (b - a);
  }

  /** There are candidates whenever there are shells, all of them shells,
      and never more of them than shells. */
  lemma CandidatesSpec(c: Customer, shells: seq<Shell>)
    ensures shells != [] ==> Candidates(c, shells) != []
    ensures forall x :: x in Candidates(c, shells) ==> x in shells
    ensures |Candidates(c, shells)| <= |shells|
  {
    var filtered := Filtered(c, WebsiteIndex(shells), NameIndex(shells));
    FilteredFromShells(c, shells);
    if filtered != [] {
      FilteredSpec(c, WebsiteIndex(shells), NameIndex(shells));
      DistinctNoLonger(filtered, shells);
    }
  }

  /** find_best_shell_match. */
  method FindBestShellMatch(c: Customer, shells: seq<Shell>) returns (outcome: MatchOutcome)
    ensures outcome.Failure? <==> shells == []
    ensures outcome.Failure? ==> outcome.message == "No shell accounts provided"
    ensures outcome.Found? ==>
              && outcome.totalShells == |shells|
              && outcome.candidateCount == |Candidates(c, shells)|
              && 0 < outcome.candidateCount <= outcome.totalShells
              && outcome.best == Ranking(Candidates(c, shells), SimilarityTo(c))[0]
              && IsBest(Candidates(c, shells), SimilarityTo(c), outcome.best)
  {
    if shells == [] {
      return Failure("No shell accounts provided");
    }
    var websiteBuckets, nameBuckets := CreateHashBuckets(shells);
    var candidates := FastFilterCandidates(c, websiteBuckets, nameBuckets);
    if candidates == [] {
      candidates := shells;
    }
    var ranked := RankShellCandidates(c, candidates);
    CandidatesSpec(c, shells);
    if ranked == [] {
      return Failure("No viable shell candidates found");
    }
    BestOfRanking(candidates, SimilarityTo(c));
    outcome := Found(ranked[0], |candidates|, |shells|);
  }
}
