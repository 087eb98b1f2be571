/** The audit's figures as the means they are meant to be, and the buckets of its recommendations. */
module AuditRules {
  import opened Wrappers
  import opened Sequences
  import opened AuditScore
  import opened AuditRecommendations

  function Sum(values: seq<real>): real {
    if values == [] then 0.0 else Sum(Init(values)) + Last(values)
  }

  /** The nearest tenth, upwards from the middle. */
  ghost predicate IsNearestTenth(tenth: real, value: real) {
    exists n: int :: NearestTenth(tenth, value, n)
  }

  predicate NearestTenth(tenth: real, value: real, n: int) {
    tenth * 10.0 == n as real && value * 10.0 - 0.5 < n as real <= value * 10.0 + 0.5
  }

  lemma RoundIsNearest(value: real)
    ensures IsNearestTenth(Round1(value), value)
  {
    var n := (value * 10.0 + 0.5).Floor;
    assert Round1(value) == n as real / 10.0;
    assert NearestTenth(Round1(value), value, n);
  }

  /**
   A made check keeps its id and weight; its score is the nearest tenth of the given one, held within
   0 and 10; it is advised exactly when there is advice and a score below 7.
   */
  lemma MadeCheck(id: CheckId, weight: real, score: Option<real>, hasAdvice: bool)
    ensures var check := MakeCheck(id, weight, score, hasAdvice);
            && check.id == id && check.weight == weight
            && (score.None? <==> check.score.None?)
            && (score.Some? && score.value <= 0.0 ==> check.score == Some(0.0))
            && (score.Some? && score.value >= 10.0 ==> check.score == Some(10.0))
            && (score.Some? && 0.0 < score.value < 10.0 ==> IsNearestTenth(check.score.value, score.value))
            && (check.advised <==> hasAdvice && check.score.Some? && check.score.value < 7.0)
  {
    if score.Some? {
      RoundIsNearest(score.value);
      WholeIsTenths(0);
      WholeIsTenths(10);
      RoundKeepsTenths(0.0);
      RoundKeepsTenths(10.0);
    }
  }

  /** Passed from 7 on, a warning from 4 on, else failed; without a score unanswered. */
  lemma StatusByScore(score: Option<real>)
    ensures StatusFromScore(score) == Pass <==> score.Some? && score.value >= 7.0
    ensures StatusFromScore(score) == Warn <==> score.Some? && 4.0 <= score.value < 7.0
    ensures StatusFromScore(score) == Fail <==> score.Some? && score.value < 4.0
  {
  }

  /** A check that is raised has the full score of 10, the others keep theirs. */
  lemma RaisedCheck(check: Check, raised: set<CheckId>)
    ensures check.id in raised ==> Raise(check, raised) == Check(check.id, check.weight, Some(10.0), check.advised)
    ensures check.id !in raised ==> Raise(check, raised) == check
  {
  }

  // A factor

  function IsScored(): Check -> bool {
    (c: Check) => c.score.Some?
  }

  function WeightOf(): Check -> real {
    (c: Check) => c.weight
  }

  function GainOf(): Check -> real {
    (c: Check) => if c.score.Some? then c.weight * c.score.value else 0.0
  }

  lemma {:induction false} CheckSums(checks: seq<Check>)
    ensures WeightSum(checks) == Sum(Map(WeightOf(), checks))
    ensures WorthSum(checks) == Sum(Map(WeightOf(), Filter(IsScored(), checks)))
    ensures GainSum(checks) == Sum(Map(GainOf(), Filter(IsScored(), checks)))
  {
    if checks == [] {
      assert Map(WeightOf(), checks) == [];
    } else {
      CheckSums(Init(checks));
      InitOfMap(WeightOf(), checks);
      var before := Filter(IsScored(), Init(checks));
      var scored := Filter(IsScored(), checks);
      if Last(checks).score.Some? {
        assert scored == before + [Last(checks)] && Init(scored) == before;
        InitOfMap(WeightOf(), scored);
        InitOfMap(GainOf(), scored);
      }
    }
  }

  function WeightOfAll(checks: seq<Check>): real {
    Sum(Map(WeightOf(), checks))
  }

  function WeightOfScored(checks: seq<Check>): real {
    WeightOfAll(Filter(IsScored(), checks))
  }

  function GainOfScored(checks: seq<Check>): real {
    Sum(Map(GainOf(), Filter(IsScored(), checks)))
  }

  /**
   A factor's score is the weighted mean of its scored checks, to the nearest tenth, and its
   confidence the part of the weight that is scored; without scored weight it has neither.
   */
  lemma FactorIsMean(checks: seq<Check>)
    ensures var factor := ScoreFactor(checks);
            && (WeightOfScored(checks) == 0.0 ==> factor == Confident(None, 0.0))
            && (WeightOfScored(checks) != 0.0 ==>
                  factor.score.Some? && IsNearestTenth(factor.score.value, Quotient(GainOfScored(checks), WeightOfScored(checks))))
            && (WeightOfScored(checks) != 0.0 && WeightOfAll(checks) != 0.0 ==>
                  factor.confidence == Quotient(WeightOfScored(checks), WeightOfAll(checks)))
  {
    CheckSums(checks);
    if WeightOfScored(checks) != 0.0 {
      RoundIsNearest(Quotient(GainOfScored(checks), WeightOfScored(checks)));
    }
  }

  // The whole audit

  function IsScoredFactor(raised: set<CheckId>): Factor -> bool {
    (f: Factor) => ScoreWith(f, raised).score.Some?
  }

  /** A factor counts with its weight times its confidence. */
  function Share(factor: Factor, raised: set<CheckId>): real {
    factor.weight * ScoreWith(factor, raised).confidence
  }

  function PointsIn(factor: Factor, raised: set<CheckId>): real {
    Share(factor, raised) * ScoreWith(factor, raised).score.GetOr(0.0)
  }

  function ShareOf(raised: set<CheckId>): Factor -> real {
    (f: Factor) => Share(f, raised)
  }

  function PointsOfFactor(raised: set<CheckId>): Factor -> real {
    (f: Factor) => PointsIn(f, raised)
  }

  lemma ScoredFactor(factor: Factor, raised: set<CheckId>)
    ensures IsScoredFactor(raised)(factor) ==>
              Base(factor, raised) == Share(factor, raised) && Points(factor, raised) == PointsIn(factor, raised)
    ensures !IsScoredFactor(raised)(factor) ==> Base(factor, raised) == 0.0 && Points(factor, raised) == 0.0
  {
  }

  lemma SumGrows<T>(f: T -> real, s: seq<T>, x: T)
    ensures Sum(Map(f, s + [x])) == Sum(Map(f, s)) + f(x)
  {
    assert Init(Map(f, s + [x])) == Map(f, s);
  }

  lemma {:induction false} FactorSums(factors: seq<Factor>, raised: set<CheckId>)
    ensures BaseSum(factors, raised) == Sum(Map(ShareOf(raised), Filter(IsScoredFactor(raised), factors)))
    ensures PointsSum(factors, raised) == Sum(Map(PointsOfFactor(raised), Filter(IsScoredFactor(raised), factors)))
  {
    if factors != [] {
      FactorSums(Init(factors), raised);
      ScoredFactor(Last(factors), raised);
      var before := Filter(IsScoredFactor(raised), Init(factors));
      SumGrows(ShareOf(raised), before, Last(factors));
      SumGrows(PointsOfFactor(raised), before, Last(factors));
    }
  }

  function ShareOfScored(factors: seq<Factor>, raised: set<CheckId>): real {
    Sum(Map(ShareOf(raised), Filter(IsScoredFactor(raised), factors)))
  }

  function PointsOfScored(factors: seq<Factor>, raised: set<CheckId>): real {
    Sum(Map(PointsOfFactor(raised), Filter(IsScoredFactor(raised), factors)))
  }

  /**
   The overall score is ten times the mean of the scored factors, each by its weight times its
   confidence, to the nearest tenth; factors without a score do not count at all.
   */
  lemma OverallIsMean(factors: seq<Factor>, raised: set<CheckId>)
    ensures ShareOfScored(factors, raised) == 0.0 ==> OverallWith(factors, raised).None?
    ensures ShareOfScored(factors, raised) != 0.0 ==>
              && OverallWith(factors, raised).Some?
              && IsNearestTenth(OverallWith(factors, raised).value,
                                Quotient(10.0 * PointsOfScored(factors, raised), ShareOfScored(factors, raised)))
  {
    FactorSums(factors, raised);
    if ShareOfScored(factors, raised) != 0.0 {
      RoundIsNearest(Quotient(10.0 * PointsOfScored(factors, raised), ShareOfScored(factors, raised)));
    }
  }

  // The buckets

  /** The more lift first; of equal lifts the heavier factor, then the smaller id. */
  predicate RanksBefore(a: Entry, b: Entry) {
    if a.lift != b.lift then a.lift > b.lift
    else if a.weight != b.weight then a.weight > b.weight
    else a.id <= b.id
  }

  ghost predicate Ranked(entries: seq<Entry>) {
    forall i, j :: 0 <= i < j < |entries| ==> RanksBefore(entries[i], entries[j])
  }

  /**
   The buckets hold what their names say, ranked: what takes minutes, what takes hours and adds at
   least a point, and the rest.
   */
  lemma BucketsByEffort(factors: seq<Factor>, overall: real, effortOf: CheckId -> Effort, bucket: Bucket)
    ensures var entries := Filter(InBucket(bucket), SortBy(Rank(), Entries(factors, overall, effortOf, |factors|)));
            && Ranked(entries)
            && forall i :: 0 <= i < |entries| ==>
                 && (bucket == QuickWins <==> entries[i].effort == Minutes)
                 && (bucket == HighImpact <==> entries[i].effort == Hours && entries[i].lift >= 1.0)
                 && (bucket == Strategic <==>
                       entries[i].effort == Weeks || (entries[i].effort == Hours && entries[i].lift < 1.0))
  {
    var ranked := SortBy(Rank(), Entries(factors, overall, effortOf, |factors|));
    var entries := Filter(InBucket(bucket), ranked);
    RecommendedOnce(factors, overall, effortOf);
    FilterMembers(InBucket(bucket), ranked);
    forall i, j | 0 <= i < j < |entries|
      ensures RanksBefore(entries[i], entries[j])
    {
      assert Rank()(entries[i], entries[j]);
    }
    forall i | 0 <= i < |entries|
      ensures BucketFor(entries[i].effort, entries[i].lift) == bucket
    {
      assert entries[i] in entries;
    }
  }
}
