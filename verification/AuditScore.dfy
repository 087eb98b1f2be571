/** The audit's arithmetic: checks into factor scores, factor scores into an overall score, and what raising checks does. */
module AuditScore {
  import opened Wrappers
  import opened Sequences

  // Rounding to tenths

  /** `Math.round(value * 10) / 10`. */
  function Round1(value: real): real {
    (value * 10.0 + 0.5).Floor as real / 10.0
  }

  predicate IsTenths(value: real) {
    value * 10.0 == (value * 10.0).Floor as real
  }

  lemma RoundMonotone(a: real, b: real)
    requires a <= b
    ensures Round1(a) <= Round1(b)
  {
    assert (a * 10.0 + 0.5).Floor <= (b * 10.0 + 0.5).Floor;
  }

  lemma RoundGivesTenths(value: real)
    ensures IsTenths(Round1(value))
  {
    assert Round1(value) * 10.0 == (value * 10.0 + 0.5).Floor as real;
  }

  lemma RoundKeepsTenths(value: real)
    requires IsTenths(value)
    ensures Round1(value) == value
  {
    assert (value * 10.0 + 0.5).Floor == (value * 10.0).Floor;
  }

  lemma TenthsDifference(a: real, b: real)
    requires IsTenths(a) && IsTenths(b)
    ensures IsTenths(a - b)
  {
    var n := (a * 10.0).Floor - (b * 10.0).Floor;
    assert (a - b) * 10.0 == n as real;
  }

  lemma WholeIsTenths(n: int)
    ensures IsTenths(n as real)
  {
    assert n as real * 10.0 == (n * 10) as real;
  }

  lemma RoundWithin(value: real, low: int, high: int)
    requires low as real <= value <= high as real
    ensures low as real <= Round1(value) <= high as real
  {
    RoundMonotone(low as real, value);
    RoundMonotone(value, high as real);
    WholeIsTenths(low);
    WholeIsTenths(high);
    RoundKeepsTenths(low as real);
    RoundKeepsTenths(high as real);
  }

  // Checks

  type CheckId = int

  datatype Status = Unanswered | Pass | Warn | Fail

  function StatusFromScore(score: Option<real>): Status {
    if score.None? then Unanswered
    else if score.value >= 7.0 then Pass
    else if score.value >= 4.0 then Warn
    else Fail
  }

  function Clamp(value: real, low: real, high: real): real {
    if value < low then low else if value > high then high else value
  }

  datatype Check = Check(id: CheckId, weight: real, score: Option<real>, advised: bool)

  /** `check`: the score clamped and rounded, and advice only where something is to gain. */
  function MakeCheck(id: CheckId, weight: real, score: Option<real>, hasAdvice: bool): Check {
    var stored := if score.None? then None else Some(Round1(Clamp(score.value, 0.0, 10.0)));
    Check(id, weight, stored, hasAdvice && StatusFromScore(stored) in {Warn, Fail})
  }

  /** What every check of a report meets. */
  predicate Sound(check: Check) {
    && check.weight > 0.0
    && (check.score.Some? ==> 0.0 <= check.score.value <= 10.0)
    && (check.advised ==> check.score.Some? && check.score.value < 7.0)
  }

  /** What holds of a check also when it is raised. */
  predicate Bounded(check: Check) {
    check.weight > 0.0 && (check.score.Some? ==> 0.0 <= check.score.value <= 10.0)
  }

  lemma MadeChecksAreSound(id: CheckId, weight: real, score: Option<real>, hasAdvice: bool)
    requires weight > 0.0
    ensures Sound(MakeCheck(id, weight, score, hasAdvice))
    ensures score.Some? <==> MakeCheck(id, weight, score, hasAdvice).score.Some?
  {
    if score.Some? {
      RoundWithin(Clamp(score.value, 0.0, 10.0), 0, 10);
    }
  }

  const RAISED_SCORE: real := 10.0

  function Raise(check: Check, raised: set<CheckId>): Check {
    if check.id in raised then check.(score := Some(RAISED_SCORE)) else check
  }

  function RaiseAll(checks: seq<Check>, raised: set<CheckId>): (r: seq<Check>)
    ensures |r| == |checks| && forall i :: 0 <= i < |checks| ==> r[i] == Raise(checks[i], raised)
  {
    seq(|checks|, i requires 0 <= i < |checks| => Raise(checks[i], raised))
  }

  predicate ChecksSound(checks: seq<Check>) {
    forall i :: 0 <= i < |checks| ==> Sound(checks[i])
  }

  /** Only checks that have a score are raised. */
  predicate Raisable(checks: seq<Check>, raised: set<CheckId>) {
    forall i :: 0 <= i < |checks| && checks[i].id in raised ==> checks[i].score.Some?
  }

  // Factor scores

  function Worth(check: Check): real {
    if check.score.Some? then check.weight else 0.0
  }

  function Gain(check: Check): real {
    if check.score.Some? then check.weight * check.score.value else 0.0
  }

  function WeightSum(checks: seq<Check>): real {
    if checks == [] then 0.0 else WeightSum(Init(checks)) + Last(checks).weight
  }

  function WorthSum(checks: seq<Check>): real {
    if checks == [] then 0.0 else WorthSum(Init(checks)) + Worth(Last(checks))
  }

  function GainSum(checks: seq<Check>): real {
    if checks == [] then 0.0 else GainSum(Init(checks)) + Gain(Last(checks))
  }

  datatype Confident = Confident(score: Option<real>, confidence: real)

  function Quotient(a: real, b: real): real
    requires b != 0.0
  {
    a / b
  }

  /** `scoreFactor`: the weighted mean of the scored checks, and which part of the weight they are. */
  function ScoreFactor(checks: seq<Check>): Confident {
    var worth := WorthSum(checks);
    if worth == 0.0 then Confident(None, 0.0)
    else
      Confident(Some(Round1(Quotient(GainSum(checks), worth))),
                if WeightSum(checks) == 0.0 then 0.0 else Quotient(worth, WeightSum(checks)))
  }

  lemma {:induction false} Sums(checks: seq<Check>)
    requires forall i :: 0 <= i < |checks| ==> Bounded(checks[i])
    ensures 0.0 <= WorthSum(checks) <= WeightSum(checks)
    ensures 0.0 <= GainSum(checks) <= 10.0 * WorthSum(checks)
  {
    if checks != [] {
      assert forall i :: 0 <= i < |checks| - 1 ==> Init(checks)[i] == checks[i];
      assert Bounded(Last(checks));
      Sums(Init(checks));
      GainWithin(Last(checks));
    }
  }

  lemma GainWithin(check: Check)
    requires Bounded(check)
    ensures 0.0 <= Gain(check) <= 10.0 * Worth(check)
  {
    if check.score.Some? {
      ProductWithin(check.weight, check.score.value, 10.0);
    }
  }

  lemma ProductWithin(w: real, s: real, t: real)
    requires w >= 0.0 && 0.0 <= s <= t
    ensures 0.0 <= w * s <= w * t
  {
  }

  lemma {:induction false} RaisedSums(checks: seq<Check>, few: set<CheckId>, many: set<CheckId>)
    requires ChecksSound(checks) && few <= many && Raisable(checks, many)
    ensures WeightSum(RaiseAll(checks, few)) == WeightSum(RaiseAll(checks, many))
    ensures WorthSum(RaiseAll(checks, few)) == WorthSum(RaiseAll(checks, many))
    ensures GainSum(RaiseAll(checks, few)) <= GainSum(RaiseAll(checks, many))
  {
    if checks != [] {
      assert forall i :: 0 <= i < |checks| - 1 ==> Init(checks)[i] == checks[i];
      RaisedSums(Init(checks), few, many);
      assert Init(RaiseAll(checks, few)) == RaiseAll(Init(checks), few);
      assert Init(RaiseAll(checks, many)) == RaiseAll(Init(checks), many);
      RaisedGain(Last(checks), few, many);
    }
  }

  lemma RaisedGain(check: Check, few: set<CheckId>, many: set<CheckId>)
    requires Sound(check) && few <= many && (check.id in many ==> check.score.Some?)
    ensures Gain(Raise(check, few)) <= Gain(Raise(check, many))
    ensures Worth(Raise(check, few)) == Worth(Raise(check, many))
  {
    if check.id in many && check.id !in few {
      GainOrder(Raise(check, few), Raise(check, many));
    }
  }

  lemma GainOrder(a: Check, b: Check)
    requires a.weight == b.weight > 0.0
    requires a.score.Some? && b.score.Some? && 0.0 <= a.score.value <= b.score.value
    ensures Gain(a) <= Gain(b)
  {
    ProductOrder(a.weight, b.weight, a.score.value, b.score.value);
  }

  lemma ProductOrder(w: real, w': real, s: real, t: real)
    requires w == w' >= 0.0 && 0.0 <= s <= t
    ensures w * s <= w' * t
  {
    ProductWithin(w, s, t);
  }

  lemma QuotientWithin(a: real, b: real, n: int)
    requires b > 0.0 && 0.0 <= a <= n as real * b
    ensures 0.0 <= Quotient(a, b) <= n as real
  {
  }

  lemma QuotientMonotone(a: real, b: real, d: real)
    requires d > 0.0 && a <= b
    ensures Quotient(a, d) <= Quotient(b, d)
  {
  }

  lemma QuotientPositive(a: real, b: real)
    requires a > 0.0 && b > 0.0
    ensures Quotient(a, b) > 0.0
  {
  }

  // The overall score

  datatype Factor = Factor(weight: real, checks: seq<Check>)

  predicate FactorSound(factor: Factor) {
    factor.weight > 0.0 && ChecksSound(factor.checks)
  }

  predicate FactorsSound(factors: seq<Factor>) {
    forall i :: 0 <= i < |factors| ==> FactorSound(factors[i])
  }

  predicate AllRaisable(factors: seq<Factor>, raised: set<CheckId>) {
    forall i :: 0 <= i < |factors| ==> Raisable(factors[i].checks, raised)
  }

  /** `factorScore`. */
  function ScoreWith(factor: Factor, raised: set<CheckId>): Confident {
    ScoreFactor(RaiseAll(factor.checks, raised))
  }

  /** What a factor's score weighs in the overall score. */
  function BaseOf(weight: real, confidence: real, scored: bool): real {
    if scored then weight * confidence else 0.0
  }

  function PointsOf(base: real, score: Option<real>): real {
    if score.Some? then base * score.value else 0.0
  }

  function Base(factor: Factor, raised: set<CheckId>): real {
    BaseOf(factor.weight, ScoreWith(factor, raised).confidence, ScoreWith(factor, raised).score.Some?)
  }

  function Points(factor: Factor, raised: set<CheckId>): real {
    PointsOf(Base(factor, raised), ScoreWith(factor, raised).score)
  }

  function BaseSum(factors: seq<Factor>, raised: set<CheckId>): real {
    if factors == [] then 0.0 else BaseSum(Init(factors), raised) + Base(Last(factors), raised)
  }

  function PointsSum(factors: seq<Factor>, raised: set<CheckId>): real {
    if factors == [] then 0.0 else PointsSum(Init(factors), raised) + Points(Last(factors), raised)
  }

  /** `overallWith`: the factors' mean on a scale of 100, or nothing when no factor has a score. */
  function OverallWith(factors: seq<Factor>, raised: set<CheckId>): Option<real> {
    var base := BaseSum(factors, raised);
    if base == 0.0 then None else Some(Round1(Quotient(10.0 * PointsSum(factors, raised), base)))
  }

  lemma RaisedBounded(checks: seq<Check>, raised: set<CheckId>)
    requires ChecksSound(checks)
    ensures forall i :: 0 <= i < |checks| ==> Bounded(RaiseAll(checks, raised)[i])
  {
    forall i | 0 <= i < |checks|
      ensures Bounded(RaiseAll(checks, raised)[i])
    {
      assert Sound(checks[i]);
    }
  }

  /** A factor's score lies in [0, 10] and only rises with more raised checks; its confidence stays. */
  lemma FactorRises(factor: Factor, few: set<CheckId>, many: set<CheckId>)
    requires FactorSound(factor) && few <= many && Raisable(factor.checks, many)
    ensures var (a, b) := (ScoreWith(factor, few), ScoreWith(factor, many));
            && a.confidence == b.confidence
            && (a.score.Some? <==> b.score.Some?)
            && (a.score.Some? ==> a.confidence > 0.0 && 0.0 <= a.score.value <= b.score.value <= 10.0)
  {
    var (p, q) := (RaiseAll(factor.checks, few), RaiseAll(factor.checks, many));
    RaisedSums(factor.checks, few, many);
    RaisedBounded(factor.checks, few);
    RaisedBounded(factor.checks, many);
    Sums(p);
    Sums(q);
    var worth := WorthSum(p);
    if worth != 0.0 {
      QuotientPositive(worth, WeightSum(p));
      QuotientMonotone(GainSum(p), GainSum(q), worth);
      QuotientWithin(GainSum(p), worth, 10);
      QuotientWithin(GainSum(q), worth, 10);
      RoundMonotone(Quotient(GainSum(p), worth), Quotient(GainSum(q), worth));
      RoundWithin(Quotient(GainSum(p), worth), 0, 10);
      RoundWithin(Quotient(GainSum(q), worth), 0, 10);
    }
  }

  lemma PointsRise(factor: Factor, few: set<CheckId>, many: set<CheckId>)
    requires FactorSound(factor) && few <= many && Raisable(factor.checks, many)
    ensures Base(factor, few) == Base(factor, many) >= 0.0
    ensures 0.0 <= Points(factor, few) <= Points(factor, many) <= 10.0 * Base(factor, many)
  {
    FactorRises(factor, few, many);
    BaseNotNegative(factor.weight, ScoreWith(factor, few).confidence, ScoreWith(factor, few).score.Some?);
    PointsOfRise(Base(factor, few), ScoreWith(factor, few).score, ScoreWith(factor, many).score);
  }

  lemma BaseNotNegative(weight: real, confidence: real, scored: bool)
    requires weight > 0.0 && (scored ==> confidence > 0.0)
    ensures BaseOf(weight, confidence, scored) >= 0.0
  {
    if scored {
      ProductWithin(weight, confidence, confidence);
    }
  }

  lemma PointsOfRise(base: real, s: Option<real>, t: Option<real>)
    requires base >= 0.0 && (s.Some? <==> t.Some?) && (s.Some? ==> 0.0 <= s.value <= t.value <= 10.0)
    ensures 0.0 <= PointsOf(base, s) <= PointsOf(base, t) <= 10.0 * base
  {
    if s.Some? {
      var (x, y) := (s.value, t.value);
      ProductWithin(base, x, y);
      ProductWithin(base, y, 10.0);
      calc {
        PointsOf(base, t);
      == base * y;
      <= base * 10.0;
      == 10.0 * base;
      }
      calc {
        PointsOf(base, s);
      == base * x;
      <= base * y;
      }
    }
  }

  lemma {:induction false} SumsRise(factors: seq<Factor>, few: set<CheckId>, many: set<CheckId>)
    requires FactorsSound(factors) && few <= many && AllRaisable(factors, many)
    ensures BaseSum(factors, few) == BaseSum(factors, many) >= 0.0
    ensures 0.0 <= PointsSum(factors, few) <= PointsSum(factors, many) <= 10.0 * BaseSum(factors, many)
  {
    if factors != [] {
      assert forall i :: 0 <= i < |factors| - 1 ==> Init(factors)[i] == factors[i];
      SumsRise(Init(factors), few, many);
      PointsRise(Last(factors), few, many);
    }
  }

  /** Raising more checks never lowers the overall score, through both roundings, and it stays in [0, 100]. */
  lemma OverallRises(factors: seq<Factor>, few: set<CheckId>, many: set<CheckId>)
    requires FactorsSound(factors) && few <= many && AllRaisable(factors, many)
    ensures var (a, b) := (OverallWith(factors, few), OverallWith(factors, many));
            && (a.Some? <==> b.Some?)
            && (a.Some? ==> 0.0 <= a.value <= b.value <= 100.0 && IsTenths(a.value) && IsTenths(b.value))
  {
    SumsRise(factors, few, many);
    var base := BaseSum(factors, few);
    if base != 0.0 {
      var (p, q) := (10.0 * PointsSum(factors, few), 10.0 * PointsSum(factors, many));
      QuotientMonotone(p, q, base);
      QuotientWithin(p, base, 100);
      QuotientWithin(q, base, 100);
      RoundMonotone(Quotient(p, base), Quotient(q, base));
      RoundWithin(Quotient(p, base), 0, 100);
      RoundWithin(Quotient(q, base), 0, 100);
      RoundGivesTenths(Quotient(p, base));
      RoundGivesTenths(Quotient(q, base));
    }
  }

  // A perfect report

  predicate AllRaised(checks: seq<Check>, raised: set<CheckId>) {
    forall i :: 0 <= i < |checks| ==> checks[i].id in raised
  }

  lemma {:induction false} PerfectSums(checks: seq<Check>, raised: set<CheckId>)
    requires ChecksSound(checks) && AllRaised(checks, raised)
    ensures var r := RaiseAll(checks, raised);
            && WorthSum(r) == WeightSum(r) && GainSum(r) == 10.0 * WorthSum(r)
            && (checks != [] ==> WorthSum(r) > 0.0)
  {
    if checks != [] {
      assert forall i :: 0 <= i < |checks| - 1 ==> Init(checks)[i] == checks[i];
      assert Sound(Last(checks));
      PerfectSums(Init(checks), raised);
      assert Init(RaiseAll(checks, raised)) == RaiseAll(Init(checks), raised);
    } else {
      assert RaiseAll(checks, raised) == [];
    }
  }

  lemma TimesOver(a: real, n: real)
    requires a != 0.0
    ensures Quotient(n * a, a) == n
  {
  }

  lemma PerfectFactor(factor: Factor, raised: set<CheckId>)
    requires FactorSound(factor) && factor.checks != [] && AllRaised(factor.checks, raised)
    ensures ScoreWith(factor, raised) == Confident(Some(10.0), 1.0)
    ensures Base(factor, raised) == factor.weight && Points(factor, raised) == 10.0 * factor.weight
  {
    var worth := WorthSum(RaiseAll(factor.checks, raised));
    PerfectSums(factor.checks, raised);
    TimesOver(worth, 10.0);
    TimesOver(worth, 1.0);
    WholeIsTenths(10);
    RoundKeepsTenths(10.0);
  }

  lemma {:induction false} PerfectTotals(factors: seq<Factor>, raised: set<CheckId>)
    requires FactorsSound(factors)
    requires forall i :: 0 <= i < |factors| ==> factors[i].checks != [] && AllRaised(factors[i].checks, raised)
    ensures PointsSum(factors, raised) == 10.0 * BaseSum(factors, raised)
    ensures BaseSum(factors, raised) >= 0.0 && (factors != [] ==> BaseSum(factors, raised) > 0.0)
  {
    if factors != [] {
      assert forall i :: 0 <= i < |factors| - 1 ==> Init(factors)[i] == factors[i];
      assert FactorSound(Last(factors));
      PerfectTotals(Init(factors), raised);
      PerfectFactor(Last(factors), raised);
    }
  }

  /** A report in which every check is raised scores 100, whatever the weights. */
  lemma PerfectReport(factors: seq<Factor>, raised: set<CheckId>)
    requires FactorsSound(factors) && factors != []
    requires forall i :: 0 <= i < |factors| ==> factors[i].checks != [] && AllRaised(factors[i].checks, raised)
    ensures OverallWith(factors, raised) == Some(100.0)
  {
    PerfectTotals(factors, raised);
    var base := BaseSum(factors, raised);
    assert 10.0 * PointsSum(factors, raised) == 100.0 * base;
    TimesOver(base, 100.0);
    WholeIsTenths(100);
    RoundKeepsTenths(100.0);
  }

  // Lifts

  function Max(a: real, b: real): real {
    if a < b then b else a
  }

  /** What raising one check alone would add, as a recommendation shows it. */
  function Lift(factors: seq<Factor>, id: CheckId, overall: real): real {
    Max(0.0, Round1(OverallWith(factors, {id}).GetOr(overall) - overall))
  }

  function AllChecks(factors: seq<Factor>): seq<Check> {
    if factors == [] then [] else AllChecks(Init(factors)) + Last(factors).checks
  }

  /** Each check id stands for one check. */
  predicate IdsUnique(factors: seq<Factor>) {
    forall c, d :: c in AllChecks(factors) && d in AllChecks(factors) && c.id == d.id ==> c == d
  }

  function AdvisedIds(factors: seq<Factor>): set<CheckId> {
    set c | c in AllChecks(factors) && c.advised :: c.id
  }

  lemma {:induction false} ChecksOfFactors(factors: seq<Factor>, i: nat, j: nat)
    requires i < |factors| && j < |factors[i].checks|
    ensures factors[i].checks[j] in AllChecks(factors)
  {
    if i < |factors| - 1 {
      assert Init(factors)[i] == factors[i];
      ChecksOfFactors(Init(factors), i, j);
    }
  }

  lemma {:induction false} AllChecksSound(factors: seq<Factor>, check: Check)
    requires FactorsSound(factors) && check in AllChecks(factors)
    ensures Sound(check)
  {
    assert forall i :: 0 <= i < |factors| - 1 ==> Init(factors)[i] == factors[i];
    if check in AllChecks(Init(factors)) {
      AllChecksSound(Init(factors), check);
    } else {
      assert FactorSound(Last(factors));
    }
  }

  lemma AdvisedAreRaisable(factors: seq<Factor>)
    requires FactorsSound(factors) && IdsUnique(factors)
    ensures AllRaisable(factors, AdvisedIds(factors))
  {
    forall i, j | 0 <= i < |factors| && 0 <= j < |factors[i].checks| && factors[i].checks[j].id in AdvisedIds(factors)
      ensures factors[i].checks[j].score.Some?
    {
      ChecksOfFactors(factors, i, j);
      var c :| c in AllChecks(factors) && c.advised && c.id == factors[i].checks[j].id;
      AllChecksSound(factors, c);
    }
  }

  lemma RaisableFewer(factors: seq<Factor>, few: set<CheckId>, many: set<CheckId>)
    requires few <= many && AllRaisable(factors, many)
    ensures AllRaisable(factors, few)
  {
    forall i | 0 <= i < |factors|
      ensures Raisable(factors[i].checks, few)
    {
      assert Raisable(factors[i].checks, many);
    }
  }

  /** A lift is what raising its check alone adds, not negative, and no more than raising all advised checks adds. */
  predicate LiftHolds(factors: seq<Factor>, id: CheckId, overall: real, lift: real) {
    var (raised, potential) := (OverallWith(factors, {id}), OverallWith(factors, AdvisedIds(factors)));
    && raised == Some(overall + lift) && potential.Some?
    && 0.0 <= lift <= potential.value - overall
    && potential.value <= 100.0
  }

  /**
   The lift of an advised check is exactly what raising it adds: the rounding loses nothing, the
   clamp at zero is never used, and no lift is more than what raising all advised checks adds.
   */
  lemma LiftWithinPotential(factors: seq<Factor>, id: CheckId, overall: real)
    requires FactorsSound(factors) && IdsUnique(factors) && id in AdvisedIds(factors)
    requires OverallWith(factors, {}) == Some(overall)
    ensures LiftHolds(factors, id, overall, Lift(factors, id, overall))
  {
    var all := AdvisedIds(factors);
    AdvisedAreRaisable(factors);
    RaisableFewer(factors, {id}, all);
    OverallRises(factors, {}, {id});
    OverallRises(factors, {id}, all);
    var raised := OverallWith(factors, {id}).value;
    TenthsDifference(raised, overall);
    RoundKeepsTenths(raised - overall);
  }
}
