/**
 The weight fit of the popularity study: weighted least squares with a ridge penalty on every
 coefficient but the intercept, through the normal equations.
 */
module RidgeFit {
  import opened Wrappers
  import opened Sequences
  import opened Vectors
  import opened RidgeSolver

  /** A design vector with its weight and its target, `log1p` already taken. */
  datatype Sample = Sample(x: Vector, weight: real, target: real)

  predicate Fits(rows: seq<Sample>, size: nat) {
    forall r :: 0 <= r < |rows| ==> |rows[r].x| == size
  }

  predicate Weighted(rows: seq<Sample>) {
    forall r :: 0 <= r < |rows| ==> rows[r].weight >= 0.0
  }

  function Designs(rows: seq<Sample>): (xs: seq<Vector>)
    ensures |xs| == |rows| && forall r :: 0 <= r < |rows| ==> xs[r] == rows[r].x
  {
    seq(|rows|, r requires 0 <= r < |rows| => rows[r].x)
  }

  function Targets(rows: seq<Sample>): (t: Vector)
    ensures |t| == |rows| && forall r :: 0 <= r < |rows| ==> t[r] == rows[r].target
  {
    seq(|rows|, r requires 0 <= r < |rows| => rows[r].target)
  }

  /** `row.weight * x[i]`. */
  function Scaled(row: Sample, i: nat): real
    requires i < |row.x|
  {
    row.weight * row.x[i]
  }

  function Scales(rows: seq<Sample>, size: nat, i: nat): (f: Vector)
    requires Fits(rows, size) && i < size
    ensures |f| == |rows| && forall r :: 0 <= r < |rows| ==> f[r] == Scaled(rows[r], i)
  {
    seq(|rows|, r requires 0 <= r < |rows| => Scaled(rows[r], i))
  }

  /** Row `i` of the sum of weight * x * transposed x. */
  function GramRow(rows: seq<Sample>, size: nat, i: nat): (row: Vector)
    requires Fits(rows, size) && i < size
    ensures |row| == size
  {
    Combine(Scales(rows, size, i), Designs(rows), size)
  }

  function GramMatrix(rows: seq<Sample>, size: nat): (a: Matrix)
    requires Fits(rows, size)
    ensures |a| == size && forall i :: 0 <= i < size ==> a[i] == GramRow(rows, size, i)
  {
    seq(size, i requires 0 <= i < size => GramRow(rows, size, i))
  }

  /** Entry `i` of the sum of weight * x * target. */
  function Moment(rows: seq<Sample>, size: nat, i: nat): real
    requires Fits(rows, size) && i < size
  {
    Dot(Scales(rows, size, i), Targets(rows))
  }

  function Moments(rows: seq<Sample>, size: nat): (v: Vector)
    requires Fits(rows, size)
    ensures |v| == size && forall i :: 0 <= i < size ==> v[i] == Moment(rows, size, i)
  {
    seq(size, i requires 0 <= i < size => Moment(rows, size, i))
  }

  lemma OneMore(rows: seq<Sample>, sample: Sample, size: nat, i: nat)
    requires Fits(rows, size) && |sample.x| == size && i < size
    ensures GramRow(rows + [sample], size, i) == Plus(GramRow(rows, size, i), Scaled(sample, i), sample.x)
    ensures Moment(rows + [sample], size, i) == Moment(rows, size, i) + Scaled(sample, i) * sample.target
  {
    var all := rows + [sample];
    assert Init(Scales(all, size, i)) == Scales(rows, size, i);
    assert Init(Designs(all)) == Designs(rows);
    assert Init(Targets(all)) == Targets(rows);
  }

  // What is minimised

  function Square(r: real): real {
    r * r
  }

  /** How far a prediction is from its target. */
  function Miss(row: Sample, b: Vector): real {
    Dot(row.x, b) - row.target
  }

  function Loss(rows: seq<Sample>, b: Vector): real {
    if rows == [] then 0.0 else Loss(Init(rows), b) + LossTerm(Last(rows), b)
  }

  function LossTerm(row: Sample, b: Vector): real {
    row.weight * Square(Miss(row, b))
  }

  /** `ridge` times the squares of the coefficients 1 to n - 1. */
  function Penalty(ridge: real, b: Vector, n: nat): real
    requires n <= |b|
  {
    if n <= 1 then 0.0 else Penalty(ridge, b, n - 1) + ridge * Square(b[n - 1])
  }

  function Objective(rows: seq<Sample>, ridge: real, b: Vector): real {
    Loss(rows, b) + Penalty(ridge, b, |b|)
  }

  // The penalty as samples

  function Unit(size: nat, i: nat): (e: Vector)
    requires i < size
    ensures |e| == size && forall k :: 0 <= k < size ==> e[k] == if k == i then 1.0 else 0.0
  {
    seq(size, k requires 0 <= k < size => if k == i then 1.0 else 0.0)
  }

  function Pressure(size: nat, ridge: real, i: nat): Sample
    requires i < size
  {
    Sample(Unit(size, i), ridge, 0.0)
  }

  /** The samples with one more for each penalised coefficient below `n`, which wants it to be 0. */
  function WithRidge(rows: seq<Sample>, size: nat, ridge: real, n: nat): (all: seq<Sample>)
    requires Fits(rows, size) && n <= size
    ensures Fits(all, size)
    ensures Weighted(rows) && ridge >= 0.0 ==> Weighted(all)
  {
    if n <= 1 then rows else WithRidge(rows, size, ridge, n - 1) + [Pressure(size, ridge, n - 1)]
  }

  lemma {:induction false} RidgeLoss(rows: seq<Sample>, size: nat, ridge: real, n: nat, b: Vector)
    requires Fits(rows, size) && n <= size == |b|
    ensures Loss(WithRidge(rows, size, ridge, n), b) == Loss(rows, b) + Penalty(ridge, b, n)
  {
    if n > 1 {
      RidgeLoss(rows, size, ridge, n - 1, b);
      var before := WithRidge(rows, size, ridge, n - 1);
      assert Init(before + [Pressure(size, ridge, n - 1)]) == before;
      RidgeTerm(size, ridge, n, b);
    }
  }

  lemma RidgeTerm(size: nat, ridge: real, n: nat, b: Vector)
    requires 1 < n <= size == |b|
    ensures LossTerm(Pressure(size, ridge, n - 1), b) == ridge * Square(b[n - 1])
  {
    DotSingle(Unit(size, n - 1), b, n - 1);
    assert Unit(size, n - 1)[n - 1] * b[n - 1] == b[n - 1];
  }

  /** The extra samples add `ridge` on the diagonal behind the intercept, and nothing else. */
  lemma {:induction false} RidgeEquations(rows: seq<Sample>, size: nat, ridge: real, n: nat, i: nat, j: nat)
    requires Fits(rows, size) && n <= size && i < size && j < size
    ensures GramRow(WithRidge(rows, size, ridge, n), size, i)[j]
         == GramRow(rows, size, i)[j] + if i == j && 1 <= i < n then ridge else 0.0
    ensures Moment(WithRidge(rows, size, ridge, n), size, i) == Moment(rows, size, i)
  {
    if n > 1 {
      RidgeEquations(rows, size, ridge, n - 1, i, j);
      PressureAdds(WithRidge(rows, size, ridge, n - 1), size, ridge, n - 1, i, j);
    }
  }

  lemma PressureAdds(rows: seq<Sample>, size: nat, ridge: real, n: nat, i: nat, j: nat)
    requires Fits(rows, size) && n < size && i < size && j < size
    ensures GramRow(rows + [Pressure(size, ridge, n)], size, i)[j]
         == GramRow(rows, size, i)[j] + if i == j == n then ridge else 0.0
    ensures Moment(rows + [Pressure(size, ridge, n)], size, i) == Moment(rows, size, i)
  {
    OneMore(rows, Pressure(size, ridge, n), size, i);
    UnitProduct(size, ridge, n, i, j);
  }

  lemma UnitProduct(size: nat, ridge: real, n: nat, i: nat, j: nat)
    requires n < size && i < size && j < size
    ensures var sample := Pressure(size, ridge, n);
            && Scaled(sample, i) * sample.x[j] == (if i == j == n then ridge else 0.0)
            && Scaled(sample, i) * sample.target == 0.0
  {
  }

  // The slope of the loss

  /** The weighted error of a sample. */
  function Error(row: Sample, b: Vector): real {
    row.weight * Miss(row, b)
  }

  function Errors(rows: seq<Sample>, b: Vector): (e: Vector)
    ensures |e| == |rows| && forall r :: 0 <= r < |rows| ==> e[r] == Error(rows[r], b)
  {
    seq(|rows|, r requires 0 <= r < |rows| => Error(rows[r], b))
  }

  /** Half the slope of the loss at `b` in the direction `d`. */
  function Cross(rows: seq<Sample>, b: Vector, d: Vector): real {
    Dot(Errors(rows, b), Dots(Designs(rows), d))
  }

  function CrossTerm(row: Sample, b: Vector, d: Vector): real {
    Error(row, b) * Dot(row.x, d)
  }

  /** Half the gradient of the loss: how far `b` is from satisfying each normal equation. */
  function Gradient(rows: seq<Sample>, size: nat, b: Vector): (g: Vector)
    requires Fits(rows, size)
    ensures |g| == size
  {
    Combine(Errors(rows, b), Designs(rows), size)
  }

  lemma {:induction false} GradientEntry(rows: seq<Sample>, size: nat, b: Vector, i: nat)
    requires Fits(rows, size) && i < size
    ensures Gradient(rows, size, b)[i] == Dot(Scales(rows, size, i), Dots(Designs(rows), b)) - Moment(rows, size, i)
  {
    if rows != [] {
      var row := Last(rows);
      GradientEntry(Init(rows), size, b, i);
      GradientGrows(rows, size, b, i);
      ScalesGrow(rows, size, i, Dots(Designs(rows), b), Dots(Designs(Init(rows)), b), Dot(row.x, b));
      ScalesGrow(rows, size, i, Targets(rows), Targets(Init(rows)), row.target);
      ErrorShare(row, i, b);
    }
  }

  lemma GradientGrows(rows: seq<Sample>, size: nat, b: Vector, i: nat)
    requires Fits(rows, size) && i < size && rows != []
    ensures Gradient(rows, size, b)[i] == Gradient(Init(rows), size, b)[i] + Error(Last(rows), b) * Last(rows).x[i]
  {
    assert Init(Errors(rows, b)) == Errors(Init(rows), b);
    assert Init(Designs(rows)) == Designs(Init(rows));
  }

  lemma ScalesGrow(rows: seq<Sample>, size: nat, i: nat, p: Vector, before: Vector, last: real)
    requires Fits(rows, size) && i < size && rows != []
    requires |p| == |rows| && Init(p) == before && Last(p) == last
    ensures Dot(Scales(rows, size, i), p) == Dot(Scales(Init(rows), size, i), before) + Scaled(Last(rows), i) * last
  {
    assert Init(Scales(rows, size, i)) == Scales(Init(rows), size, i);
    DotSplit(Scales(rows, size, i), p, before, last);
  }

  lemma ErrorShare(row: Sample, i: nat, b: Vector)
    requires i < |row.x|
    ensures Error(row, b) * row.x[i] == Scaled(row, i) * Dot(row.x, b) - Scaled(row, i) * row.target
  {
    Regrouped(row.weight, row.x[i], Dot(row.x, b), row.target);
  }

  lemma Regrouped(w: real, x: real, p: real, y: real)
    ensures (w * (p - y)) * x == (w * x) * p - (w * x) * y
  {
    assert (w * (p - y)) * x == (w * x) * (p - y);
  }

  // Expanding the loss around a point

  /** The sum of weight * (x . d) squared. */
  function Energy(rows: seq<Sample>, d: Vector): real {
    if rows == [] then 0.0 else Energy(Init(rows), d) + EnergyTerm(Last(rows), d)
  }

  function EnergyTerm(row: Sample, d: Vector): real {
    row.weight * Square(Dot(row.x, d))
  }

  lemma {:induction false} LossExpands(rows: seq<Sample>, size: nat, b: Vector, c: Vector)
    requires Fits(rows, size) && |b| == |c| == size
    ensures var d := Plus(c, -1.0, b);
            Loss(rows, c) == Loss(rows, b) + 2.0 * Cross(rows, b, d) + Energy(rows, d)
  {
    if rows != [] {
      var d := Plus(c, -1.0, b);
      LossExpands(Init(rows), size, b, c);
      CrossGrows(rows, b, d);
      TermExpands(Last(rows), b, c);
    }
  }

  lemma CrossGrows(rows: seq<Sample>, b: Vector, d: Vector)
    requires rows != []
    ensures Cross(rows, b, d) == Cross(Init(rows), b, d) + CrossTerm(Last(rows), b, d)
  {
    assert Init(Errors(rows, b)) == Errors(Init(rows), b);
    DotSplit(Errors(rows, b), Dots(Designs(rows), d), Dots(Designs(Init(rows)), d), Dot(Last(rows).x, d));
  }

  lemma TermExpands(row: Sample, b: Vector, c: Vector)
    requires |row.x| == |b| == |c|
    ensures var d := Plus(c, -1.0, b);
            LossTerm(row, c) == LossTerm(row, b) + 2.0 * CrossTerm(row, b, d) + EnergyTerm(row, d)
  {
    DotDifference(row.x, b, c);
    assert Miss(row, c) == Miss(row, b) + Dot(row.x, Plus(c, -1.0, b));
    SquareExpands(row.weight, Miss(row, b), Dot(row.x, Plus(c, -1.0, b)));
  }

  lemma DotDifference(x: Vector, b: Vector, c: Vector)
    requires |x| == |b| == |c|
    ensures Dot(x, c) == Dot(x, b) + Dot(x, Plus(c, -1.0, b))
  {
    DotCommutes(x, c);
    DotCommutes(x, b);
    DotCommutes(x, Plus(c, -1.0, b));
    DotPlus(c, -1.0, b, x);
  }

  lemma SquareExpands(w: real, e: real, q: real)
    ensures w * Square(e + q) == w * Square(e) + 2.0 * ((w * e) * q) + w * Square(q)
  {
    assert Square(e + q) == Square(e) + 2.0 * (e * q) + Square(q);
    TimesSum(w, Square(e) + 2.0 * (e * q), Square(q));
    TimesSum(w, Square(e), 2.0 * (e * q));
  }

  lemma TimesSum(f: real, a: real, b: real)
    ensures f * (a + b) == f * a + f * b
  {
  }

  lemma {:induction false} EnergyNotNegative(rows: seq<Sample>, d: Vector)
    requires Weighted(rows)
    ensures Energy(rows, d) >= 0.0
  {
    if rows != [] {
      EnergyNotNegative(Init(rows), d);
      WeightedSquare(Last(rows).weight, Dot(Last(rows).x, d), 0.0);
    }
  }

  lemma PositiveProduct(a: real, b: real)
    requires a > 0.0 && b > 0.0
    ensures a * b > 0.0
  {
  }

  lemma NegativeProduct(a: real, b: real)
    requires a < 0.0 && b < 0.0
    ensures a * b > 0.0
  {
  }

  lemma WeightedSquare(w: real, q: real, x: real)
    requires w >= 0.0
    ensures w * Square(q) >= 0.0
    ensures w * Square(q) == 0.0 ==> (w * x) * q == 0.0
  {
    assert Square(q) >= 0.0;
    if w != 0.0 && q != 0.0 {
      SquarePositive(q);
      PositiveProduct(w, Square(q));
    }
  }

  lemma SquarePositive(q: real)
    requires q != 0.0
    ensures Square(q) > 0.0
  {
    var s := Square(q);
    calc {
      s;
    == q * q;
    > { if q > 0.0 { PositiveProduct(q, q); } else { NegativeProduct(q, q); } }
      0.0;
    }
  }

  /** A direction without energy is one the normal equations do not see. */
  lemma {:induction false} NoEnergyNoPull(rows: seq<Sample>, size: nat, i: nat, d: Vector)
    requires Fits(rows, size) && Weighted(rows) && i < size
    requires Energy(rows, d) == 0.0
    ensures Dot(Scales(rows, size, i), Dots(Designs(rows), d)) == 0.0
  {
    if rows != [] {
      var row := Last(rows);
      EnergyNotNegative(Init(rows), d);
      WeightedSquare(row.weight, Dot(row.x, d), row.x[i]);
      NoEnergyNoPull(Init(rows), size, i, d);
      ScalesGrow(rows, size, i, Dots(Designs(rows), d), Dots(Designs(Init(rows)), d), Dot(row.x, d));
    }
  }

  /** At a solution of the normal equations the loss has no slope in any direction. */
  lemma SolutionHasNoSlope(rows: seq<Sample>, size: nat, b: Vector, d: Vector)
    requires Fits(rows, size) && |b| == |d| == size
    requires Satisfies(GramMatrix(rows, size), Moments(rows, size), b)
    ensures Cross(rows, b, d) == 0.0
  {
    var g := Gradient(rows, size, b);
    forall i | 0 <= i < size
      ensures g[i] == 0.0
    {
      GradientEntry(rows, size, b, i);
      CombineDot(Scales(rows, size, i), Designs(rows), size, b);
      assert Dot(GramMatrix(rows, size)[i], b) == Moments(rows, size)[i];
    }
    DotZero(g, d);
    CombineDot(Errors(rows, b), Designs(rows), size, d);
  }

  /** A point without more loss than a solution of the normal equations is a solution itself. */
  lemma NoLossIsSolution(rows: seq<Sample>, size: nat, b: Vector, c: Vector)
    requires Fits(rows, size) && Weighted(rows) && |b| == |c| == size
    requires Satisfies(GramMatrix(rows, size), Moments(rows, size), b)
    requires Energy(rows, Plus(c, -1.0, b)) == 0.0
    ensures Satisfies(GramMatrix(rows, size), Moments(rows, size), c)
  {
    var d := Plus(c, -1.0, b);
    forall i | 0 <= i < size
      ensures Dot(GramMatrix(rows, size)[i], c) == Moments(rows, size)[i]
    {
      NoEnergyNoPull(rows, size, i, d);
      CombineDot(Scales(rows, size, i), Designs(rows), size, d);
      DotDifference(GramRow(rows, size, i), b, c);
      assert Dot(GramMatrix(rows, size)[i], b) == Moments(rows, size)[i];
    }
  }

  /** A solution of the normal equations minimises the weighted squared error. */
  lemma SolutionIsLeast(rows: seq<Sample>, size: nat, b: Vector, c: Vector)
    requires Fits(rows, size) && Weighted(rows) && |b| == |c| == size
    requires Satisfies(GramMatrix(rows, size), Moments(rows, size), b)
    ensures Loss(rows, b) <= Loss(rows, c)
    ensures Loss(rows, b) == Loss(rows, c) ==> Satisfies(GramMatrix(rows, size), Moments(rows, size), c)
  {
    var d := Plus(c, -1.0, b);
    LossExpands(rows, size, b, c);
    SolutionHasNoSlope(rows, size, b, d);
    EnergyNotNegative(rows, d);
    if Loss(rows, b) == Loss(rows, c) {
      NoLossIsSolution(rows, size, b, c);
    }
  }

  // When the normal equations are regular

  /** Some sample that weighs in has an entry for the intercept. */
  predicate Anchored(rows: seq<Sample>) {
    exists r :: 0 <= r < |rows| && Anchors(rows[r])
  }

  predicate Anchors(row: Sample) {
    row.weight > 0.0 && |row.x| > 0 && row.x[0] != 0.0
  }

  function Untargeted(rows: seq<Sample>): (free: seq<Sample>)
    ensures |free| == |rows| && forall r :: 0 <= r < |rows| ==> free[r] == rows[r].(target := 0.0)
  {
    seq(|rows|, r requires 0 <= r < |rows| => rows[r].(target := 0.0))
  }

  lemma UntargetedRow(rows: seq<Sample>, size: nat, i: nat)
    requires Fits(rows, size) && i < size
    ensures GramRow(Untargeted(rows), size, i) == GramRow(rows, size, i)
  {
    var free := Untargeted(rows);
    forall r | 0 <= r < |rows|
      ensures Scaled(free[r], i) == Scaled(rows[r], i)
    {
    }
    assert Scales(free, size, i) == Scales(rows, size, i);
    assert Designs(free) == Designs(rows);
  }

  /** Without targets a vector in the kernel of the matrix solves the normal equations. */
  lemma KernelSolvesUntargeted(rows: seq<Sample>, size: nat, d: Vector)
    requires Fits(rows, size) && |d| == size && Kernel(GramMatrix(rows, size), d)
    ensures Satisfies(GramMatrix(Untargeted(rows), size), Moments(Untargeted(rows), size), d)
  {
    var free := Untargeted(rows);
    forall i | 0 <= i < size
      ensures Dot(GramMatrix(free, size)[i], d) == Moments(free, size)[i]
    {
      UntargetedRow(rows, size, i);
      DotCommutes(Scales(free, size, i), Targets(free));
      DotZero(Targets(free), Scales(free, size, i));
      assert Dot(GramMatrix(rows, size)[i], d) == 0.0;
    }
  }

  lemma {:induction false} UntargetedCross(rows: seq<Sample>, d: Vector)
    ensures Cross(Untargeted(rows), d, d) == Energy(rows, d)
  {
    if rows != [] {
      var free := Untargeted(rows);
      UntargetedCross(Init(rows), d);
      assert Init(free) == Untargeted(Init(rows));
      CrossGrows(free, d, d);
      FreeTerm(Last(rows), d);
    }
  }

  lemma FreeTerm(row: Sample, d: Vector)
    ensures CrossTerm(row.(target := 0.0), d, d) == EnergyTerm(row, d)
  {
    WeighSquare(row.weight, Dot(row.x, d));
  }

  lemma WeighSquare(w: real, q: real)
    ensures (w * (q - 0.0)) * q == w * Square(q)
  {
  }

  /** A direction the normal equations do not see has no energy. */
  lemma KernelHasNoEnergy(rows: seq<Sample>, size: nat, d: Vector)
    requires Fits(rows, size) && |d| == size && Kernel(GramMatrix(rows, size), d)
    ensures Energy(rows, d) == 0.0
  {
    KernelSolvesUntargeted(rows, size, d);
    SolutionHasNoSlope(Untargeted(rows), size, d, d);
    UntargetedCross(rows, d);
  }

  lemma NoEnergyIsKernel(rows: seq<Sample>, size: nat, d: Vector)
    requires Fits(rows, size) && Weighted(rows) && |d| == size && Energy(rows, d) == 0.0
    ensures Kernel(GramMatrix(rows, size), d)
  {
    forall i | 0 <= i < size
      ensures Dot(GramMatrix(rows, size)[i], d) == 0.0
    {
      NoEnergyNoPull(rows, size, i, d);
      CombineDot(Scales(rows, size, i), Designs(rows), size, d);
    }
  }

  /** There is no energy exactly when every sample that weighs in is at a right angle. */
  lemma {:induction false} NoEnergyBySample(rows: seq<Sample>, d: Vector)
    requires Weighted(rows)
    ensures Energy(rows, d) == 0.0 <==> forall r :: 0 <= r < |rows| ==> Unseen(rows[r], d)
  {
    if rows != [] {
      NoEnergyBySample(Init(rows), d);
      EnergyNotNegative(Init(rows), d);
      UnseenTerm(Last(rows), d);
      assert forall r :: 0 <= r < |rows| - 1 ==> Init(rows)[r] == rows[r];
    }
  }

  predicate Unseen(row: Sample, d: Vector) {
    row.weight > 0.0 ==> Dot(row.x, d) == 0.0
  }

  lemma UnseenTerm(row: Sample, d: Vector)
    requires row.weight >= 0.0
    ensures EnergyTerm(row, d) >= 0.0
    ensures EnergyTerm(row, d) == 0.0 <==> Unseen(row, d)
  {
    var q := Dot(row.x, d);
    if row.weight > 0.0 && q != 0.0 {
      SquarePositive(q);
      PositiveProduct(row.weight, Square(q));
    } else {
      assert row.weight * Square(q) == 0.0;
    }
  }

  lemma PressureUnseen(size: nat, ridge: real, n: nat, d: Vector)
    requires n < size == |d| && ridge > 0.0
    ensures EnergyTerm(Pressure(size, ridge, n), d) >= 0.0
    ensures EnergyTerm(Pressure(size, ridge, n), d) == 0.0 <==> d[n] == 0.0
  {
    UnseenTerm(Pressure(size, ridge, n), d);
    DotSingle(Unit(size, n), d, n);
    assert Unit(size, n)[n] * d[n] == d[n];
  }

  lemma EnergyGrows(rows: seq<Sample>, row: Sample, d: Vector)
    ensures Energy(rows + [row], d) == Energy(rows, d) + EnergyTerm(row, d)
  {
    assert Init(rows + [row]) == rows;
  }

  /** The penalty samples see every coefficient behind the intercept. */
  lemma {:induction false} RidgeUnseen(rows: seq<Sample>, size: nat, ridge: real, n: nat, d: Vector)
    requires Fits(rows, size) && Weighted(rows) && ridge > 0.0 && n <= size == |d|
    ensures Energy(WithRidge(rows, size, ridge, n), d) == 0.0 <==>
              Energy(rows, d) == 0.0 && forall k :: 1 <= k < n ==> d[k] == 0.0
  {
    if n > 1 {
      var before := WithRidge(rows, size, ridge, n - 1);
      RidgeUnseen(rows, size, ridge, n - 1, d);
      EnergyGrows(before, Pressure(size, ridge, n - 1), d);
      EnergyNotNegative(before, d);
      PressureUnseen(size, ridge, n - 1, d);
    }
  }

  /** The intercept alone is seen exactly by the samples that anchor it. */
  lemma InterceptUnseen(row: Sample, d: Vector)
    requires |row.x| == |d| > 0 && row.weight >= 0.0 && d[0] != 0.0
    requires forall k :: 1 <= k < |d| ==> d[k] == 0.0
    ensures Unseen(row, d) <==> !Anchors(row)
  {
    DotCommutes(row.x, d);
    DotSingle(d, row.x, 0);
    if row.x[0] != 0.0 {
      NotZero(d[0], row.x[0]);
    }
  }

  lemma NotZero(a: real, b: real)
    requires a != 0.0 && b != 0.0
    ensures a * b != 0.0
  {
  }

  /** Energy vanishes along the intercept exactly when no sample anchors it. */
  lemma InterceptEnergy(rows: seq<Sample>, size: nat, d: Vector)
    requires Fits(rows, size) && Weighted(rows) && |d| == size > 0 && d[0] != 0.0
    requires forall k :: 1 <= k < size ==> d[k] == 0.0
    ensures Energy(rows, d) == 0.0 <==> !Anchored(rows)
  {
    NoEnergyBySample(rows, d);
    forall r | 0 <= r < |rows|
      ensures Unseen(rows[r], d) <==> !Anchors(rows[r])
    {
      InterceptUnseen(rows[r], d);
    }
  }

  /**
   With a ridge the normal equations are regular exactly when some sample of positive weight has an
   entry for the intercept, however the features depend on each other.
   */
  lemma RegularExactly(rows: seq<Sample>, size: nat, ridge: real)
    requires Fits(rows, size) && Weighted(rows) && ridge > 0.0 && size > 0
    ensures Regular(GramMatrix(WithRidge(rows, size, ridge, size), size)) <==> Anchored(rows)
  {
    var all := WithRidge(rows, size, ridge, size);
    var matrix := GramMatrix(all, size);
    if Anchored(rows) {
      forall d: Vector | |d| == size && Kernel(matrix, d)
        ensures d == Zeros(size)
      {
        KernelHasNoEnergy(all, size, d);
        RidgeUnseen(rows, size, ridge, size, d);
        if d[0] != 0.0 {
          InterceptEnergy(rows, size, d);
        }
      }
    } else {
      var d := Unit(size, 0);
      InterceptEnergy(rows, size, d);
      RidgeUnseen(rows, size, ridge, size, d);
      NoEnergyIsKernel(all, size, d);
      assert d[0] != Zeros(size)[0];
    }
  }

  // The fit

  /** The accumulation loops of `fitWeights`. */
  method NormalEquations(rows: seq<Sample>, size: nat, ridge: real) returns (xtx: Matrix, xty: Vector)
    requires Fits(rows, size) && size > 0
    ensures xtx == GramMatrix(WithRidge(rows, size, ridge, size), size)
    ensures xty == Moments(WithRidge(rows, size, ridge, size), size)
  {
    var a := new Vector[size](i => Zeros(size));
    var v := new real[size](i => 0.0);
    for r := 0 to |rows|
      invariant forall i :: 0 <= i < size ==> a[i] == GramRow(rows[..r], size, i)
      invariant forall i :: 0 <= i < size ==> v[i] == Moment(rows[..r], size, i)
    {
      AddSample(a, v, rows[..r], rows[r], size);
      assert rows[..r + 1] == rows[..r] + [rows[r]];
    }
    assert rows[..|rows|] == rows;
    RaiseDiagonal(a, ridge);
    forall i | 0 <= i < size
      ensures a[i] == GramMatrix(WithRidge(rows, size, ridge, size), size)[i]
      ensures v[i] == Moments(WithRidge(rows, size, ridge, size), size)[i]
    {
      RidgeRow(rows, size, ridge, i);
      RidgeEquations(rows, size, ridge, size, i, i);
    }
    xtx, xty := a[..], v[..];
  }

  method AddSample(a: array<Vector>, v: array<real>, rows: seq<Sample>, row: Sample, size: nat)
    requires Fits(rows, size) && |row.x| == size && a.Length == v.Length == size
    requires forall i :: 0 <= i < size ==> a[i] == GramRow(rows, size, i)
    requires forall i :: 0 <= i < size ==> v[i] == Moment(rows, size, i)
    modifies a, v
    ensures forall i :: 0 <= i < size ==> a[i] == GramRow(rows + [row], size, i)
    ensures forall i :: 0 <= i < size ==> v[i] == Moment(rows + [row], size, i)
  {
    for i := 0 to size
      invariant forall k :: 0 <= k < i ==> a[k] == GramRow(rows + [row], size, k)
      invariant forall k :: 0 <= k < i ==> v[k] == Moment(rows + [row], size, k)
      invariant forall k :: i <= k < size ==> a[k] == GramRow(rows, size, k)
      invariant forall k :: i <= k < size ==> v[k] == Moment(rows, size, k)
    {
      OneMore(rows, row, size, i);
      v[i] := v[i] + Scaled(row, i) * row.target;
      AddProducts(a, i, Scaled(row, i), row.x);
    }
  }

  /** The inner loop: one row of the matrix takes the products of one sample. */
  method AddProducts(a: array<Vector>, i: nat, scaled: real, x: Vector)
    requires i < a.Length && |a[i]| == |x|
    modifies a
    ensures a[..] == old(a[..])[i := Plus(old(a[i]), scaled, x)]
  {
    ghost var before := a[..];
    for j := 0 to |x|
      invariant |a[i]| == |x|
      invariant forall k :: 0 <= k < a.Length && k != i ==> a[k] == before[k]
      invariant forall k :: 0 <= k < j ==> a[i][k] == Plus(before[i], scaled, x)[k]
      invariant forall k :: j <= k < |x| ==> a[i][k] == before[i][k]
    {
      a[i] := a[i][j := a[i][j] + scaled * x[j]];
    }
    assert a[i] == Plus(before[i], scaled, x);
  }

  /** What the penalty does to row `i` of the matrix. */
  function Raised(row: Vector, i: nat, ridge: real): Vector
    requires i < |row|
  {
    if i == 0 then row else row[i := row[i] + ridge]
  }

  lemma RidgeRow(rows: seq<Sample>, size: nat, ridge: real, i: nat)
    requires Fits(rows, size) && i < size
    ensures GramRow(WithRidge(rows, size, ridge, size), size, i) == Raised(GramRow(rows, size, i), i, ridge)
  {
    var row, all := GramRow(rows, size, i), GramRow(WithRidge(rows, size, ridge, size), size, i);
    forall j | 0 <= j < size
      ensures all[j] == row[j] + if i == j && 1 <= i then ridge else 0.0
    {
      RidgeEquations(rows, size, ridge, size, i, j);
    }
  }

  method RaiseDiagonal(a: array<Vector>, ridge: real)
    requires a.Length > 0 && forall k :: 0 <= k < a.Length ==> |a[k]| == a.Length
    modifies a
    ensures forall k :: 0 <= k < a.Length ==> a[k] == Raised(old(a[k]), k, ridge)
  {
    for i := 1 to a.Length
      invariant forall k :: 0 <= k < i ==> a[k] == Raised(old(a[k]), k, ridge)
      invariant forall k :: i <= k < a.Length ==> a[k] == old(a[k])
    {
      a[i] := a[i][i := a[i][i] + ridge];
    }
  }

  /**
   `fitWeights` without its final rounding: when the solver answers, no other coefficients have as
   small a weighted squared error plus ridge penalty, for any samples of non-negative weight. With a
   ridge and a sample that anchors the intercept, only the solver's threshold can refuse.
   */
  method FitWeights(rows: seq<Sample>, size: nat, ridge: real) returns (beta: Option<Vector>)
    requires Fits(rows, size) && size > 0 && Weighted(rows) && ridge >= 0.0
    ensures beta.Some? ==> |beta.value| == size
    ensures beta.Some? ==> forall c: Vector :: |c| == size && c != beta.value ==>
              Objective(rows, ridge, beta.value) < Objective(rows, ridge, c)
    ensures ridge > 0.0 && !Anchored(rows) ==> beta.None?
    ensures ridge > 0.0 && Anchored(rows) && beta.None? ==>
              var all := WithRidge(rows, size, ridge, size);
              NearlyStuck(Augmented(GramMatrix(all, size), Moments(all, size)), size)
  {
    var xtx, xty := NormalEquations(rows, size, ridge);
    beta := Solve(xtx, xty);
    if ridge > 0.0 {
      RegularExactly(rows, size, ridge);
    }
    if beta.Some? {
      forall c: Vector | |c| == size && c != beta.value
        ensures Objective(rows, ridge, beta.value) < Objective(rows, ridge, c)
      {
        FitIsLeast(rows, size, ridge, beta.value, c);
      }
    }
  }

  lemma FitIsLeast(rows: seq<Sample>, size: nat, ridge: real, best: Vector, c: Vector)
    requires Fits(rows, size) && Weighted(rows) && ridge >= 0.0 && |best| == |c| == size
    requires var all := WithRidge(rows, size, ridge, size);
             Satisfies(GramMatrix(all, size), Moments(all, size), best)
    ensures var all := WithRidge(rows, size, ridge, size);
            Satisfies(GramMatrix(all, size), Moments(all, size), c)
            || Objective(rows, ridge, best) < Objective(rows, ridge, c)
  {
    SolutionIsLeast(WithRidge(rows, size, ridge, size), size, best, c);
    RidgeLoss(rows, size, ridge, size, best);
    RidgeLoss(rows, size, ridge, size, c);
  }
}
