/** Vectors of reals and the linear laws of their inner product. */
module Vectors {
  import opened Sequences

  type Vector = seq<real>

  /** The inner product; 0 for vectors of different lengths. */
  function Dot(a: Vector, b: Vector): real {
    SumOfProducts(a, b)
  }

  function SumOfProducts(a: Vector, b: Vector): real {
    if |a| != |b| || a == [] then 0.0 else SumOfProducts(Init(a), Init(b)) + Last(a) * Last(b)
  }

  /** `a + f * b`. */
  function Plus(a: Vector, f: real, b: Vector): (c: Vector)
    requires |a| == |b|
    ensures |c| == |a| && forall k :: 0 <= k < |a| ==> c[k] == a[k] + f * b[k]
  {
    seq(|a|, k requires 0 <= k < |a| => a[k] + f * b[k])
  }

  lemma {:induction false} DotPlus(a: Vector, f: real, b: Vector, y: Vector)
    requires |a| == |b| == |y|
    ensures Dot(Plus(a, f, b), y) == Dot(a, y) + f * Dot(b, y)
  {
    if a != [] {
      DotPlus(Init(a), f, Init(b), Init(y));
      PlusInit(a, f, b);
      Distribute(f, Dot(Init(b), Init(y)), Last(b), Last(y), Last(a));
    }
  }

  lemma PlusInit(a: Vector, f: real, b: Vector)
    requires |a| == |b| > 0
    ensures Init(Plus(a, f, b)) == Plus(Init(a), f, Init(b))
    ensures Last(Plus(a, f, b)) == Last(a) + f * Last(b)
  {
    var whole, part := Plus(a, f, b), Plus(Init(a), f, Init(b));
    forall k | 0 <= k < |a| - 1
      ensures whole[k] == part[k]
    {
      assert Init(a)[k] == a[k] && Init(b)[k] == b[k];
    }
  }

  lemma Distribute(f: real, p: real, b: real, y: real, a: real)
    ensures (a + f * b) * y == a * y + f * (b * y)
    ensures f * (p + b * y) == f * p + f * (b * y)
  {
  }

  lemma Negated(a: real, f: real, x: real)
    ensures a + (-f) * x == a - f * x
  {
  }

  lemma DotSplit(a: Vector, b: Vector, before: Vector, last: real)
    requires |a| == |b| > 0 && Init(b) == before && Last(b) == last
    ensures Dot(a, b) == Dot(Init(a), before) + Last(a) * last
  {
  }

  lemma {:induction false} DotCommutes(a: Vector, b: Vector)
    ensures Dot(a, b) == Dot(b, a)
  {
    if |a| == |b| && a != [] {
      DotCommutes(Init(a), Init(b));
    }
  }

  lemma {:induction false} DotZero(a: Vector, y: Vector)
    requires forall k :: 0 <= k < |a| ==> a[k] == 0.0
    ensures Dot(a, y) == 0.0
  {
    if |a| == |y| && a != [] {
      DotZero(Init(a), Init(y));
    }
  }

  /** A vector with one entry off zero picks one entry of the other. */
  lemma {:induction false} DotSingle(a: Vector, y: Vector, i: nat)
    requires |a| == |y| && i < |a|
    requires forall k :: 0 <= k < |a| && k != i ==> a[k] == 0.0
    ensures Dot(a, y) == a[i] * y[i]
  {
    if i == |a| - 1 {
      DotZero(Init(a), Init(y));
    } else {
      DotSingle(Init(a), Init(y), i);
    }
  }

  /** One of two entries at a place is zero. */
  predicate ApartAt(a: Vector, y: Vector, k: nat)
    requires k < |a| == |y|
  {
    a[k] == 0.0 || y[k] == 0.0
  }

  lemma {:induction false} DotApart(a: Vector, y: Vector)
    requires |a| == |y| && forall k :: 0 <= k < |a| ==> ApartAt(a, y, k)
    ensures Dot(a, y) == 0.0
  {
    if a != [] {
      var last := |a| - 1;
      assert ApartAt(a, y, last);
      forall k | 0 <= k < last
        ensures ApartAt(Init(a), Init(y), k)
      {
        assert ApartAt(a, y, k);
      }
      DotApart(Init(a), Init(y));
    }
  }

  /** Only the places `i` and `j` count. */
  lemma {:induction false} DotPair(a: Vector, y: Vector, i: nat, j: nat)
    requires |a| == |y| && i < j < |a|
    requires forall k :: 0 <= k < |a| && k != i && k != j ==> ApartAt(a, y, k)
    ensures Dot(a, y) == a[i] * y[i] + a[j] * y[j]
  {
    var last := |a| - 1;
    if j == last {
      DotOne(Init(a), Init(y), i, a, y);
    } else {
      assert ApartAt(a, y, last);
      forall k | 0 <= k < last && k != i && k != j
        ensures ApartAt(Init(a), Init(y), k)
      {
        assert ApartAt(a, y, k);
      }
      DotPair(Init(a), Init(y), i, j);
    }
  }

  /** Only the place `i` counts in vectors that begin two others. */
  lemma {:induction false} DotOne(a: Vector, y: Vector, i: nat, whole: Vector, other: Vector)
    requires |a| == |y| && i < |a| && a <= whole && y <= other && |whole| == |other|
    requires forall k :: 0 <= k < |a| && k != i ==> ApartAt(whole, other, k)
    ensures Dot(a, y) == a[i] * y[i]
  {
    var last := |a| - 1;
    if i == last {
      forall k | 0 <= k < last
        ensures ApartAt(Init(a), Init(y), k)
      {
        assert ApartAt(whole, other, k);
      }
      DotApart(Init(a), Init(y));
    } else {
      assert ApartAt(whole, other, last);
      DotOne(Init(a), Init(y), i, whole, other);
    }
  }

  function Zeros(size: nat): (z: Vector)
    ensures |z| == size && forall k :: 0 <= k < size ==> z[k] == 0.0
  {
    seq(size, k => 0.0)
  }

  predicate Sized(xs: seq<Vector>, size: nat) {
    forall r :: 0 <= r < |xs| ==> |xs[r]| == size
  }

  /** The sum of `f[r] * xs[r]`. */
  function Combine(f: Vector, xs: seq<Vector>, size: nat): (c: Vector)
    requires |f| == |xs| && Sized(xs, size)
    ensures |c| == size
  {
    if f == [] then Zeros(size) else Plus(Combine(Init(f), Init(xs), size), Last(f), Last(xs))
  }

  function Dots(xs: seq<Vector>, y: Vector): (p: Vector)
    ensures |p| == |xs| && forall r :: 0 <= r < |xs| ==> p[r] == Dot(xs[r], y)
  {
    seq(|xs|, r requires 0 <= r < |xs| => Dot(xs[r], y))
  }

  /** The inner product with a combination is the combination of the inner products. */
  lemma {:induction false} CombineDot(f: Vector, xs: seq<Vector>, size: nat, y: Vector)
    requires |f| == |xs| && Sized(xs, size) && |y| == size
    ensures Dot(Combine(f, xs, size), y) == Dot(f, Dots(xs, y))
  {
    if f == [] {
      DotZero(Zeros(size), y);
    } else {
      CombineDot(Init(f), Init(xs), size, y);
      var before := Combine(Init(f), Init(xs), size);
      calc {
        Dot(Combine(f, xs, size), y);
      == { DotPlus(before, Last(f), Last(xs), y); }
        Dot(before, y) + Last(f) * Dot(Last(xs), y);
      == { assert Init(Dots(xs, y)) == Dots(Init(xs), y);
           DotSplit(f, Dots(xs, y), Dots(Init(xs), y), Dot(Last(xs), y)); }
        Dot(f, Dots(xs, y));
      }
    }
  }
}
