/** Filtering, mapping and stable sorting of sequences, and the laws that relate them. */
module Sequences {

  function Last<T>(s: seq<T>): T
    requires s != []
  {
    s[|s| - 1]
  }

  function Init<T>(s: seq<T>): seq<T>
    requires s != []
  {
    s[..|s| - 1]
  }

  function Filter<T>(p: T -> bool, s: seq<T>): seq<T> {
    if s == [] then []
    else if p(Last(s)) then Filter(p, Init(s)) + [Last(s)]
    else Filter(p, Init(s))
  }

  function Map<T, U>(f: T -> U, s: seq<T>): (r: seq<U>)
    ensures |r| == |s|
    ensures forall i :: 0 <= i < |s| ==> r[i] == f(s[i])
  {
    seq(|s|, i requires 0 <= i < |s| => f(s[i]))
  }

  /** The parts one after the other. */
  function Joined<T>(parts: seq<seq<T>>): seq<T> {
    if parts == [] then [] else parts[0] + Joined(parts[1..])
  }

  lemma {:induction false} InJoined<T>(parts: seq<seq<T>>, j: nat, x: T)
    requires j < |parts| && x in parts[j]
    ensures x in Joined(parts)
  {
    if j > 0 {
      InJoined(parts[1..], j - 1, x);
    }
  }

  ghost predicate TotalPreorder<T(!new)>(le: (T, T) -> bool) {
    && (forall x, y :: le(x, y) || le(y, x))
    && (forall x, y, z :: le(x, y) && le(y, z) ==> le(x, z))
  }

  ghost predicate Sorted<T>(le: (T, T) -> bool, s: seq<T>) {
    forall i, j :: 0 <= i < j < |s| ==> le(s[i], s[j])
  }

  predicate Distinct<T(==)>(s: seq<T>) {
    forall i, j :: 0 <= i < j < |s| ==> s[i] != s[j]
  }

  /** Puts an element behind every element that may stay before it. */
  function Insert<T>(le: (T, T) -> bool, s: seq<T>, x: T): (r: seq<T>)
    ensures |r| == |s| + 1
  {
    if s == [] || le(Last(s), x) then s + [x]
    else Insert(le, Init(s), x) + [Last(s)]
  }

  /** A stable sort: elements that compare equal keep their order. */
  function SortBy<T>(le: (T, T) -> bool, s: seq<T>): (r: seq<T>)
    ensures |r| == |s|
  {
    if s == [] then [] else Insert(le, SortBy(le, Init(s)), Last(s))
  }

  lemma {:induction false} FilterMembers<T>(p: T -> bool, s: seq<T>)
    ensures forall x :: x in Filter(p, s) <==> x in s && p(x)
    ensures |Filter(p, s)| <= |s|
  {
    if s != [] {
      FilterMembers(p, Init(s));
      assert s == Init(s) + [Last(s)];
    }
  }

  lemma FilterMember<T>(p: T -> bool, s: seq<T>, x: T)
    ensures x in Filter(p, s) <==> x in s && p(x)
  {
    FilterMembers(p, s);
  }

  lemma {:induction false} FilterAppend<T>(p: T -> bool, a: seq<T>, b: seq<T>)
    ensures Filter(p, a + b) == Filter(p, a) + Filter(p, b)
  {
    if b == [] {
      assert a + b == a;
    } else {
      assert Init(a + b) == a + Init(b);
      FilterAppend(p, a, Init(b));
    }
  }

  lemma {:induction false} FilterAgree<T>(p: T -> bool, q: T -> bool, s: seq<T>)
    requires forall x :: x in s ==> p(x) == q(x)
    ensures Filter(p, s) == Filter(q, s)
  {
    if s != [] {
      FilterAgree(p, q, Init(s));
    }
  }

  lemma {:induction false} FilterAll<T>(p: T -> bool, s: seq<T>)
    requires forall x :: x in s ==> p(x)
    ensures Filter(p, s) == s
  {
    if s != [] {
      assert Last(s) in s && forall x :: x in Init(s) ==> x in s;
      FilterAll(p, Init(s));
      assert s == Init(s) + [Last(s)];
    }
  }

  lemma {:induction false} FilterNone<T>(p: T -> bool, s: seq<T>)
    requires forall x :: x in s ==> !p(x)
    ensures Filter(p, s) == []
  {
    if s != [] {
      assert Last(s) in s && forall x :: x in Init(s) ==> x in s;
      FilterNone(p, Init(s));
    }
  }

  lemma {:induction false} FilterDistinct<T>(p: T -> bool, s: seq<T>)
    requires Distinct(s)
    ensures Distinct(Filter(p, s))
  {
    if s != [] {
      FilterDistinct(p, Init(s));
      FilterMembers(p, Init(s));
      assert Last(s) !in Init(s);
    }
  }

  /** What holds of every pair of a list in its order holds of every pair that is left of it. */
  lemma {:induction false} FilterSorted<T>(le: (T, T) -> bool, p: T -> bool, s: seq<T>)
    requires Sorted(le, s)
    ensures Sorted(le, Filter(p, s))
  {
    if s != [] {
      FilterSorted(le, p, Init(s));
      FilterMembers(p, Init(s));
      var before := Filter(p, Init(s));
      forall i | 0 <= i < |before|
        ensures le(before[i], Last(s))
      {
        var x := before[i];
        FilterMember(p, Init(s), x);
        var j :| 0 <= j < |Init(s)| && Init(s)[j] == x;
        assert le(s[j], s[|s| - 1]);
      }
    }
  }

  lemma {:induction false} FilterTwice<T>(p: T -> bool, q: T -> bool, both: T -> bool, s: seq<T>)
    requires forall x :: x in s ==> both(x) == (p(x) && q(x))
    ensures Filter(p, Filter(q, s)) == Filter(both, s)
  {
    if s != [] {
      FilterTwice(p, q, both, Init(s));
      if q(Last(s)) {
        assert Init(Filter(q, Init(s)) + [Last(s)]) == Filter(q, Init(s));
      }
    }
  }

  lemma {:induction false} MapAgree<T, U>(f: T -> U, g: T -> U, s: seq<T>)
    requires forall x :: x in s ==> f(x) == g(x)
    ensures Map(f, s) == Map(g, s)
  {
  }

  lemma {:induction false} MapAppend<T, U>(f: T -> U, a: seq<T>, b: seq<T>)
    ensures Map(f, a + b) == Map(f, a) + Map(f, b)
  {
  }

  lemma MapOfMap<T, U, V>(f: T -> U, g: U -> V, h: T -> V, s: seq<T>)
    requires forall x :: x in s ==> h(x) == g(f(x))
    ensures Map(g, Map(f, s)) == Map(h, s)
  {
  }

  /** Filtering images is filtering their origins. */
  lemma {:induction false} FilterOfMap<T, U>(f: T -> U, q: U -> bool, p: T -> bool, s: seq<T>)
    requires forall x :: x in s ==> q(f(x)) == p(x)
    ensures Filter(q, Map(f, s)) == Map(f, Filter(p, s))
  {
    if s != [] {
      FilterOfMap(f, q, p, Init(s));
      assert Init(Map(f, s)) == Map(f, Init(s));
      if p(Last(s)) {
        assert Init(Filter(p, s)) == Filter(p, Init(s));
      }
    }
  }

  lemma {:induction false} InsertPermutes<T>(le: (T, T) -> bool, s: seq<T>, x: T)
    ensures multiset(Insert(le, s, x)) == multiset(s) + multiset{x}
  {
    if s != [] && !le(Last(s), x) {
      InsertPermutes(le, Init(s), x);
      assert s == Init(s) + [Last(s)];
    }
  }

  lemma {:induction false} SortPermutes<T>(le: (T, T) -> bool, s: seq<T>)
    ensures multiset(SortBy(le, s)) == multiset(s)
    ensures forall y :: y in SortBy(le, s) <==> y in s
  {
    if s != [] {
      SortPermutes(le, Init(s));
      InsertPermutes(le, SortBy(le, Init(s)), Last(s));
      assert s == Init(s) + [Last(s)];
    }
    assert forall y :: y in SortBy(le, s) <==> y in multiset(SortBy(le, s));
  }

  lemma SortedMember<T>(le: (T, T) -> bool, s: seq<T>, x: T)
    ensures x in SortBy(le, s) <==> x in s
  {
    SortPermutes(le, s);
    assert x in multiset(SortBy(le, s)) <==> x in multiset(s);
  }

  /** Where an element may stay behind one of a list, it may stay behind all before that one. */
  ghost predicate Downward<T>(le: (T, T) -> bool, s: seq<T>, x: T) {
    forall i, j :: 0 <= i < j < |s| && le(s[j], x) ==> le(s[i], x)
  }

  lemma SortedIsDownward<T(!new)>(le: (T, T) -> bool, s: seq<T>, x: T)
    requires TotalPreorder(le) && Sorted(le, s)
    ensures Downward(le, s, x)
  {
  }

  lemma {:induction false} InsertSorted<T(!new)>(le: (T, T) -> bool, s: seq<T>, x: T)
    requires TotalPreorder(le) && Sorted(le, s)
    ensures Sorted(le, Insert(le, s, x))
  {
    if s != [] && !le(Last(s), x) {
      InsertSorted(le, Init(s), x);
      InsertPermutes(le, Init(s), x);
      var r := Insert(le, Init(s), x);
      forall i | 0 <= i < |r|
        ensures le(r[i], Last(s))
      {
        assert r[i] in multiset(r);
        assert r[i] == x || r[i] in Init(s);
      }
    } else {
      SortedIsDownward(le, s, x);
    }
  }

  lemma {:induction false} SortSorted<T(!new)>(le: (T, T) -> bool, s: seq<T>)
    requires TotalPreorder(le)
    ensures Sorted(le, SortBy(le, s))
  {
    if s != [] {
      SortSorted(le, Init(s));
      InsertSorted(le, SortBy(le, Init(s)), Last(s));
    }
  }

  /** A stable sort leaves a sorted list as it is. */
  lemma {:induction false} SortOfSorted<T>(le: (T, T) -> bool, s: seq<T>)
    requires Sorted(le, s)
    ensures SortBy(le, s) == s
  {
    if s != [] {
      SortOfSorted(le, Init(s));
      assert s == Init(s) + [Last(s)];
    }
  }

  lemma {:induction false} FilterOfInsert<T>(le: (T, T) -> bool, p: T -> bool, s: seq<T>, x: T)
    requires Downward(le, s, x)
    ensures Filter(p, Insert(le, s, x)) == if p(x) then Insert(le, Filter(p, s), x) else Filter(p, s)
  {
    if s == [] {
      assert Init([x]) == [];
    } else if le(Last(s), x) {
      assert Init(s + [x]) == s;
      FilterMembers(p, s);
      if Filter(p, s) != [] {
        var y := Last(Filter(p, s));
        assert y in s;
        assert le(y, x);
      }
    } else {
      FilterOfInsert(le, p, Init(s), x);
      assert Init(Insert(le, Init(s), x) + [Last(s)]) == Insert(le, Init(s), x);
      if p(Last(s)) {
        assert Init(Filter(p, s)) == Filter(p, Init(s));
      }
    }
  }

  /** Sorting what is left of a filter is filtering what was sorted. */
  lemma {:induction false} FilterOfSort<T(!new)>(le: (T, T) -> bool, p: T -> bool, s: seq<T>)
    requires TotalPreorder(le)
    ensures Filter(p, SortBy(le, s)) == SortBy(le, Filter(p, s))
  {
    if s != [] {
      FilterOfSort(le, p, Init(s));
      assert Downward(le, SortBy(le, Init(s)), Last(s)) by {
        SortSorted(le, Init(s));
        SortedIsDownward(le, SortBy(le, Init(s)), Last(s));
      }
      FilterOfInsert(le, p, SortBy(le, Init(s)), Last(s));
      if p(Last(s)) {
        assert Init(Filter(p, s)) == Filter(p, Init(s));
      }
    }
  }

  lemma {:induction false} MapOfInsert<T, U>(f: T -> U, le: (T, T) -> bool, le': (U, U) -> bool, s: seq<T>, x: T)
    requires forall a :: a in s ==> le'(f(a), f(x)) == le(a, x)
    ensures Map(f, Insert(le, s, x)) == Insert(le', Map(f, s), f(x))
  {
    if s != [] && !le(Last(s), x) {
      MapOfInsert(f, le, le', Init(s), x);
      assert Init(Map(f, s)) == Map(f, Init(s));
    }
  }

  /** Two comparisons agree on a list and its image. */
  ghost predicate Agrees<T, U>(f: T -> U, le: (T, T) -> bool, le': (U, U) -> bool, s: seq<T>) {
    forall a, b :: a in s && b in s ==> le'(f(a), f(b)) == le(a, b)
  }

  lemma AgreesBefore<T, U>(f: T -> U, le: (T, T) -> bool, le': (U, U) -> bool, s: seq<T>)
    requires s != [] && Agrees(f, le, le', s)
    ensures Agrees(f, le, le', Init(s))
    ensures forall a :: a in SortBy(le, Init(s)) ==> le'(f(a), f(Last(s))) == le(a, Last(s))
  {
    var x := Last(s);
    assert x in s;
    assert forall a :: a in Init(s) ==> a in s;
    forall a | a in SortBy(le, Init(s))
      ensures le'(f(a), f(x)) == le(a, x)
    {
      SortedMember(le, Init(s), a);
    }
  }

  /** A change that does not affect the order commutes with sorting. */
  lemma {:induction false} MapOfSort<T, U>(f: T -> U, le: (T, T) -> bool, le': (U, U) -> bool, s: seq<T>)
    requires Agrees(f, le, le', s)
    ensures Map(f, SortBy(le, s)) == SortBy(le', Map(f, s))
  {
    if s == [] {
      assert Map(f, s) == [];
    } else {
      AgreesBefore(f, le, le', s);
      MapOfSort(f, le, le', Init(s));
      MapOfInsert(f, le, le', SortBy(le, Init(s)), Last(s));
      InitOfMap(f, s);
    }
  }

  lemma InitOfMap<T, U>(f: T -> U, s: seq<T>)
    requires s != []
    ensures Map(f, s) != [] && Init(Map(f, s)) == Map(f, Init(s)) && Last(Map(f, s)) == f(Last(s))
  {
  }

  /** The order tells the elements of a list apart. */
  ghost predicate Antisymmetric<T>(le: (T, T) -> bool, s: seq<T>) {
    forall i, j :: 0 <= i < |s| && 0 <= j < |s| && le(s[i], s[j]) && le(s[j], s[i]) ==> s[i] == s[j]
  }

  lemma SortedSameLast<T>(le: (T, T) -> bool, a: seq<T>, b: seq<T>)
    requires Sorted(le, a) && Sorted(le, b) && multiset(a) == multiset(b)
    requires a != [] && b != []
    requires Antisymmetric(le, a)
    ensures Last(a) == Last(b)
  {
    var x, y := Last(a), Last(b);
    assert x in multiset(b) && y in multiset(a);
    var i :| 0 <= i < |b| && b[i] == x;
    var j :| 0 <= j < |a| && a[j] == y;
    assert i == |b| - 1 || le(x, y);
    assert j == |a| - 1 || le(y, x);
  }

  lemma SortedInit<T>(le: (T, T) -> bool, s: seq<T>)
    requires s != []
    ensures Sorted(le, s) ==> Sorted(le, Init(s))
    ensures Antisymmetric(le, s) ==> Antisymmetric(le, Init(s))
  {
  }

  lemma SameLength<T>(a: seq<T>, b: seq<T>)
    requires multiset(a) == multiset(b)
    ensures |a| == |b|
  {
    assert |multiset(a)| == |a| && |multiset(b)| == |b|;
  }

  lemma InitMultiset<T>(s: seq<T>)
    requires s != []
    ensures multiset(Init(s)) == multiset(s) - multiset{Last(s)}
  {
    assert s == Init(s) + [Last(s)];
  }

  lemma SameInits<T>(a: seq<T>, b: seq<T>)
    requires a != [] && b != [] && Last(a) == Last(b) && multiset(a) == multiset(b)
    ensures multiset(Init(a)) == multiset(Init(b))
  {
    InitMultiset(a);
    InitMultiset(b);
  }

  /** Two sorted arrangements of the same elements are equal when the order tells them apart. */
  lemma {:induction false} SortedUnique<T>(le: (T, T) -> bool, a: seq<T>, b: seq<T>)
    requires Sorted(le, a) && Sorted(le, b) && multiset(a) == multiset(b)
    requires Antisymmetric(le, a)
    ensures a == b
  {
    SameLength(a, b);
    if a != [] {
      SortedSameLast(le, a, b);
      SameInits(a, b);
      SortedInit(le, a);
      SortedInit(le, b);
      SortedUnique(le, Init(a), Init(b));
      assert a == Init(a) + [Last(a)] && b == Init(b) + [Last(b)];
    }
  }

  lemma AntisymmetricArrangement<T>(le: (T, T) -> bool, a: seq<T>, b: seq<T>)
    requires Antisymmetric(le, a) && forall x :: x in b ==> x in a
    ensures Antisymmetric(le, b)
  {
    forall i, j | 0 <= i < |b| && 0 <= j < |b| && le(b[i], b[j]) && le(b[j], b[i])
      ensures b[i] == b[j]
    {
      assert b[i] in a && b[j] in a;
    }
  }

  /** Sorting forgets the order it was given, when the comparison tells the elements apart. */
  lemma SortForgetsOrder<T(!new)>(le: (T, T) -> bool, a: seq<T>, b: seq<T>)
    requires TotalPreorder(le) && multiset(a) == multiset(b)
    requires Antisymmetric(le, a)
    ensures SortBy(le, a) == SortBy(le, b)
  {
    SortSorted(le, a);
    SortSorted(le, b);
    SortPermutes(le, a);
    SortPermutes(le, b);
    AntisymmetricArrangement(le, a, SortBy(le, a));
    SortedUnique(le, SortBy(le, a), SortBy(le, b));
  }

  /** Lists without repetition that have the same elements are arrangements of each other. */
  lemma {:induction false} SameElements<T>(a: seq<T>, b: seq<T>)
    requires Distinct(a) && Distinct(b)
    requires forall x :: x in a <==> x in b
    ensures multiset(a) == multiset(b)
  {
    forall x
      ensures multiset(a)[x] == multiset(b)[x]
    {
      DistinctCount(a, x);
      DistinctCount(b, x);
    }
  }

  lemma {:induction false} DistinctCount<T>(s: seq<T>, x: T)
    requires Distinct(s)
    ensures multiset(s)[x] == if x in s then 1 else 0
  {
    if s != [] {
      assert s == Init(s) + [Last(s)];
      DistinctCount(Init(s), x);
    }
  }

  lemma DistinctArrangement<T>(a: seq<T>, b: seq<T>)
    requires Distinct(a) && multiset(a) == multiset(b)
    ensures Distinct(b)
  {
    forall i, j | 0 <= i < j < |b|
      ensures b[i] != b[j]
    {
      assert b == b[..j] + b[j..];
      assert b[i] in b[..j] && b[j] in b[j..];
      DistinctCount(a, b[i]);
    }
  }
}
