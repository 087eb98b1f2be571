/**
 The key conditions of the workspace export: an interval of composite keys, written as an OR of
 conditions on single columns because the query builder cannot compare rows of values.
 */
module ExportTables {

  /** The values of a table's key columns, in their order. */
  type Key = seq<int>

  /** `low` and `high` agree before a column and ascend there. */
  predicate DiffersAt(low: Key, high: Key, d: nat) {
    && d < |low| && d < |high|
    && low[..d] == high[..d] && low[d] < high[d]
  }

  /** Row comparison of keys with the same columns, as SQL does it. */
  predicate Before(low: Key, high: Key) {
    exists d: nat :: d < |low| && DiffersAt(low, high, d)
  }

  predicate AtMost(low: Key, high: Key) {
    low == high || Before(low, high)
  }

  lemma AgreeBefore(low: Key, high: Key, d: nat, i: nat)
    requires i <= d && d <= |low| && d <= |high| && low[..d] == high[..d]
    ensures low[..i] == high[..i]
    ensures i < d ==> low[i] == high[i]
  {
    assert low[..i] == low[..d][..i] && high[..i] == high[..d][..i];
    assert i < d ==> low[i] == low[..d][i] && high[i] == high[..d][i];
  }

  lemma BeforeTransitive(a: Key, b: Key, c: Key)
    requires Before(a, b) && Before(b, c)
    ensures Before(a, c)
  {
    var d: nat :| d < |a| && DiffersAt(a, b, d);
    var e: nat :| e < |b| && DiffersAt(b, c, e);
    var m := if d < e then d else e;
    AgreeBefore(a, b, d, m);
    AgreeBefore(b, c, e, m);
    assert DiffersAt(a, c, m);
  }

  lemma BeforeIrreflexive(a: Key, b: Key)
    requires Before(a, b)
    ensures !Before(b, a) && a != b
  {
    var d: nat :| d < |a| && DiffersAt(a, b, d);
    if Before(b, a) {
      var e: nat :| e < |b| && DiffersAt(b, a, e);
      if d < e {
        AgreeBefore(b, a, e, d);
      } else {
        AgreeBefore(a, b, d, e);
      }
    }
  }

  /** Of two keys with the same columns one is before the other, unless they are equal. */
  lemma {:induction false} Comparable(a: Key, b: Key, from: nat)
    requires |a| == |b| && from <= |a| && a[..from] == b[..from]
    ensures a == b || Before(a, b) || Before(b, a)
    decreases |a| - from
  {
    if from == |a| {
      assert a == a[..from] && b == b[..from];
    } else if a[from] < b[from] {
      assert DiffersAt(a, b, from);
    } else if b[from] < a[from] {
      assert DiffersAt(b, a, from);
    } else {
      assert a[..from + 1] == a[..from] + [a[from]] && b[..from + 1] == b[..from] + [b[from]];
      Comparable(a, b, from + 1);
    }
  }

  // Column conditions

  datatype Test =
    | Is(value: int)
    | Gt(value: int)
    | Gte(value: int)
    | Lt(value: int)
    | Lte(value: int)
    | Both(low: Test, high: Test)

  predicate Passes(test: Test, value: int) {
    match test
    case Is(v) => value == v
    case Gt(v) => value > v
    case Gte(v) => value >= v
    case Lt(v) => value < v
    case Lte(v) => value <= v
    case Both(low, high) => Passes(low, value) && Passes(high, value)
  }

  /** Conditions on the first columns of a key, all of which must hold. */
  type Branch = seq<Test>

  predicate Meets(branch: Branch, row: Key) {
    |branch| <= |row| && forall i :: 0 <= i < |branch| ==> Passes(branch[i], row[i])
  }

  datatype Where = AllOf(branch: Branch) | AnyOf(branches: seq<Branch>)

  predicate Matches(filter: Where, row: Key) {
    match filter
    case AllOf(branch) => Meets(branch, row)
    case AnyOf(branches) => exists i :: 0 <= i < |branches| && Meets(branches[i], row)
  }

  function PrefixOf(length: nat, row: Key): Branch
    requires length <= |row|
  {
    seq(length, i requires 0 <= i < length => Is(row[i]))
  }

  function Above(index: nat, end: nat, value: int): Test {
    if index == end then Gte(value) else Gt(value)
  }

  function Below(index: nat, end: nat, value: int): Test {
    if index == end then Lte(value) else Lt(value)
  }

  function FirstEdge(first: Key, index: nat): Branch
    requires index < |first|
  {
    PrefixOf(index, first) + [Above(index, |first| - 1, first[index])]
  }

  function LastEdge(last: Key, index: nat): Branch
    requires index < |last|
  {
    PrefixOf(index, last) + [Below(index, |last| - 1, last[index])]
  }

  function Middle(first: Key, last: Key, split: nat): Branch
    requires split < |first| == |last|
  {
    PrefixOf(split, first)
    + [Both(Above(split, |first| - 1, first[split]), Below(split, |first| - 1, last[split]))]
  }

  /** The first column whose values differ, or the number of columns when none does. */
  function Split(first: Key, last: Key, from: nat): (split: nat)
    requires from <= |first| == |last|
    requires first[..from] == last[..from]
    ensures split <= |first| && first[..split] == last[..split]
    ensures split < |first| ==> first[split] != last[split]
    decreases |first| - from
  {
    if from == |first| || first[from] != last[from] then from
    else
      assert first[..from + 1] == first[..from] + [first[from]] && last[..from + 1] == last[..from] + [last[from]];
      Split(first, last, from + 1)
  }

  /** Branch `i` of the OR: edges of `first` from the last column up, the middle, edges of `last` down again. */
  function BranchAt(first: Key, last: Key, split: nat, i: nat): Branch
    requires split < |first| == |last| && i <= 2 * (|first| - 1 - split)
  {
    var depth := |first| - 1 - split;
    if i < depth then FirstEdge(first, |first| - 1 - i)
    else if i == depth then Middle(first, last, split)
    else LastEdge(last, split + (i - depth))
  }

  /** The edges of `first` in the columns behind the split, deepest first. */
  function FirstEdges(first: Key, split: nat): (branches: seq<Branch>)
    requires split < |first|
  {
    seq(|first| - 1 - split, i requires 0 <= i < |first| - 1 - split => FirstEdge(first, |first| - 1 - i))
  }

  /** The edges of `last` in the same columns, deepest last. */
  function LastEdges(last: Key, split: nat): (branches: seq<Branch>)
    requires split < |last|
  {
    seq(|last| - 1 - split, i requires 0 <= i < |last| - 1 - split => LastEdge(last, split + 1 + i))
  }

  function Branches(first: Key, last: Key, split: nat): seq<Branch>
    requires split < |first| == |last|
  {
    FirstEdges(first, split) + [Middle(first, last, split)] + LastEdges(last, split)
  }

  lemma BranchesByIndex(first: Key, last: Key, split: nat, i: nat)
    requires split < |first| == |last| && i <= 2 * (|first| - 1 - split)
    ensures |Branches(first, last, split)| == 2 * (|first| - 1 - split) + 1
    ensures Branches(first, last, split)[i] == BranchAt(first, last, split, i)
  {
    var depth := |first| - 1 - split;
    var low, high := FirstEdges(first, split), LastEdges(last, split);
    assert |low| == depth && |high| == depth;
    if i < depth {
      assert Branches(first, last, split)[i] == low[i];
    } else if i > depth {
      assert Branches(first, last, split)[i] == high[i - depth - 1];
      assert split + (i - depth) == split + 1 + (i - depth - 1);
    }
  }

  function KeyRange(first: Key, last: Key): Where
    requires |first| == |last|
  {
    var split := Split(first, last, 0);
    if split == |first| then AllOf(PrefixOf(|first|, first)) else AnyOf(Branches(first, last, split))
  }

  // What a branch selects

  lemma MeetsPrefixed(length: nat, key: Key, test: Test, row: Key)
    requires length < |key| == |row|
    ensures Meets(PrefixOf(length, key) + [test], row) <==> row[..length] == key[..length] && Passes(test, row[length])
  {
    var branch := PrefixOf(length, key) + [test];
    if Meets(branch, row) {
      forall i | 0 <= i < length
        ensures row[..length][i] == key[..length][i]
      {
        assert branch[i] == Is(key[i]);
        assert Passes(branch[i], row[i]);
      }
      assert branch[length] == test;
    }
    if row[..length] == key[..length] && Passes(test, row[length]) {
      forall i | 0 <= i < |branch|
        ensures Passes(branch[i], row[i])
      {
        if i < length {
          assert row[..length][i] == key[..length][i];
        }
      }
    }
  }

  lemma SameToTheEnd(a: Key, b: Key)
    requires |a| == |b| > 0 && a[..|a| - 1] == b[..|a| - 1] && a[|a| - 1] == b[|a| - 1]
    ensures a == b
  {
    assert a == a[..|a| - 1] + [a[|a| - 1]] && b == b[..|a| - 1] + [b[|a| - 1]];
  }

  /** An edge of `first` selects the rows that leave `first` upwards in one column; the last edge also `first`. */
  lemma MeetsFirstEdge(first: Key, index: nat, row: Key)
    requires index < |first| == |row|
    ensures Meets(FirstEdge(first, index), row) <==>
            DiffersAt(first, row, index) || (index == |first| - 1 && row == first)
  {
    MeetsPrefixed(index, first, Above(index, |first| - 1, first[index]), row);
    if Meets(FirstEdge(first, index), row) && row[index] == first[index] {
      SameToTheEnd(first, row);
    }
  }

  lemma MeetsLastEdge(last: Key, index: nat, row: Key)
    requires index < |last| == |row|
    ensures Meets(LastEdge(last, index), row) <==>
            DiffersAt(row, last, index) || (index == |last| - 1 && row == last)
  {
    MeetsPrefixed(index, last, Below(index, |last| - 1, last[index]), row);
    if Meets(LastEdge(last, index), row) && row[index] == last[index] {
      SameToTheEnd(last, row);
    }
  }

  /** Between two keys that agree on their first columns, a row agrees with them there. */
  lemma Squeezed(first: Key, last: Key, row: Key, split: nat)
    requires |first| == |last| == |row| && split <= |first|
    requires first[..split] == last[..split]
    requires AtMost(first, row) && AtMost(row, last)
    ensures row[..split] == first[..split]
    ensures split < |first| ==> first[split] <= row[split] <= last[split]
  {
    if first != row && row != last {
      var d: nat :| d < |first| && DiffersAt(first, row, d);
      var e: nat :| e < |row| && DiffersAt(row, last, e);
      if d < split && d <= e {
        AgreeBefore(row, last, e, d);
        AgreeBefore(first, last, split, d);
      } else if e < split {
        AgreeBefore(first, row, d, e);
        AgreeBefore(first, last, split, e);
      }
      assert d >= split && e >= split;
      AgreeBefore(first, row, d, split);
      AgreeBefore(row, last, e, split);
    } else if first != row {
      BetweenEnds(first, row, split);
    } else if row != last {
      BetweenEnds(row, last, split);
    }
  }

  lemma BetweenEnds(low: Key, high: Key, split: nat)
    requires |low| == |high| && split <= |low| && low[..split] == high[..split]
    requires Before(low, high)
    ensures split < |low| ==> low[split] <= high[split]
  {
    var d: nat :| d < |low| && DiffersAt(low, high, d);
    if d < split {
      AgreeBefore(low, high, split, d);
    } else if split < |low| {
      AgreeBefore(low, high, d, split);
    }
  }

  predicate SplitAt(first: Key, last: Key, split: nat) {
    split < |first| == |last| && first[..split] == last[..split] && first[split] < last[split]
  }

  /** Every branch selects only rows of the interval. */
  lemma BranchInside(first: Key, last: Key, split: nat, i: nat, row: Key)
    requires SplitAt(first, last, split) && |row| == |first| && i <= 2 * (|first| - 1 - split)
    requires Meets(BranchAt(first, last, split, i), row)
    ensures AtMost(first, row) && AtMost(row, last)
  {
    var depth := |first| - 1 - split;
    assert DiffersAt(first, last, split);
    if i < depth {
      var index := |first| - 1 - i;
      MeetsFirstEdge(first, index, row);
      AgreeBefore(first, row, if row == first then |first| else index, split);
      assert DiffersAt(row, last, split);
    } else if i == depth {
      MeetsPrefixed(split, first, Both(Above(split, |first| - 1, first[split]), Below(split, |first| - 1, last[split])),
                    row);
      if row[split] == first[split] {
        SameToTheEnd(first, row);
      } else {
        assert DiffersAt(first, row, split);
      }
      if row[split] == last[split] {
        SameToTheEnd(last, row);
      } else {
        assert DiffersAt(row, last, split);
      }
    } else {
      var index := split + (i - depth);
      MeetsLastEdge(last, index, row);
      AgreeBefore(row, last, if row == last then |last| else index, split);
      assert DiffersAt(first, row, split);
    }
  }

  /** Every row of the interval is selected by a branch. */
  lemma BranchFor(first: Key, last: Key, split: nat, row: Key) returns (i: nat)
    requires SplitAt(first, last, split) && |row| == |first|
    requires AtMost(first, row) && AtMost(row, last)
    ensures i <= 2 * (|first| - 1 - split) && Meets(BranchAt(first, last, split, i), row)
  {
    Squeezed(first, last, row, split);
    var end := |first| - 1;
    if split == end || first[split] < row[split] < last[split] {
      i := end - split;
      MeetsPrefixed(split, first, Both(Above(split, end, first[split]), Below(split, end, last[split])), row);
      assert BranchAt(first, last, split, i) == Middle(first, last, split);
    } else if row[split] == first[split] {
      var d := FirstEdgeFor(first, split, row);
      i := end - d;
      assert BranchAt(first, last, split, i) == FirstEdge(first, d);
    } else {
      var d := LastEdgeFor(last, split, row);
      i := end - split + (d - split);
      assert BranchAt(first, last, split, i) == LastEdge(last, d);
    }
  }

  lemma FirstEdgeFor(first: Key, split: nat, row: Key) returns (d: nat)
    requires split < |first| - 1 && |row| == |first|
    requires row[..split] == first[..split] && row[split] == first[split] && AtMost(first, row)
    ensures split < d < |first| && Meets(FirstEdge(first, d), row)
  {
    if row == first {
      d := |first| - 1;
    } else {
      d :| d < |first| && DiffersAt(first, row, d);
      DeeperThan(first, row, d, split);
    }
    MeetsFirstEdge(first, d, row);
  }

  lemma LastEdgeFor(last: Key, split: nat, row: Key) returns (d: nat)
    requires split < |last| - 1 && |row| == |last|
    requires row[..split] == last[..split] && row[split] == last[split] && AtMost(row, last)
    ensures split < d < |last| && Meets(LastEdge(last, d), row)
  {
    if row == last {
      d := |last| - 1;
    } else {
      d :| d < |row| && DiffersAt(row, last, d);
      DeeperThan(row, last, d, split);
    }
    MeetsLastEdge(last, d, row);
  }

  lemma DeeperThan(low: Key, high: Key, d: nat, split: nat)
    requires DiffersAt(low, high, d) && split < |low| == |high|
    requires low[..split] == high[..split] && low[split] == high[split]
    ensures d > split
  {
    if d < split {
      AgreeBefore(low, high, split, d);
    }
  }

  lemma SplitAscends(first: Key, last: Key)
    requires |first| == |last| && AtMost(first, last) && first != last
    ensures SplitAt(first, last, Split(first, last, 0))
  {
    var split := Split(first, last, 0);
    assert first[..|first|] == first && last[..|last|] == last;
    BetweenEnds(first, last, split);
  }

  /** The condition selects exactly the interval, for keys of any length. */
  lemma KeyRangeIsInterval(first: Key, last: Key, row: Key)
    requires |first| == |last| == |row| && AtMost(first, last)
    ensures Matches(KeyRange(first, last), row) <==> AtMost(first, row) && AtMost(row, last)
  {
    var split := Split(first, last, 0);
    if first == last {
      AllEqual(first, row);
      if AtMost(first, row) && AtMost(row, last) {
        Squeezed(first, last, row, |first|);
        assert row == row[..|first|] && first == first[..|first|];
      }
    } else {
      SplitAscends(first, last);
      var branches := KeyRange(first, last).branches;
      if Matches(KeyRange(first, last), row) {
        var i :| 0 <= i < |branches| && Meets(branches[i], row);
        BranchesByIndex(first, last, split, 0);
        BranchesByIndex(first, last, split, i);
        BranchInside(first, last, split, i, row);
      }
      if AtMost(first, row) && AtMost(row, last) {
        var i := BranchFor(first, last, split, row);
        BranchesByIndex(first, last, split, i);
      }
    }
  }

  /**
   What the condition leaves out is exactly what is before the first key or behind the last one,
   and nothing is both: ranges that follow each other split a table.
   */
  lemma KeyRangeSplitsTable(first: Key, last: Key, row: Key)
    requires |first| == |last| == |row| && AtMost(first, last)
    ensures !Matches(KeyRange(first, last), row) <==> Before(row, first) || Before(last, row)
    ensures !(Before(row, first) && Before(last, row))
  {
    KeyRangeIsInterval(first, last, row);
    Comparable(first, row, 0);
    Comparable(row, last, 0);
    if Before(row, first) {
      BeforeIrreflexive(row, first);
    }
    if Before(last, row) {
      BeforeIrreflexive(last, row);
    }
    if Before(row, first) && Before(last, row) {
      BeforeTransitive(last, row, first);
      BeforeIrreflexive(last, first);
    }
  }

  lemma AllEqual(first: Key, row: Key)
    requires |first| == |row|
    ensures Split(first, first, 0) == |first|
    ensures Meets(PrefixOf(|first|, first), row) <==> row == first
  {
    var branch := PrefixOf(|first|, first);
    if Meets(branch, row) {
      forall i | 0 <= i < |row|
        ensures row[i] == first[i]
      {
        assert branch[i] == Is(first[i]);
        assert Passes(branch[i], row[i]);
      }
    }
  }

  /** The branches are listed in ascending order of what they select: no row is in two of them. */
  lemma BranchesAscend(first: Key, last: Key, i: nat, j: nat, row: Key, later: Key)
    requires |first| == |last| == |row| == |later| && AtMost(first, last) && first != last
    requires i < j < |KeyRange(first, last).branches|
    requires Meets(KeyRange(first, last).branches[i], row) && Meets(KeyRange(first, last).branches[j], later)
    ensures Before(row, later)
  {
    SplitAscends(first, last);
    var split := Split(first, last, 0);
    BranchesByIndex(first, last, split, 0);
    BranchesByIndex(first, last, split, i);
    BranchesByIndex(first, last, split, j);
    BranchesAtAscend(first, last, split, i, j, row, later);
  }

  lemma BranchesAtAscend(first: Key, last: Key, split: nat, i: nat, j: nat, row: Key, later: Key)
    requires SplitAt(first, last, split) && |first| == |row| == |later|
    requires i < j <= 2 * (|first| - 1 - split)
    requires Meets(BranchAt(first, last, split, i), row) && Meets(BranchAt(first, last, split, j), later)
    ensures Before(row, later)
  {
    var depth := |first| - 1 - split;
    if j < depth {
      FirstEdgesAscend(first, |first| - 1 - i, |first| - 1 - j, row, later);
    } else if i > depth {
      LastEdgesAscend(last, split + (i - depth), split + (j - depth), row, later);
    } else {
      AtSplit(first, last, split, i, row);
      AtSplit(first, last, split, j, later);
      assert DiffersAt(row, later, split);
    }
  }

  lemma FirstEdgesAscend(first: Key, deep: nat, shallow: nat, row: Key, later: Key)
    requires shallow < deep < |first| == |row| == |later|
    requires Meets(FirstEdge(first, deep), row) && Meets(FirstEdge(first, shallow), later)
    ensures Before(row, later)
  {
    MeetsFirstEdge(first, deep, row);
    MeetsFirstEdge(first, shallow, later);
    AgreeBefore(first, row, if row == first then |first| else deep, shallow);
    assert DiffersAt(row, later, shallow);
  }

  lemma LastEdgesAscend(last: Key, shallow: nat, deep: nat, row: Key, later: Key)
    requires shallow < deep < |last| == |row| == |later|
    requires Meets(LastEdge(last, shallow), row) && Meets(LastEdge(last, deep), later)
    ensures Before(row, later)
  {
    MeetsLastEdge(last, shallow, row);
    MeetsLastEdge(last, deep, later);
    AgreeBefore(later, last, if later == last then |last| else deep, shallow);
    assert DiffersAt(row, later, shallow);
  }

  lemma AtSplit(first: Key, last: Key, split: nat, i: nat, row: Key)
    requires SplitAt(first, last, split) && |row| == |first| && i <= 2 * (|first| - 1 - split)
    requires Meets(BranchAt(first, last, split, i), row)
    ensures row[..split] == first[..split]
    ensures i < |first| - 1 - split ==> row[split] == first[split]
    ensures i > |first| - 1 - split ==> row[split] == last[split]
    ensures i == |first| - 1 - split > 0 ==> first[split] < row[split] < last[split]
  {
    var end := |first| - 1;
    var depth := end - split;
    if i < depth {
      MeetsFirstEdge(first, end - i, row);
      AgreeBefore(first, row, if row == first then |first| else end - i, split);
    } else if i == depth {
      MeetsPrefixed(split, first, Both(Above(split, end, first[split]), Below(split, end, last[split])), row);
    } else {
      MeetsLastEdge(last, split + (i - depth), row);
      AgreeBefore(row, last, if row == last then |last| else split + (i - depth), split);
    }
  }
}
