/** Counting a phrase in a text field, word by word. */
module PhraseCount {

  type Word = string

  predicate Occurs(tokens: seq<Word>, target: seq<Word>, at: nat) {
    at + |target| <= |tokens| && tokens[at..at + |target|] == target
  }

  /** Occurrences of which no two share a word. */
  predicate Packing(tokens: seq<Word>, target: seq<Word>, places: set<nat>) {
    && (forall p :: p in places ==> Occurs(tokens, target, p))
    && (forall p, q :: p in places && q in places && p < q ==> p + |target| <= q)
  }

  ghost predicate LargestPacking(tokens: seq<Word>, target: seq<Word>, count: nat) {
    && (exists places: set<nat> :: Packing(tokens, target, places) && |places| == count)
    && (forall places: set<nat> :: Packing(tokens, target, places) ==> |places| <= count)
  }

  /** What taking every occurrence that comes first finds from `start` on. */
  function Greedy(tokens: seq<Word>, target: seq<Word>, start: nat): nat
    requires target != []
    decreases |tokens| - start
  {
    if start + |target| > |tokens| then 0
    else if Occurs(tokens, target, start) then 1 + Greedy(tokens, target, start + |target|)
    else Greedy(tokens, target, start + 1)
  }

  lemma {:induction false} GreedyPacks(tokens: seq<Word>, target: seq<Word>, start: nat) returns (places: set<nat>)
    requires target != []
    ensures Packing(tokens, target, places) && |places| == Greedy(tokens, target, start)
    ensures forall p :: p in places ==> p >= start
    decreases |tokens| - start
  {
    if start + |target| > |tokens| {
      places := {};
    } else if Occurs(tokens, target, start) {
      var rest := GreedyPacks(tokens, target, start + |target|);
      assert start !in rest;
      places := {start} + rest;
    } else {
      places := GreedyPacks(tokens, target, start + 1);
    }
  }

  /** At most one place of a packing lies within the words of an occurrence's start. */
  lemma DropFirst(tokens: seq<Word>, target: seq<Word>, places: set<nat>, start: nat) returns (rest: set<nat>)
    requires target != [] && Packing(tokens, target, places)
    requires forall p :: p in places ==> p >= start
    ensures Packing(tokens, target, rest) && |places| <= |rest| + 1
    ensures forall p :: p in rest ==> p >= start + |target|
  {
    if p :| p in places && p < start + |target| {
      rest := places - {p};
      forall q | q in rest
        ensures q >= start + |target|
      {
        assert q < p ==> q + |target| <= p;
      }
    } else {
      rest := places;
    }
  }

  lemma {:induction false} GreedyIsLargest(tokens: seq<Word>, target: seq<Word>, start: nat, places: set<nat>)
    requires target != [] && Packing(tokens, target, places)
    requires forall p :: p in places ==> p >= start
    ensures |places| <= Greedy(tokens, target, start)
    decreases |tokens| - start
  {
    if start + |target| > |tokens| {
      if p :| p in places {
        assert Occurs(tokens, target, p);
      }
    } else if Occurs(tokens, target, start) {
      var rest := DropFirst(tokens, target, places, start);
      GreedyIsLargest(tokens, target, start + |target|, rest);
    } else {
      GreedyIsLargest(tokens, target, start + 1, places);
    }
  }

  /** The loop's own test: every word of the phrase at its offset. */
  method MatchesAt(tokens: seq<Word>, target: seq<Word>, start: nat) returns (matches: bool)
    requires start + |target| <= |tokens|
    ensures matches <==> Occurs(tokens, target, start)
  {
    for offset := 0 to |target|
      invariant forall k :: 0 <= k < offset ==> tokens[start + k] == target[k]
    {
      if tokens[start + offset] != target[offset] {
        assert tokens[start..start + |target|][offset] != target[offset];
        return false;
      }
    }
    assert tokens[start..start + |target|] == target;
    matches := true;
  }

  /**
   `countPhrase` on the words of field and phrase: the largest number of occurrences that do not
   overlap, also for phrases that overlap themselves; nothing for an empty phrase.
   */
  method CountPhrase(tokens: seq<Word>, target: seq<Word>) returns (count: nat)
    ensures target == [] ==> count == 0
    ensures target != [] ==> LargestPacking(tokens, target, count)
  {
    if target == [] {
      return 0;
    }
    count := 0;
    var start := 0;
    while start + |target| <= |tokens|
      invariant count + Greedy(tokens, target, start) == Greedy(tokens, target, 0)
      decreases |tokens| - start
    {
      var matches := MatchesAt(tokens, target, start);
      if matches {
        count := count + 1;
        start := start + |target|;
      } else {
        start := start + 1;
      }
    }
    ghost var places := GreedyPacks(tokens, target, 0);
    assert Packing(tokens, target, places) && |places| == count;
    forall other: set<nat> | Packing(tokens, target, other)
      ensures |other| <= count
    {
      GreedyIsLargest(tokens, target, 0, other);
    }
  }
}
