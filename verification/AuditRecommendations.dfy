/** The recommendations of an audit: what every advised check would add, ranked and sorted into buckets. */
module AuditRecommendations {
  import opened Wrappers
  import opened Sequences
  import opened AuditScore

  datatype Effort = Minutes | Hours | Weeks

  datatype Bucket = QuickWins | HighImpact | Strategic

  const HIGH_IMPACT_MIN_LIFT: real := 1.0

  function BucketFor(effort: Effort, lift: real): Bucket {
    if effort.Minutes? then QuickWins
    else if effort.Hours? && lift >= HIGH_IMPACT_MIN_LIFT then HighImpact
    else Strategic
  }

  /** A recommendation, with the weight of its factor, which only ranks it. */
  datatype Entry = Entry(id: CheckId, weight: real, effort: Effort, lift: real)

  /** Most lift first, then the heavier factor, then the check's id. */
  predicate Before(a: Entry, b: Entry) {
    a.lift > b.lift || (a.lift == b.lift && (a.weight > b.weight || (a.weight == b.weight && a.id <= b.id)))
  }

  function Rank(): (Entry, Entry) -> bool {
    (a: Entry, b: Entry) => Before(a, b)
  }

  function Advised(): Check -> bool {
    (c: Check) => c.advised
  }

  function EntryOf(factors: seq<Factor>, overall: real, effortOf: CheckId -> Effort, weight: real, check: Check): Entry {
    Entry(check.id, weight, effortOf(check.id), Lift(factors, check.id, overall))
  }

  function EntriesOf(factors: seq<Factor>, overall: real, effortOf: CheckId -> Effort, factor: Factor): seq<Entry> {
    Map((c: Check) => EntryOf(factors, overall, effortOf, factor.weight, c), Filter(Advised(), factor.checks))
  }

  /** The entries of the first `n` factors, in the order of the report. */
  function Entries(factors: seq<Factor>, overall: real, effortOf: CheckId -> Effort, n: nat): seq<Entry>
    requires n <= |factors|
  {
    if n == 0 then []
    else Entries(factors, overall, effortOf, n - 1) + EntriesOf(factors, overall, effortOf, factors[n - 1])
  }

  function InBucket(bucket: Bucket): Entry -> bool {
    (e: Entry) => BucketFor(e.effort, e.lift) == bucket
  }

  datatype Plan = Plan(quickWins: seq<Entry>, highImpact: seq<Entry>, strategic: seq<Entry>, potential: Option<real>)

  /** `buildRecommendations`: nothing without an overall score, else the ranked entries pushed into their buckets. */
  method BuildRecommendations(factors: seq<Factor>, overall: Option<real>, effortOf: CheckId -> Effort) returns (plan: Plan)
    ensures overall.None? ==> plan == Plan([], [], [], None)
    ensures overall.Some? ==>
              var ranked := SortBy(Rank(), Entries(factors, overall.value, effortOf, |factors|));
              && plan.quickWins == Filter(InBucket(QuickWins), ranked)
              && plan.highImpact == Filter(InBucket(HighImpact), ranked)
              && plan.strategic == Filter(InBucket(Strategic), ranked)
              && plan.potential == OverallWith(factors, AdvisedIds(factors))
  {
    if overall.None? {
      return Plan([], [], [], None);
    }
    var ranked := SortBy(Rank(), Entries(factors, overall.value, effortOf, |factors|));
    var quickWins: seq<Entry>, highImpact: seq<Entry>, strategic: seq<Entry> := [], [], [];
    for n := 0 to |ranked|
      invariant quickWins == Filter(InBucket(QuickWins), ranked[..n])
      invariant highImpact == Filter(InBucket(HighImpact), ranked[..n])
      invariant strategic == Filter(InBucket(Strategic), ranked[..n])
    {
      assert Init(ranked[..n + 1]) == ranked[..n] && Last(ranked[..n + 1]) == ranked[n];
      match BucketFor(ranked[n].effort, ranked[n].lift)
      case QuickWins => quickWins := quickWins + [ranked[n]];
      case HighImpact => highImpact := highImpact + [ranked[n]];
      case Strategic => strategic := strategic + [ranked[n]];
    }
    assert ranked[..|ranked|] == ranked;
    plan := Plan(quickWins, highImpact, strategic, OverallWith(factors, AdvisedIds(factors)));
  }

  lemma {:induction false} BucketsPartition(entries: seq<Entry>)
    ensures multiset(Filter(InBucket(QuickWins), entries)) + multiset(Filter(InBucket(HighImpact), entries))
            + multiset(Filter(InBucket(Strategic), entries)) == multiset(entries)
  {
    if entries != [] {
      BucketsPartition(Init(entries));
      assert entries == Init(entries) + [Last(entries)];
    }
  }

  lemma RankIsOrder()
    ensures TotalPreorder(Rank())
  {
  }

  /** Each advised check is recommended once, in its bucket, and every bucket is ranked. */
  lemma RecommendedOnce(factors: seq<Factor>, overall: real, effortOf: CheckId -> Effort)
    ensures var entries := Entries(factors, overall, effortOf, |factors|);
            var ranked := SortBy(Rank(), entries);
            && multiset(Filter(InBucket(QuickWins), ranked)) + multiset(Filter(InBucket(HighImpact), ranked))
               + multiset(Filter(InBucket(Strategic), ranked)) == multiset(entries)
            && forall bucket :: Sorted(Rank(), Filter(InBucket(bucket), ranked))
  {
    var entries := Entries(factors, overall, effortOf, |factors|);
    RankIsOrder();
    SortPermutes(Rank(), entries);
    SortSorted(Rank(), entries);
    BucketsPartition(SortBy(Rank(), entries));
    forall bucket
      ensures Sorted(Rank(), Filter(InBucket(bucket), SortBy(Rank(), entries)))
    {
      FilterSorted(Rank(), InBucket(bucket), SortBy(Rank(), entries));
    }
  }

  lemma EntryOfFactor(factors: seq<Factor>, overall: real, effortOf: CheckId -> Effort, factor: Factor, e: Entry)
    returns (j: nat)
    requires e in EntriesOf(factors, overall, effortOf, factor)
    ensures j < |factor.checks| && factor.checks[j].advised
    ensures e == EntryOf(factors, overall, effortOf, factor.weight, factor.checks[j])
  {
    FilterMembers(Advised(), factor.checks);
    var advised := Filter(Advised(), factor.checks);
    var entries := EntriesOf(factors, overall, effortOf, factor);
    var k :| 0 <= k < |entries| && entries[k] == e;
    assert advised[k] in advised;
    j :| 0 <= j < |factor.checks| && factor.checks[j] == advised[k];
  }

  lemma {:induction false} EntryOrigin(factors: seq<Factor>, overall: real, effortOf: CheckId -> Effort, n: nat, e: Entry)
    returns (i: nat, j: nat)
    requires n <= |factors| && e in Entries(factors, overall, effortOf, n)
    ensures i < n && j < |factors[i].checks| && factors[i].checks[j].advised
    ensures e == EntryOf(factors, overall, effortOf, factors[i].weight, factors[i].checks[j])
  {
    if e in EntriesOf(factors, overall, effortOf, factors[n - 1]) {
      i := n - 1;
      j := EntryOfFactor(factors, overall, effortOf, factors[n - 1], e);
    } else {
      i, j := EntryOrigin(factors, overall, effortOf, n - 1, e);
    }
  }

  lemma AdvisedInFactor(factors: seq<Factor>, overall: real, effortOf: CheckId -> Effort, factor: Factor, j: nat)
    requires j < |factor.checks| && factor.checks[j].advised
    ensures EntryOf(factors, overall, effortOf, factor.weight, factor.checks[j])
         in EntriesOf(factors, overall, effortOf, factor)
  {
    FilterMembers(Advised(), factor.checks);
    var advised := Filter(Advised(), factor.checks);
    assert factor.checks[j] in advised;
    var k :| 0 <= k < |advised| && advised[k] == factor.checks[j];
    assert EntriesOf(factors, overall, effortOf, factor)[k]
        == EntryOf(factors, overall, effortOf, factor.weight, factor.checks[j]);
  }

  lemma {:induction false} FactorIsListed(factors: seq<Factor>, overall: real, effortOf: CheckId -> Effort, n: nat, i: nat,
                                          e: Entry)
    requires i < n <= |factors| && e in EntriesOf(factors, overall, effortOf, factors[i])
    ensures e in Entries(factors, overall, effortOf, n)
  {
    if i < n - 1 {
      FactorIsListed(factors, overall, effortOf, n - 1, i, e);
    }
  }

  /** No advised check is left out. */
  lemma AdvisedIsListed(factors: seq<Factor>, overall: real, effortOf: CheckId -> Effort, i: nat, j: nat)
    requires i < |factors| && j < |factors[i].checks| && factors[i].checks[j].advised
    ensures var (weight, id) := (factors[i].weight, factors[i].checks[j].id);
            Entry(id, weight, effortOf(id), Lift(factors, id, overall)) in Entries(factors, overall, effortOf, |factors|)
  {
    AdvisedInFactor(factors, overall, effortOf, factors[i], j);
    FactorIsListed(factors, overall, effortOf, |factors|, i,
                   EntryOf(factors, overall, effortOf, factors[i].weight, factors[i].checks[j]));
  }

  /** Every recommended lift is what its check would add, and no more than the plan's potential promises. */
  lemma LiftsArePromised(factors: seq<Factor>, overall: real, effortOf: CheckId -> Effort, e: Entry)
    requires FactorsSound(factors) && IdsUnique(factors) && OverallWith(factors, {}) == Some(overall)
    requires e in Entries(factors, overall, effortOf, |factors|)
    ensures LiftHolds(factors, e.id, overall, e.lift)
  {
    var i, j := EntryOrigin(factors, overall, effortOf, |factors|, e);
    ChecksOfFactors(factors, i, j);
    assert factors[i].checks[j].id in AdvisedIds(factors);
    LiftWithinPotential(factors, e.id, overall);
  }
}
