/** One run of the action generator: which detections are taken up, and the steps it plans from its read. */
module ActionsGenerator {
  import opened Wrappers
  import opened Sequences
  import opened ActionLifecycle
  import opened ActionWrites
  import opened ActionCenter

  /** A scored detection; a withheld one only keeps its row from being missed. */
  datatype Detection = Detection(fingerprint: Id, app: int, impact: int, priority: int, withheld: bool)

  /** A stored row as the run reads it, with the rule it belongs to. */
  datatype Stored = Stored(rule: int, row: Row)

  type Existing = map<Id, Stored>

  /** Most impact first, then by fingerprint. */
  predicate Before(a: Detection, b: Detection) {
    a.impact > b.impact || (a.impact == b.impact && a.fingerprint <= b.fingerprint)
  }

  function Ranking(): (Detection, Detection) -> bool {
    (a: Detection, b: Detection) => Before(a, b)
  }

  predicate IsNew(existing: Existing, detection: Detection, app: int) {
    detection.fingerprint !in existing && detection.app == app
  }

  /** How many detections of an app have no row yet. */
  function NewCount(existing: Existing, detections: seq<Detection>, app: int): nat {
    if detections == [] then 0
    else NewCount(existing, Init(detections), app) + if IsNew(existing, Last(detections), app) then 1 else 0
  }

  predicate Keeps(existing: Existing, before: seq<Detection>, detection: Detection, cap: nat) {
    detection.fingerprint in existing || NewCount(existing, before, detection.app) < cap
  }

  /** Every detection with a row, and for each app the first ones without, up to the cap. */
  function Kept(existing: Existing, ordered: seq<Detection>, cap: nat): seq<Detection> {
    if ordered == [] then []
    else if Keeps(existing, Init(ordered), Last(ordered), cap) then Kept(existing, Init(ordered), cap) + [Last(ordered)]
    else Kept(existing, Init(ordered), cap)
  }

  function Min(a: nat, b: nat): nat {
    if a < b then a else b
  }

  /** The counts per app that the loop keeps, which stop at the cap. */
  ghost predicate Counts(openedPerApp: map<int, nat>, existing: Existing, ordered: seq<Detection>, cap: nat) {
    forall app :: (if app in openedPerApp then openedPerApp[app] else 0) == Min(cap, NewCount(existing, ordered, app))
  }

  lemma CountsGrow(openedPerApp: map<int, nat>, existing: Existing, before: seq<Detection>, detection: Detection, cap: nat)
    requires Counts(openedPerApp, existing, before, cap)
    ensures var used := if detection.app in openedPerApp then openedPerApp[detection.app] else 0;
            var all := before + [detection];
            && (detection.fingerprint in existing ==> Counts(openedPerApp, existing, all, cap))
            && (detection.fingerprint !in existing ==> (used >= cap <==> !Keeps(existing, before, detection, cap)))
            && (detection.fingerprint !in existing && used >= cap ==> Counts(openedPerApp, existing, all, cap))
            && (detection.fingerprint !in existing && used < cap ==>
                  Counts(openedPerApp[detection.app := used + 1], existing, all, cap))
  {
    assert Init(before + [detection]) == before && Last(before + [detection]) == detection;
  }

  /** `capNewDetections`. */
  method CapNewDetections(scored: seq<Detection>, existing: Existing, cap: nat)
    returns (kept: seq<Detection>, suppressed: nat)
    ensures kept == Kept(existing, SortBy(Ranking(), scored), cap)
    ensures |kept| + suppressed == |scored|
  {
    var ordered := SortBy(Ranking(), scored);
    var openedPerApp: map<int, nat> := map[];
    kept, suppressed := [], 0;
    for n := 0 to |ordered|
      invariant kept == Kept(existing, ordered[..n], cap)
      invariant |kept| + suppressed == n
      invariant Counts(openedPerApp, existing, ordered[..n], cap)
    {
      var detection := ordered[n];
      assert ordered[..n + 1] == ordered[..n] + [detection] && Init(ordered[..n + 1]) == ordered[..n];
      CountsGrow(openedPerApp, existing, ordered[..n], detection, cap);
      if detection.fingerprint in existing {
        kept := kept + [detection];
      } else {
        var used := if detection.app in openedPerApp then openedPerApp[detection.app] else 0;
        if used >= cap {
          suppressed := suppressed + 1;
        } else {
          openedPerApp := openedPerApp[detection.app := used + 1];
          kept := kept + [detection];
        }
      }
    }
    assert ordered[..|ordered|] == ordered;
  }

  lemma NewCountAppends(existing: Existing, before: seq<Detection>, detection: Detection, app: int)
    ensures NewCount(existing, before + [detection], app)
         == NewCount(existing, before, app) + if IsNew(existing, detection, app) then 1 else 0
  {
    assert Init(before + [detection]) == before && Last(before + [detection]) == detection;
  }

  /** Of each app's detections without a row, as many are kept as the cap allows. */
  lemma {:induction false} CapIsReached(existing: Existing, ordered: seq<Detection>, cap: nat, app: int)
    ensures NewCount(existing, Kept(existing, ordered, cap), app) == Min(cap, NewCount(existing, ordered, app))
  {
    if ordered != [] {
      CapIsReached(existing, Init(ordered), cap, app);
      var before := Kept(existing, Init(ordered), cap);
      NewCountAppends(existing, before, Last(ordered), app);
    }
  }

  lemma {:induction false} NewCountGrows(existing: Existing, ordered: seq<Detection>, app: int, i: nat, j: nat)
    requires i <= j <= |ordered|
    ensures NewCount(existing, ordered[..i], app) <= NewCount(existing, ordered[..j], app)
    decreases j - i
  {
    if i < j {
      NewCountGrows(existing, ordered, app, i, j - 1);
      assert Init(ordered[..j]) == ordered[..j - 1];
    }
  }

  /** A detection is kept when its place in the ranking is. */
  lemma {:induction false} KeptByPlace(existing: Existing, ordered: seq<Detection>, cap: nat, detection: Detection)
    ensures detection in Kept(existing, ordered, cap) <==>
            exists i :: 0 <= i < |ordered| && ordered[i] == detection && Keeps(existing, ordered[..i], ordered[i], cap)
  {
    if ordered != [] {
      KeptByPlace(existing, Init(ordered), cap, detection);
      var last := |ordered| - 1;
      assert ordered[..last] == Init(ordered);
      forall i | 0 <= i < last
        ensures Init(ordered)[i] == ordered[i] && Init(ordered)[..i] == ordered[..i]
      {
      }
    }
  }

  /** Of one app's detections without a row, the places that are kept come before those that are not. */
  lemma KeptPlacesFirst(existing: Existing, ordered: seq<Detection>, cap: nat, i: nat, j: nat)
    requires i < |ordered| && j < |ordered| && ordered[i].app == ordered[j].app
    requires ordered[i].fingerprint !in existing
    requires Keeps(existing, ordered[..i], ordered[i], cap) && !Keeps(existing, ordered[..j], ordered[j], cap)
    ensures i < j
  {
    if j <= i {
      NewCountGrows(existing, ordered, ordered[i].app, j, i);
    }
  }

  /**
   What the cap leaves out has no row, and never outranks a detection without a row that it keeps of
   the same app.
   */
  lemma SuppressedRankLast(existing: Existing, scored: seq<Detection>, cap: nat, kept: Detection, left: Detection)
    requires var taken := Kept(existing, SortBy(Ranking(), scored), cap);
             left in scored && left !in taken && kept in taken
    ensures left.fingerprint !in existing
    ensures kept.fingerprint !in existing && kept.app == left.app ==>
              && kept != left
              && (kept.impact > left.impact || (kept.impact == left.impact && kept.fingerprint <= left.fingerprint))
  {
    var ordered := SortBy(Ranking(), scored);
    SortPermutes(Ranking(), scored);
    assert left in multiset(ordered);
    var j :| 0 <= j < |ordered| && ordered[j] == left;
    KeptByPlace(existing, ordered, cap, left);
    KeptByPlace(existing, ordered, cap, kept);
    var i :| 0 <= i < |ordered| && ordered[i] == kept && Keeps(existing, ordered[..i], ordered[i], cap);
    if kept.fingerprint !in existing && kept.app == left.app {
      KeptPlacesFirst(existing, ordered, cap, i, j);
      RankingIsOrder();
      SortSorted(Ranking(), scored);
      assert Ranking()(ordered[i], ordered[j]);
    }
  }

  lemma RankingIsOrder()
    ensures TotalPreorder(Ranking())
  {
  }

  // The steps of a run

  function Live(): Detection -> bool {
    (d: Detection) => !d.withheld
  }

  function ReadOf(existing: Existing, id: Id): Option<Row> {
    if id in existing then Some(existing[id].row) else None
  }

  function FiredStep(existing: Existing, now: int): Detection -> Step {
    (d: Detection) => Step(d.fingerprint, Plan(ReadOf(existing, d.fingerprint), true, d.priority, d.impact, now))
  }

  function MissedStep(existing: Existing, now: int): Id -> Step {
    (id: Id) => Step(id, Plan(ReadOf(existing, id), false, 0, 0, now))
  }

  function Writes(): Step -> bool {
    (s: Step) => HasWrite(s.plan)
  }

  /** Seen by a kept detection or by one that is withheld. */
  predicate Detected(kept: seq<Detection>, scored: seq<Detection>, id: Id) {
    (exists i :: 0 <= i < |kept| && kept[i].fingerprint == id)
    || (exists i :: 0 <= i < |scored| && scored[i].withheld && scored[i].fingerprint == id)
  }

  /** A row that no detection saw, of a rule whose detector ran. */
  predicate IsMissed(kept: seq<Detection>, scored: seq<Detection>, existing: Existing, evaluated: set<int>, id: Id) {
    id in existing && !Detected(kept, scored, id) && existing[id].rule in evaluated
  }

  function Missed(kept: seq<Detection>, scored: seq<Detection>, existing: Existing, evaluated: set<int>): Id -> bool {
    (id: Id) => IsMissed(kept, scored, existing, evaluated, id)
  }

  function Steps(kept: seq<Detection>, scored: seq<Detection>, existing: Existing, order: seq<Id>, evaluated: set<int>,
                 now: int): seq<Step>
  {
    Filter(Writes(), Map(FiredStep(existing, now), kept))
    + Filter(Writes(), Map(MissedStep(existing, now), Filter(Missed(kept, scored, existing, evaluated), order)))
  }

  /** The first loop of `reconcile`. */
  method PlanFired(kept: seq<Detection>, existing: Existing, now: int) returns (steps: seq<Step>)
    ensures steps == Filter(Writes(), Map(FiredStep(existing, now), kept))
  {
    var fired := Map(FiredStep(existing, now), kept);
    steps := [];
    for n := 0 to |kept|
      invariant steps == Filter(Writes(), fired[..n])
    {
      assert Init(fired[..n + 1]) == fired[..n] && Last(fired[..n + 1]) == fired[n];
      var step := FiredStep(existing, now)(kept[n]);
      if HasWrite(step.plan) {
        steps := steps + [step];
      }
    }
    assert fired[..|kept|] == fired;
  }

  lemma MissedGrows(existing: Existing, now: int, missed: seq<Id>, id: Id)
    ensures var step := MissedStep(existing, now)(id);
            Filter(Writes(), Map(MissedStep(existing, now), missed + [id]))
            == Filter(Writes(), Map(MissedStep(existing, now), missed)) + if HasWrite(step.plan) then [step] else []
  {
    var step := MissedStep(existing, now)(id);
    var all := Map(MissedStep(existing, now), missed + [id]);
    assert Init(all) == Map(MissedStep(existing, now), missed) && Last(all) == step;
  }

  /** The second loop of `reconcile`. */
  method PlanMissed(isMissed: Id -> bool, existing: Existing, order: seq<Id>, now: int) returns (steps: seq<Step>)
    ensures steps == Filter(Writes(), Map(MissedStep(existing, now), Filter(isMissed, order)))
  {
    steps := [];
    ghost var missed: seq<Id> := [];
    for n := 0 to |order|
      invariant missed == Filter(isMissed, order[..n])
      invariant steps == Filter(Writes(), Map(MissedStep(existing, now), missed))
    {
      assert Init(order[..n + 1]) == order[..n] && Last(order[..n + 1]) == order[n];
      if isMissed(order[n]) {
        MissedGrows(existing, now, missed, order[n]);
        missed := missed + [order[n]];
        var step := MissedStep(existing, now)(order[n]);
        if HasWrite(step.plan) {
          steps := steps + [step];
        }
      }
    }
    assert order[..|order|] == order;
  }

  /** `reconcile` up to the writes; `order` is the order in which the stored rows come. */
  method Reconcile(scored: seq<Detection>, existing: Existing, order: seq<Id>, evaluated: set<int>, cap: nat, now: int)
    returns (steps: seq<Step>, suppressed: nat)
    requires forall id :: id in order <==> id in existing
    ensures var kept := Kept(existing, SortBy(Ranking(), Filter(Live(), scored)), cap);
            && steps == Steps(kept, scored, existing, order, evaluated, now)
            && |kept| + suppressed == |Filter(Live(), scored)|
  {
    var kept, left := CapNewDetections(Filter(Live(), scored), existing, cap);
    suppressed := left;
    var fired := PlanFired(kept, existing, now);
    var missed := PlanMissed(Missed(kept, scored, existing, evaluated), existing, order, now);
    steps := fired + missed;
  }

  /** Where a step comes from: a live detection that was kept, or a stored row that was missed. */
  lemma StepOrigin(kept: seq<Detection>, scored: seq<Detection>, existing: Existing, order: seq<Id>, evaluated: set<int>,
                   now: int, step: Step)
    requires step in Steps(kept, scored, existing, order, evaluated, now)
    ensures HasWrite(step.plan) && step.plan.now == now && step.plan.read == ReadOf(existing, step.id)
    ensures step.plan.fired ==> exists i :: 0 <= i < |kept| && kept[i].fingerprint == step.id
    ensures !step.plan.fired ==>
              && step.id in existing && existing[step.id].rule in evaluated
              && (forall i :: 0 <= i < |kept| ==> kept[i].fingerprint != step.id)
              && (forall i :: 0 <= i < |scored| && scored[i].withheld ==> scored[i].fingerprint != step.id)
  {
    var missed := Filter(Missed(kept, scored, existing, evaluated), order);
    FilterMembers(Writes(), Map(FiredStep(existing, now), kept));
    FilterMembers(Missed(kept, scored, existing, evaluated), order);
    var steps := Map(MissedStep(existing, now), missed);
    FilterMembers(Writes(), steps);
    if step in Filter(Writes(), steps) {
      var i :| 0 <= i < |steps| && steps[i] == step;
      assert missed[i] in missed;
    } else {
      var fired := Map(FiredStep(existing, now), kept);
      var i :| 0 <= i < |fired| && fired[i] == step;
    }
  }

  /** Every kept detection and every missed row that has something to write has its step. */
  lemma NothingUnplanned(kept: seq<Detection>, scored: seq<Detection>, existing: Existing, order: seq<Id>,
                         evaluated: set<int>, now: int, id: Id, i: nat)
    requires forall id :: id in order <==> id in existing
    ensures i < |kept| && HasWrite(FiredStep(existing, now)(kept[i]).plan) ==>
              FiredStep(existing, now)(kept[i]) in Steps(kept, scored, existing, order, evaluated, now)
    ensures id in existing && existing[id].rule in evaluated
            && (forall k :: 0 <= k < |kept| ==> kept[k].fingerprint != id)
            && (forall k :: 0 <= k < |scored| && scored[k].withheld ==> scored[k].fingerprint != id)
            && HasWrite(MissedStep(existing, now)(id).plan) ==>
              MissedStep(existing, now)(id) in Steps(kept, scored, existing, order, evaluated, now)
  {
    var fired := Map(FiredStep(existing, now), kept);
    FilterMembers(Writes(), fired);
    if i < |kept| {
      assert fired[i] in fired;
    }
    var missed := Filter(Missed(kept, scored, existing, evaluated), order);
    FilterMembers(Missed(kept, scored, existing, evaluated), order);
    var steps := Map(MissedStep(existing, now), missed);
    FilterMembers(Writes(), steps);
    if IsMissed(kept, scored, existing, evaluated, id) {
      assert id in missed;
      var k :| 0 <= k < |missed| && missed[k] == id;
      assert steps[k] in steps;
    }
  }

  predicate StepIdsDistinct(steps: seq<Step>) {
    forall i, j :: 0 <= i < j < |steps| ==> steps[i].id != steps[j].id
  }

  predicate FingerprintsDistinct(detections: seq<Detection>) {
    forall i, j :: 0 <= i < j < |detections| ==> detections[i].fingerprint != detections[j].fingerprint
  }

  lemma FilterKeepsIds(steps: seq<Step>)
    requires StepIdsDistinct(steps)
    ensures StepIdsDistinct(Filter(Writes(), steps))
  {
    FilterSorted((a: Step, b: Step) => a.id != b.id, Writes(), steps);
  }

  /** A run plans at most one step for each action: none is both seen and missed. */
  lemma OneStepEach(kept: seq<Detection>, scored: seq<Detection>, existing: Existing, order: seq<Id>, evaluated: set<int>,
                    now: int)
    requires FingerprintsDistinct(kept) && Sequences.Distinct(order)
    ensures StepIdsDistinct(Steps(kept, scored, existing, order, evaluated, now))
  {
    var isMissed := Missed(kept, scored, existing, evaluated);
    var missed := Filter(isMissed, order);
    FilterDistinct(isMissed, order);
    FilterMembers(isMissed, order);
    var seen, unseen := Map(FiredStep(existing, now), kept), Map(MissedStep(existing, now), missed);
    FilterKeepsIds(seen);
    FilterKeepsIds(unseen);
    FilterMembers(Writes(), seen);
    FilterMembers(Writes(), unseen);
    var first, second := Filter(Writes(), seen), Filter(Writes(), unseen);
    forall i, j | 0 <= i < |first| && 0 <= j < |second|
      ensures first[i].id != second[j].id
    {
      assert first[i] in first && second[j] in second;
      var a :| 0 <= a < |seen| && seen[a] == first[i];
      var b :| 0 <= b < |unseen| && unseen[b] == second[j];
      assert missed[b] in missed;
      assert kept[a].fingerprint == first[i].id;
    }
  }

  /** What a run plans is what the Action Center's reads allow: each step is a read of its row with a write to make. */
  lemma StepsAreReads(kept: seq<Detection>, scored: seq<Detection>, existing: Existing, order: seq<Id>, evaluated: set<int>,
                      now: int, world: World, step: Step)
    requires step in Steps(kept, scored, existing, order, evaluated, now)
    requires ReadOf(existing, step.id) == (if step.id in world.items then Some(world.items[step.id].row) else None)
    ensures step in Next(world, Action.Read(step.id, step.plan.fired, step.plan.priority, step.plan.impact, now)).plans
  {
    StepOrigin(kept, scored, existing, order, evaluated, now, step);
  }
}
