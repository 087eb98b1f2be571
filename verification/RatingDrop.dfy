/** Detecting that an app's rating fell, on its listing snapshots, newest first. */
module RatingDrop {
  import opened Wrappers

  const DAY_MS: int := 86_400_000
  const WINDOW_DAYS: int := 7
  const REFERENCE_SLACK_DAYS: int := 3
  const MIN_COUNT: int := 20
  const HISTORY_DAYS: int := 2 * (WINDOW_DAYS + REFERENCE_SLACK_DAYS)
  const TENTH_TOLERANCE: real := 0.000000001

  datatype Snapshot = Snapshot(capturedAt: int, average: Option<real>, count: Option<int>, version: Option<string>)

  /** The snapshots of an app, newest first. */
  type History = seq<Snapshot>

  predicate Rated(snapshot: Snapshot) {
    snapshot.average.Some? && snapshot.count.Some? && snapshot.count.value >= MIN_COUNT
  }

  function WholeTenths(from: real, to: real): int {
    ((from - to) * 10.0 + TENTH_TOLERANCE).Floor
  }

  /** A rated snapshot that is seven to ten days older. */
  predicate Refers(latest: Snapshot, snapshot: Snapshot) {
    var age := latest.capturedAt - snapshot.capturedAt;
    && WINDOW_DAYS * DAY_MS <= age <= (WINDOW_DAYS + REFERENCE_SLACK_DAYS) * DAY_MS
    && Rated(snapshot)
  }

  /** `referenceOf`: the newest such snapshot from `start` on. */
  function ReferenceOf(history: History, start: nat, latest: Snapshot): (reference: Option<Snapshot>)
    ensures reference.Some? ==> Refers(latest, reference.value)
    decreases |history| - start
  {
    if start >= |history| then None
    else if Refers(latest, history[start]) then Some(history[start])
    else ReferenceOf(history, start + 1, latest)
  }

  datatype Drop = Drop(
    from: real,
    to: real,
    fromCount: int,
    toCount: int,
    fromAt: int,
    toAt: int,
    dropTenths: int,
    version: Option<string>)

  datatype Measured = Measured(reference: Snapshot, drop: Drop)

  function ShippedVersion(latest: Snapshot, reference: Snapshot): Option<string> {
    if latest.version.Some? && reference.version.Some? && latest.version != reference.version then latest.version
    else None
  }

  /** `measuredDropAt`. */
  function MeasuredDropAt(history: History, index: nat): (measured: Option<Measured>)
    requires index < |history|
    ensures measured.Some? ==>
              Refers(history[index], measured.value.reference) && measured.value.drop.dropTenths >= 1
  {
    var latest := history[index];
    if !Rated(latest) then None
    else
      match ReferenceOf(history, index + 1, latest)
      case None => None
      case Some(reference) =>
        var tenths := WholeTenths(reference.average.value, latest.average.value);
        if tenths < 1 then None
        else
          Some(Measured(reference,
                        Drop(reference.average.value, latest.average.value, reference.count.value, latest.count.value,
                             reference.capturedAt, latest.capturedAt, tenths, ShippedVersion(latest, reference))))
  }

  function Max(a: int, b: int): int {
    if a < b then b else a
  }

  /** How deep below the reference the average of a drop measured at `index` was, if one shows since the reference. */
  function ShownAt(history: History, index: nat, reference: Snapshot): int
    requires index < |history| && Rated(reference)
  {
    if index == 0 || history[index].capturedAt <= reference.capturedAt then 0
    else
      match MeasuredDropAt(history, index)
      case None => 0
      case Some(earlier) => WholeTenths(reference.average.value, earlier.drop.to)
  }

  /** `deepestShownSince`, over the first `n` snapshots. */
  function DeepestShown(history: History, reference: Snapshot, n: nat): (deepest: int)
    requires n <= |history| && Rated(reference)
    ensures deepest >= 0
    ensures forall i :: 0 <= i < n ==> ShownAt(history, i, reference) <= deepest
  {
    if n == 0 then 0 else Max(DeepestShown(history, reference, n - 1), ShownAt(history, n - 1, reference))
  }

  /** `newRatingDrop`: the drop of the newest snapshot when it is deeper than any shown since its reference. */
  function NewRatingDrop(history: History): Option<Drop> {
    if history == [] then None
    else
      match MeasuredDropAt(history, 0)
      case None => None
      case Some(current) =>
        if current.drop.dropTenths > DeepestShown(history, current.reference, |history|) then Some(current.drop) else None
  }

  /** The snapshots behind `k` are older than the history that is read. */
  predicate ReadsFrom(history: History, k: nat) {
    0 < k <= |history|
    && forall i :: k <= i < |history| ==> history[i].capturedAt < history[0].capturedAt - HISTORY_DAYS * DAY_MS
  }

  lemma {:induction false} SameReference(history: History, k: nat, start: nat, latest: Snapshot)
    requires ReadsFrom(history, k) && start <= k
    requires latest.capturedAt >= history[0].capturedAt - (WINDOW_DAYS + REFERENCE_SLACK_DAYS) * DAY_MS
    ensures ReferenceOf(history[..k], start, latest) == ReferenceOf(history, start, latest)
    decreases k - start
  {
    if start < k {
      if !Refers(latest, history[start]) {
        SameReference(history, k, start + 1, latest);
      }
    } else {
      NoReferenceBehind(history, k, start, latest);
    }
  }

  lemma {:induction false} NoReferenceBehind(history: History, k: nat, start: nat, latest: Snapshot)
    requires ReadsFrom(history, k) && k <= start <= |history|
    requires latest.capturedAt >= history[0].capturedAt - (WINDOW_DAYS + REFERENCE_SLACK_DAYS) * DAY_MS
    ensures ReferenceOf(history, start, latest).None?
    decreases |history| - start
  {
    if start < |history| {
      NoReferenceBehind(history, k, start + 1, latest);
    }
  }

  lemma SameMeasure(history: History, k: nat, index: nat)
    requires ReadsFrom(history, k) && index < k
    requires history[index].capturedAt >= history[0].capturedAt - (WINDOW_DAYS + REFERENCE_SLACK_DAYS) * DAY_MS
    ensures MeasuredDropAt(history[..k], index) == MeasuredDropAt(history, index)
  {
    SameReference(history, k, index + 1, history[index]);
  }

  predicate WithinReach(history: History, reference: Snapshot) {
    history != []
    && reference.capturedAt >= history[0].capturedAt - (WINDOW_DAYS + REFERENCE_SLACK_DAYS) * DAY_MS
    && Rated(reference)
  }

  lemma SameShown(history: History, k: nat, index: nat, reference: Snapshot)
    requires ReadsFrom(history, k) && index < |history| && WithinReach(history, reference)
    ensures ShownAt(history, index, reference) == if index < k then ShownAt(history[..k], index, reference) else 0
  {
    if index < k && history[index].capturedAt > reference.capturedAt {
      SameMeasure(history, k, index);
    }
  }

  lemma {:induction false} SameDeepest(history: History, k: nat, n: nat, reference: Snapshot)
    requires ReadsFrom(history, k) && n <= |history| && WithinReach(history, reference)
    ensures DeepestShown(history, reference, n) == DeepestShown(history[..k], reference, if n < k then n else k)
  {
    if n > 0 {
      SameDeepest(history, k, n - 1, reference);
      SameShown(history, k, n - 1, reference);
    }
  }

  /** Twenty days of history are enough: what is older changes nothing. */
  lemma HistoryIsEnough(history: History, k: nat)
    requires ReadsFrom(history, k)
    ensures NewRatingDrop(history[..k]) == NewRatingDrop(history)
  {
    SameMeasure(history, k, 0);
    var current := MeasuredDropAt(history, 0);
    if current.Some? {
      SameDeepest(history, k, |history|, current.value.reference);
    }
  }

  lemma TenthsOrder(reference: real, shallow: real, deep: real)
    requires WholeTenths(reference, deep) > WholeTenths(reference, shallow)
    ensures deep < shallow
  {
  }

  /** An average at which a drop showed since the reference of the newest one. */
  predicate ShowedSince(history: History, index: nat, reference: Snapshot) {
    && 0 < index < |history| && history[index].capturedAt > reference.capturedAt
    && MeasuredDropAt(history, index).Some?
  }

  /**
   A new drop is the newest snapshot's, at least one tenth below its reference, and its average is
   strictly below every average at which a drop already showed since that reference.
   */
  lemma NewDropIsDeepest(history: History)
    requires NewRatingDrop(history).Some?
    ensures MeasuredDropAt(history, 0).Some? && NewRatingDrop(history).value == MeasuredDropAt(history, 0).value.drop
    ensures var (reference, drop) := (MeasuredDropAt(history, 0).value.reference, NewRatingDrop(history).value);
            && drop.to < drop.from
            && forall i :: ShowedSince(history, i, reference) ==> drop.to < MeasuredDropAt(history, i).value.drop.to
  {
    var current := MeasuredDropAt(history, 0).value;
    assert WholeTenths(current.drop.from, current.drop.from) == 0;
    TenthsOrder(current.drop.from, current.drop.from, current.drop.to);
    forall i | ShowedSince(history, i, current.reference)
      ensures current.drop.to < MeasuredDropAt(history, i).value.drop.to
    {
      assert ShownAt(history, i, current.reference) < current.drop.dropTenths;
      TenthsOrder(current.drop.from, MeasuredDropAt(history, i).value.drop.to, current.drop.to);
    }
  }

  /** The drop that is kept back is one no whole tenth deeper than one already shown. */
  lemma KeptBack(history: History)
    requires history != [] && MeasuredDropAt(history, 0).Some? && NewRatingDrop(history).None?
    ensures var current := MeasuredDropAt(history, 0).value;
            exists i :: ShowedSince(history, i, current.reference)
                        && WholeTenths(current.drop.from, MeasuredDropAt(history, i).value.drop.to)
                           >= current.drop.dropTenths
  {
    var current := MeasuredDropAt(history, 0).value;
    var i := DeepestIndex(history, current.reference, |history|);
  }

  lemma {:induction false} DeepestIndex(history: History, reference: Snapshot, n: nat) returns (i: nat)
    requires n <= |history| && Rated(reference) && DeepestShown(history, reference, n) > 0
    ensures ShowedSince(history, i, reference)
    ensures WholeTenths(reference.average.value, MeasuredDropAt(history, i).value.drop.to)
         == DeepestShown(history, reference, n)
  {
    if ShownAt(history, n - 1, reference) == DeepestShown(history, reference, n) {
      i := n - 1;
    } else {
      i := DeepestIndex(history, reference, n - 1);
    }
  }

  // What counts as a drop

  predicate IsRated(snapshot: Snapshot) {
    snapshot.average.Some? && snapshot.count.Some? && snapshot.count.value >= 20
  }

  /** A rated snapshot that is between seven and ten days older. */
  predicate WeekBefore(latest: Snapshot, snapshot: Snapshot) {
    && IsRated(snapshot)
    && snapshot.capturedAt + 7 * 24 * 60 * 60 * 1000 <= latest.capturedAt
    && latest.capturedAt <= snapshot.capturedAt + 10 * 24 * 60 * 60 * 1000
  }

  /** The first such snapshot behind `index`. */
  predicate FirstWeekBefore(history: History, index: nat, k: nat)
    requires index < |history|
  {
    && index < k < |history| && WeekBefore(history[index], history[k])
    && forall m :: index < m < k ==> !WeekBefore(history[index], history[m])
  }

  /** How far an average is below another, in tenths and with the tolerance for their representation. */
  function Depth(from: real, to: real): real {
    (from - to) * 10.0 + 0.000000001
  }

  lemma {:induction false} ReferenceIsFirst(history: History, index: nat, start: nat, k: nat)
    requires index < start <= k < |history| && FirstWeekBefore(history, index, k)
    ensures ReferenceOf(history, start, history[index]) == Some(history[k])
    decreases k - start
  {
    if start < k {
      ReferenceIsFirst(history, index, start + 1, k);
    }
  }

  /**
   When a drop is measured: a rated snapshot whose average is at least one tenth below that of the
   newest rated one that is seven to ten days older; and what the drop says.
   */
  lemma MeasuredExactly(history: History, index: nat, k: nat)
    requires index < |history| && FirstWeekBefore(history, index, k)
    ensures var (latest, reference, measured) := (history[index], history[k], MeasuredDropAt(history, index));
            && (measured.Some? <==> IsRated(latest) && Depth(reference.average.value, latest.average.value) >= 1.0)
            && (measured.Some? ==>
                  var drop := measured.value.drop;
                  && measured.value.reference == reference
                  && drop.from == reference.average.value && drop.to == latest.average.value
                  && drop.fromCount == reference.count.value && drop.toCount == latest.count.value
                  && drop.fromAt == reference.capturedAt && drop.toAt == latest.capturedAt
                  && drop.dropTenths as real <= Depth(drop.from, drop.to) < (drop.dropTenths + 1) as real
                  && drop.version == if latest.version.Some? && reference.version.Some?
                                        && latest.version.value != reference.version.value
                                     then latest.version else None)
  {
    ReferenceIsFirst(history, index, index + 1, k);
  }

  lemma {:induction false} NoReference(history: History, index: nat, start: nat)
    requires index < start <= |history| && forall m :: start <= m < |history| ==> !WeekBefore(history[index], history[m])
    ensures ReferenceOf(history, start, history[index]).None?
    decreases |history| - start
  {
    if start < |history| {
      NoReference(history, index, start + 1);
    }
  }

  /** Without a rated snapshot from the week before, nothing is measured. */
  lemma NothingMeasured(history: History, index: nat)
    requires index < |history| && forall m :: index < m < |history| ==> !WeekBefore(history[index], history[m])
    ensures MeasuredDropAt(history, index).None?
  {
    NoReference(history, index, index + 1);
  }

  /**
   The newest snapshot's drop is new exactly when every drop that showed since its reference was at
   least one whole tenth less deep below that reference.
   */
  lemma NewExactly(history: History)
    requires history != [] && MeasuredDropAt(history, 0).Some?
    ensures var current := MeasuredDropAt(history, 0).value;
            && (NewRatingDrop(history).Some? ==> NewRatingDrop(history).value == current.drop)
            && (NewRatingDrop(history).Some? <==>
                  forall i :: ShowedSince(history, i, current.reference) ==>
                    Depth(current.drop.from, MeasuredDropAt(history, i).value.drop.to) < current.drop.dropTenths as real)
  {
    var current := MeasuredDropAt(history, 0).value;
    if NewRatingDrop(history).Some? {
      forall i | ShowedSince(history, i, current.reference)
        ensures Depth(current.drop.from, MeasuredDropAt(history, i).value.drop.to) < current.drop.dropTenths as real
      {
        assert ShownAt(history, i, current.reference) < current.drop.dropTenths;
      }
    } else {
      KeptBack(history);
    }
  }
}
