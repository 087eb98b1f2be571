/**
 The alert outbox: one row for each dedupe key, filled by the collectors, claimed under a flush id
 and marked as flushed. Every function here is one database statement.
 */
module AlertOutbox {
  import opened Wrappers
  import opened Sequences
  import AlertPayloads

  type RowId = int
  type DedupeKey = int
  type FlushId = int

  /** The columns a collect writes. */
  datatype Data = Data(appId: Option<AlertPayloads.Id>, payload: AlertPayloads.Payload)

  datatype Row = Row(
    id: RowId,
    createdAt: int,
    key: DedupeKey,
    data: Data,
    flushId: Option<FlushId>,
    claimedAt: Option<int>,
    flushedAt: Option<int>)

  type Table = seq<Row>

  predicate IsPending(row: Row) {
    row.flushedAt.None? && row.flushId.None?
  }

  predicate IsUnfinished(row: Row) {
    row.flushedAt.None? && row.flushId.Some?
  }

  function OfClaim(claim: FlushId): Row -> bool {
    (r: Row) => r.flushId == Some(claim)
  }

  function Unfinished(claim: FlushId): Row -> bool {
    (r: Row) => r.flushId == Some(claim) && r.flushedAt.None?
  }

  function Finished(claim: FlushId): Row -> bool {
    (r: Row) => r.flushId == Some(claim) && r.flushedAt.Some?
  }

  /** What `outboxWrite` selects: an unclaimed row when it collects, any row when it records a settled alert. */
  predicate Selects(key: DedupeKey, settledAt: Option<int>, row: Row) {
    row.key == key && (settledAt.None? ==> IsPending(row))
  }

  function Written(data: Data, settledAt: Option<int>, row: Row): Row {
    if settledAt.None? then row.(data := data) else row.(data := data, flushedAt := settledAt)
  }

  function Write(key: DedupeKey, data: Data, settledAt: Option<int>): Row -> Row {
    (r: Row) => if Selects(key, settledAt, r) then Written(data, settledAt, r) else r
  }

  function UpdateMany(rows: Table, key: DedupeKey, data: Data, settledAt: Option<int>): Table {
    Map(Write(key, data, settledAt), rows)
  }

  predicate HasKey(rows: Table, key: DedupeKey) {
    exists i :: 0 <= i < |rows| && rows[i].key == key
  }

  /** `create`: refused by the unique key when there is a row of it. */
  function Create(rows: Table, id: RowId, createdAt: int, key: DedupeKey, data: Data, settledAt: Option<int>): Table {
    if HasKey(rows, key) then rows else rows + [Row(id, createdAt, key, data, None, None, settledAt)]
  }

  function Claimed(flushId: FlushId, now: int): Row -> Row {
    (r: Row) => if IsPending(r) then r.(flushId := Some(flushId), claimedAt := Some(now)) else r
  }

  function Completed(claim: FlushId, now: int): Row -> Row {
    (r: Row) => if r.flushId == Some(claim) && r.flushedAt.None? then r.(flushedAt := Some(now)) else r
  }

  function RowsOf(rows: Table, claim: FlushId): Table {
    Filter(OfClaim(claim), rows)
  }

  predicate ClaimLe(left: Row, right: Row) {
    var (a, b) := (left.claimedAt.GetOr(0), right.claimedAt.GetOr(0));
    a < b || (a == b && left.flushId.GetOr(0) <= right.flushId.GetOr(0))
  }

  /** The claims of a list of rows, each where it is first met. */
  function DistinctClaims(rows: Table): (claims: seq<FlushId>)
    ensures forall c :: c in claims <==> exists i :: 0 <= i < |rows| && rows[i].flushId == Some(c)
    ensures Distinct(claims)
  {
    if rows == [] then []
    else
      var before := DistinctClaims(Init(rows));
      var row := Last(rows);
      assert forall i :: 0 <= i < |rows| - 1 ==> Init(rows)[i] == rows[i];
      assert rows[|rows| - 1] == row;
      if row.flushId.Some? && row.flushId.value !in before then before + [row.flushId.value] else before
  }

  function UnfinishedClaims(rows: Table): seq<FlushId> {
    DistinctClaims(SortBy(ClaimLe, Filter(IsUnfinished, rows)))
  }

  /** The claims a snapshot finds unfinished, oldest first, and its own when it took rows. */
  function ClaimsToProcess(rows: Table, flushId: FlushId): seq<FlushId> {
    UnfinishedClaims(rows) + if Filter(IsPending, rows) != [] then [flushId] else []
  }

  datatype Fault = NoRows | InvalidTimestamps | PartiallyCompleted | CompletionMismatch

  predicate AllFlushed(rows: Table) {
    forall i :: 0 <= i < |rows| ==> rows[i].flushedAt.Some?
  }

  /** The checks of a loaded claim, in the order the service makes them. */
  function CheckClaim(rows: Table): Option<Fault> {
    if rows == [] then Some(NoRows)
    else if rows[0].claimedAt.None? || exists i :: 0 <= i < |rows| && rows[i].claimedAt != rows[0].claimedAt then
      Some(InvalidTimestamps)
    else if AllFlushed(rows) then None
    else if exists i :: 0 <= i < |rows| && rows[i].flushedAt.Some? then Some(PartiallyCompleted)
    else None
  }

  // What the statements do, row by row

  /**
   An update of a key writes the given data: to the row that is neither claimed nor flushed when it
   collects, to any row, with the time, when it records a settled alert. Every other row is as it was.
   */
  lemma UpdatedRows(rows: Table, key: DedupeKey, data: Data, settledAt: Option<int>, i: nat)
    requires i < |rows|
    ensures var next := UpdateMany(rows, key, data, settledAt);
            && |next| == |rows|
            && (rows[i].key != key ==> next[i] == rows[i])
            && (rows[i].key == key && settledAt.Some? ==> next[i] == rows[i].(data := data, flushedAt := settledAt))
            && (rows[i].key == key && settledAt.None? && rows[i].flushId.None? && rows[i].flushedAt.None? ==>
                  next[i] == rows[i].(data := data))
            && (rows[i].key == key && settledAt.None? && (rows[i].flushId.Some? || rows[i].flushedAt.Some?) ==>
                  next[i] == rows[i])
  {
  }

  /** The rows after a collect: the key's row has the data unless it was claimed or flushed; all others are as they were. */
  predicate CollectedInto(before: Table, after: Table, id: RowId, createdAt: int, key: DedupeKey, data: Data) {
    && |before| <= |after|
    && (forall i :: 0 <= i < |before| && before[i].key != key ==> after[i] == before[i])
    && (forall i :: 0 <= i < |before| && before[i].key == key && before[i].flushId.None? && before[i].flushedAt.None? ==>
          after[i] == before[i].(data := data))
    && (forall i :: 0 <= i < |before| && before[i].key == key && (before[i].flushId.Some? || before[i].flushedAt.Some?) ==>
          after[i] == before[i])
    && ((exists i :: 0 <= i < |before| && before[i].key == key) ==> |after| == |before|)
    && ((forall i :: 0 <= i < |before| ==> before[i].key != key) ==>
          after == before + [Row(id, createdAt, key, data, None, None, None)])
  }

  /** The rows after a snapshot: exactly those neither claimed nor flushed have the claim and its time. */
  predicate ClaimedInto(before: Table, after: Table, flushId: FlushId, now: int) {
    && |after| == |before|
    && (forall i :: 0 <= i < |before| && before[i].flushId.None? && before[i].flushedAt.None? ==>
          after[i] == before[i].(flushId := Some(flushId), claimedAt := Some(now)))
    && (forall i :: 0 <= i < |before| && (before[i].flushId.Some? || before[i].flushedAt.Some?) ==> after[i] == before[i])
  }

  /** The rows after a completion: exactly the claim's unflushed ones have the time of the flush. */
  predicate FlushedInto(before: Table, after: Table, claim: FlushId, now: int) {
    && |after| == |before|
    && (forall i :: 0 <= i < |before| && before[i].flushId == Some(claim) && before[i].flushedAt.None? ==>
          after[i] == before[i].(flushedAt := Some(now)))
    && (forall i :: 0 <= i < |before| && (before[i].flushId != Some(claim) || before[i].flushedAt.Some?) ==>
          after[i] == before[i])
  }

  // What the statements keep

  /** Rows of one claim were claimed together and are finished together. */
  predicate ClaimsWhole(rows: Table) {
    forall i, j :: 0 <= i < |rows| && 0 <= j < |rows| && rows[i].flushId.Some? && rows[i].flushId == rows[j].flushId ==>
      rows[i].claimedAt == rows[j].claimedAt && rows[i].flushedAt.Some? == rows[j].flushedAt.Some?
  }

  predicate KeysUnique(rows: Table) {
    forall i, j :: 0 <= i < j < |rows| ==> rows[i].key != rows[j].key
  }

  /** `used` holds every flush id ever drawn. */
  predicate TableSound(rows: Table, used: set<FlushId>) {
    && KeysUnique(rows)
    && (forall i :: 0 <= i < |rows| && rows[i].flushId.Some? ==>
          rows[i].claimedAt.Some? && rows[i].flushId.value in used)
    && ClaimsWhole(rows)
  }

  /** A row as its claim keeps it: everything but when it was flushed. */
  datatype Snapshot =
    Snapshot(id: RowId, createdAt: int, key: DedupeKey, data: Data, flushId: Option<FlushId>, claimedAt: Option<int>)

  function Content(row: Row): Snapshot {
    Snapshot(row.id, row.createdAt, row.key, row.data, row.flushId, row.claimedAt)
  }

  function ClaimContent(rows: Table, claim: FlushId): seq<Snapshot> {
    Map(Content, RowsOf(rows, claim))
  }

  /** A statement that leaves a claim's rows alone, apart from when they were flushed. */
  lemma UpdateKeepsClaim(f: Row -> Row, rows: Table, claim: FlushId)
    requires forall r: Row :: f(r).flushId == Some(claim) <==> r.flushId == Some(claim)
    requires forall r: Row :: r.flushId == Some(claim) ==> Content(f(r)) == Content(r)
    ensures ClaimContent(Map(f, rows), claim) == ClaimContent(rows, claim)
  {
    FilterOfMap(f, OfClaim(claim), OfClaim(claim), rows);
    FilterMembers(OfClaim(claim), rows);
    MapOfMap(f, Content, (r: Row) => Content(f(r)), RowsOf(rows, claim));
    MapAgree((r: Row) => Content(f(r)), Content, RowsOf(rows, claim));
  }

  lemma CreateKeepsClaim(rows: Table, row: Row, claim: FlushId)
    requires row.flushId.None?
    ensures RowsOf(rows + [row], claim) == RowsOf(rows, claim)
  {
    assert Init(rows + [row]) == rows;
  }

  lemma CollectStaysSound(rows: Table, used: set<FlushId>, id: RowId, createdAt: int, key: DedupeKey, data: Data)
    requires TableSound(rows, used)
    ensures TableSound(UpdateMany(rows, key, data, None), used)
    ensures TableSound(Create(rows, id, createdAt, key, data, None), used)
  {
    var next := UpdateMany(rows, key, data, None);
    assert forall i :: 0 <= i < |rows| ==> next[i].key == rows[i].key && next[i].flushId == rows[i].flushId
                                           && next[i].claimedAt == rows[i].claimedAt
                                           && next[i].flushedAt == rows[i].flushedAt;
  }

  lemma ClaimStaysSound(rows: Table, used: set<FlushId>, flushId: FlushId, now: int)
    requires TableSound(rows, used) && flushId !in used
    ensures TableSound(Map(Claimed(flushId, now), rows), used + {flushId})
  {
  }

  lemma CompletionStaysSound(rows: Table, used: set<FlushId>, claim: FlushId, now: int)
    requires TableSound(rows, used)
    ensures TableSound(Map(Completed(claim, now), rows), used)
  {
  }

  /** In a sound table a claim has all its rows unfinished, or none: it passes every check. */
  lemma ClaimIsWhole(rows: Table, used: set<FlushId>, claim: FlushId)
    requires TableSound(rows, used)
    ensures RowsOf(rows, claim) != [] ==> CheckClaim(RowsOf(rows, claim)).None?
    ensures AllFlushed(RowsOf(rows, claim)) ==>
              Filter(Unfinished(claim), rows) == [] && Filter(Finished(claim), rows) == RowsOf(rows, claim)
    ensures !AllFlushed(RowsOf(rows, claim)) ==> Filter(Unfinished(claim), rows) == RowsOf(rows, claim)
  {
    FilterMembers(OfClaim(claim), rows);
    var own := RowsOf(rows, claim);
    forall i, j | 0 <= i < |own| && 0 <= j < |own|
      ensures own[i].claimedAt.Some? && own[i].claimedAt == own[j].claimedAt
      ensures own[i].flushedAt.Some? == own[j].flushedAt.Some?
    {
      assert own[i] in own && own[j] in own;
    }
    assert forall r :: r in rows && r.flushId == Some(claim) ==> r in own;
    if AllFlushed(own) {
      FilterAgree(Finished(claim), OfClaim(claim), rows);
      var none := (r: Row) => false;
      FilterAgree(Unfinished(claim), none, rows);
      FilterMembers(none, rows);
      assert forall r :: r in Filter(none, rows) ==> false;
    } else {
      var i :| 0 <= i < |own| && own[i].flushedAt.None?;
      forall r | r in rows
        ensures Unfinished(claim)(r) == OfClaim(claim)(r)
      {
        if r.flushId == Some(claim) {
          assert r in own && own[i] in own;
        }
      }
      FilterAgree(Unfinished(claim), OfClaim(claim), rows);
    }
  }

  /** Every claim a snapshot hands out has rows, and every unfinished row is in one of them. */
  lemma SnapshotIsComplete(rows: Table, flushId: FlushId, now: int)
    ensures var next := Map(Claimed(flushId, now), rows);
            && (forall c :: c in ClaimsToProcess(rows, flushId) ==> RowsOf(next, c) != [])
            && (forall r :: r in next && r.flushedAt.None? ==>
                  r.flushId.Some? && r.flushId.value in ClaimsToProcess(rows, flushId))
  {
    var next := Map(Claimed(flushId, now), rows);
    var unfinished := Filter(IsUnfinished, rows);
    FilterMembers(IsUnfinished, rows);
    FilterMembers(IsPending, rows);
    SortPermutes(ClaimLe, unfinished);
    forall c | c in ClaimsToProcess(rows, flushId)
      ensures RowsOf(next, c) != []
    {
      FilterMembers(OfClaim(c), next);
      if c in UnfinishedClaims(rows) {
        var sorted := SortBy(ClaimLe, unfinished);
        var i :| 0 <= i < |sorted| && sorted[i].flushId == Some(c);
        assert sorted[i] in rows;
        var j :| 0 <= j < |rows| && rows[j] == sorted[i];
        assert next[j] in RowsOf(next, c);
      } else {
        var r := Filter(IsPending, rows)[0];
        assert r in rows;
        var j :| 0 <= j < |rows| && rows[j] == r;
        assert next[j] in RowsOf(next, c);
      }
    }
    forall r | r in next && r.flushedAt.None?
      ensures r.flushId.Some? && r.flushId.value in ClaimsToProcess(rows, flushId)
    {
      var j :| 0 <= j < |rows| && next[j] == r;
      assert rows[j] in rows;
      if IsPending(rows[j]) {
        assert rows[j] in Filter(IsPending, rows);
      } else {
        assert rows[j] in unfinished;
        var sorted := SortBy(ClaimLe, unfinished);
        assert rows[j] in sorted;
        var i :| 0 <= i < |sorted| && sorted[i] == rows[j];
      }
    }
  }

  /** Claimed earlier, or at the same time under a smaller id. */
  predicate ClaimedBefore(left: Row, right: Row)
    requires left.flushId.Some? && left.claimedAt.Some? && right.flushId.Some? && right.claimedAt.Some?
  {
    left.claimedAt.value < right.claimedAt.value
    || (left.claimedAt == right.claimedAt && left.flushId.value <= right.flushId.value)
  }

  /** Of two claims in a list, the row where the first was met comes before the one where the second was. */
  lemma {:induction false} ClaimsMetInOrder(rows: Table, i: nat, j: nat) returns (p: nat, q: nat)
    requires i < j < |DistinctClaims(rows)|
    ensures p < q < |rows|
    ensures rows[p].flushId == Some(DistinctClaims(rows)[i]) && rows[q].flushId == Some(DistinctClaims(rows)[j])
  {
    var before := DistinctClaims(Init(rows));
    if j < |before| {
      p, q := ClaimsMetInOrder(Init(rows), i, j);
    } else {
      q := |rows| - 1;
      assert before[i] in before;
      p :| 0 <= p < |rows| - 1 && Init(rows)[p].flushId == Some(before[i]);
    }
  }

  /** A row of the sorted unfinished ones is one of the table. */
  lemma UnfinishedRow(rows: Table, m: nat) returns (p: nat)
    requires m < |SortBy(ClaimLe, Filter(IsUnfinished, rows))|
    ensures p < |rows| && rows[p] == SortBy(ClaimLe, Filter(IsUnfinished, rows))[m] && IsUnfinished(rows[p])
  {
    var unfinished := Filter(IsUnfinished, rows);
    var row := SortBy(ClaimLe, unfinished)[m];
    SortedMember(ClaimLe, unfinished, row);
    FilterMember(IsUnfinished, rows, row);
    p :| 0 <= p < |rows| && rows[p] == row;
  }

  lemma UnfinishedClaimsInOrder(rows: Table, used: set<FlushId>, i: nat, j: nat) returns (p: nat, q: nat)
    requires TableSound(rows, used) && i < j < |UnfinishedClaims(rows)|
    ensures p < |rows| && q < |rows|
    ensures rows[p].flushId == Some(UnfinishedClaims(rows)[i]) && rows[p].claimedAt.Some?
    ensures rows[q].flushId == Some(UnfinishedClaims(rows)[j]) && rows[q].claimedAt.Some?
    ensures ClaimedBefore(rows[p], rows[q])
  {
    var sorted := SortBy(ClaimLe, Filter(IsUnfinished, rows));
    ClaimOrderIsTotal();
    SortSorted(ClaimLe, Filter(IsUnfinished, rows));
    var m, n := ClaimsMetInOrder(sorted, i, j);
    p := UnfinishedRow(rows, m);
    q := UnfinishedRow(rows, n);
    assert ClaimLe(sorted[m], sorted[n]);
  }

  /** A snapshot hands out the claims it finds unfinished oldest first, and its own as the last. */
  lemma OldestClaimsFirst(rows: Table, used: set<FlushId>, flushId: FlushId, i: nat, j: nat) returns (p: nat, q: nat)
    requires TableSound(rows, used) && flushId !in used
    requires i < j < |ClaimsToProcess(rows, flushId)| && ClaimsToProcess(rows, flushId)[j] != flushId
    ensures p < |rows| && q < |rows|
    ensures rows[p].flushId == Some(ClaimsToProcess(rows, flushId)[i]) && rows[p].claimedAt.Some?
    ensures rows[q].flushId == Some(ClaimsToProcess(rows, flushId)[j]) && rows[q].claimedAt.Some?
    ensures ClaimedBefore(rows[p], rows[q])
  {
    p, q := UnfinishedClaimsInOrder(rows, used, i, j);
  }

  lemma ClaimOrderIsTotal()
    ensures TotalPreorder(ClaimLe)
  {
  }

  predicate SharesUnfinishedClaim(row: Row, other: Row, key: DedupeKey) {
    row.key == key && IsUnfinished(row) && other.flushId == row.flushId
  }

  /**
   Recording a settled alert is the statement that can split a claim. In a sound table it keeps
   claims whole exactly when no unfinished claim holds the key beside other rows.
   */
  lemma SettlingSplitsClaims(rows: Table, used: set<FlushId>, key: DedupeKey, data: Data, at: int)
    requires TableSound(rows, used)
    ensures ClaimsWhole(UpdateMany(rows, key, data, Some(at))) <==>
            forall i, j :: 0 <= i < |rows| && 0 <= j < |rows| && SharesUnfinishedClaim(rows[i], rows[j], key) ==> i == j
  {
    var next := UpdateMany(rows, key, data, Some(at));
    if ClaimsWhole(next) {
      forall i, j | 0 <= i < |rows| && 0 <= j < |rows| && SharesUnfinishedClaim(rows[i], rows[j], key)
        ensures i == j
      {
        assert next[i].flushedAt.Some? && next[i].flushId == next[j].flushId;
      }
    }
  }

  /** The fault that follows: one row of a claim of two is settled, and the claim is reported as partial. */
  lemma SettledInsideClaim() returns (rows: Table, data: Data)
    ensures TableSound(rows, {1})
    ensures CheckClaim(RowsOf(rows, 1)).None?
    ensures CheckClaim(RowsOf(UpdateMany(rows, 7, data, Some(9)), 1)) == Some(PartiallyCompleted)
  {
    data := Data(None, AlertPayloads.DigestWeekly(0));
    var a, b := Row(1, 0, 7, data, Some(1), Some(5), None), Row(2, 0, 8, data, Some(1), Some(5), None);
    rows := [a, b];
    var settled := a.(flushedAt := Some(9));
    AllOfClaim(a, b);
    AllOfClaim(settled, b);
    assert UpdateMany(rows, 7, data, Some(9)) == [settled, b];
    assert [settled, b][0].flushedAt.Some? && [settled, b][1].flushedAt.None?;
  }

  lemma AllOfClaim(a: Row, b: Row)
    requires a.flushId == Some(1) && b.flushId == Some(1)
    ensures RowsOf([a, b], 1) == [a, b]
  {
    assert Init([a, b]) == [a] && Init([a]) == [];
    assert Filter(OfClaim(1), [a]) == [a];
    assert Last([a, b]) == b;
  }

  // The stored table and what the services do to it when nothing else runs

  /** The rows of one workspace's outbox. */
  class Outbox {
    var rows: Table
    ghost var used: set<FlushId>

    ghost predicate Valid()
      reads this
    {
      TableSound(rows, used)
    }

    constructor ()
      ensures Valid() && rows == []
    {
      rows, used := [], {};
    }

    /** `collectRow` in batched mode: update, else create, else update again. */
    method CollectRow(id: RowId, createdAt: int, key: DedupeKey, data: Data)
      requires Valid()
      modifies this`rows
      ensures Valid() && HasKey(rows, key)
      ensures forall c :: ClaimContent(rows, c) == ClaimContent(old(rows), c)
      ensures rows == if HasKey(old(rows), key) then UpdateMany(old(rows), key, data, None)
                      else old(rows) + [Row(id, createdAt, key, data, None, None, None)]
      ensures CollectedInto(old(rows), rows, id, createdAt, key, data)
    {
      CollectStaysSound(rows, used, id, createdAt, key, data);
      ghost var before := rows;
      forall c
        ensures ClaimContent(UpdateMany(before, key, data, None), c) == ClaimContent(before, c)
        ensures ClaimContent(before + [Row(id, createdAt, key, data, None, None, None)], c) == ClaimContent(before, c)
      {
        UpdateKeepsClaim(Write(key, data, None), before, c);
        CreateKeepsClaim(before, Row(id, createdAt, key, data, None, None, None), c);
      }
      var updated := UpdateMany(rows, key, data, None);
      if exists i :: 0 <= i < |rows| && Selects(key, None, rows[i]) {
        rows := updated;
        assert exists i :: 0 <= i < |before| && Selects(key, None, before[i]) && rows[i].key == key;
        return;
      }
      assert updated == rows;
      if HasKey(rows, key) {
        rows := updated;
      } else {
        rows := rows + [Row(id, createdAt, key, data, None, None, None)];
        assert rows[|before|].key == key;
      }
    }

    /** `claimSnapshotOnce`: the claims to process, and every pending row under a new one. */
    method ClaimSnapshotOnce(flushId: FlushId, now: int) returns (claims: seq<FlushId>)
      requires Valid() && flushId !in used
      modifies this
      ensures Valid() && used == old(used) + {flushId}
      ensures rows == Map(Claimed(flushId, now), old(rows))
      ensures ClaimedInto(old(rows), rows, flushId, now)
      ensures claims == ClaimsToProcess(old(rows), flushId)
      ensures Distinct(claims)
    {
      ClaimStaysSound(rows, used, flushId, now);
      claims := UnfinishedClaims(rows);
      assert flushId !in claims by {
        FilterMembers(IsUnfinished, rows);
        SortPermutes(ClaimLe, Filter(IsUnfinished, rows));
        var sorted := SortBy(ClaimLe, Filter(IsUnfinished, rows));
        assert forall i :: 0 <= i < |sorted| ==> sorted[i] in rows;
      }
      if Filter(IsPending, rows) != [] {
        claims := claims + [flushId];
      }
      rows := Map(Claimed(flushId, now), rows);
      used := used + {flushId};
    }

    /** `completeClaim`: flush what is left of a claim, and count. */
    method CompleteClaim(claim: FlushId, expected: nat, now: int) returns (complete: bool)
      requires Valid()
      modifies this`rows
      ensures Valid() && rows == Map(Completed(claim, now), old(rows))
      ensures FlushedInto(old(rows), rows, claim, now)
      ensures complete <==> |RowsOf(old(rows), claim)| == expected
                            || (expected == 0 && AllFlushed(RowsOf(old(rows), claim)))
    {
      ClaimIsWhole(rows, used, claim);
      CompletionStaysSound(rows, used, claim, now);
      AfterCompletion(rows, used, claim, now);
      var changed := |Filter(Unfinished(claim), rows)|;
      rows := Map(Completed(claim, now), rows);
      if changed == expected {
        return true;
      }
      complete := changed == 0 && |Filter(Finished(claim), rows)| == expected;
    }

    /** `processClaim` with the delivery's outcome given: load, check, deliver, complete. */
    method ProcessClaim(claim: FlushId, delivers: bool, now: int) returns (flushed: Option<nat>, fault: Option<Fault>)
      requires Valid() && RowsOf(rows, claim) != []
      modifies this`rows
      ensures Valid() && fault.None?
      ensures rows == if flushed.Some? then Map(Completed(claim, now), old(rows)) else old(rows)
      ensures flushed.Some? ==> flushed.value == |RowsOf(old(rows), claim)|
      ensures flushed.Some? <==> delivers || AllFlushed(RowsOf(old(rows), claim))
    {
      ClaimIsWhole(rows, used, claim);
      CompletionStaysSound(rows, used, claim, now);
      var loaded := RowsOf(rows, claim);
      fault := CheckClaim(loaded);
      if fault.Some? {
        return None, fault;
      }
      if AllFlushed(loaded) {
        NothingToComplete(rows, claim, now);
        return Some(|loaded|), None;
      }
      if !delivers {
        return None, None;
      }
      var complete := CompleteClaim(claim, |loaded|, now);
      if !complete {
        return None, Some(CompletionMismatch);
      }
      return Some(|loaded|), None;
    }

    /** `flush`: every claim of a snapshot, each failing on its own. */
    method Flush(flushId: FlushId, undeliverable: set<FlushId>, now: int) returns (flushed: nat, failures: seq<FlushId>)
      requires Valid() && flushId !in used
      modifies this
      ensures Valid()
      ensures forall c :: c in failures ==> c in undeliverable
      ensures OnlyLeft(rows, failures)
      ensures failures == [] ==> AllFlushed(rows)
      ensures flushed + RowCount(rows, failures)
           == RowCount(Map(Claimed(flushId, now), old(rows)), ClaimsToProcess(old(rows), flushId))
    {
      ghost var start := rows;
      var claims := ClaimSnapshotOnce(flushId, now);
      FlushStarts(start, flushId, now);
      flushed, failures := 0, [];
      ghost var total := RowCount(rows, claims);
      for n := 0 to |claims|
        invariant Valid()
        invariant forall c :: c in failures ==> c in undeliverable
        invariant Flushing(rows, claims, n, flushed, failures, total)
      {
        ghost var before := rows;
        NextClaimExists(rows, claims, n, flushed, failures, total);
        var done, _ := ProcessClaim(claims[n], claims[n] !in undeliverable, now);
        if done.Some? {
          ClaimProcessed(before, claims, n, flushed, failures, total, now);
          flushed := flushed + done.value;
        } else {
          ClaimFailed(before, claims, n, flushed, failures, total);
          failures := failures + [claims[n]];
        }
      }
      FlushEnds(rows, claims, flushed, failures, total);
    }
  }

  lemma AfterCompletion(rows: Table, used: set<FlushId>, claim: FlushId, now: int)
    requires TableSound(rows, used)
    ensures var next := Map(Completed(claim, now), rows);
            |Filter(Finished(claim), next)| == |RowsOf(rows, claim)|
  {
    FilterOfMap(Completed(claim, now), Finished(claim), OfClaim(claim), rows);
  }

  lemma NothingToComplete(rows: Table, claim: FlushId, now: int)
    requires AllFlushed(RowsOf(rows, claim))
    ensures Map(Completed(claim, now), rows) == rows
  {
    FilterMembers(OfClaim(claim), rows);
    var own := RowsOf(rows, claim);
    forall i | 0 <= i < |rows|
      ensures Completed(claim, now)(rows[i]) == rows[i]
    {
      if rows[i].flushId == Some(claim) {
        assert rows[i] in rows && rows[i] in own;
      }
    }
  }

  predicate AllExist(rows: Table, claims: seq<FlushId>) {
    forall c :: c in claims ==> RowsOf(rows, c) != []
  }

  /** Every row that is not flushed is in one of the claims. */
  predicate OnlyLeft(rows: Table, claims: seq<FlushId>) {
    forall r :: r in rows && r.flushedAt.None? ==> r.flushId.Some? && r.flushId.value in claims
  }

  /** How many rows a list of claims holds. */
  function RowCount(rows: Table, claims: seq<FlushId>): nat {
    if claims == [] then 0 else RowCount(rows, Init(claims)) + |RowsOf(rows, Last(claims))|
  }

  lemma {:induction false} CountKept(before: Table, claim: FlushId, claims: seq<FlushId>, now: int)
    ensures RowCount(Map(Completed(claim, now), before), claims) == RowCount(before, claims)
  {
    if claims != [] {
      var after := Map(Completed(claim, now), before);
      UpdateKeepsClaim(Completed(claim, now), before, Last(claims));
      assert |ClaimContent(after, Last(claims))| == |RowsOf(after, Last(claims))|;
      CountKept(before, claim, Init(claims), now);
    }
  }

  /** Where a flush stands after its first `n` claims. */
  predicate Flushing(rows: Table, claims: seq<FlushId>, n: nat, flushed: nat, failures: seq<FlushId>, total: nat) {
    && n <= |claims|
    && AllExist(rows, claims)
    && OnlyLeft(rows, failures + claims[n..])
    && flushed + RowCount(rows, failures) == RowCount(rows, claims[..n])
    && RowCount(rows, claims) == total
  }

  lemma FlushStarts(start: Table, flushId: FlushId, now: int)
    ensures var claims := ClaimsToProcess(start, flushId);
            var rows := Map(Claimed(flushId, now), start);
            Flushing(rows, claims, 0, 0, [], RowCount(rows, claims))
  {
    SnapshotIsComplete(start, flushId, now);
    var claims := ClaimsToProcess(start, flushId);
    assert [] + claims[0..] == claims && claims[..0] == [];
  }

  lemma FlushEnds(rows: Table, claims: seq<FlushId>, flushed: nat, failures: seq<FlushId>, total: nat)
    requires Flushing(rows, claims, |claims|, flushed, failures, total)
    ensures OnlyLeft(rows, failures) && flushed + RowCount(rows, failures) == total
    ensures failures == [] ==> AllFlushed(rows)
  {
    assert claims[..|claims|] == claims && failures + claims[|claims|..] == failures;
    assert forall i :: 0 <= i < |rows| ==> rows[i] in rows;
  }

  lemma NextClaimExists(rows: Table, claims: seq<FlushId>, n: nat, flushed: nat, failures: seq<FlushId>, total: nat)
    requires n < |claims| && Flushing(rows, claims, n, flushed, failures, total)
    ensures RowsOf(rows, claims[n]) != []
  {
    assert claims[n] in claims;
  }

  lemma ClaimProcessed(before: Table, claims: seq<FlushId>, n: nat, flushed: nat, failures: seq<FlushId>, total: nat,
                       now: int)
    requires n < |claims| && Flushing(before, claims, n, flushed, failures, total)
    ensures Flushing(Map(Completed(claims[n], now), before), claims, n + 1,
                     flushed + |RowsOf(before, claims[n])|, failures, total)
  {
    ProcessedClaim(before, claims, n, failures, now);
    CountKept(before, claims[n], failures, now);
    CountKept(before, claims[n], claims, now);
    CountKept(before, claims[n], claims[..n + 1], now);
    assert Init(claims[..n + 1]) == claims[..n];
  }

  lemma ClaimFailed(rows: Table, claims: seq<FlushId>, n: nat, flushed: nat, failures: seq<FlushId>, total: nat)
    requires n < |claims| && Flushing(rows, claims, n, flushed, failures, total)
    ensures Flushing(rows, claims, n + 1, flushed, failures + [claims[n]], total)
  {
    assert failures + [claims[n]] + claims[n + 1..] == failures + claims[n..];
    assert Init(claims[..n + 1]) == claims[..n];
    assert Init(failures + [claims[n]]) == failures;
  }

  lemma ProcessedClaim(before: Table, claims: seq<FlushId>, n: nat, failures: seq<FlushId>, now: int)
    requires n < |claims| && AllExist(before, claims) && OnlyLeft(before, failures + claims[n..])
    ensures AllExist(Map(Completed(claims[n], now), before), claims)
    ensures OnlyLeft(Map(Completed(claims[n], now), before), failures + claims[n + 1..])
  {
    var after := Map(Completed(claims[n], now), before);
    assert claims[n..] == [claims[n]] + claims[n + 1..];
    forall r | r in after && r.flushedAt.None?
      ensures r.flushId.Some? && r.flushId.value in failures + claims[n + 1..]
    {
      var i :| 0 <= i < |after| && after[i] == r;
      assert before[i] == r && r in before;
    }
    forall c | c in claims
      ensures RowsOf(after, c) != []
    {
      UpdateKeepsClaim(Completed(claims[n], now), before, c);
      assert |ClaimContent(after, c)| == |RowsOf(after, c)|;
    }
  }
}
