/** The feed of past alerts: pages of listable rows, newest first, linked by cursors. */
module AlertFeed {
  import opened Wrappers
  import opened Sequences

  /** A row the feed's filter selects; `listable` tells that it has a home and can be read. */
  datatype Row = Row(createdAt: int, id: int, listable: bool)

  type Table = seq<Row>

  datatype Cursor = Cursor(createdAt: int, id: int)

  function CursorOf(row: Row): Cursor {
    Cursor(row.createdAt, row.id)
  }

  /** `beforeCursor`: rows behind a cursor, in the order newest first. */
  predicate Behind(cursor: Cursor, row: Row) {
    row.createdAt < cursor.createdAt || (row.createdAt == cursor.createdAt && row.id < cursor.id)
  }

  predicate Follows(cursor: Option<Cursor>, row: Row) {
    cursor.Some? ==> Behind(cursor.value, row)
  }

  /** Rows by creation time and id, both descending, as the query returns them. */
  predicate Descending(table: Table) {
    forall i, j :: 0 <= i < j < |table| ==>
      table[j].createdAt < table[i].createdAt || (table[j].createdAt == table[i].createdAt && table[j].id < table[i].id)
  }

  function After(cursor: Option<Cursor>): Row -> bool {
    (r: Row) => Follows(cursor, r)
  }

  function Listable(): Row -> bool {
    (r: Row) => r.listable
  }

  function RowsAfter(table: Table, cursor: Option<Cursor>): Table {
    Filter(After(cursor), table)
  }

  /** What the feed still has to show behind a cursor. */
  function ListableAfter(table: Table, cursor: Option<Cursor>): seq<Row> {
    Filter(Listable(), RowsAfter(table, cursor))
  }

  const BATCH_ROWS: nat := 100

  function BatchSize(limit: nat): nat {
    if limit + 1 < BATCH_ROWS then BATCH_ROWS else limit + 1
  }

  /** `rowsOf`: the first rows behind the cursor. */
  function Batch(table: Table, cursor: Option<Cursor>, take: nat): Table {
    var rows := RowsAfter(table, cursor);
    if |rows| <= take then rows else rows[..take]
  }

  /** What a page shows, and the cursor of the next one. */
  function PageEvents(table: Table, cursor: Option<Cursor>, limit: nat): seq<Row> {
    var all := ListableAfter(table, cursor);
    if |all| <= limit then all else all[..limit]
  }

  function NextCursor(table: Table, cursor: Option<Cursor>, limit: nat): Option<Cursor>
    requires limit > 0
  {
    var all := ListableAfter(table, cursor);
    if |all| <= limit then None else Some(CursorOf(all[limit - 1]))
  }

  /** Behind a cursor are the rows from some place on. */
  lemma {:induction false} AfterIsSuffix(table: Table, cursor: Option<Cursor>) returns (k: nat)
    requires Descending(table)
    ensures k <= |table| && RowsAfter(table, cursor) == table[k..]
  {
    if table == [] {
      k := 0;
    } else if Follows(cursor, Last(table)) {
      k := AfterIsSuffix(Init(table), cursor);
      assert table[k..] == Init(table)[k..] + [Last(table)];
    } else {
      forall r | r in Init(table)
        ensures !After(cursor)(r)
      {
        var i :| 0 <= i < |table| - 1 && table[i] == r;
        assert Behind(CursorOf(table[i]), Last(table));
      }
      FilterNone(After(cursor), Init(table));
      k := |table|;
    }
  }

  /** Behind a stored row are the rows after it. */
  lemma AfterStored(table: Table, i: nat)
    requires Descending(table) && i < |table|
    ensures RowsAfter(table, Some(CursorOf(table[i]))) == table[i + 1..]
  {
    var p := After(Some(CursorOf(table[i])));
    assert table == table[..i + 1] + table[i + 1..];
    FilterAppend(p, table[..i + 1], table[i + 1..]);
    forall r | r in table[..i + 1]
      ensures !p(r)
    {
      var j :| 0 <= j < i + 1 && table[j] == r;
      assert j < i ==> Behind(CursorOf(table[j]), table[i]);
    }
    forall r | r in table[i + 1..]
      ensures p(r)
    {
      var j :| i < j < |table| && table[j] == r;
    }
    FilterNone(p, table[..i + 1]);
    FilterAll(p, table[i + 1..]);
  }

  /** A full batch is followed by what is behind its last row; a short one is the rest. */
  lemma BatchSplits(table: Table, cursor: Option<Cursor>, take: nat)
    requires Descending(table) && take > 0
    ensures var rows := Batch(table, cursor, take);
            && (|rows| < take ==> rows == RowsAfter(table, cursor))
            && (|rows| == take ==>
                  RowsAfter(table, cursor) == rows + RowsAfter(table, Some(CursorOf(Last(rows)))))
  {
    var k := AfterIsSuffix(table, cursor);
    var rows := Batch(table, cursor, take);
    if |rows| == take {
      assert rows == table[k..][..take];
      assert Last(rows) == table[k + take - 1];
      AfterStored(table, k + take - 1);
      assert table[k..] == rows + table[k + take..];
    }
  }

  /** The rows of one batch: listable ones are shown until the page is full and one more turns up. */
  method TakeRows(shown: seq<Row>, rows: seq<Row>, limit: nat) returns (events: seq<Row>, full: bool)
    requires |shown| <= limit
    ensures full <==> |shown| + |Filter(Listable(), rows)| > limit
    ensures var all := shown + Filter(Listable(), rows);
            events == if full then all[..limit] else all
  {
    events := shown;
    for n := 0 to |rows|
      invariant |events| <= limit
      invariant shown + Filter(Listable(), rows) == events + Filter(Listable(), rows[n..])
    {
      SkipFirst(rows[n..]);
      assert rows[n..][1..] == rows[n + 1..];
      if rows[n].listable {
        if |events| == limit {
          return events, true;
        }
        events := events + [rows[n]];
      }
    }
    full := false;
  }

  lemma SkipFirst(rows: seq<Row>)
    requires rows != []
    ensures Filter(Listable(), rows) == (if rows[0].listable then [rows[0]] else []) + Filter(Listable(), rows[1..])
  {
    assert rows == [rows[0]] + rows[1..];
    FilterAppend(Listable(), [rows[0]], rows[1..]);
    assert Init([rows[0]]) == [];
  }

  /** Where a list stands: what is shown, and what is still to come behind its cursor. */
  predicate Listing(table: Table, start: Option<Cursor>, limit: nat, events: seq<Row>, cursor: Option<Cursor>, more: bool) {
    |events| <= limit
    && ListableAfter(table, start) == events + if more then ListableAfter(table, cursor) else []
  }

  /** What is left behind a batch. */
  function Rest(table: Table, rows: Table, size: nat): Table
    requires size > 0
  {
    if |rows| == size then RowsAfter(table, Some(CursorOf(Last(rows)))) else []
  }

  lemma BatchTaken(table: Table, start: Option<Cursor>, limit: nat, events: seq<Row>, cursor: Option<Cursor>, size: nat)
    requires Descending(table) && size > 0 && Listing(table, start, limit, events, cursor, true)
    ensures var rows := Batch(table, cursor, size);
            && ListableAfter(table, start)
               == events + Filter(Listable(), rows) + Filter(Listable(), Rest(table, rows, size))
            && |RowsAfter(table, cursor)| == |rows| + |Rest(table, rows, size)|
  {
    var rows := Batch(table, cursor, size);
    BatchSplits(table, cursor, size);
    var rest := Rest(table, rows, size);
    assert RowsAfter(table, cursor) == rows + rest;
    FilterAppend(Listable(), rows, rest);
    JoinThree(events, Filter(Listable(), rows), Filter(Listable(), rest));
  }

  lemma JoinThree(a: seq<Row>, b: seq<Row>, c: seq<Row>)
    ensures a + (b + c) == a + b + c
  {
  }

  lemma PageIsFull(table: Table, start: Option<Cursor>, limit: nat, shown: seq<Row>, rest: seq<Row>)
    requires limit > 0 && ListableAfter(table, start) == shown + rest && |shown| > limit
    ensures shown[..limit] == PageEvents(table, start, limit)
    ensures NextCursor(table, start, limit) == Some(CursorOf(Last(shown[..limit])))
  {
    assert (shown + rest)[..limit] == shown[..limit];
  }

  lemma FeedIsOver(table: Table, start: Option<Cursor>, limit: nat, events: seq<Row>, cursor: Option<Cursor>)
    requires limit > 0 && Listing(table, start, limit, events, cursor, false)
    ensures events == PageEvents(table, start, limit) && NextCursor(table, start, limit).None?
  {
    assert events + [] == events;
  }

  /** `list`: the first listable rows behind the cursor, and a cursor only when more follow. */
  method List(table: Table, start: Option<Cursor>, limit: nat) returns (events: seq<Row>, next: Option<Cursor>)
    requires Descending(table) && limit > 0
    ensures events == PageEvents(table, start, limit)
    ensures next == NextCursor(table, start, limit)
  {
    var size := BatchSize(limit);
    var cursor := start;
    events := [];
    var more := true;
    while more
      invariant Listing(table, start, limit, events, cursor, more)
      decreases if more then |RowsAfter(table, cursor)| + 1 else 0
    {
      BatchTaken(table, start, limit, events, cursor, size);
      var rows := Batch(table, cursor, size);
      ghost var shown := events + Filter(Listable(), rows);
      var full;
      events, full := TakeRows(events, rows, limit);
      if full {
        PageIsFull(table, start, limit, shown, Filter(Listable(), Rest(table, rows, size)));
        return events, Some(CursorOf(Last(events)));
      }
      if rows != [] {
        cursor := Some(CursorOf(Last(rows)));
      }
      more := |rows| == size;
    }
    FeedIsOver(table, start, limit, events, cursor);
    next := None;
  }

  lemma FilterDescends(p: Row -> bool, table: Table)
    requires Descending(table)
    ensures Descending(Filter(p, table))
  {
    FilterSorted((a: Row, b: Row) => Behind(CursorOf(a), b), p, table);
  }

  /** Element `m` of a filtered list, found in the list itself. */
  lemma {:induction false} FilterPrefix(p: Row -> bool, rows: seq<Row>, m: nat) returns (i: nat)
    requires m < |Filter(p, rows)|
    ensures i < |rows| && rows[i] == Filter(p, rows)[m]
    ensures Filter(p, rows[..i + 1]) == Filter(p, rows)[..m + 1]
  {
    if m < |Filter(p, Init(rows))| {
      i := FilterPrefix(p, Init(rows), m);
      assert Init(rows)[..i + 1] == rows[..i + 1];
    } else {
      i := |rows| - 1;
      assert rows[..i + 1] == rows;
    }
  }

  lemma SplitAtPage(rest: seq<Row>, limit: nat) returns (i: nat)
    requires 0 < limit < |Filter(Listable(), rest)|
    ensures i < |rest| && rest[i] == Filter(Listable(), rest)[limit - 1]
    ensures Filter(Listable(), rest) == Filter(Listable(), rest)[..limit] + Filter(Listable(), rest[i + 1..])
  {
    i := FilterPrefix(Listable(), rest, limit - 1);
    assert rest == rest[..i + 1] + rest[i + 1..];
    FilterAppend(Listable(), rest[..i + 1], rest[i + 1..]);
  }

  /** Behind the last row of a page, the feed goes on where the page stopped. */
  lemma NextPageGoesOn(table: Table, cursor: Option<Cursor>, limit: nat)
    requires Descending(table) && limit > 0 && NextCursor(table, cursor, limit).Some?
    ensures var next := NextCursor(table, cursor, limit);
            ListableAfter(table, cursor) == PageEvents(table, cursor, limit) + ListableAfter(table, next)
  {
    var k := AfterIsSuffix(table, cursor);
    var i := SplitAtPage(table[k..], limit);
    assert table[k..][i + 1..] == table[k + i + 1..];
    AfterStored(table, k + i);
  }

  /** All pages from a cursor on, each found by the cursor of the one before. */
  function Pages(table: Table, cursor: Option<Cursor>, limit: nat): seq<seq<Row>>
    requires Descending(table) && limit > 0
    decreases |ListableAfter(table, cursor)|
  {
    var page := PageEvents(table, cursor, limit);
    var next := NextCursor(table, cursor, limit);
    if next.None? then [page]
    else
      NextPageGoesOn(table, cursor, limit);
      [page] + Pages(table, next, limit)
  }

  /** Following the cursors shows every listable row once, in order, on pages no longer than the limit. */
  lemma {:induction false} PagesCoverFeed(table: Table, cursor: Option<Cursor>, limit: nat)
    requires Descending(table) && limit > 0
    ensures Joined(Pages(table, cursor, limit)) == ListableAfter(table, cursor)
    ensures forall i :: 0 <= i < |Pages(table, cursor, limit)| ==> |Pages(table, cursor, limit)[i]| <= limit
    decreases |ListableAfter(table, cursor)|
  {
    var next := NextCursor(table, cursor, limit);
    if next.Some? {
      NextPageGoesOn(table, cursor, limit);
      PagesCoverFeed(table, next, limit);
      assert Pages(table, cursor, limit)[1..] == Pages(table, next, limit);
    } else {
      assert Pages(table, cursor, limit) == [PageEvents(table, cursor, limit)];
      assert Joined<Row>([]) == [];
    }
  }

  /** From the first page on, that is the whole feed, without repetition. */
  lemma FirstPageCoversTable(table: Table, limit: nat)
    requires Descending(table) && limit > 0
    ensures Joined(Pages(table, None, limit)) == Filter(Listable(), table)
    ensures Distinct(Joined(Pages(table, None, limit)))
  {
    PagesCoverFeed(table, None, limit);
    FilterAll(After(None), table);
    FilterDescends(Listable(), table);
    var all := Filter(Listable(), table);
    forall i, j | 0 <= i < j < |all|
      ensures all[i] != all[j]
    {
      assert Behind(CursorOf(all[i]), all[j]);
    }
  }
}
