/**
 Paging through one table of the export. A page is two queries, first for the keys and then for
 the rows between them, and rows may be inserted, changed and deleted before each of them.
 */
module ExportPaging {
  import opened Wrappers
  import opened Sequences
  import opened ExportTables

  datatype Row = Row(key: Key, data: int)

  /** The stored rows in key order. */
  type Table = seq<Row>

  predicate Ascending(table: Table) {
    forall i, j :: 0 <= i < j < |table| ==> Before(table[i].key, table[j].key)
  }

  predicate Stored(table: Table, columns: nat) {
    Ascending(table) && forall i :: 0 <= i < |table| ==> |table[i].key| == columns
  }

  /** What the two queries of one page see. */
  datatype View = View(keys: Table, rows: Table)

  datatype Page = Page(rows: seq<Row>, next: Option<Key>)

  predicate Follows(after: Option<Key>, key: Key) {
    after.Some? ==> Before(after.value, key)
  }

  function RowsAfter(after: Option<Key>): Row -> bool {
    (r: Row) => Follows(after, r.key)
  }

  function RowsBetween(first: Key, last: Key): Row -> bool {
    (r: Row) => |first| == |last| && Matches(KeyRange(first, last), r.key)
  }

  /** `keysAfter`: the rows whose keys the first query lists. */
  function KeysAfter(table: Table, after: Option<Key>, take: nat): Table {
    var rest := Filter(RowsAfter(after), table);
    if |rest| <= take then rest else rest[..take]
  }

  function PageOf(view: View, after: Option<Key>, take: nat): Page {
    var keys := KeysAfter(view.keys, after, take);
    if keys == [] then Page([], None)
    else
      Page(Filter(RowsBetween(keys[0].key, Last(keys).key), view.rows),
           if |keys| < take then None else Some(Last(keys).key))
  }

  datatype Output = Output(rows: seq<Row>, done: bool)

  /** The export of one table, a view for each page; `done` when it ended before the views did. */
  function Export(views: seq<View>, after: Option<Key>, take: nat): Output
    decreases |views|
  {
    if views == [] then Output([], false)
    else
      var page := PageOf(views[0], after, take);
      if page.next.None? then Output(page.rows, true)
      else
        var rest := Export(views[1..], page.next, take);
        Output(page.rows + rest.rows, rest.done)
  }

  /** The output when some lines are already out. */
  function Resumed(lines: seq<Row>, views: seq<View>, after: Option<Key>, take: nat): Output {
    var rest := Export(views, after, take);
    Output(lines + rest.rows, rest.done)
  }

  lemma NextPage(lines: seq<Row>, views: seq<View>, after: Option<Key>, take: nat)
    requires views != []
    ensures var page := PageOf(views[0], after, take);
            Resumed(lines, views, after, take) ==
            if page.next.None? then Output(lines + page.rows, true)
            else Resumed(lines + page.rows, views[1..], page.next, take)
  {
    var page := PageOf(views[0], after, take);
    if page.next.Some? {
      assert lines + (page.rows + Export(views[1..], page.next, take).rows)
          == lines + page.rows + Export(views[1..], page.next, take).rows;
    }
  }

  /** `tableLines`: page after page until one has no successor. */
  method TableLines(views: seq<View>, take: nat) returns (lines: seq<Row>, done: bool)
    ensures Output(lines, done) == Export(views, None, take)
  {
    var after: Option<Key> := None;
    lines, done := [], false;
    var n := 0;
    while n < |views| && !done
      invariant n <= |views|
      invariant Export(views, None, take)
             == if done then Output(lines, true) else Resumed(lines, views[n..], after, take)
      decreases |views| - n
    {
      NextPage(lines, views[n..], after, take);
      assert views[n..][1..] == views[n + 1..];
      var page := PageOf(views[n], after, take);
      lines := lines + page.rows;
      after := page.next;
      done := after.None?;
      n := n + 1;
    }
  }

  lemma FilterAscends(p: Row -> bool, table: Table)
    requires Ascending(table)
    ensures Ascending(Filter(p, table))
  {
    FilterSorted((a: Row, b: Row) => Before(a.key, b.key), p, table);
  }

  /** The listed keys follow the cursor in order, and leave out only keys behind the last listed one. */
  lemma KeysAreNext(table: Table, columns: nat, after: Option<Key>, take: nat)
    requires Stored(table, columns) && take > 0
    ensures var keys := KeysAfter(table, after, take);
            && Stored(keys, columns)
            && (forall r :: r in keys ==> r in table && Follows(after, r.key))
            && (forall r :: r in table && Follows(after, r.key) ==>
                  r in keys || (|keys| == take && Before(Last(keys).key, r.key)))
  {
    var rest := Filter(RowsAfter(after), table);
    var keys := KeysAfter(table, after, take);
    FilterAscends(RowsAfter(after), table);
    FilterMembers(RowsAfter(after), table);
    forall i | 0 <= i < |keys|
      ensures keys[i] in table && |keys[i].key| == columns && Follows(after, keys[i].key)
    {
      assert keys[i] == rest[i] && rest[i] in rest;
    }
    forall r | r in table && Follows(after, r.key)
      ensures r in keys || (|keys| == take && Before(Last(keys).key, r.key))
    {
      assert r in rest;
      var i :| 0 <= i < |rest| && rest[i] == r;
      if i < |keys| {
        assert keys[i] == r;
      }
    }
  }

  predicate InRange(first: Key, last: Key, key: Key) {
    AtMost(first, key) && AtMost(key, last)
  }

  lemma FirstAtMostLast(keys: Table, columns: nat)
    requires Stored(keys, columns) && keys != []
    ensures AtMost(keys[0].key, Last(keys).key)
  {
  }

  /** A page's rows are those its second query finds between the first and the last listed key. */
  lemma PageRows(view: View, columns: nat, after: Option<Key>, take: nat)
    requires Stored(view.keys, columns) && Stored(view.rows, columns) && take > 0
    ensures var keys := KeysAfter(view.keys, after, take);
            var rows := PageOf(view, after, take).rows;
            && Stored(rows, columns)
            && (keys == [] ==> rows == [])
            && (keys != [] ==>
                  forall r :: r in rows <==> r in view.rows && InRange(keys[0].key, Last(keys).key, r.key))
  {
    var keys := KeysAfter(view.keys, after, take);
    KeysAreNext(view.keys, columns, after, take);
    if keys != [] {
      var first, last := keys[0].key, Last(keys).key;
      FirstAtMostLast(keys, columns);
      var inside := RowsBetween(first, last);
      FilterAscends(inside, view.rows);
      FilterMembers(inside, view.rows);
      var rows := Filter(inside, view.rows);
      forall r | r in view.rows
        ensures inside(r) <==> InRange(first, last, r.key)
      {
        KeyRangeIsInterval(first, last, r.key);
      }
      assert forall i :: 0 <= i < |rows| ==> rows[i] in rows;
    }
  }

  predicate ViewsStored(views: seq<View>, columns: nat) {
    forall i :: 0 <= i < |views| ==> Stored(views[i].keys, columns) && Stored(views[i].rows, columns)
  }

  /** A page's rows lie behind the cursor and not behind the next one, which lies behind this one. */
  lemma PageInWindow(view: View, columns: nat, after: Option<Key>, take: nat)
    requires Stored(view.keys, columns) && Stored(view.rows, columns) && take > 0
    ensures var page := PageOf(view, after, take);
            && (forall r :: r in page.rows ==> Follows(after, r.key))
            && (page.next.Some? ==> |page.next.value| == columns && Follows(after, page.next.value))
            && (page.next.Some? ==> forall r :: r in page.rows ==> AtMost(r.key, page.next.value))
  {
    var keys := KeysAfter(view.keys, after, take);
    KeysAreNext(view.keys, columns, after, take);
    PageRows(view, columns, after, take);
    if keys != [] {
      assert keys[0] in keys && Last(keys) in keys;
      forall r | r in PageOf(view, after, take).rows
        ensures Follows(after, r.key)
      {
        if after.Some? && keys[0].key != r.key {
          BeforeTransitive(after.value, keys[0].key, r.key);
        }
      }
    }
  }

  lemma AscendingJoin(a: Table, b: Table, border: Key)
    requires Ascending(a) && Ascending(b)
    requires forall r :: r in a ==> AtMost(r.key, border)
    requires forall r :: r in b ==> Before(border, r.key)
    ensures Ascending(a + b)
  {
    forall i, j | 0 <= i < |a| && 0 <= j < |b|
      ensures Before(a[i].key, b[j].key)
    {
      assert a[i] in a && b[j] in b;
      if a[i].key != border {
        BeforeTransitive(a[i].key, border, b[j].key);
      }
    }
  }

  lemma FollowsFurther(after: Option<Key>, next: Key, key: Key)
    requires Follows(after, next) && Before(next, key)
    ensures Follows(after, key)
  {
    if after.Some? {
      BeforeTransitive(after.value, next, key);
    }
  }

  /** Whatever changes between the queries, the output is in strict key order: no key comes twice. */
  lemma {:induction false} OutputAscends(views: seq<View>, columns: nat, after: Option<Key>, take: nat)
    requires ViewsStored(views, columns) && take > 0
    ensures Ascending(Export(views, after, take).rows)
    ensures forall r :: r in Export(views, after, take).rows ==> Follows(after, r.key)
    decreases |views|
  {
    if views != [] {
      var page := PageOf(views[0], after, take);
      PageRows(views[0], columns, after, take);
      PageInWindow(views[0], columns, after, take);
      if page.next.Some? {
        OutputAscends(views[1..], columns, page.next, take);
        var rest := Export(views[1..], page.next, take).rows;
        AscendingJoin(page.rows, rest, page.next.value);
        forall r | r in rest
          ensures Follows(after, r.key)
        {
          FollowsFurther(after, page.next.value, r.key);
        }
      }
    }
  }

  predicate Has(table: Table, key: Key) {
    exists i :: 0 <= i < |table| && table[i].key == key
  }

  predicate HeldThroughout(views: seq<View>, key: Key) {
    forall i :: 0 <= i < |views| ==> Has(views[i].keys, key) && Has(views[i].rows, key)
  }

  /** A listed row lies between the first and the last listed one. */
  lemma ListedInRange(keys: Table, row: Row)
    requires Ascending(keys) && row in keys
    ensures InRange(keys[0].key, Last(keys).key, row.key)
  {
    var n :| 0 <= n < |keys| && keys[n] == row;
  }

  /** A key that both queries of a page find is on the page or behind its cursor. */
  lemma OnPageOrBehind(view: View, columns: nat, after: Option<Key>, take: nat, key: Key)
    requires Stored(view.keys, columns) && Stored(view.rows, columns) && take > 0
    requires Follows(after, key) && Has(view.keys, key) && Has(view.rows, key)
    ensures var page := PageOf(view, after, take);
            Has(page.rows, key) || (page.next.Some? && Before(page.next.value, key))
  {
    var keys := KeysAfter(view.keys, after, take);
    KeysAreNext(view.keys, columns, after, take);
    var row := RowWith(view.keys, key);
    if row in keys {
      ListedInRange(keys, row);
      PageRows(view, columns, after, take);
      var shown := RowWith(view.rows, key);
      MemberHas(PageOf(view, after, take).rows, shown);
    }
  }

  lemma RowWith(table: Table, key: Key) returns (row: Row)
    requires Has(table, key)
    ensures row in table && row.key == key
  {
    var i :| 0 <= i < |table| && table[i].key == key;
    row := table[i];
  }

  lemma MemberHas(table: Table, row: Row)
    requires row in table
    ensures Has(table, row.key)
  {
  }

  /** A finished export holds every key that was stored throughout. */
  lemma {:induction false} NothingLost(views: seq<View>, columns: nat, after: Option<Key>, take: nat, key: Key)
    requires ViewsStored(views, columns) && take > 0
    requires Export(views, after, take).done && HeldThroughout(views, key) && Follows(after, key)
    ensures Has(Export(views, after, take).rows, key)
    decreases |views|
  {
    var page := PageOf(views[0], after, take);
    OnPageOrBehind(views[0], columns, after, take, key);
    if page.next.Some? {
      var rest := Export(views[1..], page.next, take).rows;
      if !Has(page.rows, key) {
        NothingLost(views[1..], columns, page.next, take, key);
      }
      HasInEither(page.rows, rest, key);
    }
  }

  lemma HasInEither(a: Table, b: Table, key: Key)
    requires Has(a, key) || Has(b, key)
    ensures Has(a + b, key)
  {
    if Has(a, key) {
      var i :| 0 <= i < |a| && a[i].key == key;
      assert (a + b)[i].key == key;
    } else {
      var i :| 0 <= i < |b| && b[i].key == key;
      assert (a + b)[|a| + i].key == key;
    }
  }

  /** Every exported row was stored when its page was read. */
  lemma {:induction false} RowsWereStored(views: seq<View>, columns: nat, after: Option<Key>, take: nat, row: Row)
    requires ViewsStored(views, columns) && take > 0
    requires row in Export(views, after, take).rows
    ensures exists i :: 0 <= i < |views| && row in views[i].rows
    decreases |views|
  {
    var page := PageOf(views[0], after, take);
    PageRows(views[0], columns, after, take);
    if row in page.rows {
      assert row in views[0].rows;
    } else {
      RowsWereStored(views[1..], columns, page.next, take, row);
      var i :| 0 <= i < |views[1..]| && row in views[1..][i].rows;
      assert row in views[i + 1].rows;
    }
  }

  // A table that does not change

  predicate Static(views: seq<View>, table: Table) {
    forall i :: 0 <= i < |views| ==> views[i] == View(table, table)
  }

  lemma {:induction false} FewerBehind(table: Table, after: Option<Key>, next: Key)
    requires Follows(after, next)
    ensures |Filter(RowsAfter(Some(next)), table)| <= |Filter(RowsAfter(after), table)|
    ensures Has(table, next) ==> |Filter(RowsAfter(Some(next)), table)| < |Filter(RowsAfter(after), table)|
  {
    if table != [] {
      FewerBehind(Init(table), after, next);
      var row := Last(table);
      if Before(next, row.key) {
        FollowsFurther(after, next, row.key);
      }
      if row.key == next {
        if Before(next, row.key) {
          BeforeIrreflexive(next, row.key);
        }
      } else if Has(table, next) {
        var i :| 0 <= i < |table| && table[i].key == next;
        assert Init(table)[i].key == next;
      }
    }
  }

  /** On a static table the pages run out: one view more than there are rows is enough. */
  lemma {:induction false} StaticEnds(views: seq<View>, table: Table, columns: nat, after: Option<Key>, take: nat)
    requires Static(views, table) && Stored(table, columns) && take > 0
    requires |views| > |Filter(RowsAfter(after), table)|
    ensures Export(views, after, take).done
    decreases |views|
  {
    var page := PageOf(views[0], after, take);
    if page.next.Some? {
      var keys := KeysAfter(table, after, take);
      KeysAreNext(table, columns, after, take);
      assert Last(keys) in keys;
      var i :| 0 <= i < |table| && table[i] == Last(keys);
      assert table[i].key == page.next.value;
      FewerBehind(table, after, page.next.value);
      StaticEnds(views[1..], table, columns, page.next, take);
    }
  }

  lemma AscendingDistinct(table: Table)
    requires Ascending(table)
    ensures Distinct(table)
    ensures forall i, j :: 0 <= i < |table| && 0 <= j < |table| && table[i].key == table[j].key ==> i == j
  {
    forall i, j | 0 <= i < j < |table|
      ensures table[i] != table[j] && table[i].key != table[j].key
    {
      BeforeIrreflexive(table[i].key, table[j].key);
    }
  }

  function RowLe(): (Row, Row) -> bool {
    (a: Row, b: Row) => AtMost(a.key, b.key)
  }

  /** Two tables in strict key order with the same rows are equal. */
  lemma AscendingUnique(a: Table, b: Table)
    requires Ascending(a) && Ascending(b)
    requires forall r :: r in a <==> r in b
    ensures a == b
  {
    AscendingDistinct(a);
    AscendingDistinct(b);
    SameElements(a, b);
    assert Antisymmetric(RowLe(), a) by {
      forall i, j | 0 <= i < |a| && 0 <= j < |a| && RowLe()(a[i], a[j]) && RowLe()(a[j], a[i])
        ensures a[i] == a[j]
      {
        if a[i].key != a[j].key {
          BeforeIrreflexive(a[i].key, a[j].key);
        }
      }
    }
    SortedUnique(RowLe(), a, b);
  }

  /** The export of a table that does not change ends, and is the table: every row once, in key order. */
  lemma StaticExport(views: seq<View>, table: Table, columns: nat, take: nat)
    requires Static(views, table) && Stored(table, columns) && take > 0 && |views| > |table|
    ensures Export(views, None, take) == Output(table, true)
  {
    FilterMembers(RowsAfter(None), table);
    StaticEnds(views, table, columns, None, take);
    OutputAscends(views, columns, None, take);
    var rows := Export(views, None, take).rows;
    forall r | r in rows
      ensures r in table
    {
      RowsWereStored(views, columns, None, take, r);
    }
    AscendingDistinct(table);
    forall r | r in table
      ensures r in rows
    {
      var i :| 0 <= i < |table| && table[i] == r;
      assert Has(table, r.key);
      NothingLost(views, columns, None, take, r.key);
      var j :| 0 <= j < |rows| && rows[j].key == r.key;
      assert rows[j] in rows && rows[j] in table;
    }
    AscendingUnique(rows, table);
  }
}
