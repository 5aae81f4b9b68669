/** Keyset paging of notifications (notification.controller.js) and the batch loop of
    rebuild-provider-trust-projections.js. */
module KeysetPaging {
  import opened Model

  /** A timestamp of the database: whole milliseconds, and the microseconds beyond them. */
  datatype Row = Row(millis: int, micros: nat, id: nat)

  /** The driver hands timestamps to JavaScript in milliseconds, so a cursor has lost the rest. */
  datatype Cursor = Cursor(millis: int, id: nat)

  function CursorOf(r: Row): Cursor {
    Cursor(r.millis, r.id)
  }

  /** The cursor condition of the query. */
  predicate Below(r: Row, c: Cursor) {
    r.millis < c.millis || (r.millis == c.millis && r.micros == 0 && r.id < c.id)
  }

  /** ORDER BY created_at DESC, id DESC. */
  predicate Newer(a: Row, b: Row) {
    a.millis > b.millis ||
    (a.millis == b.millis && (a.micros > b.micros || (a.micros == b.micros && a.id > b.id)))
  }

  predicate Sorted(rows: seq<Row>) {
    forall i, j :: 0 <= i < j < |rows| ==> Newer(rows[i], rows[j])
  }

  predicate Matches(r: Row, c: Option<Cursor>) {
    c.None? || Below(r, c.value)
  }

  function Query(rows: seq<Row>, c: Option<Cursor>): (found: seq<Row>)
    ensures forall k :: 0 <= k < |found| ==> Matches(found[k], c)
    ensures |found| <= |rows|
  {
    if |rows| == 0 then []
    else Query(rows[..|rows| - 1], c) + if Matches(rows[|rows| - 1], c) then [rows[|rows| - 1]] else []
  }

  function Distance(a: int, b: int): nat {
    if a < b then b - a else a - b
  }

  /** `normalizeLimit`; `value` is absent when the parameter is not a finite number. The result is the
      permitted limit nearest to the one asked for. */
  function NormalizeLimit(value: Option<int>): (limit: nat)
    ensures 1 <= limit <= 100
    ensures value.None? ==> limit == 30
    ensures value.Some? ==> forall n :: 1 <= n <= 100 && n != limit ==>
                                          Distance(value.value, limit) < Distance(value.value, n)
  {
    var n := if value.Some? then value.value else 30;
    if n > 100 then 100 else if n < 1 then 1 else n
  }

  lemma BelowChains(r: Row, x: Row, c: Option<Cursor>)
    requires Matches(x, c) && Below(r, CursorOf(x))
    ensures Matches(r, c)
  {
  }

  lemma {:induction false} QueryShrinks(rows: seq<Row>, c: Option<Cursor>, x: Row)
    requires Matches(x, c)
    ensures |Query(rows, Some(CursorOf(x)))| <= |Query(rows, c)|
    ensures x in Query(rows, c) ==> |Query(rows, Some(CursorOf(x)))| < |Query(rows, c)|
  {
    if |rows| > 0 {
      var last := rows[|rows| - 1];
      QueryShrinks(rows[..|rows| - 1], c, x);
      if Below(last, CursorOf(x)) {
        BelowChains(last, x, c);
      }
    }
  }

  /** All pages from cursor `c` on: the handler asks for one row more than it returns, to know
      whether there is a next page, and the client follows the cursor of the last row it got. */
  function Pages(rows: seq<Row>, c: Option<Cursor>, limit: nat): seq<Row>
    requires limit > 0
    decreases |Query(rows, c)|
  {
    var found := Query(rows, c);
    if |found| <= limit then found
    else
      QueryShrinks(rows, c, found[limit - 1]);
      found[..limit] + Pages(rows, Some(CursorOf(found[limit - 1])), limit)
  }

  /** Where the rows of a query start in the whole table. */
  function Start(rows: seq<Row>, c: Option<Cursor>): nat {
    |rows| - |Query(rows, c)|
  }

  lemma {:induction false} QueryAppends(a: seq<Row>, b: seq<Row>, c: Option<Cursor>)
    ensures Query(a + b, c) == Query(a, c) + Query(b, c)
    decreases |b|
  {
    if |b| == 0 {
      assert a + b == a;
    } else {
      assert (a + b)[..|a + b| - 1] == a + b[..|b| - 1];
      QueryAppends(a, b[..|b| - 1], c);
    }
  }

  lemma {:induction false} QueryNone(rows: seq<Row>, c: Option<Cursor>)
    requires forall i :: 0 <= i < |rows| ==> !Matches(rows[i], c)
    ensures Query(rows, c) == []
  {
    if |rows| > 0 {
      QueryNone(rows[..|rows| - 1], c);
    }
  }

  lemma {:induction false} QueryAll(rows: seq<Row>, c: Option<Cursor>)
    requires forall i :: 0 <= i < |rows| ==> Matches(rows[i], c)
    ensures Query(rows, c) == rows
  {
    if |rows| > 0 {
      QueryAll(rows[..|rows| - 1], c);
    }
  }

  lemma QuerySplit(rows: seq<Row>, c: Option<Cursor>, j: nat)
    requires j <= |rows|
    requires forall i :: 0 <= i < |rows| ==> (Matches(rows[i], c) <==> j <= i)
    ensures Query(rows, c) == rows[j..]
  {
    assert rows == rows[..j] + rows[j..];
    QueryAppends(rows[..j], rows[j..], c);
    QueryNone(rows[..j], c);
    QueryAll(rows[j..], c);
  }

  lemma {:induction false} SplitPoint(rows: seq<Row>, c: Option<Cursor>, n: nat) returns (j: nat)
    requires Sorted(rows) && n <= |rows|
    ensures j <= n && forall i :: 0 <= i < n ==> (Matches(rows[i], c) <==> j <= i)
  {
    j := 0;
    if n > 0 {
      j := SplitPoint(rows, c, n - 1);
      if !Matches(rows[n - 1], c) {
        assert forall i :: 0 <= i < n - 1 ==> Newer(rows[i], rows[n - 1]);
        j := n;
      } else if j == n - 1 {
        return;
      }
    }
  }

  /** On a sorted table a query returns a suffix. */
  lemma QueryIsSuffix(rows: seq<Row>, c: Option<Cursor>)
    requires Sorted(rows)
    ensures Query(rows, c) == rows[Start(rows, c)..]
    ensures forall i :: 0 <= i < |rows| ==> (Matches(rows[i], c) <==> Start(rows, c) <= i)
  {
    var j := SplitPoint(rows, c, |rows|);
    QuerySplit(rows, c, j);
  }

  /** `k` is a positive multiple of `limit`. */
  predicate Multiple(k: int, limit: nat)
    requires limit > 0
  {
    k >= limit && (k == limit || Multiple(k - limit, limit))
  }

  /** Every row that opens a page, counting from row `j`, is below the cursor of the row before it. */
  predicate ClearFrom(rows: seq<Row>, j: nat, limit: nat)
    requires limit > 0
    decreases |rows| - j
  {
    j + limit >= |rows| || (Below(rows[j + limit], CursorOf(rows[j + limit - 1])) && ClearFrom(rows, j + limit, limit))
  }

  predicate ClearAt(rows: seq<Row>, j: nat, limit: nat, i: int)
    requires limit > 0
  {
    0 < i < |rows| - j && Multiple(i, limit) ==> Below(rows[j + i], CursorOf(rows[j + i - 1]))
  }

  lemma {:induction false} ClearFromIff(rows: seq<Row>, j: nat, limit: nat)
    requires limit > 0
    ensures ClearFrom(rows, j, limit) <==> forall i :: ClearAt(rows, j, limit, i)
    decreases |rows| - j
  {
    if j + limit < |rows| {
      ClearFromIff(rows, j + limit, limit);
      assert ClearAt(rows, j, limit, limit) <==> Below(rows[j + limit], CursorOf(rows[j + limit - 1]));
      forall i | i != limit
        ensures ClearAt(rows, j, limit, i) <==> ClearAt(rows, j + limit, limit, i - limit)
      {
        assert j + limit + (i - limit) == j + i;
      }
      var next := j + limit;
      if forall i :: ClearAt(rows, j, limit, i) {
        forall i ensures ClearAt(rows, next, limit, i) {
          assert ClearAt(rows, j, limit, i + limit);
        }
      }
    }
  }

  /** Where the next page starts. */
  lemma NextStart(rows: seq<Row>, p: nat)
    requires Sorted(rows) && p < |rows|
    ensures var next := Start(rows, Some(CursorOf(rows[p])));
            p < next <= |rows| && (p + 1 < |rows| ==> (next == p + 1 <==> Below(rows[p + 1], CursorOf(rows[p]))))
  {
    var next := Some(CursorOf(rows[p]));
    QueryIsSuffix(rows, next);
    assert !Matches(rows[p], next);
    assert p + 1 < |rows| ==> (Matches(rows[p + 1], next) <==> Start(rows, next) <= p + 1);
  }

  /** One page: `limit` rows, then whatever lies below the cursor of the last of them. */
  lemma PagesStep(rows: seq<Row>, c: Option<Cursor>, limit: nat)
    requires Sorted(rows) && 0 < limit && Start(rows, c) + limit < |rows|
    ensures var j := Start(rows, c);
            Pages(rows, c, limit) == rows[j..j + limit] + Pages(rows, Some(CursorOf(rows[j + limit - 1])), limit)
  {
    var j := Start(rows, c);
    QueryIsSuffix(rows, c);
    assert Query(rows, c)[limit - 1] == rows[j + limit - 1];
    assert Query(rows, c)[..limit] == rows[j..j + limit];
  }

  lemma LastPage(rows: seq<Row>, c: Option<Cursor>, limit: nat)
    requires Sorted(rows) && limit > 0 && Start(rows, c) + limit >= |rows|
    ensures PagesOk(rows, c, limit)
  {
    QueryIsSuffix(rows, c);
    assert ClearFrom(rows, Start(rows, c), limit);
  }

  /** A full page is right exactly when the next page starts right after it and is right itself. */
  lemma FullPage(rows: seq<Row>, c: Option<Cursor>, limit: nat)
    requires Sorted(rows) && limit > 0 && Start(rows, c) + limit < |rows|
    ensures var j := Start(rows, c);
            var next := Some(CursorOf(rows[j + limit - 1]));
            (|Pages(rows, next, limit)| <= |rows| - Start(rows, next) ==>
               |Pages(rows, c, limit)| <= |rows| - j &&
               (Pages(rows, c, limit) == rows[j..] <==>
                  Below(rows[j + limit], CursorOf(rows[j + limit - 1])) &&
                    Pages(rows, next, limit) == rows[Start(rows, next)..]))
  {
    var j := Start(rows, c);
    var next := Some(CursorOf(rows[j + limit - 1]));
    NextStart(rows, j + limit - 1);
    PagesStep(rows, c, limit);
    Compare(rows, j, j + limit, Pages(rows, next, limit));
  }

  predicate PagesOk(rows: seq<Row>, c: Option<Cursor>, limit: nat)
    requires limit > 0
  {
    |Pages(rows, c, limit)| <= |rows| - Start(rows, c) &&
    (Pages(rows, c, limit) == rows[Start(rows, c)..] <==> ClearFrom(rows, Start(rows, c), limit))
  }

  lemma PagesInduct(rows: seq<Row>, c: Option<Cursor>, limit: nat)
    requires Sorted(rows) && limit > 0 && Start(rows, c) + limit < |rows|
    requires PagesOk(rows, Some(CursorOf(rows[Start(rows, c) + limit - 1])), limit)
    ensures PagesOk(rows, c, limit)
  {
    NextStart(rows, Start(rows, c) + limit - 1);
    FullPage(rows, c, limit);
  }

  lemma {:induction false} PagesFrom(rows: seq<Row>, c: Option<Cursor>, limit: nat)
    requires Sorted(rows) && limit > 0
    ensures PagesOk(rows, c, limit)
    decreases |rows| - Start(rows, c)
  {
    if Start(rows, c) + limit < |rows| {
      NextStart(rows, Start(rows, c) + limit - 1);
      PagesFrom(rows, Some(CursorOf(rows[Start(rows, c) + limit - 1])), limit);
      PagesInduct(rows, c, limit);
    } else {
      LastPage(rows, c, limit);
    }
  }

  lemma Compare(rows: seq<Row>, j: nat, k: nat, rest: seq<Row>)
    requires j <= k <= |rows|
    ensures rows[j..k] + rest == rows[j..] <==> rest == rows[k..]
  {
    assert rows[j..] == rows[j..k] + rows[k..];
    SamePrefix(rows[j..k], rest, rows[k..]);
  }

  lemma SamePrefix(a: seq<Row>, b: seq<Row>, c: seq<Row>)
    ensures a + b == a + c <==> b == c
  {
    if a + b == a + c {
      assert b == (a + b)[|a|..] == (a + c)[|a|..] == c;
    }
  }

  /** Following the cursor shows the whole list, each row once and in order, exactly when at every
      page boundary the next row lies below the truncated cursor. */
  lemma PagingIff(rows: seq<Row>, limit: nat)
    requires Sorted(rows) && limit > 0
    ensures Pages(rows, None, limit) == rows <==>
              forall k :: 0 < k < |rows| && Multiple(k, limit) ==> Below(rows[k], CursorOf(rows[k - 1]))
  {
    PagesFrom(rows, None, limit);
    QueryAll(rows, None);
    assert rows[0..] == rows;
    ClearFromIff(rows, 0, limit);
    assert forall k :: ClearAt(rows, 0, limit, k) <==>
           (0 < k < |rows| && Multiple(k, limit) ==> Below(rows[k], CursorOf(rows[k - 1])));
  }

  lemma {:induction false} AllMultiplesOfOne(k: nat)
    requires k > 0
    ensures Multiple(k, 1)
  {
    if k > 1 {
      AllMultiplesOfOne(k - 1);
    }
  }

  /** For every limit at once: every row must lie below the truncated cursor of the one before it. */
  lemma PagingForEveryLimitIff(rows: seq<Row>)
    requires Sorted(rows)
    ensures (forall limit: nat | limit > 0 :: Pages(rows, None, limit) == rows) <==>
              forall k :: 0 < k < |rows| ==> Below(rows[k], CursorOf(rows[k - 1]))
  {
    PagingIff(rows, 1);
    forall k: nat | k > 0 ensures Multiple(k, 1) {
      AllMultiplesOfOne(k);
    }
    forall limit: nat | limit > 0 && (forall k :: 0 < k < |rows| ==> Below(rows[k], CursorOf(rows[k - 1])))
      ensures Pages(rows, None, limit) == rows
    {
      PagingIff(rows, limit);
    }
  }

  /** With timestamps of whole milliseconds it always does. */
  lemma PagingInMilliseconds(rows: seq<Row>, limit: nat)
    requires Sorted(rows) && limit > 0 && forall i :: 0 <= i < |rows| ==> rows[i].micros == 0
    ensures Pages(rows, None, limit) == rows
  {
    PagingIff(rows, limit);
    forall k | 0 < k < |rows|
      ensures Below(rows[k], CursorOf(rows[k - 1]))
    {
      assert Newer(rows[k - 1], rows[k]);
    }
  }

  /** With microseconds it can fail: two rows of one millisecond on either side of a boundary. */
  lemma PagingCanSkip()
    ensures var rows := [Row(1, 500, 2), Row(1, 200, 1)];
            Sorted(rows) && Pages(rows, None, 1) == [Row(1, 500, 2)]
  {
    var rows := [Row(1, 500, 2), Row(1, 200, 1)];
    var next := Some(CursorOf(rows[0]));
    QueryAll(rows, None);
    QuerySplit(rows, next, 2);
    assert Pages(rows, next, 1) == [];
  }

  // ---------- rows that arrive while a client reads ----------

  /** `newer` is newer than everything in the table. */
  predicate Arrives(newer: seq<Row>, rows: seq<Row>) {
    forall i, j :: 0 <= i < |newer| && 0 <= j < |rows| ==> (newer[i].millis > rows[j].millis ||
       (newer[i].millis == rows[j].millis && newer[i].micros > rows[j].micros))
  }

  lemma QueryIgnores(newer: seq<Row>, rows: seq<Row>, c: Option<Cursor>)
    requires forall i :: 0 <= i < |newer| ==> !Matches(newer[i], c)
    ensures Query(newer + rows, c) == Query(rows, c)
  {
    QueryAppends(newer, rows, c);
    QueryNone(newer, c);
  }

  /** The pages a client reads when before each page another batch of rows has arrived. */
  function LivePages(rows: seq<Row>, c: Option<Cursor>, limit: nat, arrivals: seq<seq<Row>>): seq<Row>
    requires limit > 0
    decreases |arrivals|
  {
    if |arrivals| == 0 then Pages(rows, c, limit)
    else
      var now := arrivals[0] + rows;
      var found := Query(now, c);
      if |found| <= limit then found
      else found[..limit] + LivePages(now, Some(CursorOf(found[limit - 1])), limit, arrivals[1..])
  }

  /** Every batch is newer than all that is there when it arrives. */
  predicate AllArrive(rows: seq<Row>, arrivals: seq<seq<Row>>)
    decreases |arrivals|
  {
    |arrivals| == 0 || (Arrives(arrivals[0], rows) && AllArrive(arrivals[0] + rows, arrivals[1..]))
  }

  lemma ArrivalsAbove(newer: seq<Row>, rows: seq<Row>, x: Row)
    requires Arrives(newer, rows) && x in rows
    ensures forall i :: 0 <= i < |newer| ==> !Matches(newer[i], Some(CursorOf(x)))
  {
  }

  lemma {:induction false} QueryIn(rows: seq<Row>, c: Option<Cursor>)
    ensures forall k :: 0 <= k < |Query(rows, c)| ==> Query(rows, c)[k] in rows
  {
    if |rows| > 0 {
      QueryIn(rows[..|rows| - 1], c);
    }
  }

  /** The rows after the first page do not depend on what arrives meanwhile. */
  lemma {:induction false} ArrivalsDoNotMatter(rows: seq<Row>, x: Row, limit: nat, arrivals: seq<seq<Row>>)
    requires limit > 0 && x in rows && AllArrive(rows, arrivals)
    ensures LivePages(rows, Some(CursorOf(x)), limit, arrivals) == Pages(rows, Some(CursorOf(x)), limit)
    decreases |arrivals|
  {
    if |arrivals| > 0 {
      var c := Some(CursorOf(x));
      var now := arrivals[0] + rows;
      ArrivalsAbove(arrivals[0], rows, x);
      QueryIgnores(arrivals[0], rows, c);
      QueryIn(rows, c);
      var found := Query(rows, c);
      if |found| > limit {
        var last := found[limit - 1];
        ArrivalsDoNotMatter(now, last, limit, arrivals[1..]);
        PagesIgnore(arrivals[0], rows, last, limit);
      }
    }
  }

  lemma {:induction false} PagesIgnore(newer: seq<Row>, rows: seq<Row>, x: Row, limit: nat)
    requires limit > 0 && x in rows && Arrives(newer, rows)
    ensures Pages(newer + rows, Some(CursorOf(x)), limit) == Pages(rows, Some(CursorOf(x)), limit)
    decreases |Query(rows, Some(CursorOf(x)))|
  {
    var c := Some(CursorOf(x));
    ArrivalsAbove(newer, rows, x);
    QueryIgnores(newer, rows, c);
    QueryIn(rows, c);
    var found := Query(rows, c);
    if |found| > limit {
      QueryShrinks(rows, c, found[limit - 1]);
      PagesIgnore(newer, rows, found[limit - 1], limit);
    }
  }

  /** All a client reads: the first page of `rows`, then the later pages while rows arrive. */
  function LiveRead(rows: seq<Row>, limit: nat, arrivals: seq<seq<Row>>): seq<Row>
    requires limit > 0
  {
    var found := Query(rows, None);
    if |found| <= limit then found
    else found[..limit] + LivePages(rows, Some(CursorOf(found[limit - 1])), limit, arrivals)
  }

  lemma LiveReadIsPages(rows: seq<Row>, limit: nat, arrivals: seq<seq<Row>>)
    requires limit > 0 && AllArrive(rows, arrivals)
    ensures LiveRead(rows, limit, arrivals) == Pages(rows, None, limit)
  {
    var found := Query(rows, None);
    if |found| > limit {
      QueryIn(rows, None);
      ArrivalsDoNotMatter(rows, found[limit - 1], limit, arrivals);
    }
  }

  /** Whatever arrives meanwhile, a client that reads to the end sees exactly the list that was there
      when it began, under the same condition as on a table at rest ... */
  lemma LiveReadIff(rows: seq<Row>, limit: nat, arrivals: seq<seq<Row>>)
    requires Sorted(rows) && limit > 0 && AllArrive(rows, arrivals)
    ensures LiveRead(rows, limit, arrivals) == rows <==>
              forall k :: 0 < k < |rows| && Multiple(k, limit) ==> Below(rows[k], CursorOf(rows[k - 1]))
  {
    LiveReadIsPages(rows, limit, arrivals);
    PagingIff(rows, limit);
  }

  /** ... so always when the timestamps are whole milliseconds. */
  lemma LiveReadInMilliseconds(rows: seq<Row>, limit: nat, arrivals: seq<seq<Row>>)
    requires Sorted(rows) && limit > 0 && AllArrive(rows, arrivals)
    requires forall i :: 0 <= i < |rows| ==> rows[i].micros == 0
    ensures LiveRead(rows, limit, arrivals) == rows
  {
    LiveReadIsPages(rows, limit, arrivals);
    PagingInMilliseconds(rows, limit);
  }

  // ---------- the batch loop of the rebuild script ----------

  predicate Ascending(ids: seq<nat>) {
    forall i, j :: 0 <= i < j < |ids| ==> ids[i] < ids[j]
  }

  /** The subjects after `after`, in order. */
  function Above(ids: seq<nat>, after: Option<nat>): seq<nat> {
    if |ids| == 0 then []
    else if after.None? || ids[0] > after.value then ids
    else Above(ids[1..], after)
  }

  /** `Above` is what it says. */
  lemma {:induction false} AboveMeans(ids: seq<nat>, after: Option<nat>, x: nat)
    requires Ascending(ids)
    ensures x in Above(ids, after) <==> x in ids && (after.None? || after.value < x)
  {
    if |ids| > 0 {
      AboveMeans(ids[1..], after, x);
      assert x in ids <==> x == ids[0] || x in ids[1..];
    }
  }

  function ListSubjects(ids: seq<nat>, after: Option<nat>, limit: nat): (batch: seq<nat>)
    ensures |batch| <= limit
  {
    var above := Above(ids, after);
    if |above| <= limit then above else above[..limit]
  }

  lemma {:induction false} AboveIn(ids: seq<nat>, after: Option<nat>)
    ensures forall k :: 0 <= k < |Above(ids, after)| ==> Above(ids, after)[k] in ids
  {
    if |ids| > 0 {
      AboveIn(ids[1..], after);
    }
  }

  lemma {:induction false} AboveChains(ids: seq<nat>, after: Option<nat>, n: nat)
    requires Ascending(ids) && 0 < n <= |Above(ids, after)|
    ensures Above(ids, Some(Above(ids, after)[n - 1])) == Above(ids, after)[n..]
  {
    if after.None? || ids[0] > after.value {
      AboveSplit(ids, n);
    } else {
      AboveChains(ids[1..], after, n);
      AboveIn(ids[1..], after);
      assert ids[0] < Above(ids[1..], after)[n - 1];
    }
  }

  lemma {:induction false} AboveSplit(ids: seq<nat>, n: nat)
    requires Ascending(ids) && 0 < n <= |ids|
    ensures Above(ids, Some(ids[n - 1])) == ids[n..]
  {
    if n > 1 {
      AboveSplit(ids[1..], n - 1);
    }
  }

  /** Reading until a batch comes back empty. */
  function ReadToEmpty(ids: seq<nat>, after: Option<nat>, limit: nat): seq<nat>
    requires Ascending(ids) && limit > 0
    decreases |Above(ids, after)|
  {
    var batch := ListSubjects(ids, after, limit);
    if |batch| == 0 then []
    else
      AboveChains(ids, after, |batch|);
      batch + ReadToEmpty(ids, Some(batch[|batch| - 1]), limit)
  }

  lemma {:induction false} ReadToEmptyIsAll(ids: seq<nat>, after: Option<nat>, limit: nat)
    requires Ascending(ids) && limit > 0
    ensures ReadToEmpty(ids, after, limit) == Above(ids, after)
    decreases |Above(ids, after)|
  {
    var batch := ListSubjects(ids, after, limit);
    if |batch| > 0 {
      AboveChains(ids, after, |batch|);
      ReadToEmptyIsAll(ids, Some(batch[|batch| - 1]), limit);
      assert Above(ids, after) == Above(ids, after)[..|batch|] + Above(ids, after)[|batch|..];
    }
  }

  /** The inner loop: every subject of the batch is rebuilt, and the cursor follows. */
  method RebuildBatch(batch: seq<nat>, before: seq<nat>) returns (rebuilt: seq<nat>, after: nat)
    requires |batch| > 0
    ensures rebuilt == before + batch && after == batch[|batch| - 1]
  {
    rebuilt, after := before, batch[0];
    for i := 0 to |batch|
      invariant rebuilt == before + batch[..i]
      invariant i > 0 ==> after == batch[i - 1]
    {
      rebuilt := rebuilt + [batch[i]];
      after := batch[i];
    }
  }

  /** What has been rebuilt, and what is still to come, make up the whole. */
  predicate OnTrack(ids: seq<nat>, start: Option<nat>, rebuilt: seq<nat>, after: Option<nat>) {
    Above(ids, start) == rebuilt + Above(ids, after)
  }

  lemma Regroup(before: seq<nat>, batch: seq<nat>, rest: seq<nat>)
    ensures before + (batch + rest) == (before + batch) + rest
  {
  }

  /** One round of the outer loop. */
  lemma Advance(ids: seq<nat>, start: Option<nat>, limit: nat, rebuilt: seq<nat>, after: Option<nat>)
    requires Ascending(ids) && limit > 0 && |ListSubjects(ids, after, limit)| > 0
    requires OnTrack(ids, start, rebuilt, after)
    ensures var batch := ListSubjects(ids, after, limit);
            var last := Some(batch[|batch| - 1]);
            OnTrack(ids, start, rebuilt + batch, last) && |Above(ids, last)| < |Above(ids, after)| &&
            (|batch| < limit ==> rebuilt + batch == Above(ids, start))
  {
    var batch := ListSubjects(ids, after, limit);
    var rest := Above(ids, after)[|batch|..];
    AboveChains(ids, after, |batch|);
    assert Above(ids, after) == batch + rest;
    Regroup(rebuilt, batch, rest);
  }

  /** The loop of `main` with its early exit on a short batch. */
  method RebuildAll(ids: seq<nat>, start: Option<nat>, limit: nat) returns (rebuilt: seq<nat>)
    requires Ascending(ids) && limit > 0
    ensures rebuilt == ReadToEmpty(ids, start, limit)
    ensures rebuilt == Above(ids, start)
  {
    ReadToEmptyIsAll(ids, start, limit);
    rebuilt := [];
    var after := start;
    while true
      invariant OnTrack(ids, start, rebuilt, after)
      decreases |Above(ids, after)|
    {
      var batch := ListSubjects(ids, after, limit);
      if |batch| == 0 {
        break;
      }
      Advance(ids, start, limit, rebuilt, after);
      var last;
      rebuilt, last := RebuildBatch(batch, rebuilt);
      after := Some(last);
      if |batch| < limit {
        break;
      }
    }
  }
}
