/** Page walks while the table grows between the fetches: jobs that complete, reviews that
  * arrive. */
module LivePaging {
  import opened Options
  import opened Keyset

  /** The table as the successive fetches see it; listed rows are never removed. */
  ghost predicate Growing(snaps: seq<set<Row>>) {
    forall i :: 0 <= i < |snaps| - 1 ==> snaps[i] <= snaps[i + 1]
  }

  /** The k-th fetch of the walk sees its own snapshot; the walk stops at a null
    * cursor or with the last snapshot. */
  ghost function LiveWalk(snaps: seq<set<Row>>, unit: nat, limits: nat -> int, k: nat, raw: Option<Raw>)
    : (pages: seq<Page>)
    requires |snaps| > 0 && unit > 0
    ensures |pages| > 0
    decreases |snaps|
  {
    var page := FetchPage(snaps[0], unit, limits(k), raw);
    if page.next.None? || |snaps| == 1 then [page]
    else [page] + LiveWalk(snaps[1..], unit, limits, k + 1, page.next)
  }

  ghost predicate Finished(pages: seq<Page>) {
    |pages| > 0 && pages[|pages| - 1].next.None?
  }

  // ---- one fetch ----

  function Last(items: seq<Row>): Row
    requires items != []
  {
    items[|items| - 1]
  }

  /** A page lists what its cursor can see from the top; what it leaves out lies below its
    * last row, and its cursor is that row, rounded. */
  ghost predicate IsPage(rows: set<Row>, unit: nat, raw: Option<Raw>, page: Page)
    requires unit > 0
  {
    && Descending(page.items) && (forall r :: r in page.items ==> r in Visible(rows, DecodeCursor(raw)))
    && (page.next.None? ==> forall r :: r in Visible(rows, DecodeCursor(raw)) ==> r in page.items)
    && (page.next.Some? ==>
          && page.items != [] && DecodeCursor(page.next) == Some(Rounded(Last(page.items), unit))
          && (forall r :: r in Visible(rows, DecodeCursor(raw)) && r !in page.items ==> Below(r, Last(page.items)))
          && (forall r :: r in page.items && r != Last(page.items) ==> Below(Last(page.items), r)))
  }

  lemma AboveOrBelow(s: seq<Row>, take: nat, r: Row)
    requires Descending(s) && 0 < take <= |s| && r in s
    ensures r in s[..take] || Below(r, s[take - 1])
    ensures r in s[..take] ==> r == s[take - 1] || Below(s[take - 1], r)
  {
    var i :| 0 <= i < |s| && s[i] == r;
    if i < take { assert s[..take][i] == r; }
    if r in s[..take] {
      var j :| 0 <= j < take && s[..take][j] == r;
      assert s[j] == r;
    }
  }

  lemma PageIsPage(rows: set<Row>, unit: nat, limit: int, raw: Option<Raw>)
    requires unit > 0
    ensures IsPage(rows, unit, raw, FetchPage(rows, unit, limit, raw))
  {
    var s, take := SortDesc(Visible(rows, DecodeCursor(raw))), Clamp(limit);
    var page := FetchPage(rows, unit, limit, raw);
    PageShape(rows, unit, limit, raw, s, take);
    if |s| > take {
      assert page.items == s[..take] && Last(page.items) == s[take - 1];
      forall r | r in page.items ensures r in s {
        assert r in s[..take];
      }
      forall r | r in s
        ensures r in page.items || Below(r, s[take - 1])
        ensures r in page.items ==> r == s[take - 1] || Below(s[take - 1], r)
      {
        AboveOrBelow(s, take, r);
      }
    }
  }

  lemma LiveWalkUnfold(snaps: seq<set<Row>>, unit: nat, limits: nat -> int, k: nat, raw: Option<Raw>, page: Page)
    requires |snaps| > 0 && unit > 0 && page == FetchPage(snaps[0], unit, limits(k), raw)
    ensures Delivered(LiveWalk(snaps, unit, limits, k, raw))
            == page.items + if page.next.None? || |snaps| == 1 then []
                            else Delivered(LiveWalk(snaps[1..], unit, limits, k + 1, page.next))
  {
    if page.next.None? || |snaps| == 1 {
      ItemsCons(page, []);
      FlattenCons(page.items, []);
    } else {
      var rest := LiveWalk(snaps[1..], unit, limits, k + 1, page.next);
      ItemsCons(page, rest);
      FlattenCons(page.items, Items(rest));
    }
  }

  lemma TailGrowing(snaps: seq<set<Row>>)
    requires |snaps| > 1 && Growing(snaps)
    ensures Growing(snaps[1..])
  {
  }

  lemma {:induction false} SnapsContain(snaps: seq<set<Row>>)
    requires |snaps| > 0 && Growing(snaps)
    ensures snaps[0] <= snaps[|snaps| - 1]
  {
    if |snaps| > 1 { SnapsContain(snaps[1..]); }
  }

  // ---- nothing twice, nothing invented ----

  lemma {:induction false} LiveWalkVisible(snaps: seq<set<Row>>, unit: nat, limits: nat -> int, k: nat,
                                           raw: Option<Raw>, r: Row)
    requires |snaps| > 0 && unit > 0 && Growing(snaps)
    requires r in Delivered(LiveWalk(snaps, unit, limits, k, raw))
    ensures r in Visible(snaps[|snaps| - 1], DecodeCursor(raw))
    decreases |snaps|
  {
    var page := FetchPage(snaps[0], unit, limits(k), raw);
    PageIsPage(snaps[0], unit, limits(k), raw);
    LiveWalkUnfold(snaps, unit, limits, k, raw, page);
    SnapsContain(snaps);
    if r !in page.items {
      TailGrowing(snaps);
      LiveWalkVisible(snaps[1..], unit, limits, k + 1, page.next, r);
      assert Last(page.items) in page.items && Below(r, Last(page.items));
    }
  }

  lemma {:induction false} LiveWalkDescends(snaps: seq<set<Row>>, unit: nat, limits: nat -> int, k: nat,
                                            raw: Option<Raw>)
    requires |snaps| > 0 && unit > 0 && Growing(snaps)
    ensures Descending(Delivered(LiveWalk(snaps, unit, limits, k, raw)))
    decreases |snaps|
  {
    var page := FetchPage(snaps[0], unit, limits(k), raw);
    PageIsPage(snaps[0], unit, limits(k), raw);
    LiveWalkUnfold(snaps, unit, limits, k, raw, page);
    if page.next.Some? && |snaps| > 1 {
      TailGrowing(snaps);
      var rest := Delivered(LiveWalk(snaps[1..], unit, limits, k + 1, page.next));
      LiveWalkDescends(snaps[1..], unit, limits, k + 1, page.next);
      forall r | r in rest ensures Below(r, Last(page.items)) {
        LiveWalkVisible(snaps[1..], unit, limits, k + 1, page.next, r);
      }
      DescendingJoin(page.items, rest, Last(page.items));
    }
  }

  // ---- what a walk can miss ----

  /** r lies below the last row of a page that has a successor, but not below the cursor
    * that row was rounded to. */
  ghost predicate Skipped(r: Row, pages: seq<seq<Row>>, unit: nat)
    requires unit > 0
  {
    exists m :: 0 <= m < |pages| - 1 && SkippedBy(r, pages[m], unit)
  }

  ghost predicate SkippedBy(r: Row, page: seq<Row>, unit: nat)
    requires unit > 0
  {
    page != [] && Below(r, Last(page)) && !Below(r, Rounded(Last(page), unit))
  }

  lemma SkippedLater(r: Row, page: seq<Row>, rest: seq<seq<Row>>, unit: nat)
    requires unit > 0 && Skipped(r, rest, unit)
    ensures Skipped(r, [page] + rest, unit)
  {
    var m :| 0 <= m < |rest| - 1 && SkippedBy(r, rest[m], unit);
    assert ([page] + rest)[m + 1] == rest[m];
  }

  /** Skipping means sharing the unit, and whole units are never skipped. */
  lemma SkippedShares(r: Row, pages: seq<seq<Row>>, unit: nat)
    requires unit > 0 && Skipped(r, pages, unit)
    ensures LostAtACut(r, pages, unit) && unit != 1
  {
    var m :| 0 <= m < |pages| - 1 && SkippedBy(r, pages[m], unit);
    assert SharesUnit(r, pages[m][|pages[m]| - 1], unit);
  }

  lemma {:induction false} DeliveredOrSkipped(snaps: seq<set<Row>>, unit: nat, limits: nat -> int, k: nat,
                                              raw: Option<Raw>, r: Row)
    requires |snaps| > 0 && unit > 0 && Growing(snaps)
    requires Finished(LiveWalk(snaps, unit, limits, k, raw)) && r in Visible(snaps[0], DecodeCursor(raw))
    ensures var pages := LiveWalk(snaps, unit, limits, k, raw);
            r in Delivered(pages) || Skipped(r, Items(pages), unit)
    decreases |snaps|
  {
    var page := FetchPage(snaps[0], unit, limits(k), raw);
    PageIsPage(snaps[0], unit, limits(k), raw);
    LiveWalkUnfold(snaps, unit, limits, k, raw, page);
    if r !in page.items {
      var rest := LiveWalk(snaps[1..], unit, limits, k + 1, page.next);
      assert Finished(rest);
      ItemsCons(page, rest);
      if Below(r, Rounded(Last(page.items), unit)) {
        assert r in snaps[1];
        TailGrowing(snaps);
        DeliveredOrSkipped(snaps[1..], unit, limits, k + 1, page.next, r);
        if Skipped(r, Items(rest), unit) { SkippedLater(r, page.items, Items(rest), unit); }
      } else {
        var pages := Items([page] + rest);
        assert pages[0] == page.items && |pages| > 1;
        assert Skipped(r, pages, unit);
      }
    }
  }

  /** Reviews that arrive between the fetches: nothing is delivered twice or out of order,
    * and when the walk ends a review present at the first fetch can be missing only
    * because it shares its millisecond with the last row of some page. */
  lemma ReviewPagingUnderWrites(snaps: seq<set<Row>>, unit: nat, limits: nat -> int)
    requires |snaps| > 0 && unit > 0 && Growing(snaps)
    ensures
      var pages := LiveWalk(snaps, unit, limits, 0, Param(Empty));
      && Descending(Delivered(pages))
      && (forall r :: r in Delivered(pages) ==> r in snaps[|snaps| - 1])
      && (Finished(pages) ==>
            forall r :: r in snaps[0] && r !in Delivered(pages) ==> LostAtACut(r, Items(pages), unit))
  {
    var pages := LiveWalk(snaps, unit, limits, 0, Param(Empty));
    LiveWalkDescends(snaps, unit, limits, 0, Param(Empty));
    forall r | r in Delivered(pages) ensures r in snaps[|snaps| - 1] {
      LiveWalkVisible(snaps, unit, limits, 0, Param(Empty), r);
    }
    if Finished(pages) {
      forall r | r in snaps[0] && r !in Delivered(pages) ensures LostAtACut(r, Items(pages), unit) {
        DeliveredOrSkipped(snaps, unit, limits, 0, Param(Empty), r);
        SkippedShares(r, Items(pages), unit);
      }
    }
  }

  /** Paging under writes: whatever completes between the fetches, nothing is delivered
    * twice, and when the walk ends every job present at the first fetch has been
    * delivered (so: exactly once). */
  lemma PagingUnderWrites(snaps: seq<set<Row>>, limits: nat -> int)
    requires |snaps| > 0 && Growing(snaps)
    ensures
      var pages := LiveWalk(snaps, 1, limits, 0, Param(Empty));
      && Descending(Delivered(pages))
      && (forall r :: r in Delivered(pages) ==> r in snaps[|snaps| - 1])
      && (Finished(pages) ==> forall r :: r in snaps[0] ==> r in Delivered(pages))
  {
    var pages := LiveWalk(snaps, 1, limits, 0, Param(Empty));
    ReviewPagingUnderWrites(snaps, 1, limits);
    if Finished(pages) {
      forall r | r in snaps[0] ensures r in Delivered(pages) {
        DeliveredOrSkipped(snaps, 1, limits, 0, Param(Empty), r);
        if Skipped(r, Items(pages), 1) { SkippedShares(r, Items(pages), 1); }
      }
    }
  }

  // ---- the walk ends ----

  /** A cursor handed out names a row of the table. */
  lemma CursorInTable(rows: set<Row>, limit: int, raw: Option<Raw>)
    ensures var next := FetchPage(rows, 1, limit, raw).next;
            next.Some? ==> DecodeCursor(next).Some? && DecodeCursor(next).value in rows
  {
    PageIsPage(rows, 1, limit, raw);
    var items := FetchPage(rows, 1, limit, raw).items;
    assert items != [] ==> Last(items) in items;
  }

  lemma FinishedRest(snaps: seq<set<Row>>, unit: nat, limits: nat -> int, k: nat, raw: Option<Raw>)
    requires |snaps| > 1 && unit > 0
    requires var next := FetchPage(snaps[0], unit, limits(k), raw).next;
             next.Some? ==> Finished(LiveWalk(snaps[1..], unit, limits, k + 1, next))
    ensures Finished(LiveWalk(snaps, unit, limits, k, raw))
  {
  }

  lemma SubsetFewer(a: set<Row>, b: set<Row>)
    requires a <= b
    ensures |a| <= |b| && (a != b ==> |a| < |b|)
  {
    assert b == a + (b - a);
  }

  lemma VisibleFewer(rows: set<Row>, cursor: Option<Row>)
    ensures |Visible(rows, cursor)| <= |rows|
  {
    SubsetFewer(Visible(rows, cursor), rows);
  }

  /** A walk whose fetches see nothing outside a finite set ends within its size. */
  lemma {:induction false} LiveWalkEnds(snaps: seq<set<Row>>, unit: nat, limits: nat -> int, k: nat, raw: Option<Raw>,
                                        bound: set<Row>)
    requires unit > 0 && |snaps| > |Visible(bound, DecodeCursor(raw))|
    requires forall i :: 0 <= i < |snaps| ==> Visible(snaps[i], DecodeCursor(raw)) <= bound
    ensures Finished(LiveWalk(snaps, unit, limits, k, raw))
    decreases |snaps|
  {
    var cursor, page := DecodeCursor(raw), FetchPage(snaps[0], unit, limits(k), raw);
    PageIsPage(snaps[0], unit, limits(k), raw);
    if page.next.Some? {
      var last, cut := Last(page.items), Rounded(Last(page.items), unit);
      assert last in page.items && last in Visible(snaps[0], cursor);
      assert last in Visible(bound, cursor) && last !in Visible(bound, Some(cut));
      forall r | Below(r, cut) ensures cursor.None? || Below(r, cursor.value) {
        assert Below(r, last);
      }
      SubsetFewer(Visible(bound, Some(cut)), Visible(bound, cursor));
      forall i | 0 <= i < |snaps[1..]| ensures Visible(snaps[1..][i], Some(cut)) <= bound {
        assert Visible(snaps[i + 1], Some(cut)) <= Visible(snaps[i + 1], cursor);
      }
      LiveWalkEnds(snaps[1..], unit, limits, k + 1, page.next, bound);
      FinishedRest(snaps, unit, limits, k, raw);
    }
  }

  // ---- rows that are all newer ----

  /** The clock has moved on: every row added later is newer than all rows of base. */
  ghost predicate AddsOnlyNewer(base: set<Row>, snap: set<Row>) {
    base <= snap && forall r, q :: r in snap && r !in base && q in base ==> Below(q, r)
  }

  lemma NewerHidden(base: set<Row>, snap: set<Row>, cursor: Option<Row>)
    requires AddsOnlyNewer(base, snap)
    requires if cursor.Some? then cursor.value in base else snap == base
    ensures Visible(snap, cursor) == Visible(base, cursor)
  {
  }

  lemma {:induction false} NewerInvisible(base: set<Row>, snaps: seq<set<Row>>, limits: nat -> int, k: nat,
                                          raw: Option<Raw>)
    requires |snaps| >= |Walk(base, 1, limits, k, raw)|
    requires forall i :: 0 <= i < |snaps| ==> AddsOnlyNewer(base, snaps[i])
    requires if DecodeCursor(raw).Some? then DecodeCursor(raw).value in base else snaps[0] == base
    ensures LiveWalk(snaps, 1, limits, k, raw) == Walk(base, 1, limits, k, raw)
    decreases |snaps|
  {
    NewerHidden(base, snaps[0], DecodeCursor(raw));
    var page := FetchPage(base, 1, limits(k), raw);
    if page.next.Some? {
      CursorInTable(base, limits(k), raw);
      NewerInvisible(base, snaps[1..], limits, k + 1, page.next);
    }
  }

  /** If the jobs completed meanwhile are all strictly newer, the walk does not see
    * them at all: it returns the list as it was at the first fetch. */
  lemma PagingUnderNewerWrites(snaps: seq<set<Row>>, limits: nat -> int)
    requires |snaps| > 0 && forall i :: 0 <= i < |snaps| ==> AddsOnlyNewer(snaps[0], snaps[i])
    requires |snaps| >= |Walk(snaps[0], 1, limits, 0, Param(Empty))|
    ensures Delivered(LiveWalk(snaps, 1, limits, 0, Param(Empty))) == SortDesc(snaps[0])
  {
    NewerInvisible(snaps[0], snaps, limits, 0, Param(Empty));
    PagingExact(snaps[0], 1, limits);
  }
}
