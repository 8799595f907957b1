/** Cursor ("keyset") pagination: backend/src/common/pagination.ts, the two list
  * endpoints that use it, and the page walk of the "infinite scroll" client.
  *
  * A listed row is its ordering column `t` and its id. Both endpoints order by
  * (t DESC, id DESC), fetch one row more than a page and put the last delivered
  * row into an opaque cursor. The cursor goes through a JavaScript Date, so it
  * carries t rounded down to a multiple of `unit`: completed jobs are stamped in
  * whole milliseconds (unit 1), reviews by the database in microseconds (unit 1000). */
module Keyset {
  import opened Options

  datatype Row = Row(t: nat, id: nat)

  /** The SQL predicate `t < :t OR (t = :t AND id < :id)`. */
  predicate Below(a: Row, b: Row) {
    a.t < b.t || (a.t == b.t && a.id < b.id)
  }

  // ---- ORDER BY t DESC, id DESC ----

  ghost predicate Descending(s: seq<Row>) {
    forall i, j :: 0 <= i < j < |s| ==> Below(s[j], s[i])
  }

  /** s lists exactly the rows of the set, newest first. */
  ghost predicate Lists(s: seq<Row>, rows: set<Row>) {
    Descending(s) && forall r :: r in s <==> r in rows
  }

  lemma {:induction false} NewestExists(rows: set<Row>)
    requires rows != {}
    ensures exists m :: m in rows && forall r :: r in rows && r != m ==> Below(r, m)
  {
    var x :| x in rows;
    var others := rows - {x};
    if others == {} {
      assert forall r :: r in rows ==> r == x || r in others;
    } else {
      NewestExists(others);
      var m :| m in others && forall r :: r in others && r != m ==> Below(r, m);
      var top := if Below(x, m) then m else x;
      assert top in rows;
      forall r | r in rows && r != top ensures Below(r, top) {
        assert r == x || r in others;
      }
    }
  }

  ghost function Newest(rows: set<Row>): (m: Row)
    requires rows != {}
    ensures m in rows && forall r :: r in rows && r != m ==> Below(r, m)
  {
    NewestExists(rows);
    var m :| m in rows && forall r :: r in rows && r != m ==> Below(r, m);
    m
  }

  ghost function SortDesc(rows: set<Row>): (s: seq<Row>)
    ensures Lists(s, rows)
    ensures |s| == |rows|
  {
    if rows == {} then [] else
      var m := Newest(rows);
      var rest := SortDesc(rows - {m});
      assert forall r :: r in rest ==> Below(r, m);
      [m] + rest
  }

  /** There is only one such list, so every sort agrees with SortDesc. */
  lemma {:induction false} ListingUnique(s: seq<Row>, s': seq<Row>)
    requires Descending(s) && Descending(s')
    requires forall r :: r in s <==> r in s'
    ensures s == s'
  {
    assert |s'| > 0 ==> s'[0] in s;
    if s != [] {
      assert s[0] in s' && (s' != [] ==> s'[0] in s);
      assert s[0] == s'[0];
      forall r ensures r in s[1..] <==> r in s'[1..] {
        InTail(s, r);
        InTail(s', r);
      }
      ListingUnique(s[1..], s'[1..]);
      assert s == [s[0]] + s[1..] && s' == [s'[0]] + s'[1..];
    }
  }

  lemma InTail(s: seq<Row>, r: Row)
    requires s != [] && Descending(s)
    ensures r in s[1..] <==> r in s && r != s[0]
  {
    if r in s[1..] {
      var i :| 0 <= i < |s| - 1 && s[1..][i] == r;
      assert Below(s[i + 1], s[0]);
    }
    if r in s && r != s[0] {
      var i :| 0 <= i < |s| && s[i] == r;
      assert s[1..][i - 1] == r;
    }
  }

  // ---- the opaque cursor ----

  datatype Json = Text(n: nat) | NotText
  /** What a client may send: the empty string, text that does not parse, or a JSON
    * object with some `t` and `id`, and possibly other fields. */
  datatype Raw = Empty | Malformed | Object(t: Json, id: Json, others: set<string>)

  function EncodeCursor(c: Row): Raw {
    Object(Text(c.t), Text(c.id), {})
  }

  function DecodeCursor(raw: Option<Raw>): Option<Row> {
    match raw
    case Some(Object(Text(t), Text(id), _)) => Some(Row(t, id))
    case _ => None
  }

  /** Round trip; and whatever decodes to c is the encoding of c but for fields of no
    * meaning, so every other text means "from the start". */
  lemma CursorRoundTrip(c: Row, raw: Raw)
    ensures DecodeCursor(Some(EncodeCursor(c))) == Some(c)
    ensures DecodeCursor(Some(raw)) == Some(c) <==> raw.Object? && raw.(others := {}) == EncodeCursor(c)
    ensures DecodeCursor(None).None?
  {
  }

  // ---- one page ----

  function Clamp(limit: int): (take: nat)
    ensures 1 <= take <= 50
  {
    var atLeast := if limit < 1 then 1 else limit;
    if atLeast > 50 then 50 else atLeast
  }

  /** A row as its cursor remembers it: t through a Date. */
  function Rounded(r: Row, unit: nat): (c: Row)
    requires unit > 0
    ensures c.t <= r.t && c.id == r.id
    ensures !Below(r, c)
  {
    Row(r.t - r.t % unit, r.id)
  }

  ghost function Visible(rows: set<Row>, cursor: Option<Row>): set<Row> {
    set r | r in rows && (cursor.None? || Below(r, cursor.value))
  }

  datatype Page = Page(items: seq<Row>, next: Option<Raw>)

  /** completedJobs and received: look one row ahead, deliver at most `take`. */
  ghost function FetchPage(rows: set<Row>, unit: nat, limit: int, raw: Option<Raw>): Page
    requires unit > 0
  {
    var take := Clamp(limit);
    var sorted := SortDesc(Visible(rows, DecodeCursor(raw)));
    var fetched := if |sorted| > take + 1 then sorted[..take + 1] else sorted;
    if |fetched| > take
    then Page(fetched[..take], Some(EncodeCursor(Rounded(fetched[take - 1], unit))))
    else Page(fetched, None)
  }

  // ---- what a page means on the sorted list ----

  /** How many leading rows of a list a cursor hides. */
  ghost function Hidden(s: seq<Row>, cut: Row): (n: nat)
    ensures n <= |s|
    ensures n < |s| ==> Below(s[n], cut)
    ensures forall i :: 0 <= i < n ==> !Below(s[i], cut)
  {
    if s == [] || Below(s[0], cut) then 0 else 1 + Hidden(s[1..], cut)
  }

  /** The rows visible to a cursor are a suffix of the sorted list. */
  lemma VisibleIsSuffix(rows: set<Row>, s: seq<Row>, cursor: Option<Row>, cut: Row)
    requires Lists(s, Visible(rows, cursor))
    requires cursor.Some? ==> !Below(cursor.value, cut)
    ensures SortDesc(Visible(rows, Some(cut))) == s[Hidden(s, cut)..]
  {
    var n, later := Hidden(s, cut), Visible(rows, Some(cut));
    forall r ensures r in s[n..] <==> r in later {
      if r in s[n..] {
        var i :| n <= i < |s| && s[i] == r;
        assert r in s && r in Visible(rows, cursor);
        assert i > n ==> Below(s[i], s[n]);
      }
      if r in later {
        assert r in Visible(rows, cursor) && r in s;
        var i :| 0 <= i < |s| && s[i] == r;
        assert i >= n;
        assert s[n..][i - n] == r;
      }
    }
    ListingUnique(SortDesc(later), s[n..]);
  }

  /** Rows a page has delivered are hidden from its cursor; more may be. */
  lemma DeliveredHidden(s: seq<Row>, unit: nat, take: nat)
    requires unit > 0 && Descending(s) && 0 < take <= |s|
    ensures Hidden(s, Rounded(s[take - 1], unit)) >= take
    ensures Hidden(s, Rounded(s[take - 1], unit)) == take
            <==> (take < |s| ==> Below(s[take], Rounded(s[take - 1], unit)))
  {
    var cut := Rounded(s[take - 1], unit);
    var n := Hidden(s, cut);
    forall i | 0 <= i < take ensures !Below(s[i], cut) {
      assert i == take - 1 || Below(s[take - 1], s[i]);
    }
  }

  // ---- the client's walk: follow nextCursor until it is null ----

  /** `cursor: pageParam || undefined`: the initial "" asks for the first page. */
  function Param(pageParam: Raw): Option<Raw> {
    if pageParam == Empty then None else Some(pageParam)
  }

  /** limits(k) is the limit of the k-th request. */
  ghost function Walk(rows: set<Row>, unit: nat, limits: nat -> int, k: nat, raw: Option<Raw>): (pages: seq<Page>)
    requires unit > 0
    ensures |pages| > 0
    decreases |Visible(rows, DecodeCursor(raw))|
  {
    var page := FetchPage(rows, unit, limits(k), raw);
    if page.next.None? then [page] else
      var s, take := SortDesc(Visible(rows, DecodeCursor(raw))), Clamp(limits(k));
      PageShape(rows, unit, limits(k), raw, s, take);
      NextPage(rows, unit, DecodeCursor(raw), s, take);
      [page] + Walk(rows, unit, limits, k + 1, page.next)
  }

  ghost function Items(pages: seq<Page>): (lists: seq<seq<Row>>)
    ensures |lists| == |pages|
  {
    if pages == [] then [] else [pages[0].items] + Items(pages[1..])
  }

  ghost function Flatten(pages: seq<seq<Row>>): seq<Row> {
    if pages == [] then [] else pages[0] + Flatten(pages[1..])
  }

  ghost function Delivered(pages: seq<Page>): seq<Row> {
    Flatten(Items(pages))
  }

  /** A page, read off the sorted list of what its cursor can see. */
  lemma PageShape(rows: set<Row>, unit: nat, limit: int, raw: Option<Raw>, s: seq<Row>, take: nat)
    requires unit > 0 && s == SortDesc(Visible(rows, DecodeCursor(raw))) && take == Clamp(limit)
    ensures |s| <= take ==> FetchPage(rows, unit, limit, raw) == Page(s, None)
    ensures |s| > take ==>
              FetchPage(rows, unit, limit, raw) == Page(s[..take], Some(EncodeCursor(Rounded(s[take - 1], unit))))
  {
    if |s| > take + 1 {
      assert s[..take + 1][..take] == s[..take];
    }
  }

  /** How many of n rows a request for `limit` gets: the limit, but at least one and at most
    * fifty, as far as there are rows. */
  ghost predicate PageSize(limit: int, n: nat, size: nat) {
    && (limit < 1 ==> size == if n < 1 then n else 1)
    && (1 <= limit <= 50 ==> size == if n < limit then n else limit)
    && (limit > 50 ==> size == if n < 50 then n else 50)
  }

  /** The order of a page, newest first and by id among equals. */
  ghost predicate NewestFirst(items: seq<Row>) {
    forall i, j :: 0 <= i < j < |items| ==>
      items[i].t > items[j].t || (items[i].t == items[j].t && items[i].id > items[j].id)
  }

  /** What a cursor can see: everything, or what is older than it, or as old with a
    * smaller id. */
  ghost predicate Sees(raw: Option<Raw>, r: Row) {
    match raw
    case Some(Object(Text(t), Text(id), _)) => r.t < t || (r.t == t && r.id < id)
    case _ => true
  }

  /** The cursor names the row's id and the unit its time falls into. */
  ghost predicate CursorOf(raw: Raw, last: Row, unit: nat) {
    match raw
    case Object(Text(t), Text(id), _) =>
      id == last.id && t <= last.t < t + unit && exists whole: nat :: t == whole * unit
    case _ => false
  }

  lemma RoundedIsCursor(r: Row, unit: nat)
    requires unit > 0
    ensures CursorOf(EncodeCursor(Rounded(r, unit)), r, unit)
  {
    assert r.t - r.t % unit == r.t / unit * unit;
  }

  /** The first k rows of a sorted list. */
  lemma Prefix(s: seq<Row>, k: nat)
    requires Descending(s) && k <= |s|
    ensures NewestFirst(s[..k]) && (forall r :: r in s[..k] ==> r in s)
    ensures forall r, q :: q in s[..k] && r in s && r !in s[..k] ==> r.t < q.t || (r.t == q.t && r.id < q.id)
  {
    assert forall j :: 0 <= j < k ==> s[j] in s[..k];
    forall r, q | q in s[..k] && r in s && r !in s[..k] ensures Below(r, q) {
      var i :| 0 <= i < k && s[..k][i] == q;
      var j :| 0 <= j < |s| && s[j] == r;
    }
  }

  lemma SeenIsVisible(rows: set<Row>, raw: Option<Raw>)
    ensures (set r | r in rows && Sees(raw, r)) == Visible(rows, DecodeCursor(raw))
  {
  }

  /** How many rows one fetch delivers: as many as asked for, of those its cursor sees; and
    * a cursor exactly when there are more, which names the last row delivered. */
  lemma PageSizeMeans(rows: set<Row>, unit: nat, limit: int, raw: Option<Raw>, seen: set<Row>)
    requires unit > 0 && seen == set r | r in rows && Sees(raw, r)
    ensures
      var page := FetchPage(rows, unit, limit, raw);
      && PageSize(limit, |seen|, |page.items|)
      && (page.next.Some? <==> |seen| > |page.items|)
      && (page.next.Some? ==> page.items != [] && CursorOf(page.next.value, page.items[|page.items| - 1], unit))
  {
    SeenIsVisible(rows, raw);
    var s, take := SortDesc(Visible(rows, DecodeCursor(raw))), Clamp(limit);
    PageShape(rows, unit, limit, raw, s, take);
    if |s| > take { RoundedIsCursor(s[take - 1], unit); }
  }

  /** Which: the newest of the rows its cursor sees, in order. */
  lemma PageMeans(rows: set<Row>, unit: nat, limit: int, raw: Option<Raw>, seen: set<Row>)
    requires unit > 0 && seen == set r | r in rows && Sees(raw, r)
    ensures
      var items := FetchPage(rows, unit, limit, raw).items;
      && NewestFirst(items) && (forall r :: r in items ==> r in seen)
      && (forall r, q :: q in items && r in seen && r !in items ==> r.t < q.t || (r.t == q.t && r.id < q.id))
  {
    SeenIsVisible(rows, raw);
    var s, take := SortDesc(Visible(rows, DecodeCursor(raw))), Clamp(limit);
    PageShape(rows, unit, limit, raw, s, take);
    assert s[..|s|] == s;
    Prefix(s, if |s| <= take then |s| else take);
  }

  /** The cursor of a page that is not the last leaves a proper suffix of the list,
    * without the rows the page delivered. */
  lemma NextPage(rows: set<Row>, unit: nat, cursor: Option<Row>, s: seq<Row>, take: nat)
    requires unit > 0 && s == SortDesc(Visible(rows, cursor)) && 0 < take < |s|
    ensures Hidden(s, Rounded(s[take - 1], unit)) >= take
    ensures SortDesc(Visible(rows, Some(Rounded(s[take - 1], unit)))) == s[Hidden(s, Rounded(s[take - 1], unit))..]
    ensures |Visible(rows, Some(Rounded(s[take - 1], unit)))| < |s|
  {
    var cut := Rounded(s[take - 1], unit);
    assert s[take - 1] in Visible(rows, cursor);
    VisibleIsSuffix(rows, s, cursor, cut);
    DeliveredHidden(s, unit, take);
    assert |SortDesc(Visible(rows, Some(cut)))| == |s| - Hidden(s, cut);
  }

  /** The same walk on the sorted list alone. */
  ghost function ListWalk(s: seq<Row>, unit: nat, limits: nat -> int, k: nat): (pages: seq<seq<Row>>)
    requires unit > 0 && Descending(s)
    ensures |pages| > 0
    decreases |s|
  {
    var take := Clamp(limits(k));
    if |s| <= take then [s] else
      DeliveredHidden(s, unit, take);
      [s[..take]] + ListWalk(s[Hidden(s, Rounded(s[take - 1], unit))..], unit, limits, k + 1)
  }

  lemma FlattenCons(page: seq<Row>, pages: seq<seq<Row>>)
    ensures Flatten([page] + pages) == page + Flatten(pages)
    ensures Flatten([page]) == page
  {
    assert ([page] + pages)[1..] == pages;
    assert [page][1..] == [];
  }

  lemma ItemsCons(page: Page, pages: seq<Page>)
    ensures Items([page] + pages) == [page.items] + Items(pages)
    ensures Items([page]) == [page.items]
  {
    assert ([page] + pages)[1..] == pages;
    assert [page][1..] == [];
  }

  /** The client's pages, cursors and all, are the pages of the list walk. */
  lemma {:induction false} WalkIsListWalk(rows: set<Row>, unit: nat, limits: nat -> int, k: nat, raw: Option<Raw>)
    requires unit > 0
    ensures Items(Walk(rows, unit, limits, k, raw))
            == ListWalk(SortDesc(Visible(rows, DecodeCursor(raw))), unit, limits, k)
    decreases |Visible(rows, DecodeCursor(raw))|
  {
    var s, take := SortDesc(Visible(rows, DecodeCursor(raw))), Clamp(limits(k));
    var page := FetchPage(rows, unit, limits(k), raw);
    PageShape(rows, unit, limits(k), raw, s, take);
    if |s| <= take {
      ItemsCons(page, []);
    } else {
      NextPage(rows, unit, DecodeCursor(raw), s, take);
      WalkIsListWalk(rows, unit, limits, k + 1, page.next);
      ItemsCons(page, Walk(rows, unit, limits, k + 1, page.next));
    }
  }

  // ---- exactness ----

  /** What rounding the cursor can spoil, as a condition on the sorted list alone:
    * at every page boundary the first row of the next page must lie below the
    * rounded cursor of the row before it. */
  ghost predicate CutsClean(s: seq<Row>, unit: nat, limits: nat -> int, k: nat)
    requires unit > 0
    decreases |s|
  {
    var take := Clamp(limits(k));
    |s| > take ==>
      Below(s[take], Rounded(s[take - 1], unit)) && CutsClean(s[take..], unit, limits, k + 1)
  }

  lemma {:induction false} ListWalkShort(s: seq<Row>, unit: nat, limits: nat -> int, k: nat)
    requires unit > 0 && Descending(s)
    ensures |Flatten(ListWalk(s, unit, limits, k))| <= |s|
    decreases |s|
  {
    var take := Clamp(limits(k));
    if |s| <= take {
      FlattenCons(s, []);
    } else {
      DeliveredHidden(s, unit, take);
      var rest := s[Hidden(s, Rounded(s[take - 1], unit))..];
      ListWalkShort(rest, unit, limits, k + 1);
      FlattenCons(s[..take], ListWalk(rest, unit, limits, k + 1));
    }
  }

  lemma RestEqual(s: seq<Row>, take: nat, rest: seq<Row>)
    requires take <= |s|
    ensures s[..take] + rest == s <==> rest == s[take..]
  {
    assert s == s[..take] + s[take..];
    assert (s[..take] + rest)[take..] == rest;
  }

  lemma {:induction false} ListWalkExactIff(s: seq<Row>, unit: nat, limits: nat -> int, k: nat)
    requires unit > 0 && Descending(s)
    ensures Flatten(ListWalk(s, unit, limits, k)) == s <==> CutsClean(s, unit, limits, k)
    decreases |s|
  {
    var take := Clamp(limits(k));
    if |s| <= take {
      FlattenCons(s, []);
    } else {
      DeliveredHidden(s, unit, take);
      var n := Hidden(s, Rounded(s[take - 1], unit));
      var pages := ListWalk(s[n..], unit, limits, k + 1);
      FlattenCons(s[..take], pages);
      ListWalkExactIff(s[n..], unit, limits, k + 1);
      ListWalkShort(s[n..], unit, limits, k + 1);
      RestEqual(s, take, Flatten(pages));
    }
  }

  /** The walk delivers the whole sorted list if and only if every boundary is clean. */
  lemma PagingExactIff(rows: set<Row>, unit: nat, limits: nat -> int)
    requires unit > 0
    ensures Delivered(Walk(rows, unit, limits, 0, Param(Empty))) == SortDesc(rows)
            <==> CutsClean(SortDesc(rows), unit, limits, 0)
  {
    assert Visible(rows, DecodeCursor(Param(Empty))) == rows;
    WalkIsListWalk(rows, unit, limits, 0, Param(Empty));
    ListWalkExactIff(SortDesc(rows), unit, limits, 0);
  }

  lemma {:induction false} WholeUnitsClean(s: seq<Row>, unit: nat, limits: nat -> int, k: nat)
    requires unit > 0 && Descending(s)
    requires forall i :: 0 <= i < |s| ==> s[i].t % unit == 0
    ensures CutsClean(s, unit, limits, k)
    decreases |s|
  {
    var take := Clamp(limits(k));
    if |s| > take {
      WholeUnitsClean(s[take..], unit, limits, k + 1);
    }
  }

  /** Paging is exact when timestamps are whole units (completed jobs always; reviews
    * stamped in whole milliseconds): with any limits the client gets the sorted list,
    * each row once. */
  lemma PagingExact(rows: set<Row>, unit: nat, limits: nat -> int)
    requires unit > 0 && forall r :: r in rows ==> r.t % unit == 0
    ensures Delivered(Walk(rows, unit, limits, 0, Param(Empty))) == SortDesc(rows)
  {
    var s := SortDesc(rows);
    forall i | 0 <= i < |s| ensures s[i].t % unit == 0 { assert s[i] in s; }
    WholeUnitsClean(s, unit, limits, 0);
    PagingExactIff(rows, unit, limits);
  }

  /** pages == max(1, ceil(n / take)): enough for n rows, and one fewer would not be. */
  ghost predicate IsPageCount(pages: nat, n: nat, take: nat) {
    n <= pages * take && pages >= 1 && (pages == 1 || (pages - 1) * take < n)
  }

  lemma OneMorePage(pages: nat, n: nat, take: nat)
    requires take < n && IsPageCount(pages, n - take, take)
    ensures IsPageCount(pages + 1, n, take)
  {
    assert (pages + 1) * take == pages * take + take;
    assert (pages - 1) * take == pages * take - take;
  }

  lemma {:induction false} ListPageCount(s: seq<Row>, unit: nat, limits: nat -> int, take: nat, k: nat)
    requires unit > 0 && Descending(s) && forall i :: Clamp(limits(i)) == take
    requires CutsClean(s, unit, limits, k)
    ensures IsPageCount(|ListWalk(s, unit, limits, k)|, |s|, take)
    decreases |s|
  {
    assert Clamp(limits(k)) == take;
    if |s| > take {
      DeliveredHidden(s, unit, take);
      ListPageCount(s[take..], unit, limits, take, k + 1);
      OneMorePage(|ListWalk(s[take..], unit, limits, k + 1)|, |s|, take);
    }
  }

  lemma {:induction false} ListWalkPages(s: seq<Row>, unit: nat, limits: nat -> int, k: nat)
    requires unit > 0 && Descending(s)
    ensures |ListWalk(s, unit, limits, k)| <= |s| + 1
    decreases |s|
  {
    var take := Clamp(limits(k));
    if |s| > take {
      DeliveredHidden(s, unit, take);
      ListWalkPages(s[Hidden(s, Rounded(s[take - 1], unit))..], unit, limits, k + 1);
    }
  }

  /** A walk makes at most one request per row, and one more. */
  lemma WalkPages(rows: set<Row>, unit: nat, limits: nat -> int)
    requires unit > 0
    ensures |Walk(rows, unit, limits, 0, Param(Empty))| <= |rows| + 1
  {
    assert Visible(rows, DecodeCursor(Param(Empty))) == rows;
    WalkIsListWalk(rows, unit, limits, 0, Param(Empty));
    ListWalkPages(SortDesc(rows), unit, limits, 0);
  }

  /** When every request asks for the same number of rows, from one to fifty, the exact
    * walk takes max(1, ceil(n / limit)) requests. */
  lemma PageCount(rows: set<Row>, unit: nat, limits: nat -> int, limit: nat)
    requires unit > 0 && forall r :: r in rows ==> r.t % unit == 0
    requires 1 <= limit <= 50 && forall i :: limits(i) == limit
    ensures IsPageCount(|Walk(rows, unit, limits, 0, Param(Empty))|, |rows|, limit)
  {
    var s := SortDesc(rows);
    assert Visible(rows, DecodeCursor(Param(Empty))) == rows;
    forall i | 0 <= i < |s| ensures s[i].t % unit == 0 { assert s[i] in s; }
    WholeUnitsClean(s, unit, limits, 0);
    WalkIsListWalk(rows, unit, limits, 0, Param(Empty));
    ListPageCount(s, unit, limits, limit, 0);
  }

  // ---- reviews: what the rounded cursor can lose, and that it loses nothing else ----

  lemma DescendingJoin(a: seq<Row>, b: seq<Row>, cut: Row)
    requires Descending(a) && Descending(b)
    requires forall r :: r in a ==> !Below(r, cut)
    requires forall r :: r in b ==> Below(r, cut)
    ensures Descending(a + b)
  {
    var s := a + b;
    forall i, j | 0 <= i < j < |s| ensures Below(s[j], s[i]) {
      if i < |a| <= j {
        assert s[i] in a && s[j] in b;
      }
    }
  }

  /** r falls into the timestamp unit (the millisecond) of q, and not after q. */
  ghost predicate SharesUnit(r: Row, q: Row, unit: nat)
    requires unit > 0
  {
    Rounded(q, unit).t <= r.t <= q.t
  }

  /** r shares its unit with the last row of a page that has a successor. */
  ghost predicate LostAtACut(r: Row, pages: seq<seq<Row>>, unit: nat)
    requires unit > 0
  {
    exists m :: 0 <= m < |pages| - 1 && |pages[m]| > 0 && SharesUnit(r, pages[m][|pages[m]| - 1], unit)
  }

  lemma {:induction false} ListWalkDescends(s: seq<Row>, unit: nat, limits: nat -> int, k: nat)
    requires unit > 0 && Descending(s)
    ensures Descending(Flatten(ListWalk(s, unit, limits, k)))
    ensures forall r :: r in Flatten(ListWalk(s, unit, limits, k)) ==> r in s
    decreases |s|
  {
    var take := Clamp(limits(k));
    if |s| <= take {
      FlattenCons(s, []);
    } else {
      DeliveredHidden(s, unit, take);
      var cut := Rounded(s[take - 1], unit);
      var n := Hidden(s, cut);
      var rest := ListWalk(s[n..], unit, limits, k + 1);
      FlattenCons(s[..take], rest);
      ListWalkDescends(s[n..], unit, limits, k + 1);
      SuffixBelow(s, n, cut);
      DescendingJoin(s[..take], Flatten(rest), cut);
    }
  }

  lemma SuffixBelow(s: seq<Row>, n: nat, cut: Row)
    requires Descending(s) && n <= |s| && (n < |s| ==> Below(s[n], cut))
    ensures forall r :: r in s[n..] ==> Below(r, cut)
  {
    forall r | r in s[n..] ensures Below(r, cut) {
      var i :| n <= i < |s| && s[i] == r;
      assert i > n ==> Below(s[i], s[n]);
    }
  }

  lemma LostLater(r: Row, page: seq<Row>, rest: seq<seq<Row>>, unit: nat)
    requires unit > 0 && LostAtACut(r, rest, unit)
    ensures LostAtACut(r, [page] + rest, unit)
  {
    var m :| 0 <= m < |rest| - 1 && |rest[m]| > 0 && SharesUnit(r, rest[m][|rest[m]| - 1], unit);
    assert ([page] + rest)[m + 1] == rest[m];
  }

  lemma {:induction false} OnlyCutsLose(s: seq<Row>, unit: nat, limits: nat -> int, k: nat, i: nat)
    requires unit > 0 && Descending(s) && i < |s|
    ensures s[i] in Flatten(ListWalk(s, unit, limits, k)) || LostAtACut(s[i], ListWalk(s, unit, limits, k), unit)
    decreases |s|
  {
    var take := Clamp(limits(k));
    if |s| <= take {
      FlattenCons(s, []);
    } else {
      DeliveredHidden(s, unit, take);
      var n := Hidden(s, Rounded(s[take - 1], unit));
      var rest := ListWalk(s[n..], unit, limits, k + 1);
      FlattenCons(s[..take], rest);
      if i < take {
        assert s[i] == s[..take][i];
      } else if i < n {
        assert Below(s[i], s[take - 1]);
        assert ([s[..take]] + rest)[0] == s[..take];
      } else {
        OnlyCutsLose(s[n..], unit, limits, k + 1, i - n);
        assert s[n..][i - n] == s[i];
        if LostAtACut(s[i], rest, unit) { LostLater(s[i], s[..take], rest, unit); }
      }
    }
  }

  /** With any unit and any limits: nothing is delivered twice or out of order, every
    * row delivered exists, and a row can be missing only because it shares its
    * millisecond with the last row of some page. */
  lemma ReviewPaging(rows: set<Row>, unit: nat, limits: nat -> int)
    requires unit > 0
    ensures
      var pages := Walk(rows, unit, limits, 0, Param(Empty));
      && Descending(Delivered(pages))
      && (forall r :: r in Delivered(pages) ==> r in rows)
      && (forall r :: r in rows && r !in Delivered(pages) ==> LostAtACut(r, Items(pages), unit))
  {
    assert Visible(rows, DecodeCursor(Param(Empty))) == rows;
    WalkIsListWalk(rows, unit, limits, 0, Param(Empty));
    var s := SortDesc(rows);
    ListWalkDescends(s, unit, limits, 0);
    forall r | r in rows
      ensures r in Flatten(ListWalk(s, unit, limits, 0)) || LostAtACut(r, ListWalk(s, unit, limits, 0), unit)
    {
      var i :| 0 <= i < |s| && s[i] == r;
      OnlyCutsLose(s, unit, limits, 0, i);
    }
  }

  /** Two reviews in one millisecond, pages of one: the older one is never shown. */
  lemma MicrosecondReviewLost()
    ensures Delivered(Walk({Row(1002, 7), Row(1001, 8)}, 1000, _ => 1, 0, Param(Empty)))
            != SortDesc({Row(1002, 7), Row(1001, 8)})
  {
    var rows := {Row(1002, 7), Row(1001, 8)};
    var s := [Row(1002, 7), Row(1001, 8)];
    ListingUnique(SortDesc(rows), s);
    PagingExactIff(rows, 1000, _ => 1);
    assert Rounded(s[0], 1000) == Row(1000, 7);
  }
}
