/** What a provider's feed shows: `incoming` in requests.service.ts, against the plain
  * statement of which open requests the provider could serve. */
module Feed {
  import opened Options
  import opened Marketplace
  import opened Lifecycle
  import opened Keyset
  import opened Answers

  /** ORDER BY distance ASC LIMIT 100: nearest first, and what is left out is no nearer
    * than any of the hundred rows taken. */
  lemma NearestMeans(distances: set<Row>)
    ensures
      var rows := Nearest(distances);
      && (forall i, j :: 0 <= i < j < |rows| ==> Below(rows[i], rows[j]))
      && (forall r :: r in distances && r !in rows ==>
            |rows| == LIST_LIMIT && forall q :: q in rows ==> Below(q, r))
  {
    var far, rows := SortDesc(distances), Nearest(distances);
    assert forall i :: 0 <= i < |rows| ==> rows[i] == far[|far| - 1 - i];
    forall r | r in distances && r !in rows
      ensures |rows| == LIST_LIMIT && forall q :: q in rows ==> Below(q, r)
    {
      var k :| 0 <= k < |far| && far[k] == r;
      assert |far| - 1 - k < |rows| ==> rows[|far| - 1 - k] == r;
    }
  }

  lemma {:induction false} FeedItems(rows: seq<Row>, found: map<RequestId, Request>, rejected: set<RequestId>,
                                     offered: set<RequestId>, item: FeedItem)
    requires forall r :: r in rows ==> r.id in found
    ensures item in FeedOf(rows, found, rejected, offered) <==>
              && item.id !in rejected && Row(item.distance, item.id) in rows
              && item.request == found[item.id] && (item.hasResponded <==> item.id in offered)
  {
    if rows != [] {
      FeedItems(rows[1..], found, rejected, offered, item);
      assert rows == [rows[0]] + rows[1..];
    }
  }

  function RowOf(item: FeedItem): Row { Row(item.distance, item.id) }

  lemma AboveFeed(top: Row, rows: seq<Row>, found: map<RequestId, Request>, rejected: set<RequestId>,
                  offered: set<RequestId>, item: FeedItem)
    requires forall r :: r in rows ==> r.id in found && Below(top, r)
    requires item in FeedOf(rows, found, rejected, offered)
    ensures Below(top, RowOf(item))
  {
    FeedItems(rows, found, rejected, offered, item);
  }

  ghost predicate Ascending(items: seq<FeedItem>) {
    forall i, j :: 0 <= i < j < |items| ==> Below(RowOf(items[i]), RowOf(items[j]))
  }

  lemma InFront(head: seq<FeedItem>, rest: seq<FeedItem>, top: Row)
    requires Ascending(rest) && (forall item :: item in rest ==> Below(top, RowOf(item)))
    requires head == [] || (|head| == 1 && RowOf(head[0]) == top)
    ensures Ascending(head + rest)
  {
    assert forall i :: 0 <= i < |rest| ==> rest[i] in rest;
    assert head == [] ==> head + rest == rest;
  }

  lemma {:induction false} FeedSorted(rows: seq<Row>, found: map<RequestId, Request>, rejected: set<RequestId>,
                                      offered: set<RequestId>)
    requires forall r :: r in rows ==> r.id in found
    requires forall i, j :: 0 <= i < j < |rows| ==> Below(rows[i], rows[j])
    ensures Ascending(FeedOf(rows, found, rejected, offered))
  {
    if rows != [] {
      var rest := FeedOf(rows[1..], found, rejected, offered);
      FeedSorted(rows[1..], found, rejected, offered);
      forall item | item in rest ensures Below(rows[0], RowOf(item)) {
        AboveFeed(rows[0], rows[1..], found, rejected, offered, item);
      }
      var first := FeedItem(rows[0].id, found[rows[0].id], rows[0].t, rows[0].id in offered);
      InFront(if rows[0].id in rejected then [] else [first], rest, rows[0]);
    }
  }

  // ---- what a provider could serve, in words of the tables ----

  /** Approved, available, located, and without a running job. */
  ghost predicate MayServe(db: Db, p: UserId) {
    && p in db.profiles && ProviderIsFree(db, p)
    && db.profiles[p].listing.approved && db.profiles[p].listing.available && db.profiles[p].listing.place.Some?
  }

  /** Such a provider, with the skill, within the radius of a request that is still open. */
  ghost predicate Servable(geo: Geo, db: Db, p: UserId, id: RequestId) {
    && MayServe(db, p) && StillOpen(db, id)
    && db.requests[id].draft.skill in db.profiles[p].listing.skills
    && DistanceTo(geo, db, p, id) <= db.requests[id].draft.radius
  }

  ghost function DistanceTo(geo: Geo, db: Db, p: UserId, id: RequestId): nat
    requires id in db.requests && MayServe(db, p)
  {
    geo(db.requests[id].draft.place, db.profiles[p].listing.place.value)
  }

  /** The early returns and the query of `incoming` select exactly those. */
  lemma CandidatesMean(geo: Geo, db: Db, p: UserId, id: RequestId)
    ensures id in Candidates(geo, db, p) <==> Servable(geo, db, p, id)
    ensures id in Candidates(geo, db, p) ==> Candidates(geo, db, p)[id] == db.requests[id]
  {
  }

  lemma AllCandidatesMean(geo: Geo, db: Db, p: UserId)
    ensures forall id :: id in Candidates(geo, db, p) <==> Servable(geo, db, p, id)
    ensures forall id :: id in Candidates(geo, db, p) ==> Candidates(geo, db, p)[id] == db.requests[id]
  {
    forall id
      ensures id in Candidates(geo, db, p) <==> Servable(geo, db, p, id)
      ensures id in Candidates(geo, db, p) ==> Candidates(geo, db, p)[id] == db.requests[id]
    {
      CandidatesMean(geo, db, p, id);
    }
  }

  lemma RejectedMeans(db: Db, p: UserId, id: RequestId)
    ensures id in RejectedSet(db, p) <==> TurnedDown(db, id, p)
  {
  }

  ghost predicate Shows(geo: Geo, db: Db, p: UserId, id: RequestId) {
    exists item :: item in Incoming(geo, db, p) && item.id == id
  }

  /** A hundred requests p could serve, none of them farther than id. */
  ghost predicate Crowded(geo: Geo, db: Db, p: UserId, id: RequestId, nearer: set<RequestId>)
    requires Servable(geo, db, p, id)
  {
    && |nearer| == 100 && id !in nearer
    && (forall n :: n in nearer ==> Servable(geo, db, p, n) && DistanceTo(geo, db, p, n) <= DistanceTo(geo, db, p, id))
  }

  lemma {:induction false} RowIds(rows: seq<Row>) returns (ids: set<RequestId>)
    requires forall i, j :: 0 <= i < j < |rows| ==> rows[i].id != rows[j].id
    ensures |ids| == |rows|
    ensures forall n :: n in ids <==> exists i :: 0 <= i < |rows| && rows[i].id == n
  {
    if rows == [] {
      ids := {};
    } else {
      var last := |rows| - 1;
      var rest := RowIds(rows[..last]);
      ids := rest + {rows[last].id};
      forall n | n in ids ensures exists i :: 0 <= i < |rows| && rows[i].id == n {
        if n in rest {
          var i :| 0 <= i < last && rows[..last][i].id == n;
          assert rows[i].id == n;
        }
      }
      forall n, i | 0 <= i < |rows| && rows[i].id == n ensures n in ids {
        assert i < last ==> rows[..last][i].id == n;
      }
    }
  }

  /** The feed, read off the nearest rows of what p could serve. */
  lemma IncomingRows(geo: Geo, db: Db, p: UserId) returns (rows: seq<Row>, offered: set<RequestId>)
    requires Candidates(geo, db, p) != map[]
    ensures forall r :: r in rows ==> r.id in Candidates(geo, db, p) && Servable(geo, db, p, r.id)
    ensures forall r :: r in rows ==> r.t == DistanceTo(geo, db, p, r.id)
    ensures forall i, j :: 0 <= i < j < |rows| ==> Below(rows[i], rows[j])
    ensures forall id :: id in Candidates(geo, db, p) ==> (id in offered <==> Offer(id, p) in db.offers)
    ensures Incoming(geo, db, p) == FeedOf(rows, Candidates(geo, db, p), RejectedSet(db, p), offered)
  {
    AllCandidatesMean(geo, db, p);
    var found, at := Candidates(geo, db, p), db.profiles[p].listing.place.value;
    var distances := set id | id in found :: Row(geo(found[id].draft.place, at), id);
    NearestMeans(distances);
    rows, offered := Nearest(distances), set id | id in found && Offer(id, p) in db.offers;
  }

  lemma NoRows(geo: Geo, found: map<RequestId, Request>, at: Place)
    ensures var rows := set id | id in found :: Row(geo(found[id].draft.place, at), id);
            found == map[] ==> rows == {}
  {
  }

  lemma NothingToServe(geo: Geo, db: Db, p: UserId)
    requires Candidates(geo, db, p) == map[]
    ensures Incoming(geo, db, p) == []
  {
    if p in db.profiles && db.profiles[p].listing.place.Some? {
      NoRows(geo, Candidates(geo, db, p), db.profiles[p].listing.place.value);
    }
  }

  lemma ItemMeans(geo: Geo, db: Db, p: UserId, item: FeedItem)
    requires item in Incoming(geo, db, p)
    ensures Servable(geo, db, p, item.id) && !TurnedDown(db, item.id, p)
    ensures item.request == db.requests[item.id] && item.distance == DistanceTo(geo, db, p, item.id)
    ensures item.hasResponded <==> Offer(item.id, p) in db.offers
  {
    if Candidates(geo, db, p) == map[] { NothingToServe(geo, db, p); }
    CandidatesMean(geo, db, p, item.id);
    RejectedMeans(db, p, item.id);
    var rows, offered := IncomingRows(geo, db, p);
    FeedItems(rows, Candidates(geo, db, p), RejectedSet(db, p), offered, item);
    assert RowOf(item) in rows;
  }

  lemma IncomingSorted(geo: Geo, db: Db, p: UserId, i: nat, j: nat)
    requires i < j < |Incoming(geo, db, p)|
    ensures var items := Incoming(geo, db, p);
            items[i].distance <= items[j].distance && items[i].id != items[j].id
  {
    if Candidates(geo, db, p) == map[] { NothingToServe(geo, db, p); }
    var rows, offered := IncomingRows(geo, db, p);
    FeedSorted(rows, Candidates(geo, db, p), RejectedSet(db, p), offered);
    var items := Incoming(geo, db, p);
    assert items[i] in items && items[j] in items;
    ItemMeans(geo, db, p, items[i]);
    ItemMeans(geo, db, p, items[j]);
  }

  /** Everything shown is a request p can serve and is not turned down from, with the right
    * distance and offer mark, nearest first. Such a request is missing only when a hundred
    * others at most as far away crowd it out; those may include requests p was rejected
    * from, which are cut after the limit. */
  lemma IncomingMeans(geo: Geo, db: Db, p: UserId)
    ensures
      var items := Incoming(geo, db, p);
      && (forall item :: item in items ==>
            && Servable(geo, db, p, item.id) && !TurnedDown(db, item.id, p)
            && item.request == db.requests[item.id] && item.distance == DistanceTo(geo, db, p, item.id)
            && (item.hasResponded <==> Offer(item.id, p) in db.offers))
      && (forall i, j :: 0 <= i < j < |items| ==> items[i].distance <= items[j].distance && items[i].id != items[j].id)
      && (forall id :: Servable(geo, db, p, id) && !TurnedDown(db, id, p) && !Shows(geo, db, p, id) ==>
            exists nearer :: Crowded(geo, db, p, id, nearer))
  {
    forall item | item in Incoming(geo, db, p)
      ensures Servable(geo, db, p, item.id) && !TurnedDown(db, item.id, p)
      ensures item.request == db.requests[item.id] && item.distance == DistanceTo(geo, db, p, item.id)
      ensures item.hasResponded <==> Offer(item.id, p) in db.offers
    {
      ItemMeans(geo, db, p, item);
    }
    forall i, j | 0 <= i < j < |Incoming(geo, db, p)|
      ensures Incoming(geo, db, p)[i].distance <= Incoming(geo, db, p)[j].distance
      ensures Incoming(geo, db, p)[i].id != Incoming(geo, db, p)[j].id
    {
      IncomingSorted(geo, db, p, i, j);
    }
    forall id | Servable(geo, db, p, id) && !TurnedDown(db, id, p) && !Shows(geo, db, p, id)
      ensures exists nearer :: Crowded(geo, db, p, id, nearer)
    {
      var at := db.profiles[p].listing.place.value;
      CandidatesMean(geo, db, p, id);
      CrowdedOut(geo, db, p, id,
                 set n | n in Candidates(geo, db, p) :: Row(geo(Candidates(geo, db, p)[n].draft.place, at), n));
    }
  }

  lemma CrowdedOut(geo: Geo, db: Db, p: UserId, id: RequestId, distances: set<Row>)
    requires Servable(geo, db, p, id) && !TurnedDown(db, id, p) && !Shows(geo, db, p, id)
    requires var found := Candidates(geo, db, p);
             distances == set n | n in found :: Row(geo(found[n].draft.place, db.profiles[p].listing.place.value), n)
    ensures exists nearer :: Crowded(geo, db, p, id, nearer)
  {
    var found, rows := Candidates(geo, db, p), Nearest(distances);
    AllCandidatesMean(geo, db, p);
    RejectedMeans(db, p, id);
    var offered := set n | n in found && Offer(n, p) in db.offers;
    var mine := FeedItem(id, found[id], DistanceTo(geo, db, p, id), id in offered);
    FeedItems(rows, found, RejectedSet(db, p), offered, mine);
    assert Incoming(geo, db, p) == FeedOf(rows, found, RejectedSet(db, p), offered);
    var row := Row(DistanceTo(geo, db, p, id), id);
    assert row in distances && row !in rows;
    NearestMeans(distances);
    forall i, j | 0 <= i < j < |rows| ensures rows[i].id != rows[j].id {
      assert rows[i] in distances && rows[j] in distances;
    }
    var nearer := RowIds(rows);
    forall n | n in nearer
      ensures Servable(geo, db, p, n) && n != id && DistanceTo(geo, db, p, n) <= DistanceTo(geo, db, p, id)
    {
      var i :| 0 <= i < |rows| && rows[i].id == n;
      assert rows[i] in distances && Below(rows[i], row);
    }
    assert Crowded(geo, db, p, id, nearer);
  }

  /** The providers told about a new request are the ones with the provider role whose
    * next `incoming` query selects it. */
  lemma PushMatchesPull(geo: Geo, db: Db, seeker: UserId, id: RequestId, draft: Draft, p: UserId)
    requires Create(db, seeker, id, draft).1 == Ok
    ensures
      var after := Create(db, seeker, id, draft).0;
      p in Matching(geo, after, draft)
      <==> p in after.profiles && after.profiles[p].listing.hasRole && id in Candidates(geo, after, p)
  {
    var after := Create(db, seeker, id, draft).0;
    assert IsLive(after, after.requests[id]) && after.requests[id].draft == draft;
  }

  /** Rejections name requests that exist. */
  ghost predicate RejectionsKnown(rejected: map<UserId, Rejection>, requests: Requests) {
    forall p :: p in rejected ==> rejected[p].members <= requests.Keys
  }

  lemma NextRejectionsKnown(db: Db, op: Op)
    requires RejectionsKnown(db.rejected, db.requests)
    ensures RejectionsKnown(Next(db, op).rejected, Next(db, op).requests)
  {
    NextRequestsLater(db, op);
    if !op.RejectOp? { OnlyRejectWritesTheKeys(db, op); }
    assert db.requests.Keys <= Next(db, op).requests.Keys;
  }

  lemma {:induction false} RunRejectionsKnown(db: Db, ops: seq<Op>)
    requires RejectionsKnown(db.rejected, db.requests)
    ensures RejectionsKnown(Run(db, ops).rejected, Run(db, ops).requests)
    decreases |ops|
  {
    if ops != [] {
      NextRejectionsKnown(db, ops[0]);
      RunRejectionsKnown(Next(db, ops[0]), ops[1..]);
    }
  }

  /** After any run, a provider told about a new request finds it in the feed, unless the
    * feed is full of requests at most as far away. */
  lemma PushedIsShown(geo: Geo, start: Db, ops: seq<Op>, seeker: UserId, id: RequestId, draft: Draft, p: UserId)
    requires Fresh(start) && Create(Run(start, ops), seeker, id, draft).1 == Ok
    requires p in Matching(geo, Create(Run(start, ops), seeker, id, draft).0, draft)
    ensures
      var after := Create(Run(start, ops), seeker, id, draft).0;
      && Servable(geo, after, p, id)
      && (Shows(geo, after, p, id) || exists nearer :: Crowded(geo, after, p, id, nearer))
  {
    var db := Run(start, ops);
    RunRejectionsKnown(start, ops);
    assert id !in RejectedSet(db, p);
    PushMatchesPull(geo, db, seeker, id, draft, p);
    CandidatesMean(geo, Create(db, seeker, id, draft).0, p, id);
    RejectedMeans(Create(db, seeker, id, draft).0, p, id);
    IncomingMeans(geo, Create(db, seeker, id, draft).0, p);
  }
}
