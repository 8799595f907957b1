/** What every sequence of marketplace calls keeps: one invariant over all the
  * tables, the one-way life of requests and engagements, permanent rejection and
  * the conservation of ratings. */
module Lifecycle {
  import opened Options
  import opened Marketplace

  type Requests = map<RequestId, Request>
  type Engagements = map<EngagementId, Engagement>

  // ---- the joint invariant, clause by clause over the tables it relates ----

  ghost predicate OneOpen(rs: Requests) {
    forall a, b :: a in rs && b in rs && rs[a].status == Open && rs[b].status == Open && rs[a].seeker == rs[b].seeker
      ==> a == b
  }

  ghost predicate LockedWhileActive(rs: Requests, es: Engagements) {
    forall e, r :: e in es && r in rs && es[e].status == Active && rs[r].seeker == es[e].seeker
      ==> rs[r].status != Open
  }

  ghost predicate OffersOnOpen(rs: Requests, os: map<Offer, nat>) {
    forall o :: o in os ==> o.request in rs && rs[o.request].status == Open
  }

  ghost predicate EngagedIsFulfilled(rs: Requests, es: Engagements) {
    forall e :: e in es ==>
      es[e].request in rs && rs[es[e].request].status == Fulfilled && rs[es[e].request].seeker == es[e].seeker
  }

  ghost predicate HasEngagement(es: Engagements, r: RequestId) {
    exists e :: e in es && es[e].request == r
  }

  ghost predicate FulfilledIsEngaged(rs: Requests, es: Engagements) {
    forall r :: r in rs && rs[r].status == Fulfilled ==> HasEngagement(es, r)
  }

  ghost predicate OneEngagement(es: Engagements) {
    forall a, b :: a in es && b in es && es[a].request == es[b].request ==> a == b
  }

  ghost predicate OneActive(es: Engagements) {
    forall a, b :: a in es && b in es && es[a].status == Active && es[b].status == Active
      && (es[a].seeker == es[b].seeker || es[a].provider == es[b].provider)
      ==> a == b
  }

  ghost predicate CompletedStamped(es: Engagements, now: nat) {
    forall e :: e in es ==>
      && (es[e].status == Completed <==> es[e].completedAt.Some?)
      && (es[e].completedAt.Some? ==> es[e].completedAt.value <= now)
  }

  ghost predicate TtlKept(rs: Requests, now: nat) {
    forall r :: r in rs ==> rs[r].createdAt <= now && rs[r].expiresAt == rs[r].createdAt + REQUEST_TTL_MS
  }

  ghost predicate ReviewsJustified(es: Engagements, vs: seq<Review>) {
    && (forall i :: 0 <= i < |vs| ==>
          && vs[i].engagement in es && es[vs[i].engagement].status == Completed
          && vs[i].provider == es[vs[i].engagement].provider && vs[i].seeker == es[vs[i].engagement].seeker)
    && (forall i, j :: 0 <= i < j < |vs| ==> vs[i].engagement != vs[j].engagement)
  }

  ghost predicate Inv(db: Db) {
    && OneOpen(db.requests)
    && LockedWhileActive(db.requests, db.engagements)
    && OffersOnOpen(db.requests, db.offers)
    && EngagedIsFulfilled(db.requests, db.engagements)
    && FulfilledIsEngaged(db.requests, db.engagements)
    && OneEngagement(db.engagements)
    && OneActive(db.engagements)
    && CompletedStamped(db.engagements, db.now)
    && TtlKept(db.requests, db.now)
    && ReviewsJustified(db.engagements, db.reviews)
  }

  // ---- each call keeps it ----

  lemma CloseKeeps(db: Db, ids: set<RequestId>, status: RequestStatus)
    requires Inv(db) && (status == Cancelled || status == Expired)
    requires forall id :: id in ids ==> id in db.requests && db.requests[id].status == Open
    ensures Inv(CloseAll(db, ids, status))
  {
  }

  lemma CloseTwice(db: Db, ids: set<RequestId>, more: set<RequestId>, status: RequestStatus)
    ensures CloseAll(CloseAll(db, ids, status), more, status) == CloseAll(db, ids + more, status)
  {
    var two, one := CloseAll(CloseAll(db, ids, status), more, status), CloseAll(db, ids + more, status);
    assert two.requests == one.requests;
    assert two.offers == one.offers;
  }

  lemma NewRequestKeeps(db: Db, id: RequestId, r: Request)
    requires Inv(db) && id !in db.requests
    requires r.status == Open && r.createdAt == db.now && r.expiresAt == db.now + REQUEST_TTL_MS
    requires OpenOf(db, r.seeker) == {} && !SeekerActive(db, r.seeker)
    ensures Inv(db.(requests := db.requests[id := r]))
  {
    assert forall a ::
      a in db.requests && db.requests[a].seeker == r.seeker && db.requests[a].status == Open
      ==> a in OpenOf(db, r.seeker);
  }

  lemma SupersededNoneOpen(db: Db, seeker: UserId)
    ensures OpenOf(CloseAll(db, OpenOf(db, seeker), Cancelled), seeker) == {}
  {
  }

  lemma CreateKeeps(db: Db, seeker: UserId, id: RequestId, draft: Draft)
    requires Inv(db)
    ensures Inv(Create(db, seeker, id, draft).0)
  {
    if Create(db, seeker, id, draft).1 == Ok {
      var mid := CloseAll(db, OpenOf(db, seeker), Cancelled);
      var row := Request(seeker, draft, Open, db.now, db.now + REQUEST_TTL_MS);
      assert Create(db, seeker, id, draft).0 == mid.(requests := mid.requests[id := row]);
      CloseKeeps(db, OpenOf(db, seeker), Cancelled);
      SupersededNoneOpen(db, seeker);
      NewRequestKeeps(mid, id, row);
    }
  }

  lemma AcceptKeepsLinks(rs: Requests, es: Engagements, id: RequestId, eid: EngagementId, e: Engagement)
    requires EngagedIsFulfilled(rs, es) && FulfilledIsEngaged(rs, es) && OneEngagement(es)
    requires id in rs && rs[id].status == Open && eid !in es && e.request == id && e.seeker == rs[id].seeker
    ensures
      var rs', es' := WithStatus(rs, {id}, Fulfilled), es[eid := e];
      EngagedIsFulfilled(rs', es') && FulfilledIsEngaged(rs', es') && OneEngagement(es')
  {
    var rs', es' := WithStatus(rs, {id}, Fulfilled), es[eid := e];
    forall r | r in rs' && rs'[r].status == Fulfilled ensures HasEngagement(es', r) {
      if r == id {
        assert es'[eid].request == id;
      } else {
        assert HasEngagement(es, r);
        var f :| f in es && es[f].request == r;
        assert es'[f] == es[f];
      }
    }
  }

  lemma AcceptKeepsOne(es: Engagements, vs: seq<Review>, now: nat, eid: EngagementId, e: Engagement)
    requires OneActive(es) && CompletedStamped(es, now) && ReviewsJustified(es, vs)
    requires eid !in es && e.status == Active && e.completedAt == None
    requires forall f :: f in es && es[f].status == Active ==> es[f].seeker != e.seeker && es[f].provider != e.provider
    ensures OneActive(es[eid := e]) && CompletedStamped(es[eid := e], now) && ReviewsJustified(es[eid := e], vs)
  {
  }

  lemma AcceptKeepsLock(rs: Requests, es: Engagements, id: RequestId, eid: EngagementId, e: Engagement)
    requires OneOpen(rs) && LockedWhileActive(rs, es)
    requires id in rs && rs[id].status == Open && eid !in es && e.seeker == rs[id].seeker
    ensures OneOpen(WithStatus(rs, {id}, Fulfilled)) && LockedWhileActive(WithStatus(rs, {id}, Fulfilled), es[eid := e])
  {
  }

  lemma AcceptKeeps(db: Db, seeker: UserId, id: RequestId, p: UserId, eid: EngagementId)
    requires Inv(db)
    ensures Inv(Accept(db, seeker, id, p, eid).0)
  {
    if Accept(db, seeker, id, p, eid).1 == Ok {
      var e := Engagement(id, seeker, p, Active, None);
      AcceptKeepsLinks(db.requests, db.engagements, id, eid, e);
      AcceptKeepsLock(db.requests, db.engagements, id, eid, e);
      AcceptKeepsOne(db.engagements, db.reviews, db.now, eid, e);
    }
  }

  lemma CompleteKeepsLinks(rs: Requests, es: Engagements, eid: EngagementId, e: Engagement)
    requires LockedWhileActive(rs, es) && EngagedIsFulfilled(rs, es) && FulfilledIsEngaged(rs, es) && OneEngagement(es)
    requires eid in es && e.request == es[eid].request && e.seeker == es[eid].seeker && e.status == Completed
    ensures LockedWhileActive(rs, es[eid := e]) && EngagedIsFulfilled(rs, es[eid := e])
    ensures FulfilledIsEngaged(rs, es[eid := e]) && OneEngagement(es[eid := e])
  {
    forall r | r in rs && rs[r].status == Fulfilled ensures HasEngagement(es[eid := e], r) {
      assert HasEngagement(es, r);
      var f :| f in es && es[f].request == r;
      assert es[eid := e][f].request == r;
    }
  }

  lemma CompleteKeepsOne(es: Engagements, vs: seq<Review>, now: nat, eid: EngagementId, e: Engagement)
    requires OneActive(es) && CompletedStamped(es, now) && ReviewsJustified(es, vs)
    requires eid in es && e == es[eid].(status := Completed, completedAt := Some(now))
    ensures OneActive(es[eid := e]) && CompletedStamped(es[eid := e], now) && ReviewsJustified(es[eid := e], vs)
  {
  }

  lemma CompleteKeeps(db: Db, eid: EngagementId, u: UserId)
    requires Inv(db)
    ensures Inv(Complete(db, eid, u).0)
  {
    if eid in db.engagements {
      var e := db.engagements[eid].(status := Completed, completedAt := Some(db.now));
      CompleteKeepsLinks(db.requests, db.engagements, eid, e);
      CompleteKeepsOne(db.engagements, db.reviews, db.now, eid, e);
    }
  }

  lemma ReviewKeeps(db: Db, seeker: UserId, eid: EngagementId, rating: Rating)
    requires Inv(db)
    ensures Inv(PostReview(db, seeker, eid, rating).0)
  {
  }

  /** Every call, the sweep and the passing of time keep the joint invariant. */
  lemma NextKeeps(db: Db, op: Op)
    requires Inv(db)
    ensures Inv(Next(db, op))
  {
    match op
    case SweepOp => CloseKeeps(db, DueIds(db), Expired);
    case CreateOp(s, id, d) => CreateKeeps(db, s, id, d);
    case CancelOp(id, s) =>
      if id in db.requests && db.requests[id].status == Open { CloseKeeps(db, {id}, Cancelled); }
    case AcceptOp(s, id, p, e) => AcceptKeeps(db, s, id, p, e);
    case CompleteOp(e, u) => CompleteKeeps(db, e, u);
    case ReviewOp(s, e, r) => ReviewKeeps(db, s, e, r);
    case _ =>
  }

  ghost predicate Fresh(db: Db) {
    db.requests == map[] && db.offers == map[] && db.engagements == map[] && db.rejected == map[] && db.reviews == []
  }

  lemma {:induction false} RunKeeps(db: Db, ops: seq<Op>)
    requires Inv(db)
    ensures Inv(Run(db, ops))
    decreases |ops|
  {
    if ops != [] {
      NextKeeps(db, ops[0]);
      RunKeeps(Next(db, ops[0]), ops[1..]);
    }
  }

  /** The joint lifecycle invariant holds in every reachable state. */
  lemma ReachableInv(db: Db, ops: seq<Op>)
    requires Fresh(db)
    ensures Inv(Run(db, ops))
  {
    RunKeeps(db, ops);
  }

  // ---- requests and engagements only move forward ----

  ghost predicate RequestsLater(a: Requests, b: Requests) {
    forall r :: r in a ==>
      r in b && b[r] == a[r].(status := b[r].status) && (a[r].status != Open ==> b[r].status == a[r].status)
  }

  ghost predicate EngagementsLater(a: Engagements, b: Engagements) {
    forall e :: e in a ==>
      && e in b && b[e] == a[e].(status := b[e].status, completedAt := b[e].completedAt)
      && (a[e].status == Completed ==> b[e] == a[e])
  }

  ghost predicate Later(a: Db, b: Db) {
    a.now <= b.now && RequestsLater(a.requests, b.requests) && EngagementsLater(a.engagements, b.engagements)
    && a.reviews <= b.reviews
  }

  lemma ClosedLater(rs: Requests, ids: set<RequestId>, status: RequestStatus)
    requires forall id :: id in ids && id in rs ==> rs[id].status == Open
    ensures RequestsLater(rs, WithStatus(rs, ids, status))
  {
  }

  lemma CreatedLater(db: Db, seeker: UserId, id: RequestId, draft: Draft)
    ensures RequestsLater(db.requests, Create(db, seeker, id, draft).0.requests)
  {
    ClosedLater(db.requests, OpenOf(db, seeker), Cancelled);
  }

  lemma AcceptedLater(db: Db, seeker: UserId, id: RequestId, p: UserId, eid: EngagementId)
    ensures RequestsLater(db.requests, Accept(db, seeker, id, p, eid).0.requests)
  {
    if id in db.requests && db.requests[id].status == Open { ClosedLater(db.requests, {id}, Fulfilled); }
  }

  lemma NextRequestsLater(db: Db, op: Op)
    ensures RequestsLater(db.requests, Next(db, op).requests)
  {
    match op
    case SweepOp => ClosedLater(db.requests, DueIds(db), Expired);
    case CreateOp(s, id, d) => CreatedLater(db, s, id, d);
    case CancelOp(id, s) =>
      if id in db.requests && db.requests[id].status == Open { ClosedLater(db.requests, {id}, Cancelled); }
    case AcceptOp(s, id, p, e) => AcceptedLater(db, s, id, p, e);
    case _ => assert Next(db, op).requests == db.requests;
  }

  lemma NextEngagementsLater(db: Db, op: Op)
    ensures EngagementsLater(db.engagements, Next(db, op).engagements)
  {
    if !op.AcceptOp? && !op.CompleteOp? {
      assert Next(db, op).engagements == db.engagements;
    }
  }

  lemma NextLater(db: Db, op: Op)
    ensures Later(db, Next(db, op))
  {
    NextRequestsLater(db, op);
    NextEngagementsLater(db, op);
    if !op.ReviewOp? {
      assert Next(db, op).reviews == db.reviews;
    }
  }

  /** Over any run: a request that has left OPEN keeps the status it left to, a
    * completed engagement keeps its stamp, no row or review is ever lost or rewritten. */
  lemma {:induction false} RunLater(db: Db, ops: seq<Op>)
    ensures Later(db, Run(db, ops))
    decreases |ops|
  {
    if ops != [] {
      NextLater(db, ops[0]);
      RunLater(Next(db, ops[0]), ops[1..]);
    }
  }

  // ---- a rejection outlives its Redis key ----

  /** p has no offer on r and cannot make one: while r is live, the key that names r
    * will expire only after r does. */
  ghost predicate Blocked(db: Db, r: RequestId, p: UserId) {
    && r in db.requests
    && Offer(r, p) !in db.offers
    && (IsLive(db, db.requests[r]) ==>
          r in RejectedSet(db, p) && db.rejected[p].expireAt > db.requests[r].expiresAt)
  }

  ghost function EngagedWith(db: Db, r: RequestId, p: UserId): set<EngagementId> {
    set e | e in db.engagements && db.engagements[e].request == r && db.engagements[e].provider == p
  }

  lemma RejectBlocks(db: Db, r: RequestId, seeker: UserId, p: UserId)
    requires Inv(db) && Reject(db, r, seeker, p).1 == Ok
    ensures Blocked(Reject(db, r, seeker, p).0, r, p)
  {
  }

  lemma NoNewEngagement(db: Db, op: Op, r: RequestId, p: UserId)
    requires Offer(r, p) !in db.offers
    ensures EngagedWith(Next(db, op), r, p) == EngagedWith(db, r, p)
  {
  }

  /** Clearing offers, or time passing, cannot unblock: if r is still live, so is the key. */
  lemma StillBlocked(db: Db, after: Db, r: RequestId, p: UserId)
    requires Blocked(db, r, p) && RequestsLater(db.requests, after.requests) && after.now >= db.now
    requires Offer(r, p) !in after.offers && after.rejected == db.rejected
    ensures Blocked(after, r, p)
  {
  }

  /** Another rejection of the same provider only refreshes the key. */
  lemma StillBlockedByReject(db: Db, q: RequestId, seeker: UserId, other: UserId, r: RequestId, p: UserId)
    requires Inv(db) && Blocked(db, r, p)
    ensures Blocked(Reject(db, q, seeker, other).0, r, p)
  {
  }

  lemma NoNewOffer(db: Db, op: Op, r: RequestId, p: UserId)
    requires Blocked(db, r, p)
    ensures Offer(r, p) !in Next(db, op).offers
  {
    if !op.RespondOp? {
      assert Next(db, op).offers.Keys <= db.offers.Keys;
    }
  }

  lemma OnlyRejectWritesTheKeys(db: Db, op: Op)
    requires !op.RejectOp?
    ensures Next(db, op).rejected == db.rejected && Next(db, op).now >= db.now
  {
  }

  lemma BlockedStays(db: Db, op: Op, r: RequestId, p: UserId)
    requires Inv(db) && Blocked(db, r, p)
    ensures Blocked(Next(db, op), r, p)
    ensures EngagedWith(Next(db, op), r, p) == EngagedWith(db, r, p)
  {
    NoNewEngagement(db, op, r, p);
    if op.RejectOp? {
      StillBlockedByReject(db, op.id, op.seeker, op.provider, r, p);
    } else {
      NextRequestsLater(db, op);
      NoNewOffer(db, op, r, p);
      OnlyRejectWritesTheKeys(db, op);
      StillBlocked(db, Next(db, op), r, p);
    }
  }

  lemma {:induction false} BlockedForGood(db: Db, ops: seq<Op>, r: RequestId, p: UserId)
    requires Inv(db) && Blocked(db, r, p)
    ensures Blocked(Run(db, ops), r, p)
    ensures EngagedWith(Run(db, ops), r, p) == EngagedWith(db, r, p)
    decreases |ops|
  {
    if ops != [] {
      NextKeeps(db, ops[0]);
      BlockedStays(db, ops[0], r, p);
      BlockedForGood(Next(db, ops[0]), ops[1..], r, p);
    }
  }

  /** Rejection is permanent: after reject(r, p) no later state of any run has an offer
    * of p on r, and no engagement of r with p is added. */
  lemma RejectionIsPermanent(db: Db, r: RequestId, seeker: UserId, p: UserId, ops: seq<Op>)
    requires Inv(db) && Reject(db, r, seeker, p).1 == Ok
    ensures
      var later := Run(Reject(db, r, seeker, p).0, ops);
      Offer(r, p) !in later.offers && EngagedWith(later, r, p) == EngagedWith(db, r, p)
  {
    RejectBlocks(db, r, seeker, p);
    NextKeeps(db, RejectOp(r, seeker, p));
    BlockedForGood(Reject(db, r, seeker, p).0, ops, r, p);
  }

  // ---- ratings ----

  ghost function CountFor(vs: seq<Review>, p: UserId): nat {
    if vs == [] then 0 else CountFor(vs[..|vs| - 1], p) + if vs[|vs| - 1].provider == p then 1 else 0
  }

  ghost function SumFor(vs: seq<Review>, p: UserId): nat {
    if vs == [] then 0 else SumFor(vs[..|vs| - 1], p) + if vs[|vs| - 1].provider == p then vs[|vs| - 1].rating else 0
  }

  lemma {:induction false} SumBounds(vs: seq<Review>, p: UserId)
    ensures CountFor(vs, p) <= SumFor(vs, p) <= 5 * CountFor(vs, p)
  {
    if vs != [] { SumBounds(vs[..|vs| - 1], p); }
  }

  /** The denormalised aggregate agrees with the review rows. */
  ghost predicate Consistent(db: Db, p: UserId) {
    p in db.profiles
    && db.profiles[p].ratingCount == CountFor(db.reviews, p) && db.profiles[p].ratingSum == SumFor(db.reviews, p)
  }

  lemma NextConserves(db: Db, op: Op, p: UserId)
    requires p in db.profiles
    ensures p in Next(db, op).profiles
    ensures Consistent(Next(db, op), p) <==> Consistent(db, p)
  {
    if op.ReviewOp? && PostReview(db, op.seeker, op.eid, op.rating).1 == Ok {
      var after := Next(db, op).reviews;
      assert after[..|after| - 1] == db.reviews;
    }
  }

  lemma {:induction false} RunConserves(db: Db, ops: seq<Op>, p: UserId)
    requires p in db.profiles
    ensures Consistent(Run(db, ops), p) <==> Consistent(db, p)
    decreases |ops|
  {
    if ops != [] {
      NextConserves(db, ops[0], p);
      RunConserves(Next(db, ops[0]), ops[1..], p);
    }
  }

  /** One decimal of a mean of ratings: off by at most 0.05 and never outside 1..5. */
  lemma AverageHonest(count: nat, sum: nat)
    requires 0 < count <= sum <= 5 * count
    ensures
      var mean := sum as real / count as real;
      var shown := Average(count, sum).value;
      1.0 <= shown <= 5.0 && mean - 0.05 < shown <= mean + 0.05
  {
    var mean := sum as real / count as real;
    QuotientTimes(sum as real, count as real);
    MeanBounds(mean, count as real, sum as real);
    var tenths := (10.0 * mean + 0.5).Floor;
    assert 10.0 * mean - 0.5 < tenths as real <= 10.0 * mean + 0.5;
    assert 10 <= tenths <= 50;
  }

  lemma QuotientTimes(s: real, c: real)
    requires c > 0.0
    ensures s / c * c == s
  {
  }

  lemma MeanBounds(mean: real, c: real, s: real)
    requires c > 0.0 && mean * c == s && c <= s <= 5.0 * c
    ensures 1.0 <= mean <= 5.0
  {
    if mean < 1.0 { TimesPositive(mean, 1.0, c); }
    if mean > 5.0 { TimesPositive(5.0, mean, c); }
  }

  lemma TimesPositive(a: real, b: real, c: real)
    requires a < b && c > 0.0
    ensures a * c < b * c
  {
    assert (b - a) * c > 0.0;
  }

  /** Ratings are conserved: a profile that starts with no ratings and no reviews shows,
    * after any run, the count of its reviews, a rating exactly when there is one, and
    * that rating is the mean of its reviews to one decimal. */
  lemma RatingsConserved(db: Db, ops: seq<Op>, p: UserId)
    requires p in db.profiles && db.profiles[p].ratingCount == db.profiles[p].ratingSum == 0
    requires CountFor(db.reviews, p) == 0
    ensures
      var later := Run(db, ops);
      var count, sum := CountFor(later.reviews, p), SumFor(later.reviews, p);
      && Consistent(later, p)
      && (Average(later.profiles[p].ratingCount, later.profiles[p].ratingSum).Some? <==> count > 0)
      && (count > 0 ==>
            var mean := sum as real / count as real;
            var shown := Average(later.profiles[p].ratingCount, later.profiles[p].ratingSum).value;
            1.0 <= shown <= 5.0 && mean - 0.05 < shown <= mean + 0.05)
  {
    SumBounds(db.reviews, p);
    RunConserves(db, ops, p);
    var later := Run(db, ops);
    SumBounds(later.reviews, p);
    if CountFor(later.reviews, p) > 0 {
      AverageHonest(CountFor(later.reviews, p), SumFor(later.reviews, p));
    }
  }
}
