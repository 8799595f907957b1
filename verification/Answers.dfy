/** What each marketplace call answers and what it leaves behind, said row by row of the
  * tables before and after: which reply every case gets, exactly when a call goes
  * through, which rows change and into what, and that nothing else does. */
module Answers {
  import opened Options
  import opened Marketplace

  // ---- the words these statements use ----

  /** A running job. */
  predicate Runs(es: map<EngagementId, Engagement>, e: EngagementId) { e in es && es[e].status == Active }

  ghost predicate SeekerIsFree(db: Db, u: UserId) {
    forall e :: Runs(db.engagements, e) ==> db.engagements[e].seeker != u
  }

  ghost predicate ProviderIsFree(db: Db, u: UserId) {
    forall e :: Runs(db.engagements, e) ==> db.engagements[e].provider != u
  }

  predicate OwnRequest(db: Db, id: RequestId, seeker: UserId) {
    id in db.requests && db.requests[id].seeker == seeker
  }

  predicate StillOpen(db: Db, id: RequestId) {
    id in db.requests && db.requests[id].status == Open && db.now < db.requests[id].expiresAt
  }

  predicate TurnedDown(db: Db, id: RequestId, p: UserId) {
    p in db.rejected && db.now < db.rejected[p].expireAt && id in db.rejected[p].members
  }

  predicate OwnJob(db: Db, eid: EngagementId, u: UserId) {
    eid in db.engagements && db.engagements[eid].seeker == u
  }

  ghost predicate Unreviewed(db: Db, eid: EngagementId) {
    forall r :: r in db.reviews ==> r.engagement != eid
  }

  /** Row by row: the requests in `ids` got a status, all others are as before. */
  ghost predicate OnlyStatusOf(a: map<RequestId, Request>, b: map<RequestId, Request>, ids: set<RequestId>,
                               status: RequestStatus)
  {
    && b.Keys == a.Keys
    && (forall r :: r in a && r !in ids ==> b[r] == a[r])
    && (forall r :: r in a && r in ids ==>
          && b[r].status == status && b[r].seeker == a[r].seeker && b[r].draft == a[r].draft
          && b[r].createdAt == a[r].createdAt && b[r].expiresAt == a[r].expiresAt)
  }

  /** Offer by offer: those on `ids` are gone, all others are as before. */
  ghost predicate OnlyOffersOff(a: map<Offer, nat>, b: map<Offer, nat>, ids: set<RequestId>) {
    && (forall o :: o in b <==> o in a && o.request !in ids)
    && (forall o :: o in b ==> b[o] == a[o])
  }

  // ---- requests.service.ts ----

  /** Exactly the OPEN requests whose time is up become EXPIRED and lose their offers. */
  lemma SweepAnswers(db: Db)
    ensures
      var after := Sweep(db);
      var due := set r | r in db.requests && db.requests[r].status == Open && db.requests[r].expiresAt <= db.now;
      && after == db.(requests := after.requests, offers := after.offers)
      && OnlyStatusOf(db.requests, after.requests, due, Expired) && OnlyOffersOff(db.offers, after.offers, due)
  {
  }

  ghost predicate CreateDue(db: Db, seeker: UserId, id: RequestId, draft: Draft) {
    id !in db.requests && draft.skill in db.skills && SeekerIsFree(db, seeker)
  }

  lemma CreateAnswers(db: Db, seeker: UserId, id: RequestId, draft: Draft)
    ensures
      var status := Create(db, seeker, id, draft).1;
      && (status == Ok <==> CreateDue(db, seeker, id, draft))
      && (id in db.requests ==> status == IdTaken)
      && (id !in db.requests && draft.skill !in db.skills ==> status == NotFound)
      && (id !in db.requests && draft.skill in db.skills && !SeekerIsFree(db, seeker) ==>
            status == BadRequest(SeekerBusy))
    ensures !CreateDue(db, seeker, id, draft) ==> Create(db, seeker, id, draft).0 == db
  {
  }

  /** The seeker's OPEN requests are cancelled; then the new one is there, for half an hour. */
  lemma CreateLeaves(db: Db, seeker: UserId, id: RequestId, draft: Draft)
    requires CreateDue(db, seeker, id, draft)
    ensures
      var after := Create(db, seeker, id, draft).0;
      var own := set r | r in db.requests && db.requests[r].seeker == seeker && db.requests[r].status == Open;
      && after == db.(requests := after.requests, offers := after.offers)
      && id in after.requests
      && after.requests[id] == Request(seeker, draft, Open, db.now, db.now + 30 * 60 * 1000)
      && OnlyStatusOf(db.requests, after.requests - {id}, own, Cancelled) && OnlyOffersOff(db.offers, after.offers, own)
  {
    CreateAnswers(db, seeker, id, draft);
  }

  lemma CancelAnswers(db: Db, id: RequestId, seeker: UserId)
    ensures
      var (after, status) := Cancel(db, id, seeker);
      && (status == Ok <==> OwnRequest(db, id, seeker))
      && (id !in db.requests ==> status == NotFound)
      && (id in db.requests && db.requests[id].seeker != seeker ==> status == Forbidden)
      && (if status == Ok && db.requests[id].status == Open then
            && after == db.(requests := after.requests, offers := after.offers)
            && OnlyStatusOf(db.requests, after.requests, {id}, Cancelled)
            && OnlyOffersOff(db.offers, after.offers, {id})
          else after == db)
  {
  }

  ghost predicate RespondDue(db: Db, id: RequestId, p: UserId) {
    StillOpen(db, id) && !TurnedDown(db, id, p)
  }

  lemma RespondAnswers(db: Db, id: RequestId, p: UserId)
    ensures
      var (after, status) := Respond(db, id, p);
      && (status == Ok <==> RespondDue(db, id, p))
      && (id !in db.requests ==> status == NotFound)
      && (id in db.requests && !StillOpen(db, id) ==> status == BadRequest(NotOpen))
      && (StillOpen(db, id) && TurnedDown(db, id, p) ==> status == BadRequest(WasRejected))
      && after == db.(offers := after.offers)
      && after.offers.Keys == db.offers.Keys + (if status == Ok then {Offer(id, p)} else {})
      && (forall o :: o in after.offers ==> after.offers[o] == if o in db.offers then db.offers[o] else db.now)
  {
  }

  /** The one offer goes, if it is there; whatever else is there stays. */
  lemma WithdrawAnswers(db: Db, id: RequestId, p: UserId)
    ensures
      var (after, status) := Withdraw(db, id, p);
      && status == Ok && after == db.(offers := after.offers)
      && (forall o :: o in after.offers <==> o in db.offers && !(o.request == id && o.provider == p))
      && (forall o :: o in after.offers ==> after.offers[o] == db.offers[o])
  {
  }

  lemma RejectAnswers(db: Db, id: RequestId, seeker: UserId, p: UserId)
    ensures
      var (after, status) := Reject(db, id, seeker, p);
      && (status == Ok <==> OwnRequest(db, id, seeker))
      && (id !in db.requests ==> status == NotFound)
      && (id in db.requests && db.requests[id].seeker != seeker ==> status == Forbidden)
      && (status != Ok ==> after == db)
  {
  }

  /** The offer goes; the provider's key names the request besides what it named while it
    * lived, and now lives two hours; nobody else's key changes. */
  lemma RejectLeaves(db: Db, id: RequestId, seeker: UserId, p: UserId)
    requires OwnRequest(db, id, seeker)
    ensures
      var after := Reject(db, id, seeker, p).0;
      && after == db.(offers := after.offers, rejected := after.rejected)
      && (forall o :: o in after.offers <==> o in db.offers && !(o.request == id && o.provider == p))
      && (forall o :: o in after.offers ==> after.offers[o] == db.offers[o])
      && after.rejected.Keys == db.rejected.Keys + {p}
      && after.rejected[p].expireAt == db.now + 2 * 60 * 60 * 1000
      && (forall r :: r in after.rejected[p].members <==> r == id || TurnedDown(db, r, p))
      && (forall q :: q in db.rejected && q != p ==> after.rejected[q] == db.rejected[q])
  {
  }

  // ---- engagements.service.ts ----

  ghost predicate AcceptDue(db: Db, seeker: UserId, id: RequestId, p: UserId, eid: EngagementId) {
    && eid !in db.engagements && OwnRequest(db, id, seeker) && StillOpen(db, id) && Offer(id, p) in db.offers
    && SeekerIsFree(db, seeker) && ProviderIsFree(db, p)
  }

  lemma AcceptAnswers(db: Db, seeker: UserId, id: RequestId, p: UserId, eid: EngagementId)
    ensures
      var status := Accept(db, seeker, id, p, eid).1;
      && (status == Ok <==> AcceptDue(db, seeker, id, p, eid))
      && (eid in db.engagements ==> status == IdTaken)
      && (eid !in db.engagements ==>
            && (id !in db.requests ==> status == NotFound)
            && (id in db.requests && db.requests[id].seeker != seeker ==> status == Forbidden)
            && (OwnRequest(db, id, seeker) ==>
                  && (!StillOpen(db, id) ==> status == BadRequest(NotOpen))
                  && (StillOpen(db, id) && Offer(id, p) !in db.offers ==> status == BadRequest(NoOffer))
                  && (StillOpen(db, id) && Offer(id, p) in db.offers ==>
                        && (!SeekerIsFree(db, seeker) ==> status == BadRequest(SeekerHasActive))
                        && (SeekerIsFree(db, seeker) && !ProviderIsFree(db, p) ==>
                              status == BadRequest(ProviderHasActive)))))
    ensures !AcceptDue(db, seeker, id, p, eid) ==> Accept(db, seeker, id, p, eid).0 == db
  {
  }

  /** One ACTIVE engagement more; its request is FULFILLED and has no offers left. */
  lemma AcceptLeaves(db: Db, seeker: UserId, id: RequestId, p: UserId, eid: EngagementId)
    requires AcceptDue(db, seeker, id, p, eid)
    ensures
      var after := Accept(db, seeker, id, p, eid).0;
      && after == db.(requests := after.requests, offers := after.offers, engagements := after.engagements)
      && after.engagements.Keys == db.engagements.Keys + {eid}
      && after.engagements[eid] == Engagement(id, seeker, p, Active, None)
      && (forall e :: e in db.engagements ==> after.engagements[e] == db.engagements[e])
      && OnlyStatusOf(db.requests, after.requests, {id}, Fulfilled) && OnlyOffersOff(db.offers, after.offers, {id})
  {
    AcceptAnswers(db, seeker, id, p, eid);
  }

  lemma CompleteAnswers(db: Db, eid: EngagementId, u: UserId)
    ensures
      var (after, status) := Complete(db, eid, u);
      && (status == Ok <==> OwnJob(db, eid, u))
      && (eid !in db.engagements ==> status == NotFound)
      && (eid in db.engagements && db.engagements[eid].seeker != u ==> status == Forbidden)
      && (if status == Ok && db.engagements[eid].status == Active then
            && after == db.(engagements := after.engagements)
            && after.engagements.Keys == db.engagements.Keys
            && (forall e :: e in db.engagements && e != eid ==> after.engagements[e] == db.engagements[e])
            && after.engagements[eid]
               == Engagement(db.engagements[eid].request, u, db.engagements[eid].provider, Completed, Some(db.now))
          else after == db)
  {
  }

  // ---- reviews.service.ts ----

  ghost predicate ReviewDue(db: Db, seeker: UserId, eid: EngagementId) {
    OwnJob(db, eid, seeker) && db.engagements[eid].status == Completed && Unreviewed(db, eid)
  }

  lemma UnreviewedMeans(db: Db, eid: EngagementId)
    ensures Unreviewed(db, eid) <==> !Reviewed(db, eid)
  {
    if !Unreviewed(db, eid) {
      var r :| r in db.reviews && r.engagement == eid;
      var i :| 0 <= i < |db.reviews| && db.reviews[i] == r;
    }
  }

  lemma ReviewAnswers(db: Db, seeker: UserId, eid: EngagementId, rating: Rating)
    ensures
      var (after, status) := PostReview(db, seeker, eid, rating);
      && (status == Ok <==> ReviewDue(db, seeker, eid))
      && (eid !in db.engagements ==> status == NotFound)
      && (eid in db.engagements && db.engagements[eid].seeker != seeker ==> status == Forbidden)
      && (OwnJob(db, eid, seeker) && db.engagements[eid].status != Completed ==> status == BadRequest(NotCompleted))
      && (OwnJob(db, eid, seeker) && db.engagements[eid].status == Completed && !Unreviewed(db, eid) ==>
            status == BadRequest(AlreadyReviewed))
      && (status != Ok ==> after == db)
  {
    UnreviewedMeans(db, eid);
  }

  /** One review more, and the provider's aggregate, if there is one, one rating further. */
  lemma ReviewLeaves(db: Db, seeker: UserId, eid: EngagementId, rating: Rating)
    requires ReviewDue(db, seeker, eid)
    ensures
      var after, p := PostReview(db, seeker, eid, rating).0, db.engagements[eid].provider;
      && after == db.(reviews := after.reviews, profiles := after.profiles)
      && after.reviews == db.reviews + [Review(eid, seeker, p, rating)]
      && after.profiles.Keys == db.profiles.Keys
      && (forall q :: q in db.profiles && q != p ==> after.profiles[q] == db.profiles[q])
      && (p in db.profiles ==>
            && after.profiles[p].listing == db.profiles[p].listing
            && after.profiles[p].ratingCount == db.profiles[p].ratingCount + 1
            && after.profiles[p].ratingSum == db.profiles[p].ratingSum + rating)
  {
    UnreviewedMeans(db, eid);
  }

  // ---- mine ----

  /** A rating as shown: none without reviews; otherwise a whole number of tenths, at most
    * half a tenth from the mean, and at a tie the upper one. */
  ghost predicate ShownRating(rating: Option<real>, count: nat, sum: nat) {
    && (rating.Some? <==> count > 0)
    && (count > 0 ==> exists tenths: int :: IsTenths(rating.value, tenths, count, sum))
  }

  predicate IsTenths(shown: real, tenths: int, count: nat, sum: nat)
    requires count > 0
  {
    && 10.0 * shown == tenths as real
    && 10.0 * (sum as real / count as real) - 0.5 < tenths as real <= 10.0 * (sum as real / count as real) + 0.5
  }

  lemma AverageMeans(count: nat, sum: nat)
    ensures ShownRating(Average(count, sum), count, sum)
  {
    if count > 0 {
      var tenths := (10.0 * (sum as real / count as real) + 0.5).Floor;
      assert IsTenths(Average(count, sum).value, tenths, count, sum);
    }
  }

  /** There is one such number. */
  lemma OneShownRating(a: Option<real>, b: Option<real>, count: nat, sum: nat)
    requires ShownRating(a, count, sum) && ShownRating(b, count, sum)
    ensures a == b
  {
    if count > 0 {
      var m, n :| IsTenths(a.value, m, count, sum) && IsTenths(b.value, n, count, sum);
      assert -1.0 < m as real - n as real < 1.0;
      assert m == n;
    }
  }

  /** What the seeker sees of a responder: distance, rating and number of reviews, as far as
    * the provider has a profile with a place. */
  ghost predicate SeenResponder(geo: Geo, db: Db, at: Place, p: UserId, seen: Responder) {
    if p in db.profiles && db.profiles[p].listing.place.Some? then
      && seen.distance == Some(geo(at, db.profiles[p].listing.place.value))
      && seen.reviewCount == db.profiles[p].ratingCount
      && ShownRating(seen.rating, db.profiles[p].ratingCount, db.profiles[p].ratingSum)
    else seen.distance.None? && seen.rating.None? && seen.reviewCount == 0
  }

  predicate OpenOne(db: Db, id: RequestId, seeker: UserId) {
    OwnRequest(db, id, seeker) && db.requests[id].status == Open
  }

  ghost predicate OneOpenOf(db: Db, seeker: UserId) {
    forall a, b :: OpenOne(db, a, seeker) && OpenOne(db, b, seeker) ==> a == b
  }

  /** With one OPEN request at most, the seeker sees exactly the one that is still open, and
    * of it exactly its responders. */
  lemma MineAnswers(geo: Geo, db: Db, seeker: UserId)
    requires OneOpenOf(db, seeker)
    ensures
      var mine := Mine(geo, db, seeker);
      && (mine.Some? <==> exists id :: OwnRequest(db, id, seeker) && StillOpen(db, id))
      && (mine.Some? ==>
            var id := mine.value.id;
            && OwnRequest(db, id, seeker) && StillOpen(db, id) && mine.value.request == db.requests[id]
            && (forall o :: o in mine.value.responders <==> o in db.offers && o.request == id)
            && (forall o :: o in mine.value.responders ==>
                  && mine.value.responders[o].offeredAt == db.offers[o]
                  && SeenResponder(geo, db, db.requests[id].draft.place, o.provider, mine.value.responders[o])))
  {
    forall p, at: Place, offered: nat ensures SeenResponder(geo, db, at, p, ResponderOf(geo, db, at, p, offered)) {
      if p in db.profiles { AverageMeans(db.profiles[p].ratingCount, db.profiles[p].ratingSum); }
    }
    forall r ensures r in OpenOf(db, seeker) <==> OpenOne(db, r, seeker) {}
    if id: RequestId :| OpenOne(db, id, seeker) {
      forall r | r in OpenOf(db, seeker) ensures r == id { assert OpenOne(db, r, seeker); }
      assert IsLatest(db, OpenOf(db, seeker), id);
    }
    forall id | OwnRequest(db, id, seeker) && StillOpen(db, id) ensures OpenOne(db, id, seeker) {}
  }

  // ---- who is told about a request ----

  /** An approved, available provider by role, located within its radius, with the skill. */
  predicate Reached(geo: Geo, db: Db, draft: Draft, p: UserId) {
    && p in db.profiles
    && var me := db.profiles[p].listing;
       && me.approved && me.available && me.hasRole && me.place.Some? && draft.skill in me.skills
       && geo(draft.place, me.place.value) <= draft.radius
  }

  /** The seeker gets the row just made and is shown every provider it reaches; told are
    * those of them without a running job. A refused call shows nothing. */
  lemma CreateShows(geo: Geo, db: Db, seeker: UserId, id: RequestId, draft: Draft)
    ensures
      var op := CreateOp(seeker, id, draft);
      var view, after := Answer(geo, db, op).view, Next(db, op);
      if !CreateDue(db, seeker, id, draft) then view == Nothing
      else
        && view.Broadcast? && id in after.requests && view.request == after.requests[id]
        && (forall p :: p in view.notified <==> Reached(geo, db, draft, p) && ProviderIsFree(db, p))
        && (forall p :: p in view.nearby <==> Reached(geo, db, draft, p))
  {
    CreateAnswers(db, seeker, id, draft);
  }

  /** A write elsewhere to a provider's listing: the ratings stay, a first row has none. */
  lemma ListingLeaves(db: Db, p: UserId, listing: Listing)
    ensures
      var after := Next(db, ListingOp(p, listing));
      && after == db.(profiles := after.profiles) && after.profiles.Keys == db.profiles.Keys + {p}
      && after.profiles[p].listing == listing
      && (if p in db.profiles then
            && after.profiles[p].ratingCount == db.profiles[p].ratingCount
            && after.profiles[p].ratingSum == db.profiles[p].ratingSum
          else after.profiles[p].ratingCount == 0 && after.profiles[p].ratingSum == 0)
      && (forall q :: q in db.profiles && q != p ==> after.profiles[q] == db.profiles[q])
  {
  }
}
