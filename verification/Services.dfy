/** The service methods themselves, as they work on the tables: statement by
  * statement, loops over fetched rows included. Each is proved to do exactly what the
  * corresponding atomic step of Marketplace says, to keep the joint invariant of the
  * tables, and to give its caller what the service promises. */
module Services {
  import opened Options
  import opened Marketplace
  import opened Lifecycle
  import opened Answers

  /** One turn of a closing loop: `todo` of the fetched ids are still to be closed. */
  lemma OneTurn(db: Db, fetched: set<RequestId>, todo: set<RequestId>, id: RequestId, status: RequestStatus)
    requires id in todo && todo <= fetched
    ensures CloseAll(CloseAll(db, fetched - todo, status), {id}, status)
            == CloseAll(db, fetched - (todo - {id}), status)
  {
    CloseTwice(db, fetched - todo, {id}, status);
    assert fetched - (todo - {id}) == fetched - todo + {id};
  }

  lemma CloseNothing(db: Db, status: RequestStatus)
    ensures CloseAll(db, {}, status) == db
  {
    assert WithStatus(db.requests, {}, status) == db.requests;
    assert WithoutOffers(db.offers, {}) == db.offers;
  }

  // ---- what each handler leaves behind for its caller ----

  /** No offer on it: it has just been made or has left OPEN. */
  ghost predicate Unoffered(db: Db, id: RequestId) {
    forall p :: Offer(id, p) !in db.offers
  }

  lemma SweepGives(db: Db)
    ensures DueIds(Sweep(db)) == {}
  {
  }

  lemma CreateGives(db: Db, seeker: UserId, id: RequestId, draft: Draft)
    requires OffersOnOpen(db.requests, db.offers)
    ensures var (after, status) := Create(db, seeker, id, draft);
            status == Ok ==> OpenOf(after, seeker) == {id} && Unoffered(after, id) && !SeekerActive(after, seeker)
  {
    SupersededNoneOpen(db, seeker);
  }

  lemma ClosedUnoffered(db: Db, id: RequestId)
    requires OffersOnOpen(db.requests, db.offers) && id in db.requests && db.requests[id].status != Open
    ensures Unoffered(db, id)
  {
  }

  lemma ActiveLocks(db: Db, eid: EngagementId)
    requires LockedWhileActive(db.requests, db.engagements) && OneEngagement(db.engagements)
    requires eid in db.engagements && db.engagements[eid].status == Active
    ensures var e := db.engagements[eid];
            OpenOf(db, e.seeker) == {} && EngagedWith(db, e.request, e.provider) == {eid}
  {
  }

  lemma CancelGives(db: Db, id: RequestId, seeker: UserId)
    requires Inv(Next(db, CancelOp(id, seeker)))
    ensures var (after, status) := Cancel(db, id, seeker);
            status == Ok ==> id in after.requests && after.requests[id].status != Open && Unoffered(after, id)
  {
    var (after, status) := Cancel(db, id, seeker);
    if status == Ok { ClosedUnoffered(after, id); }
  }

  lemma AcceptGives(db: Db, seeker: UserId, id: RequestId, p: UserId, eid: EngagementId)
    requires Inv(Accept(db, seeker, id, p, eid).0)
    ensures var (after, status) := Accept(db, seeker, id, p, eid);
            status == Ok ==> OpenOf(after, seeker) == {} && Unoffered(after, id) && EngagedWith(after, id, p) == {eid}
  {
    var (after, status) := Accept(db, seeker, id, p, eid);
    if status == Ok {
      ClosedUnoffered(after, id);
      ActiveLocks(after, eid);
    }
  }

  lemma CompleteGives(db: Db, eid: EngagementId, u: UserId)
    requires OneActive(db.engagements)
    ensures var (after, status) := Complete(db, eid, u);
            && (status == Ok ==> eid in after.engagements && after.engagements[eid].status == Completed)
            && (status == Ok && db.engagements[eid].status == Active ==> !SeekerActive(after, u))
  {
  }

  lemma ReviewGives(db: Db, seeker: UserId, eid: EngagementId, rating: Rating)
    ensures var (after, status) := PostReview(db, seeker, eid, rating);
            status == Ok ==> Reviewed(after, eid) && !Reviewed(db, eid)
  {
    if PostReview(db, seeker, eid, rating).1 == Ok {
      assert PostReview(db, seeker, eid, rating).0.reviews[|db.reviews|].engagement == eid;
    }
  }

  class Store {
    var now: nat
    var skills: set<SkillId>
    var requests: map<RequestId, Request>
    var offers: map<Offer, nat>
    var engagements: map<EngagementId, Engagement>
    var rejected: map<UserId, Rejection>
    var reviews: seq<Review>
    var profiles: map<UserId, Profile>

    function State(): Db
      reads this
    {
      Db(now, skills, requests, offers, engagements, rejected, reviews, profiles)
    }

    /** The joint invariant of Lifecycle. The helpers below run in the middle of a handler,
      * where it need not hold. */
    ghost predicate Valid()
      reads this
    {
      Inv(State())
    }

    constructor (now: nat, skills: set<SkillId>, profiles: map<UserId, Profile>)
      ensures Valid()
      ensures State() == Db(now, skills, map[], map[], map[], map[], [], profiles)
    {
      this.now := now;
      this.skills := skills;
      this.profiles := profiles;
      requests, offers, engagements, rejected, reviews := map[], map[], map[], map[], [];
    }

    // ---- requests.service.ts ----

    /** responses.delete({ requestId }) */
    method DeleteOffers(id: RequestId)
      modifies this`offers
      ensures offers == WithoutOffers(old(offers), {id})
    {
      offers := map o | o in offers && o.request != id :: offers[o];
    }

    /** Close one fetched row and drop its offers. */
    method MarkRemoved(id: RequestId, row: Request, status: RequestStatus)
      requires id in requests && requests[id].(status := row.status) == row
      modifies this`requests, this`offers
      ensures State() == CloseAll(old(State()), {id}, status)
    {
      requests := requests[id := row.(status := status)];
      assert requests == WithStatus(old(requests), {id}, status);
      DeleteOffers(id);
    }

    /** The loop over fetched rows that the sweep and the superseding share. */
    method CloseRows(rows: map<RequestId, Request>, status: RequestStatus)
      requires forall id :: id in rows ==> id in requests && requests[id] == rows[id]
      modifies this`requests, this`offers
      ensures State() == CloseAll(old(State()), rows.Keys, status)
    {
      ghost var before := State();
      var todo := rows.Keys;
      CloseNothing(before, status);
      assert rows.Keys - todo == {};
      while todo != {}
        invariant todo <= rows.Keys
        invariant State() == CloseAll(before, rows.Keys - todo, status)
        decreases |todo|
      {
        var id :| id in todo;
        OneTurn(before, rows.Keys, todo, id, status);
        MarkRemoved(id, rows[id], status);
        todo := todo - {id};
      }
      assert rows.Keys - todo == rows.Keys;
    }

    /** The expiry sweep: fetch what is due, then close it row by row. */
    method SweepExpired()
      requires Valid()
      modifies this
      ensures Valid() && State() == Sweep(old(State()))
      ensures DueIds(State()) == {}
    {
      NextKeeps(State(), SweepOp);
      SweepGives(State());
      var expired := map id | id in requests && requests[id].status == Open && requests[id].expiresAt <= now
        :: requests[id];
      assert expired.Keys == DueIds(State());
      CloseRows(expired, Expired);
    }

    /** Supersede the seeker's open broadcasts, row by row. */
    method CancelOpenForSeeker(seeker: UserId)
      modifies this`requests, this`offers
      ensures State() == CloseAll(old(State()), OpenOf(old(State()), seeker), Cancelled)
    {
      var open := map id | id in requests && requests[id].seeker == seeker && requests[id].status == Open
        :: requests[id];
      assert open.Keys == OpenOf(State(), seeker);
      CloseRows(open, Cancelled);
    }

    method CreateRequest(seeker: UserId, id: RequestId, draft: Draft) returns (status: Status)
      requires Valid()
      modifies this
      ensures Valid() && (State(), status) == Create(old(State()), seeker, id, draft)
      ensures status == Ok <==> old(CreateDue(State(), seeker, id, draft))
      ensures status == Ok ==>
        OpenOf(State(), seeker) == {id} && Unoffered(State(), id) && !SeekerActive(State(), seeker)
    {
      CreateKeeps(State(), seeker, id, draft);
      CreateGives(State(), seeker, id, draft);
      CreateAnswers(State(), seeker, id, draft);
      ghost var goal := Create(State(), seeker, id, draft);
      if id in requests { return IdTaken; }
      if draft.skill !in skills { return NotFound; }
      if SeekerActive(State(), seeker) { return BadRequest(SeekerBusy); }
      CancelOpenForSeeker(seeker);
      requests := requests[id := Request(seeker, draft, Open, now, now + REQUEST_TTL_MS)];
      assert (State(), Ok) == goal;
      return Ok;
    }

    method CancelRequest(id: RequestId, seeker: UserId) returns (status: Status)
      requires Valid()
      modifies this
      ensures Valid() && (State(), status) == Cancel(old(State()), id, seeker)
      ensures status == Ok <==> old(OwnRequest(State(), id, seeker))
      ensures status == Ok ==> id in requests && requests[id].status != Open && Unoffered(State(), id)
    {
      NextKeeps(State(), CancelOp(id, seeker));
      CancelGives(State(), id, seeker);
      if id !in requests { return NotFound; }
      var r := requests[id];
      if r.seeker != seeker { return Forbidden; }
      if r.status == Open { MarkRemoved(id, r, Cancelled); }
      return Ok;
    }

    method RespondTo(id: RequestId, p: UserId) returns (status: Status)
      requires Valid()
      modifies this
      ensures Valid() && (State(), status) == Respond(old(State()), id, p)
      ensures status == Ok <==> old(RespondDue(State(), id, p))
      ensures status == Ok ==> Offer(id, p) in offers
    {
      NextKeeps(State(), RespondOp(id, p));
      if id !in requests { return NotFound; }
      var r := requests[id];
      if r.status != Open || r.expiresAt <= now { return BadRequest(NotOpen); }
      var wasRejected := id in RejectedSet(State(), p);
      if wasRejected { return BadRequest(WasRejected); }
      var existing := Offer(id, p) in offers;
      if !existing { offers := offers[Offer(id, p) := now]; }
      return Ok;
    }

    method WithdrawFrom(id: RequestId, p: UserId) returns (status: Status)
      requires Valid()
      modifies this
      ensures Valid() && (State(), status) == Withdraw(old(State()), id, p)
      ensures status == Ok && offers.Keys == old(offers.Keys) - {Offer(id, p)}
    {
      NextKeeps(State(), WithdrawOp(id, p));
      offers := offers - {Offer(id, p)};
      return Ok;
    }

    /** SADD into the provider's set (a fresh one if the key has expired), then EXPIRE. */
    method RejectOffer(id: RequestId, seeker: UserId, p: UserId) returns (status: Status)
      requires Valid()
      modifies this
      ensures Valid() && (State(), status) == Reject(old(State()), id, seeker, p)
      ensures status == Ok <==> old(OwnRequest(State(), id, seeker))
      ensures status == Ok ==> Blocked(State(), id, p)
    {
      NextKeeps(State(), RejectOp(id, seeker, p));
      if Reject(State(), id, seeker, p).1 == Ok { RejectBlocks(State(), id, seeker, p); }
      if id !in requests { return NotFound; }
      if requests[id].seeker != seeker { return Forbidden; }
      offers := offers - {Offer(id, p)};
      var key := Rejection(RejectedSet(State(), p), 0);
      key := key.(members := key.members + {id});
      key := key.(expireAt := now + REJECTED_TTL_MS);
      rejected := rejected[p := key];
      return Ok;
    }

    method MarkFulfilled(id: RequestId)
      modifies this`requests, this`offers
      ensures State() == CloseAll(old(State()), {id} * old(requests).Keys, Fulfilled)
    {
      if id !in requests {
        CloseNothing(State(), Fulfilled);
        assert {id} * requests.Keys == {};
        return;
      }
      assert {id} * requests.Keys == {id};
      var r := requests[id];
      requests := requests[id := r.(status := Fulfilled)];
      assert requests == WithStatus(old(requests), {id}, Fulfilled);
      DeleteOffers(id);
    }

    // ---- engagements.service.ts ----

    method AcceptOffer(seeker: UserId, id: RequestId, p: UserId, eid: EngagementId) returns (status: Status)
      requires Valid()
      modifies this
      ensures Valid() && (State(), status) == Accept(old(State()), seeker, id, p, eid)
      ensures status == Ok <==> old(AcceptDue(State(), seeker, id, p, eid))
      ensures status == Ok ==>
        OpenOf(State(), seeker) == {} && Unoffered(State(), id) && EngagedWith(State(), id, p) == {eid}
    {
      AcceptKeeps(State(), seeker, id, p, eid);
      AcceptGives(State(), seeker, id, p, eid);
      AcceptAnswers(State(), seeker, id, p, eid);
      if eid in engagements { return IdTaken; }
      if id !in requests { return NotFound; }
      var request := requests[id];
      if request.seeker != seeker { return Forbidden; }
      if request.status != Open || request.expiresAt <= now { return BadRequest(NotOpen); }
      if Offer(id, p) !in offers { return BadRequest(NoOffer); }
      if SeekerActive(State(), seeker) { return BadRequest(SeekerHasActive); }
      if ProviderActive(State(), p) { return BadRequest(ProviderHasActive); }
      engagements := engagements[eid := Engagement(id, seeker, p, Active, None)];
      assert {id} * requests.Keys == {id};
      MarkFulfilled(id);
      return Ok;
    }

    method CompleteJob(eid: EngagementId, u: UserId) returns (status: Status)
      requires Valid()
      modifies this
      ensures Valid() && (State(), status) == Complete(old(State()), eid, u)
      ensures status == Ok <==> old(OwnJob(State(), eid, u))
      ensures status == Ok ==> eid in engagements && engagements[eid].status == Completed
      ensures status == Ok && old(engagements[eid].status) == Active ==> !SeekerActive(State(), u)
    {
      CompleteKeeps(State(), eid, u);
      CompleteGives(State(), eid, u);
      if eid !in engagements { return NotFound; }
      var e := engagements[eid];
      if e.seeker != u { return Forbidden; }
      if e.status == Active {
        e := e.(status := Completed);
        e := e.(completedAt := Some(now));
        engagements := engagements[eid := e];
      }
      return Ok;
    }

    // ---- reviews.service.ts ----

    method CreateReview(seeker: UserId, eid: EngagementId, rating: Rating) returns (status: Status)
      requires Valid()
      modifies this
      ensures Valid() && (State(), status) == PostReview(old(State()), seeker, eid, rating)
      ensures status == Ok <==> old(ReviewDue(State(), seeker, eid))
      ensures status == Ok ==> Reviewed(State(), eid) && !old(Reviewed(State(), eid))
    {
      ReviewKeeps(State(), seeker, eid, rating);
      ReviewGives(State(), seeker, eid, rating);
      ReviewAnswers(State(), seeker, eid, rating);
      if eid !in engagements { return NotFound; }
      var eng := engagements[eid];
      if eng.seeker != seeker { return Forbidden; }
      if eng.status != Completed { return BadRequest(NotCompleted); }
      if Reviewed(State(), eid) { return BadRequest(AlreadyReviewed); }
      reviews := reviews + [Review(eid, seeker, eng.provider, rating)];
      if eng.provider in profiles {
        var profile := profiles[eng.provider];
        profile := profile.(ratingCount := profile.ratingCount + 1);
        profile := profile.(ratingSum := profile.ratingSum + rating);
        profiles := profiles[eng.provider := profile];
      }
      return Ok;
    }
  }
}
