/** Lazy expiry equals swept expiry. The sweep turns overdue OPEN rows into EXPIRED
  * every 30 seconds; every other call checks `expiresAt` itself. No caller can tell
  * when, or whether, the sweep has run. */
module Expiry {
  import opened Options
  import opened Marketplace
  import opened Lifecycle
  import Keyset

  /** No call will act on this request again. */
  predicate Gone(r: Request, now: nat) {
    r.status == Cancelled || r.status == Expired || (r.status == Open && r.expiresAt <= now)
  }

  predicate Alike(x: Request, y: Request, now: nat) {
    x == y || (x.(status := y.status) == y && Gone(x, now) && Gone(y, now))
  }

  ghost predicate SameRequests(a: Requests, b: Requests, now: nat) {
    a.Keys == b.Keys && forall r :: r in a ==> Alike(a[r], b[r], now)
  }

  /** Offers agree wherever they can still matter. */
  ghost predicate SameOffers(rs: Requests, a: map<Offer, nat>, b: map<Offer, nat>, now: nat) {
    forall o: Offer :: o.request in rs && !Gone(rs[o.request], now) ==>
      (o in a <==> o in b) && (o in a ==> a[o] == b[o])
  }

  ghost predicate Similar(a: Db, b: Db) {
    && a.now == b.now && a.skills == b.skills && a.engagements == b.engagements && a.rejected == b.rejected
    && a.reviews == b.reviews && a.profiles == b.profiles
    && SameRequests(a.requests, b.requests, a.now)
    && SameOffers(a.requests, a.offers, b.offers, a.now)
  }

  // ---- a sweep on one side goes unnoticed ----

  lemma SweepUnnoticed(a: Db, b: Db)
    requires Similar(a, b)
    ensures Similar(Sweep(a), b)
  {
  }

  // ---- every call keeps the two sides similar ----

  lemma CloseBoth(a: Db, b: Db, ids: set<RequestId>, ids': set<RequestId>, status: RequestStatus)
    requires Similar(a, b) && (status == Cancelled || status == Expired)
    requires forall r :: r in ids ==> r in a.requests && a.requests[r].status == Open
    requires forall r :: r in ids' ==> r in b.requests && b.requests[r].status == Open
    requires forall r :: r in a.requests && IsLive(a, a.requests[r]) ==> (r in ids <==> r in ids')
    ensures Similar(CloseAll(a, ids, status), CloseAll(b, ids', status))
  {
    var rs, rs' := WithStatus(a.requests, ids, status), WithStatus(b.requests, ids', status);
    forall r | r in rs ensures Alike(rs[r], rs'[r], a.now) {
      assert Alike(a.requests[r], b.requests[r], a.now);
    }
  }

  lemma CreateStatusBoth(a: Db, b: Db, seeker: UserId, id: RequestId, draft: Draft)
    requires Similar(a, b)
    ensures Create(a, seeker, id, draft).1 == Create(b, seeker, id, draft).1
  {
    assert SeekerActive(a, seeker) == SeekerActive(b, seeker);
  }

  lemma SupersedeBoth(a: Db, b: Db, seeker: UserId)
    requires Similar(a, b)
    ensures Similar(CloseAll(a, OpenOf(a, seeker), Cancelled), CloseAll(b, OpenOf(b, seeker), Cancelled))
  {
    forall r | r in a.requests && IsLive(a, a.requests[r]) ensures r in OpenOf(a, seeker) <==> r in OpenOf(b, seeker) {
      assert Alike(a.requests[r], b.requests[r], a.now);
    }
    CloseBoth(a, b, OpenOf(a, seeker), OpenOf(b, seeker), Cancelled);
  }

  lemma OffersKnown(db: Db, ids: set<RequestId>)
    requires OffersOnOpen(db.requests, db.offers)
    ensures forall o :: o in CloseAll(db, ids, Cancelled).offers ==> o.request in CloseAll(db, ids, Cancelled).requests
  {
  }

  lemma CreateBoth(a: Db, b: Db, seeker: UserId, id: RequestId, draft: Draft)
    requires Similar(a, b) && OffersOnOpen(a.requests, a.offers) && OffersOnOpen(b.requests, b.offers)
    ensures Create(a, seeker, id, draft).1 == Create(b, seeker, id, draft).1
    ensures Similar(Create(a, seeker, id, draft).0, Create(b, seeker, id, draft).0)
  {
    CreateStatusBoth(a, b, seeker, id, draft);
    if Create(a, seeker, id, draft).1 == Ok {
      var row := Request(seeker, draft, Open, a.now, a.now + REQUEST_TTL_MS);
      var mid, mid' := CloseAll(a, OpenOf(a, seeker), Cancelled), CloseAll(b, OpenOf(b, seeker), Cancelled);
      assert Create(a, seeker, id, draft).0 == mid.(requests := mid.requests[id := row]);
      assert Create(b, seeker, id, draft).0 == mid'.(requests := mid'.requests[id := row]);
      SupersedeBoth(a, b, seeker);
      OffersKnown(a, OpenOf(a, seeker));
      OffersKnown(b, OpenOf(b, seeker));
      NewRowBoth(mid, mid', id, row);
    }
  }

  lemma NewRowBoth(a: Db, b: Db, id: RequestId, row: Request)
    requires Similar(a, b) && id !in a.requests
    requires forall o :: o in a.offers ==> o.request in a.requests
    requires forall o :: o in b.offers ==> o.request in b.requests
    ensures Similar(a.(requests := a.requests[id := row]), b.(requests := b.requests[id := row]))
  {
  }

  lemma CancelBoth(a: Db, b: Db, id: RequestId, seeker: UserId)
    requires Similar(a, b)
    ensures Cancel(a, id, seeker).1 == Cancel(b, id, seeker).1
    ensures Similar(Cancel(a, id, seeker).0, Cancel(b, id, seeker).0)
  {
    if id in a.requests {
      assert Alike(a.requests[id], b.requests[id], a.now);
      var ids := if a.requests[id].status == Open then {id} else {};
      var ids' := if b.requests[id].status == Open then {id} else {};
      CloseBoth(a, b, ids, ids', Cancelled);
      CloseNone(a);
      CloseNone(b);
    }
  }

  lemma CloseNone(db: Db)
    ensures CloseAll(db, {}, Cancelled) == db
  {
    assert WithStatus(db.requests, {}, Cancelled) == db.requests;
    assert WithoutOffers(db.offers, {}) == db.offers;
  }

  lemma AcceptBoth(a: Db, b: Db, seeker: UserId, id: RequestId, p: UserId, eid: EngagementId)
    requires Similar(a, b)
    ensures Accept(a, seeker, id, p, eid).1 == Accept(b, seeker, id, p, eid).1
    ensures Similar(Accept(a, seeker, id, p, eid).0, Accept(b, seeker, id, p, eid).0)
  {
    assert SeekerActive(a, seeker) == SeekerActive(b, seeker) && ProviderActive(a, p) == ProviderActive(b, p);
    if Accept(a, seeker, id, p, eid).1 == Ok {
      var rs, rs' := WithStatus(a.requests, {id}, Fulfilled), WithStatus(b.requests, {id}, Fulfilled);
      forall r | r in rs ensures Alike(rs[r], rs'[r], a.now) {
        assert Alike(a.requests[r], b.requests[r], a.now);
      }
    }
  }

  lemma RespondBoth(a: Db, b: Db, id: RequestId, p: UserId)
    requires Similar(a, b)
    ensures Respond(a, id, p).1 == Respond(b, id, p).1
    ensures Similar(Respond(a, id, p).0, Respond(b, id, p).0)
  {
    if id in a.requests { assert Alike(a.requests[id], b.requests[id], a.now); }
  }

  lemma RejectBoth(a: Db, b: Db, id: RequestId, seeker: UserId, p: UserId)
    requires Similar(a, b)
    ensures Reject(a, id, seeker, p).1 == Reject(b, id, seeker, p).1
    ensures Similar(Reject(a, id, seeker, p).0, Reject(b, id, seeker, p).0)
  {
    if id in a.requests { assert Alike(a.requests[id], b.requests[id], a.now); }
  }

  lemma SweepBoth(a: Db, b: Db)
    requires Similar(a, b)
    ensures Similar(Sweep(a), Sweep(b))
  {
    SweepUnnoticed(a, b);
    SimilarSym(Sweep(a), b);
    SweepUnnoticed(b, Sweep(a));
    SimilarSym(Sweep(b), Sweep(a));
  }

  lemma ReviewBoth(a: Db, b: Db, seeker: UserId, eid: EngagementId, rating: Rating)
    requires Similar(a, b)
    ensures PostReview(a, seeker, eid, rating).1 == PostReview(b, seeker, eid, rating).1
    ensures Similar(PostReview(a, seeker, eid, rating).0, PostReview(b, seeker, eid, rating).0)
  {
    assert Reviewed(a, eid) == Reviewed(b, eid);
  }

  lemma TickBoth(a: Db, b: Db, ms: nat)
    requires Similar(a, b)
    ensures Similar(a.(now := a.now + ms), b.(now := b.now + ms))
  {
  }

  /** Calls that neither read nor write a request row. */
  lemma QuietBoth(a: Db, b: Db, op: Op)
    requires Similar(a, b)
    requires op.WithdrawOp? || op.CompleteOp? || op.ListingOp? || op.MineOp? || op.IncomingOp?
    ensures Write(a, op).1 == Write(b, op).1
    ensures Similar(Next(a, op), Next(b, op))
  {
  }

  /** Calls that write request rows. */
  predicate WritesRequests(op: Op) { op.SweepOp? || op.CreateOp? || op.CancelOp? || op.AcceptOp? }

  lemma RequestsBoth(a: Db, b: Db, op: Op)
    requires Similar(a, b) && Inv(a) && Inv(b) && WritesRequests(op)
    ensures Write(a, op).1 == Write(b, op).1
    ensures Similar(Next(a, op), Next(b, op))
  {
    match op
    case SweepOp => SweepBoth(a, b);
    case CreateOp(s, id, d) => CreateBoth(a, b, s, id, d);
    case CancelOp(id, s) => CancelBoth(a, b, id, s);
    case AcceptOp(s, id, p, e) => AcceptBoth(a, b, s, id, p, e);
  }

  /** Calls that look at a request row, or at the clock, and write elsewhere. */
  lemma OthersBoth(a: Db, b: Db, op: Op)
    requires Similar(a, b) && (op.Tick? || op.RespondOp? || op.RejectOp? || op.ReviewOp?)
    ensures Write(a, op).1 == Write(b, op).1
    ensures Similar(Next(a, op), Next(b, op))
  {
    match op
    case Tick(ms) => TickBoth(a, b, ms);
    case RespondOp(id, p) => RespondBoth(a, b, id, p);
    case RejectOp(id, s, p) => RejectBoth(a, b, id, s, p);
    case ReviewOp(s, e, r) => ReviewBoth(a, b, s, e, r);
  }

  lemma WriteBoth(a: Db, b: Db, op: Op)
    requires Similar(a, b) && Inv(a) && Inv(b)
    ensures Write(a, op).1 == Write(b, op).1
    ensures Similar(Next(a, op), Next(b, op))
  {
    if WritesRequests(op) {
      RequestsBoth(a, b, op);
    } else if op.Tick? || op.RespondOp? || op.RejectOp? || op.ReviewOp? {
      OthersBoth(a, b, op);
    } else {
      QuietBoth(a, b, op);
    }
  }

  lemma SimilarSym(a: Db, b: Db)
    requires Similar(a, b)
    ensures Similar(b, a)
  {
  }

  // ---- and shows the same ----

  lemma ListingsBoth(geo: Geo, a: Db, b: Db, draft: Draft)
    requires a.profiles == b.profiles && a.engagements == b.engagements
    ensures Matching(geo, a, draft) == Matching(geo, b, draft)
    ensures Nearby(geo, a, draft) == Nearby(geo, b, draft)
  {
    assert forall p :: ProviderActive(a, p) == ProviderActive(b, p);
  }

  lemma CandidatesBoth(geo: Geo, a: Db, b: Db, p: UserId)
    requires Similar(a, b)
    ensures Candidates(geo, a, p) == Candidates(geo, b, p)
  {
    assert ProviderActive(a, p) == ProviderActive(b, p);
    forall id | id in a.requests
      ensures IsLive(a, a.requests[id]) == IsLive(b, b.requests[id])
      ensures IsLive(a, a.requests[id]) ==> a.requests[id] == b.requests[id]
    {
      assert Alike(a.requests[id], b.requests[id], a.now);
    }
  }

  lemma IncomingBoth(geo: Geo, a: Db, b: Db, p: UserId)
    requires Similar(a, b)
    ensures Incoming(geo, a, p) == Incoming(geo, b, p)
  {
    CandidatesBoth(geo, a, b, p);
    var found := Candidates(geo, a, p);
    assert (set id | id in found && Offer(id, p) in a.offers) == (set id | id in found && Offer(id, p) in b.offers);
  }

  /** With one OPEN row per seeker, whatever `findOne` picks is that row. */
  lemma MineIsTheLiveOne(db: Db, seeker: UserId, id: RequestId)
    requires OneOpen(db.requests) && id in OpenOf(db, seeker)
    ensures IsLatest(db, OpenOf(db, seeker), id)
    ensures forall j :: IsLatest(db, OpenOf(db, seeker), j) ==> j == id
  {
  }

  lemma MineNeedsLive(geo: Geo, db: Db, seeker: UserId)
    requires OneOpen(db.requests)
    ensures Mine(geo, db, seeker).Some? <==> exists id :: id in OpenOf(db, seeker) && IsLive(db, db.requests[id])
    ensures Mine(geo, db, seeker).Some? ==>
              var m := Mine(geo, db, seeker).value;
              && m.id in OpenOf(db, seeker) && IsLive(db, db.requests[m.id]) && m.request == db.requests[m.id]
              && m.responders == RespondersOf(geo, db, m.id)
  {
    if id :| id in OpenOf(db, seeker) { MineIsTheLiveOne(db, seeker, id); }
  }

  function RespondersOf(geo: Geo, db: Db, id: RequestId): map<Offer, Responder>
    requires id in db.requests
  {
    map o | o in db.offers && o.request == id
      :: ResponderOf(geo, db, db.requests[id].draft.place, o.provider, db.offers[o])
  }

  lemma RespondersBoth(geo: Geo, a: Db, b: Db, id: RequestId)
    requires Similar(a, b) && id in a.requests && IsLive(a, a.requests[id])
    ensures RespondersOf(geo, a, id) == RespondersOf(geo, b, id)
  {
    assert Alike(a.requests[id], b.requests[id], a.now);
  }

  lemma MineBoth(geo: Geo, a: Db, b: Db, seeker: UserId)
    requires Similar(a, b) && Inv(a) && Inv(b)
    ensures Mine(geo, a, seeker) == Mine(geo, b, seeker)
  {
    MineNeedsLive(geo, a, seeker);
    MineNeedsLive(geo, b, seeker);
    forall id | id in a.requests
      ensures IsLive(a, a.requests[id]) == IsLive(b, b.requests[id])
      ensures IsLive(a, a.requests[id]) ==> a.requests[id] == b.requests[id]
    {
      assert Alike(a.requests[id], b.requests[id], a.now);
    }
    if id :| id in OpenOf(a, seeker) && IsLive(a, a.requests[id]) {
      assert id in OpenOf(b, seeker) && IsLive(b, b.requests[id]);
      MineIsTheLiveOne(a, seeker, id);
      MineIsTheLiveOne(b, seeker, id);
      RespondersBoth(geo, a, b, id);
    } else {
      assert forall id :: id in OpenOf(b, seeker) && IsLive(b, b.requests[id]) ==> id in OpenOf(a, seeker);
    }
  }

  lemma CreateAnswerBoth(geo: Geo, a: Db, b: Db, op: Op)
    requires Similar(a, b) && Inv(a) && Inv(b) && op.CreateOp?
    ensures Answer(geo, a, op) == Answer(geo, b, op)
  {
    CreateBoth(a, b, op.seeker, op.id, op.draft);
    ListingsBoth(geo, Next(a, op), Next(b, op), op.draft);
  }

  lemma QuietAnswerBoth(geo: Geo, a: Db, b: Db, op: Op)
    requires Similar(a, b) && Inv(a) && Inv(b) && !op.CreateOp? && !op.MineOp? && !op.IncomingOp?
    ensures Answer(geo, a, op) == Answer(geo, b, op)
  {
    WriteBoth(a, b, op);
    assert forall after, status :: Shown(geo, after, op, status) == Nothing;
  }

  lemma AnswerBoth(geo: Geo, a: Db, b: Db, op: Op)
    requires Similar(a, b) && Inv(a) && Inv(b)
    ensures Answer(geo, a, op) == Answer(geo, b, op)
  {
    match op
    case CreateOp(_, _, _) => CreateAnswerBoth(geo, a, b, op);
    case MineOp(s) => MineBoth(geo, a, b, s);
    case IncomingOp(p) => IncomingBoth(geo, a, b, p);
    case _ => QuietAnswerBoth(geo, a, b, op);
  }

  // ---- whole runs ----

  ghost function WithoutSweeps(ops: seq<Op>): seq<Op> {
    if ops == [] then [] else (if ops[0].SweepOp? then [] else [ops[0]]) + WithoutSweeps(ops[1..])
  }

  lemma {:induction false} Lockstep(geo: Geo, a: Db, b: Db, ops: seq<Op>)
    requires Similar(a, b) && Inv(a) && Inv(b)
    ensures Replies(geo, a, ops) == Replies(geo, b, WithoutSweeps(ops))
    decreases |ops|
  {
    if ops != [] {
      var op, rest := ops[0], WithoutSweeps(ops[1..]);
      NextKeeps(a, op);
      if op.SweepOp? {
        SweepUnnoticed(a, b);
        Lockstep(geo, Sweep(a), b, ops[1..]);
        assert [] + rest == rest;
      } else {
        NextKeeps(b, op);
        WriteBoth(a, b, op);
        AnswerBoth(geo, a, b, op);
        Lockstep(geo, Next(a, op), Next(b, op), ops[1..]);
        assert ([op] + rest)[1..] == rest;
      }
    }
  }

  /** In any run, deleting every sweep changes no reply; hence two runs that differ only
    * in when the sweep ran answer every caller the same. */
  lemma SweepsAreInvisible(geo: Geo, db: Db, ops: seq<Op>, ops': seq<Op>)
    requires Inv(db) && WithoutSweeps(ops) == WithoutSweeps(ops')
    ensures Replies(geo, db, ops) == Replies(geo, db, WithoutSweeps(ops))
    ensures Replies(geo, db, ops) == Replies(geo, db, ops')
  {
    assert Similar(db, db);
    Lockstep(geo, db, db, ops);
    Lockstep(geo, db, db, ops');
  }
}
