/** The tables behind requests.service.ts, engagements.service.ts and
  * reviews.service.ts, and what one call of each service method does to them.
  *
  * Every service method is one atomic step. Times are milliseconds on one clock.
  * Row ids are drawn by the caller of a step (the database's uuid default); a draw
  * that is already taken is refused and changes nothing. */
module Marketplace {
  import opened Options
  import Keyset

  type UserId = nat
  type SkillId = nat
  type RequestId = nat
  type EngagementId = nat
  type Place = nat

  const REQUEST_TTL_MS: nat := 30 * 60 * 1000
  const REJECTED_TTL_MS: nat := 7200 * 1000
  const LIST_LIMIT: nat := 100

  /** Distance on the map, in metres; nothing but its values is used. */
  type Geo = (Place, Place) -> nat

  type Rating = r: int | 1 <= r <= 5 witness 5

  datatype RequestStatus = Open | Cancelled | Expired | Fulfilled
  datatype Draft = Draft(skill: SkillId, description: string, place: Place, radius: nat)
  datatype Request = Request(seeker: UserId, draft: Draft, status: RequestStatus, createdAt: nat, expiresAt: nat)

  datatype Offer = Offer(request: RequestId, provider: UserId)

  datatype EngagementStatus = Active | Completed
  datatype Engagement = Engagement(request: RequestId, seeker: UserId, provider: UserId,
                                   status: EngagementStatus, completedAt: Option<nat>)

  datatype Review = Review(engagement: EngagementId, seeker: UserId, provider: UserId, rating: Rating)

  /** What discovery needs of a provider: the profile row and the user's role. */
  datatype Listing = Listing(approved: bool, available: bool, hasRole: bool, place: Option<Place>, skills: set<SkillId>)
  datatype Profile = Profile(listing: Listing, ratingCount: nat, ratingSum: nat)

  /** The Redis set `req-rejected:<provider>`, with the time its key expires. */
  datatype Rejection = Rejection(members: set<RequestId>, expireAt: nat)

  datatype Db = Db(
    now: nat,
    skills: set<SkillId>,
    requests: map<RequestId, Request>,
    offers: map<Offer, nat>,  // value: createdAt
    engagements: map<EngagementId, Engagement>,
    rejected: map<UserId, Rejection>,
    reviews: seq<Review>,
    profiles: map<UserId, Profile>)

  datatype Reason = SeekerBusy | NotOpen | WasRejected | NoOffer | SeekerHasActive | ProviderHasActive
                  | NotCompleted | AlreadyReviewed
  datatype Status = Ok | NotFound | Forbidden | BadRequest(reason: Reason) | IdTaken

  // ---- queries ----

  predicate IsLive(db: Db, r: Request) {
    r.status == Open && r.expiresAt > db.now
  }

  function OpenOf(db: Db, seeker: UserId): set<RequestId> {
    set id | id in db.requests && db.requests[id].seeker == seeker && db.requests[id].status == Open
  }

  function DueIds(db: Db): set<RequestId> {
    set id | id in db.requests && db.requests[id].status == Open && db.requests[id].expiresAt <= db.now
  }

  predicate SeekerActive(db: Db, u: UserId) {
    exists e :: e in db.engagements && db.engagements[e].seeker == u && db.engagements[e].status == Active
  }

  predicate ProviderActive(db: Db, u: UserId) {
    exists e :: e in db.engagements && db.engagements[e].provider == u && db.engagements[e].status == Active
  }

  /** SMEMBERS: an expired key reads as the empty set. */
  function RejectedSet(db: Db, p: UserId): set<RequestId> {
    if p in db.rejected && db.now < db.rejected[p].expireAt then db.rejected[p].members else {}
  }

  predicate Reviewed(db: Db, e: EngagementId) {
    exists i :: 0 <= i < |db.reviews| && db.reviews[i].engagement == e
  }

  // ---- commands ----

  function WithStatus(requests: map<RequestId, Request>, ids: set<RequestId>, status: RequestStatus)
    : map<RequestId, Request>
  {
    map id | id in requests :: if id in ids then requests[id].(status := status) else requests[id]
  }

  function WithoutOffers(offers: map<Offer, nat>, ids: set<RequestId>): map<Offer, nat> {
    map o | o in offers && o.request !in ids :: offers[o]
  }

  /** Rows leave OPEN together with their offers: sweep, supersede, cancel, accept. */
  function CloseAll(db: Db, ids: set<RequestId>, status: RequestStatus): Db {
    db.(requests := WithStatus(db.requests, ids, status), offers := WithoutOffers(db.offers, ids))
  }

  function Sweep(db: Db): Db {
    CloseAll(db, DueIds(db), Expired)
  }

  function Create(db: Db, seeker: UserId, id: RequestId, draft: Draft): (Db, Status) {
    if id in db.requests then (db, IdTaken)
    else if draft.skill !in db.skills then (db, NotFound)
    else if SeekerActive(db, seeker) then (db, BadRequest(SeekerBusy))
    else
      var superseded := CloseAll(db, OpenOf(db, seeker), Cancelled);
      var row := Request(seeker, draft, Open, db.now, db.now + REQUEST_TTL_MS);
      (superseded.(requests := superseded.requests[id := row]), Ok)
  }

  function Cancel(db: Db, id: RequestId, seeker: UserId): (Db, Status) {
    if id !in db.requests then (db, NotFound)
    else if db.requests[id].seeker != seeker then (db, Forbidden)
    else if db.requests[id].status == Open then (CloseAll(db, {id}, Cancelled), Ok)
    else (db, Ok)
  }

  function Respond(db: Db, id: RequestId, p: UserId): (Db, Status) {
    if id !in db.requests then (db, NotFound)
    else if !IsLive(db, db.requests[id]) then (db, BadRequest(NotOpen))
    else if id in RejectedSet(db, p) then (db, BadRequest(WasRejected))
    else if Offer(id, p) in db.offers then (db, Ok)
    else (db.(offers := db.offers[Offer(id, p) := db.now]), Ok)
  }

  function Withdraw(db: Db, id: RequestId, p: UserId): (Db, Status) {
    (db.(offers := db.offers - {Offer(id, p)}), Ok)
  }

  function Reject(db: Db, id: RequestId, seeker: UserId, p: UserId): (Db, Status) {
    if id !in db.requests then (db, NotFound)
    else if db.requests[id].seeker != seeker then (db, Forbidden)
    else
      (db.(offers := db.offers - {Offer(id, p)},
           rejected := db.rejected[p := Rejection(RejectedSet(db, p) + {id}, db.now + REJECTED_TTL_MS)]), Ok)
  }

  function Accept(db: Db, seeker: UserId, id: RequestId, p: UserId, eid: EngagementId): (Db, Status) {
    if eid in db.engagements then (db, IdTaken)
    else if id !in db.requests then (db, NotFound)
    else if db.requests[id].seeker != seeker then (db, Forbidden)
    else if !IsLive(db, db.requests[id]) then (db, BadRequest(NotOpen))
    else if Offer(id, p) !in db.offers then (db, BadRequest(NoOffer))
    else if SeekerActive(db, seeker) then (db, BadRequest(SeekerHasActive))
    else if ProviderActive(db, p) then (db, BadRequest(ProviderHasActive))
    else
      var saved := db.(engagements := db.engagements[eid := Engagement(id, seeker, p, Active, None)]);
      (CloseAll(saved, {id}, Fulfilled), Ok)
  }

  function Complete(db: Db, eid: EngagementId, u: UserId): (Db, Status) {
    if eid !in db.engagements then (db, NotFound)
    else if db.engagements[eid].seeker != u then (db, Forbidden)
    else if db.engagements[eid].status == Active then
      var done := db.engagements[eid].(status := Completed, completedAt := Some(db.now));
      (db.(engagements := db.engagements[eid := done]), Ok)
    else (db, Ok)
  }

  function Rated(p: Profile, rating: Rating): Profile {
    p.(ratingCount := p.ratingCount + 1, ratingSum := p.ratingSum + rating)
  }

  function PostReview(db: Db, seeker: UserId, eid: EngagementId, rating: Rating): (Db, Status) {
    if eid !in db.engagements then (db, NotFound)
    else if db.engagements[eid].seeker != seeker then (db, Forbidden)
    else if db.engagements[eid].status != Completed then (db, BadRequest(NotCompleted))
    else if Reviewed(db, eid) then (db, BadRequest(AlreadyReviewed))
    else
      var p := db.engagements[eid].provider;
      (db.(reviews := db.reviews + [Review(eid, seeker, p, rating)],
           profiles := if p in db.profiles then db.profiles[p := Rated(db.profiles[p], rating)] else db.profiles), Ok)
  }

  /** Any other service writing the profile: a first draft starts with no ratings. */
  function SetListing(db: Db, p: UserId, listing: Listing): (Db, Status) {
    var row := if p in db.profiles then db.profiles[p].(listing := listing) else Profile(listing, 0, 0);
    (db.(profiles := db.profiles[p := row]), Ok)
  }

  // ---- what the callers are shown ----

  /** Math.round((sum / count) * 10) / 10, or null. */
  function Average(count: nat, sum: nat): Option<real> {
    if count == 0 then None
    else Some((10.0 * (sum as real / count as real) + 0.5).Floor as real / 10.0)
  }

  /** The smallest distances first, at most LIST_LIMIT of them. */
  ghost function Nearest(distances: set<Keyset.Row>): (rows: seq<Keyset.Row>)
    ensures |rows| <= LIST_LIMIT && forall r :: r in rows ==> r in distances
  {
    var far := Keyset.SortDesc(distances);
    var near := seq(|far|, i requires 0 <= i < |far| => far[|far| - 1 - i]);
    assert forall i :: 0 <= i < |near| ==> near[i] in far;
    if |near| > LIST_LIMIT then near[..LIST_LIMIT] else near
  }

  /** matchingProviderUserIds: who is told about a new (or removed) request. */
  function Matching(geo: Geo, db: Db, draft: Draft): set<UserId> {
    set p | p in db.profiles && Told(geo, db.profiles[p].listing, draft) && !ProviderActive(db, p)
  }

  /** The WHERE clauses of that query over one profile and its user. earth_box only
    * prefilters: it contains the ball that the last clause cuts out. */
  predicate Told(geo: Geo, p: Listing, draft: Draft) {
    && p.approved && p.available && p.hasRole && p.place.Some?
    && draft.skill in p.skills && geo(draft.place, p.place.value) <= draft.radius
  }

  /** findNearby, as `create` calls it: whom the seeker may be shown, locked or not. */
  function Nearby(geo: Geo, db: Db, draft: Draft): set<UserId> {
    set p | p in db.profiles && Told(geo, db.profiles[p].listing, draft)
  }

  /** The requests `incoming` selects for p, before sorting and cutting: early returns for
    * a profile that cannot serve anything, then the query over the requests. */
  function Candidates(geo: Geo, db: Db, p: UserId): map<RequestId, Request> {
    if p !in db.profiles then map[] else
      var profile := db.profiles[p].listing;
      if !profile.approved || !profile.available || profile.place.None? then map[]
      else if profile.skills == {} then map[]
      else if ProviderActive(db, p) then map[]
      else map id | id in db.requests && Selected(geo, db.now, profile.skills, profile.place.value, db.requests[id])
             :: db.requests[id]
  }

  predicate Selected(geo: Geo, now: nat, skills: set<SkillId>, at: Place, r: Request) {
    r.status == Open && r.expiresAt > now && r.draft.skill in skills && geo(r.draft.place, at) <= r.draft.radius
  }

  datatype FeedItem = FeedItem(id: RequestId, request: Request, distance: nat, hasResponded: bool)

  ghost function FeedOf(rows: seq<Keyset.Row>, found: map<RequestId, Request>, rejected: set<RequestId>,
                        offered: set<RequestId>): seq<FeedItem>
    requires forall r :: r in rows ==> r.id in found
  {
    if rows == [] then []
    else
      (if rows[0].id in rejected then []
       else [FeedItem(rows[0].id, found[rows[0].id], rows[0].t, rows[0].id in offered)])
      + FeedOf(rows[1..], found, rejected, offered)
  }

  /** incoming: nearest LIST_LIMIT candidates, then without those p was rejected from. */
  ghost function Incoming(geo: Geo, db: Db, p: UserId): seq<FeedItem> {
    var found := Candidates(geo, db, p);
    if p !in db.profiles || db.profiles[p].listing.place.None? then [] else
      var at := db.profiles[p].listing.place.value;
      var rows := Nearest(set id | id in found :: Keyset.Row(geo(found[id].draft.place, at), id));
      FeedOf(rows, found, RejectedSet(db, p), set id | id in found && Offer(id, p) in db.offers)
  }

  datatype Responder = Responder(offeredAt: nat, distance: Option<nat>, rating: Option<real>, reviewCount: nat)

  function ResponderOf(geo: Geo, db: Db, place: Place, p: UserId, offeredAt: nat): Responder {
    if p in db.profiles && db.profiles[p].listing.place.Some? then
      var row := db.profiles[p];
      var rating := Average(row.ratingCount, row.ratingSum);
      Responder(offeredAt, Some(geo(place, row.listing.place.value)), rating, row.ratingCount)
    else Responder(offeredAt, None, None, 0)
  }

  datatype MyRequest = MyRequest(id: RequestId, request: Request, responders: map<Offer, Responder>)

  /** findOne ... order by createdAt DESC: some open row no other open row is newer than. */
  ghost predicate IsLatest(db: Db, ids: set<RequestId>, id: RequestId) {
    ids <= db.requests.Keys && id in ids
    && forall j :: j in ids ==> db.requests[j].createdAt <= db.requests[id].createdAt
  }

  ghost function Mine(geo: Geo, db: Db, seeker: UserId): Option<MyRequest> {
    if exists id :: IsLatest(db, OpenOf(db, seeker), id) then
      var id :| IsLatest(db, OpenOf(db, seeker), id);
      var r := db.requests[id];
      if r.expiresAt <= db.now then None
      else Some(MyRequest(id, r, map o | o in db.offers && o.request == id
                                   :: ResponderOf(geo, db, r.draft.place, o.provider, db.offers[o])))
    else None
  }

  // ---- runs ----

  datatype Op =
    | Tick(ms: nat)
    | SweepOp
    | CreateOp(seeker: UserId, id: RequestId, draft: Draft)
    | CancelOp(id: RequestId, seeker: UserId)
    | RespondOp(id: RequestId, provider: UserId)
    | WithdrawOp(id: RequestId, provider: UserId)
    | RejectOp(id: RequestId, seeker: UserId, provider: UserId)
    | AcceptOp(seeker: UserId, id: RequestId, provider: UserId, eid: EngagementId)
    | CompleteOp(eid: EngagementId, user: UserId)
    | ReviewOp(seeker: UserId, eid: EngagementId, rating: Rating)
    | ListingOp(provider: UserId, listing: Listing)
    | MineOp(seeker: UserId)
    | IncomingOp(provider: UserId)

  datatype View =
    | Nothing
    | Broadcast(request: Request, notified: set<UserId>, nearby: set<UserId>)
    | Own(mine: Option<MyRequest>)
    | Feed(items: seq<FeedItem>)
  datatype Reply = Reply(status: Status, view: View)

  function Write(db: Db, op: Op): (Db, Status) {
    match op
    case Tick(ms) => (db.(now := db.now + ms), Ok)
    case SweepOp => (Sweep(db), Ok)
    case CreateOp(s, id, d) => Create(db, s, id, d)
    case CancelOp(id, s) => Cancel(db, id, s)
    case RespondOp(id, p) => Respond(db, id, p)
    case WithdrawOp(id, p) => Withdraw(db, id, p)
    case RejectOp(id, s, p) => Reject(db, id, s, p)
    case AcceptOp(s, id, p, e) => Accept(db, s, id, p, e)
    case CompleteOp(e, u) => Complete(db, e, u)
    case ReviewOp(s, e, r) => PostReview(db, s, e, r)
    case ListingOp(p, l) => SetListing(db, p, l)
    case MineOp(_) => (db, Ok)
    case IncomingOp(_) => (db, Ok)
  }

  ghost function Shown(geo: Geo, after: Db, op: Op, status: Status): View {
    match op
    case CreateOp(_, id, draft) =>
      if status == Ok && id in after.requests
      then Broadcast(after.requests[id], Matching(geo, after, draft), Nearby(geo, after, draft)) else Nothing
    case MineOp(s) => Own(Mine(geo, after, s))
    case IncomingOp(p) => Feed(Incoming(geo, after, p))
    case _ => Nothing
  }

  function Next(db: Db, op: Op): Db {
    Write(db, op).0
  }

  ghost function Answer(geo: Geo, db: Db, op: Op): Reply {
    Reply(Write(db, op).1, Shown(geo, Next(db, op), op, Write(db, op).1))
  }

  ghost function Run(db: Db, ops: seq<Op>): Db
    decreases |ops|
  {
    if ops == [] then db else Run(Next(db, ops[0]), ops[1..])
  }

  /** The replies of everything but the sweeps, which answer nobody. */
  ghost function Replies(geo: Geo, db: Db, ops: seq<Op>): seq<Reply>
    decreases |ops|
  {
    if ops == [] then []
    else (if ops[0].SweepOp? then [] else [Answer(geo, db, ops[0])]) + Replies(geo, Next(db, ops[0]), ops[1..])
  }
}
