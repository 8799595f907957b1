/** Permanent rejection at the level of awaits: a respond that has passed its rejected
  * check before the rejection is recorded still inserts its offer. */
module RejectRaces {
  import opened Options
  import opened Marketplace
  import opened Lifecycle
  import opened AwaitAccept
  import opened AwaitRaces

  /** A respond of p on r that is past its rejected check and has not inserted yet. */
  predicate Passed(c: Call, r: RequestId, p: UserId) {
    (c.RespondExisting? || c.RespondInsert?) && c.id == r && c.provider == p
  }

  ghost predicate SomePassed(calls: map<nat, Call>, r: RequestId, p: UserId) {
    exists k :: k in calls && Passed(calls[k], r, p)
  }

  /** The key of p names r and lives at least until then. */
  predicate KeyHolds(rejected: map<UserId, Rejection>, r: RequestId, p: UserId, until: nat) {
    p in rejected && r in rejected[p].members && rejected[p].expireAt >= until
  }

  ghost predicate Barred(s: Sys, r: RequestId, p: UserId, until: nat) {
    KeyHolds(s.db.rejected, r, p, until) && Offer(r, p) !in s.db.offers && !SomePassed(s.calls, r, p)
  }

  lemma KeyStays(db: Db, c: Call, pick: RequestId, r: RequestId, p: UserId, until: nat)
    requires KeyHolds(db.rejected, r, p, until) && db.now < until <= db.now + REJECTED_TTL_MS
    ensures KeyHolds(StepCall(db, c, pick).0.rejected, r, p, until)
  {
    if !c.RejectKey? { assert StepCall(db, c, pick).0.rejected == db.rejected; }
  }

  /** While the key lives no respond passes its check. */
  lemma NonePasses(db: Db, c: Call, pick: RequestId, r: RequestId, p: UserId, until: nat)
    requires KeyHolds(db.rejected, r, p, until) && db.now < until && !Passed(c, r, p)
    ensures !Passed(StepCall(db, c, pick).1, r, p)
  {
  }

  lemma TimeStands(db: Db, c: Call, pick: RequestId)
    ensures StepCall(db, c, pick).0.now == db.now
  {
  }

  lemma BarredStep(s: Sys, act: Act, r: RequestId, p: UserId, until: nat)
    requires Barred(s, r, p, until) && s.db.now < until <= s.db.now + REJECTED_TTL_MS
    ensures Barred(Perform(s, act), r, p, until) && s.db.now <= Perform(s, act).db.now
  {
    if act.Step? && act.k in s.calls {
      var c := s.calls[act.k];
      KeyStays(s.db, c, act.pick, r, p, until);
      NonePasses(s.db, c, act.pick, r, p, until);
      OffersOnlyInserted(s.db, c, act.pick);
      TimeStands(s.db, c, act.pick);
      assert Offer(r, p) !in s.db.offers.Keys + if c.RespondInsert? then {Offer(c.id, c.provider)} else {};
    }
    forall k | k in Perform(s, act).calls ensures !Passed(Perform(s, act).calls[k], r, p) {
      assert k in s.calls ==> !Passed(s.calls[k], r, p);
    }
  }

  lemma {:induction false} TimeGrows(s: Sys, acts: seq<Act>)
    ensures s.db.now <= Interleave(s, acts).db.now
    decreases |acts|
  {
    if acts != [] {
      if acts[0].Step? && acts[0].k in s.calls { TimeStands(s.db, s.calls[acts[0].k], acts[0].pick); }
      TimeGrows(Perform(s, acts[0]), acts[1..]);
    }
  }

  lemma {:induction false} BarredRun(s: Sys, acts: seq<Act>, r: RequestId, p: UserId, until: nat)
    requires Barred(s, r, p, until) && until <= s.db.now + REJECTED_TTL_MS
    requires Interleave(s, acts).db.now < until
    ensures Offer(r, p) !in Interleave(s, acts).db.offers
    decreases |acts|
  {
    TimeGrows(s, acts);
    if acts != [] {
      BarredStep(s, acts[0], r, p, until);
      BarredRun(Perform(s, acts[0]), acts[1..], r, p, until);
    }
  }

  lemma PassedInserts(s: Sys, k: nat, r: RequestId, p: UserId) returns (acts: seq<Act>)
    requires k in s.calls && Passed(s.calls[k], r, p) && Offer(r, p) !in s.db.offers
    ensures Offer(r, p) in Interleave(s, acts).db.offers && Interleave(s, acts).db.now == s.db.now
  {
    var t := Step(k, 0);
    var s1 := Perform(s, t);
    assert Interleave(s, [t]) == Interleave(s1, []);
    if s.calls[k].RespondInsert? {
      acts := [t];
    } else {
      assert s1.db == s.db && s1.calls[k] == RespondInsert(r, p);
      assert Interleave(s1, [t]) == Interleave(Perform(s1, t), []);
      assert Interleave(s, [t, t]) == Interleave(s1, [t]);
      acts := [t, t];
    }
  }

  /** Some run has an offer of p on r before the rejection key can expire. */
  ghost predicate OffersBefore(s: Sys, acts: seq<Act>, r: RequestId, p: UserId, until: nat) {
    Interleave(s, acts).db.now < until && Offer(r, p) in Interleave(s, acts).db.offers
  }

  /** Once a rejection is recorded, p can have an offer on r in the lifetime of the key (two
    * hours, of which r itself has at most thirty minutes) if and only if a respond of p on
    * r in flight had passed its check before. */
  lemma OffersDespiteRejectionIff(s: Sys, r: RequestId, p: UserId)
    requires p in s.db.rejected && r in s.db.rejected[p].members && Offer(r, p) !in s.db.offers
    requires s.db.now < s.db.rejected[p].expireAt <= s.db.now + REJECTED_TTL_MS
    ensures (exists acts :: OffersBefore(s, acts, r, p, s.db.rejected[p].expireAt)) <==> SomePassed(s.calls, r, p)
  {
    var until := s.db.rejected[p].expireAt;
    if SomePassed(s.calls, r, p) {
      var k :| k in s.calls && Passed(s.calls[k], r, p);
      var acts := PassedInserts(s, k, r, p);
      assert OffersBefore(s, acts, r, p, until);
    } else {
      forall acts ensures !OffersBefore(s, acts, r, p, until) {
        if Interleave(s, acts).db.now < until { BarredRun(s, acts, r, p, until); }
      }
    }
  }

  // ---- it happens, from empty tables ----

  ghost function Rejected(db: Db, r: RequestId, p: UserId): Db {
    db.(rejected := db.rejected[p := Rejection(RejectedSet(db, p) + {r}, db.now + REJECTED_TTL_MS)])
  }

  /** A respond up to its rejected check, passed. */
  lemma RespondPasses(start: Sys, s: Sys, id: RequestId, p: UserId)
    requires Reaches(start, s) && 1 !in s.calls && id in s.db.requests && IsLive(s.db, s.db.requests[id])
    requires s.db.rejected == map[]
    ensures Reaches(start, Flight(s, 1, RespondExisting(id, p)))
  {
    ReachesOn(start, s, Start(1, RespondFind(id, p)));
    StepOn(start, s, 1, RespondFind(id, p), 0, s.db, RespondRejected(id, p));
    StepOn(start, s, 1, RespondRejected(id, p), 0, s.db, RespondExisting(id, p));
  }

  lemma RejectSteps(db: Db, id: RequestId, seeker: UserId, p: UserId)
    requires db.offers == map[] && id in db.requests && db.requests[id].seeker == seeker
    ensures StepCall(db, RejectFind(id, seeker, p), 0) == (db, RejectDelete(id, p))
    ensures StepCall(db, RejectDelete(id, p), 0) == (db, RejectKey(id, p))
    ensures StepCall(db, RejectKey(id, p), 0) == (Rejected(db, id, p), Done(Replied(Ok)))
  {
    assert db.offers - {Offer(id, p)} == db.offers;
  }

  /** A whole rejection. */
  lemma RejectRuns(start: Sys, s: Sys, id: RequestId, seeker: UserId, p: UserId)
    requires Reaches(start, s) && 2 !in s.calls && s.db.offers == map[]
    requires id in s.db.requests && s.db.requests[id].seeker == seeker
    ensures Reaches(start, Flight(s.(db := Rejected(s.db, id, p)), 2, Done(Replied(Ok))))
  {
    RejectSteps(s.db, id, seeker, p);
    ReachesOn(start, s, Start(2, RejectFind(id, seeker, p)));
    StepOn(start, s, 2, RejectFind(id, seeker, p), 0, s.db, RejectDelete(id, p));
    StepOn(start, s, 2, RejectDelete(id, p), 0, s.db, RejectKey(id, p));
    StepOn(start, s, 2, RejectKey(id, p), 0, Rejected(s.db, id, p), Done(Replied(Ok)));
  }

  function Offered(db: Db, id: RequestId, p: UserId): Db { db.(offers := db.offers[Offer(id, p) := db.now]) }

  /** The respond, its check behind it, goes on. */
  lemma LateOffer(start: Sys, s: Sys, id: RequestId, p: UserId)
    requires Reaches(start, Flight(s, 1, RespondExisting(id, p))) && Offer(id, p) !in s.db.offers
    ensures Reaches(start, Flight(s.(db := Offered(s.db, id, p)), 1, Done(Replied(Ok))))
  {
    StepOn(start, s, 1, RespondExisting(id, p), 0, s.db, RespondInsert(id, p));
    StepOn(start, s, 1, RespondInsert(id, p), 0, Offered(s.db, id, p), Done(Replied(Ok)));
  }

  /** Post, respond past its check, reject, the respond's insert, accept: the rejected
    * provider is engaged while the rejection key still names the request. */
  lemma RejectedIsEngaged(s: Sys, p: Posting, provider: UserId, eid: EngagementId) returns (acts: seq<Act>)
    requires Empty(s) && s.db.offers == map[] && s.db.rejected == map[] && p.draft.skill in s.db.skills
    ensures
      var db := Interleave(s, acts).db;
      && provider in db.rejected && p.id in RejectedSet(db, provider)
      && eid in db.engagements && db.engagements[eid].request == p.id && db.engagements[eid].provider == provider
  {
    var posted, a := Posted(s, p), Accepting(p.seeker, p.id, provider, eid);
    PostRuns(s, p);
    RespondPasses(s, posted, p.id, provider);
    var passed := Flight(posted, 1, RespondExisting(p.id, provider));
    RejectRuns(s, passed, p.id, p.seeker, provider);
    var after := posted.(db := Rejected(posted.db, p.id, provider), calls := posted.calls[2 := Done(Replied(Ok))]);
    var done := Done(Replied(Ok));
    assert Flight(passed.(db := after.db), 2, done) == Flight(after, 1, RespondExisting(p.id, provider)) by {
      assert posted.calls[1 := RespondExisting(p.id, provider)][2 := Done(Replied(Ok))]
          == posted.calls[2 := Done(Replied(Ok))][1 := RespondExisting(p.id, provider)];
    }
    LateOffer(s, after, p.id, provider);
    var offered := Flight(after.(db := Offered(after.db, p.id, provider)), 1, Done(Replied(Ok)));
    acts := AcceptOn(s, offered, a);
  }

  /** An accept started now goes through to its save. */
  lemma AcceptOn(start: Sys, s: Sys, a: Accepting) returns (acts: seq<Act>)
    requires Reaches(start, s) && 3 !in s.calls
    requires a.id in s.db.requests && s.db.requests[a.id].seeker == a.seeker && IsLive(s.db, s.db.requests[a.id])
    requires Offer(a.id, a.provider) in s.db.offers && a.eid !in s.db.engagements && NoneInTheWay(s.db, a)
    ensures
      var db := Interleave(start, acts).db;
      && db.rejected == s.db.rejected && db.now == s.db.now
      && a.eid in db.engagements
      && db.engagements[a.eid].request == a.id && db.engagements[a.eid].provider == a.provider
  {
    ReachesOn(start, s, Start(3, AcceptFind(a)));
    StepOn(start, s, 3, AcceptFind(a), 0, s.db, AcceptOffered(a));
    StepOn(start, s, 3, AcceptOffered(a), 0, s.db, AcceptSeekerFree(a));
    StepOn(start, s, 3, AcceptSeekerFree(a), 0, s.db, AcceptProviderFree(a));
    StepOn(start, s, 3, AcceptProviderFree(a), 0, s.db, AcceptSave(a));
    FailedAcceptWritesNothing(s.db, AcceptSave(a));
    var saved := s.db.(engagements := s.db.engagements[a.eid := Engagement(a.id, a.seeker, a.provider, Active, None)]);
    StepOn(start, s, 3, AcceptSave(a), 0, saved, FulfilFind(a.id, a.eid));
    acts :| Interleave(start, acts) == Flight(s.(db := saved), 3, FulfilFind(a.id, a.eid));
  }
}
