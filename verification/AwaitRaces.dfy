/** What the unique indexes leave to chance: the two halves of the joint invariant that
  * interleaved calls can break, each with the calls in flight that can break it, and a
  * run from empty tables that does. */
module AwaitRaces {
  import opened Options
  import opened Marketplace
  import opened Lifecycle
  import opened AwaitAccept

  // ---- an engaged request is FULFILLED ----

  /** A sweep, cancel or create that has fetched r and not saved it yet. */
  predicate Holds(c: Call, r: RequestId) { c.Closing? && r in c.todo }

  ghost predicate Held(calls: map<nat, Call>, r: RequestId) {
    exists k :: k in calls && Holds(calls[k], r)
  }

  predicate IsFulfilled(rs: Requests, r: RequestId) { r in rs && rs[r].status == Fulfilled }

  /** Only OPEN rows are fetched for closing. */
  lemma NotFetched(db: Db, c: Call, pick: RequestId, r: RequestId)
    requires IsFulfilled(db.requests, r) && !Holds(c, r)
    ensures !Holds(StepCall(db, c, pick).1, r)
  {
  }

  lemma NotOverwritten(db: Db, c: Call, pick: RequestId, r: RequestId)
    requires IsFulfilled(db.requests, r) && !Holds(c, r)
    ensures IsFulfilled(StepCall(db, c, pick).0.requests, r)
  {
    if !c.FulfilSave? && !c.Closing? && !c.CreateInsert? { RequestsUntouched(db, c, pick); }
  }

  lemma UnheldStep(s: Sys, act: Act, r: RequestId)
    requires IsFulfilled(s.db.requests, r) && !Held(s.calls, r)
    ensures IsFulfilled(Perform(s, act).db.requests, r) && !Held(Perform(s, act).calls, r)
  {
    if act.Step? && act.k in s.calls {
      NotFetched(s.db, s.calls[act.k], act.pick, r);
      NotOverwritten(s.db, s.calls[act.k], act.pick, r);
    }
    forall k | k in Perform(s, act).calls ensures !Holds(Perform(s, act).calls[k], r) {
      assert k in s.calls ==> !Holds(s.calls[k], r);
    }
  }

  lemma {:induction false} UnheldRun(s: Sys, acts: seq<Act>, r: RequestId)
    requires IsFulfilled(s.db.requests, r) && !Held(s.calls, r)
    ensures IsFulfilled(Interleave(s, acts).db.requests, r)
    decreases |acts|
  {
    if acts != [] {
      UnheldStep(s, acts[0], r);
      UnheldRun(Perform(s, acts[0]), acts[1..], r);
    }
  }

  /** The holder goes on: it clears the row it has just saved, then saves r. */
  lemma HolderSaves(s: Sys, k: nat, r: RequestId) returns (acts: seq<Act>)
    requires CallsOk(s) && k in s.calls && Holds(s.calls[k], r) && r in s.db.requests
    ensures r in Interleave(s, acts).db.requests
    ensures Interleave(s, acts).db.requests[r].status == s.calls[k].status
    ensures s.calls[k].status == Cancelled || s.calls[k].status == Expired
  {
    assert CallOk(s.db.requests, s.db.engagements, s.calls[k]);
    var save := Step(k, r);
    var s1 := Perform(s, save);
    assert Interleave(s, [save]) == Interleave(s1, []);
    if s.calls[k].saved.None? {
      acts := [save];
    } else {
      assert Interleave(s1, [save]) == Interleave(Perform(s1, save), []);
      assert Interleave(s, [save, save]) == Interleave(s1, [save]);
      acts := [save, save];
    }
  }

  /** A FULFILLED request (it is engaged) is sure to stay FULFILLED if and only if no close
    * in flight fetched it while it was OPEN and has yet to save it. */
  lemma StaysFulfilledIff(s: Sys, r: RequestId)
    requires AwaitInv(s) && IsFulfilled(s.db.requests, r)
    ensures (forall acts :: IsFulfilled(Interleave(s, acts).db.requests, r)) <==> !Held(s.calls, r)
  {
    if Held(s.calls, r) {
      var k :| k in s.calls && Holds(s.calls[k], r);
      var acts := HolderSaves(s, k, r);
      assert !IsFulfilled(Interleave(s, acts).db.requests, r);
    } else {
      forall acts ensures IsFulfilled(Interleave(s, acts).db.requests, r) { UnheldRun(s, acts, r); }
    }
  }

  // ---- offers exist on OPEN requests only ----

  /** A respond that has found r open and not inserted yet. */
  predicate Offering(c: Call, r: RequestId) {
    (c.RespondRejected? || c.RespondExisting? || c.RespondInsert?) && c.id == r
  }

  ghost predicate SomeOffering(calls: map<nat, Call>, r: RequestId) {
    exists k :: k in calls && Offering(calls[k], r)
  }

  ghost predicate NoOffers(os: map<Offer, nat>, r: RequestId) { forall o :: o in os ==> o.request != r }

  ghost predicate ClosedAndCleared(db: Db, r: RequestId) {
    r in db.requests && db.requests[r].status != Open && NoOffers(db.offers, r)
  }

  lemma OffersOnlyInserted(db: Db, c: Call, pick: RequestId)
    ensures StepCall(db, c, pick).0.offers.Keys
            <= db.offers.Keys + if c.RespondInsert? then {Offer(c.id, c.provider)} else {}
  {
  }

  /** A respond that has yet to look turns away from a closed request. */
  lemma NotFound(db: Db, c: Call, pick: RequestId, r: RequestId)
    requires r in db.requests && db.requests[r].status != Open && !Offering(c, r)
    ensures !Offering(StepCall(db, c, pick).1, r)
  {
  }

  lemma UnofferedStepDb(db: Db, c: Call, pick: RequestId, r: RequestId)
    requires CallOk(db.requests, db.engagements, c) && ClosedAndCleared(db, r) && !Offering(c, r)
    ensures ClosedAndCleared(StepCall(db, c, pick).0, r)
  {
    StepOwnersKept(db, c, pick);
    OffersOnlyInserted(db, c, pick);
    forall o | o in StepCall(db, c, pick).0.offers ensures o.request != r {
      assert o in StepCall(db, c, pick).0.offers.Keys;
    }
  }

  lemma UnofferedStep(s: Sys, act: Act, r: RequestId)
    requires CallsOk(s) && ClosedAndCleared(s.db, r) && !SomeOffering(s.calls, r)
    ensures ClosedAndCleared(Perform(s, act).db, r) && !SomeOffering(Perform(s, act).calls, r)
  {
    if act.Step? && act.k in s.calls {
      NotFound(s.db, s.calls[act.k], act.pick, r);
      UnofferedStepDb(s.db, s.calls[act.k], act.pick, r);
    }
    forall k | k in Perform(s, act).calls ensures !Offering(Perform(s, act).calls[k], r) {
      assert k in s.calls ==> !Offering(s.calls[k], r);
    }
  }

  lemma {:induction false} UnofferedRun(s: Sys, acts: seq<Act>, r: RequestId)
    requires AwaitInv(s) && ClosedAndCleared(s.db, r) && !SomeOffering(s.calls, r)
    ensures NoOffers(Interleave(s, acts).db.offers, r)
    decreases |acts|
  {
    if acts != [] {
      PerformKeeps(s, acts[0]);
      UnofferedStep(s, acts[0], r);
      UnofferedRun(Perform(s, acts[0]), acts[1..], r);
    }
  }

  /** The respond goes on to its insert (a rejection key in its way expires first). */
  lemma OffererInserts(s: Sys, k: nat, r: RequestId) returns (acts: seq<Act>)
    requires k in s.calls && Offering(s.calls[k], r) && NoOffers(s.db.offers, r)
    ensures !NoOffers(Interleave(s, acts).db.offers, r)
    decreases if s.calls[k].RespondInsert? then 0 else if s.calls[k].RespondExisting? then 1 else 2
  {
    var c, t := s.calls[k], Step(k, 0);
    var offer := Offer(r, c.provider);
    if c.RespondInsert? {
      acts := [t];
      assert Interleave(s, acts) == Interleave(Perform(s, t), []);
      assert offer in Interleave(s, acts).db.offers;
    } else if c.RespondExisting? {
      var rest := OffererInserts(Perform(s, t), k, r);
      acts := [t] + rest;
    } else {
      var wait := Wait(if c.provider in s.db.rejected then s.db.rejected[c.provider].expireAt else 0);
      var waited := Perform(s, wait);
      assert RejectedSet(waited.db, c.provider) == {};
      var rest := OffererInserts(Perform(waited, t), k, r);
      acts := [wait, t] + rest;
      assert acts[1..] == [t] + rest && ([t] + rest)[1..] == rest;
    }
  }

  /** A closed request whose offers are cleared is sure to stay without offers if and only
    * if no respond in flight found it open and has yet to insert. */
  lemma StaysClearedIff(s: Sys, r: RequestId)
    requires AwaitInv(s) && ClosedAndCleared(s.db, r)
    ensures (forall acts :: NoOffers(Interleave(s, acts).db.offers, r)) <==> !SomeOffering(s.calls, r)
  {
    if SomeOffering(s.calls, r) {
      var k :| k in s.calls && Offering(s.calls[k], r);
      var acts := OffererInserts(s, k, r);
      assert !NoOffers(Interleave(s, acts).db.offers, r);
    } else {
      forall acts ensures NoOffers(Interleave(s, acts).db.offers, r) { UnofferedRun(s, acts, r); }
    }
  }

  // ---- both happen, from empty tables ----

  ghost predicate Reaches(a: Sys, b: Sys) { exists acts :: Interleave(a, acts) == b }

  lemma ReachesOn(a: Sys, b: Sys, act: Act)
    requires Reaches(a, b)
    ensures Reaches(a, Perform(b, act))
  {
    var acts :| Interleave(a, acts) == b;
    InterleaveThen(a, acts, [act]);
    assert Interleave(b, [act]) == Interleave(Perform(b, act), []);
  }

  lemma Here(s: Sys)
    ensures Reaches(s, s)
  {
    assert Interleave(s, []) == s;
  }

  function Flight(s: Sys, k: nat, c: Call): Sys { s.(calls := s.calls[k := c]) }

  /** One step of call k, between two states of the call. */
  lemma StepOn(start: Sys, s: Sys, k: nat, c: Call, pick: RequestId, db: Db, c': Call)
    requires Reaches(start, Flight(s, k, c)) && StepCall(s.db, c, pick) == (db, c')
    ensures Reaches(start, Flight(s.(db := db), k, c'))
  {
    ReachesOn(start, Flight(s, k, c), Step(k, pick));
    assert s.calls[k := c][k := c'] == s.calls[k := c'];
  }

  ghost function Posted(s: Sys, p: Posting): Sys {
    var row := Request(p.seeker, p.draft, Open, s.db.now, s.db.now + REQUEST_TTL_MS);
    Sys(s.db.(requests := map[p.id := row]), map[0 := Done(Replied(Ok))])
  }

  /** The seeker has no job and nothing to supersede. */
  lemma PostChecksPass(s: Sys, p: Posting)
    requires Empty(s) && p.draft.skill in s.db.skills
    ensures Reaches(s, Flight(s, 0, Closing({}, None, Cancelled, Some(p))))
  {
    Here(s);
    ReachesOn(s, s, Start(0, CreateSkill(p)));
    StepOn(s, s, 0, CreateSkill(p), 0, s.db, CreateBusy(p));
    StepOn(s, s, 0, CreateBusy(p), 0, s.db, CreateOpen(p));
    assert OpenOf(s.db, p.seeker) == {};
    StepOn(s, s, 0, CreateOpen(p), 0, s.db, Closing({}, None, Cancelled, Some(p)));
  }

  lemma PostRuns(s: Sys, p: Posting)
    requires Empty(s) && p.draft.skill in s.db.skills
    ensures Reaches(s, Posted(s, p))
  {
    PostChecksPass(s, p);
    StepOn(s, s, 0, Closing({}, None, Cancelled, Some(p)), 0, s.db, CreateInsert(p));
    assert s.db.requests[p.id := Posted(s, p).db.requests[p.id]] == Posted(s, p).db.requests;
    StepOn(s, s, 0, CreateInsert(p), 0, Posted(s, p).db, Done(Replied(Ok)));
    assert s.calls[0 := Done(Replied(Ok))] == Posted(s, p).calls;
  }

  /** A respond up to its insert. */
  lemma RespondReachesInsert(start: Sys, s: Sys, id: RequestId, p: UserId)
    requires Reaches(start, s) && 1 !in s.calls && id in s.db.requests && IsLive(s.db, s.db.requests[id])
    requires s.db.rejected == map[] && Offer(id, p) !in s.db.offers
    ensures Reaches(start, Flight(s, 1, RespondInsert(id, p)))
  {
    ReachesOn(start, s, Start(1, RespondFind(id, p)));
    StepOn(start, s, 1, RespondFind(id, p), 0, s.db, RespondRejected(id, p));
    StepOn(start, s, 1, RespondRejected(id, p), 0, s.db, RespondExisting(id, p));
    StepOn(start, s, 1, RespondExisting(id, p), 0, s.db, RespondInsert(id, p));
  }

  /** A cancel up to holding the row it has fetched. */
  lemma CancelReachesHold(start: Sys, s: Sys, id: RequestId, seeker: UserId)
    requires Reaches(start, s) && 2 !in s.calls
    requires id in s.db.requests && s.db.requests[id].seeker == seeker && s.db.requests[id].status == Open
    ensures Reaches(start, Flight(s, 2, Closing({id}, None, Cancelled, None)))
  {
    ReachesOn(start, s, Start(2, CancelFind(id, seeker)));
    StepOn(start, s, 2, CancelFind(id, seeker), 0, s.db, Closing({id}, None, Cancelled, None));
  }

  ghost function Race(s: Sys, p: Posting, provider: UserId): Sys {
    Flight(Flight(Posted(s, p), 1, RespondInsert(p.id, provider)), 2, Closing({p.id}, None, Cancelled, None))
  }

  /** The seeker posts, a provider's respond is about to insert, the seeker's cancel holds
    * the row. */
  lemma RaceReached(s: Sys, p: Posting, provider: UserId)
    requires Empty(s) && s.db.offers == map[] && s.db.rejected == map[] && p.draft.skill in s.db.skills
    ensures Reaches(s, Race(s, p, provider))
  {
    PostRuns(s, p);
    RespondReachesInsert(s, Posted(s, p), p.id, provider);
    CancelReachesHold(s, Flight(Posted(s, p), 1, RespondInsert(p.id, provider)), p.id, p.seeker);
  }

  /** From there the cancel closes and clears, then the offer is inserted: an offer on a
    * CANCELLED request. */
  lemma LateOfferReached(s: Sys, p: Posting, provider: UserId) returns (acts: seq<Act>)
    requires Empty(s) && s.db.offers == map[] && s.db.rejected == map[] && p.draft.skill in s.db.skills
    ensures
      var db := Interleave(s, acts).db;
      p.id in db.requests && db.requests[p.id].status == Cancelled && Offer(p.id, provider) in db.offers
  {
    RaceReached(s, p, provider);
    var mid, hold := Flight(Posted(s, p), 1, RespondInsert(p.id, provider)), Closing({p.id}, None, Cancelled, None);
    var closed := mid.db.(requests := SetStatus(mid.db.requests, p.id, Cancelled));
    assert {p.id} - {p.id} == {};
    StepOn(s, mid, 2, hold, p.id, closed, Closing({}, Some(p.id), Cancelled, None));
    var cleared := closed.(offers := WithoutOffers(closed.offers, {p.id}));
    var saved, done := Closing({}, Some(p.id), Cancelled, None), Closing({}, None, Cancelled, None);
    StepOn(s, mid.(db := closed), 2, saved, 0, cleared, done);
    var late := Flight(mid.(db := cleared), 2, Closing({}, None, Cancelled, None));
    assert late == Flight(late, 1, RespondInsert(p.id, provider)) by {
      assert late.calls[1 := RespondInsert(p.id, provider)] == late.calls;
    }
    var offers := cleared.offers[Offer(p.id, provider) := cleared.now];
    StepOn(s, late, 1, RespondInsert(p.id, provider), 0, cleared.(offers := offers), Done(Replied(Ok)));
    acts :| Interleave(s, acts) == Flight(late.(db := cleared.(offers := offers)), 1, Done(Replied(Ok)));
  }

  /** From there too the offer is inserted and accepted, then the cancel saves the row it
    * holds: an engaged request that is CANCELLED. */
  lemma StaleCancelReached(s: Sys, p: Posting, provider: UserId, eid: EngagementId) returns (acts: seq<Act>)
    requires Empty(s) && s.db.offers == map[] && s.db.rejected == map[] && p.draft.skill in s.db.skills
    ensures
      var db := Interleave(s, acts).db;
      && eid in db.engagements && db.engagements[eid].request == p.id
      && p.id in db.requests && db.requests[p.id].status == Cancelled
  {
    RaceReached(s, p, provider);
    var race, a := Race(s, p, provider), Accepting(p.seeker, p.id, provider, eid);
    ReachesOn(s, race, Step(1, 0));
    var offered := Perform(race, Step(1, 0));
    ReachesOn(s, offered, Start(3, AcceptFind(a)));
    var accepting := Perform(offered, Start(3, AcceptFind(a)));
    assert accepting.calls[2] == Closing({p.id}, None, Cancelled, None);
    var more := StaleCancelWins(accepting, 3, a, 2);
    var before :| Interleave(s, before) == accepting;
    InterleaveThen(s, before, more);
    acts := before + more;
  }
}
