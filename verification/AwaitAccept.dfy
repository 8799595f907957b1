/** The same service calls, interleaved at their awaits. A call in flight is a program
  * counter with the values it has read; each table operation is atomic, and between
  * two of them any other call may run. The database's unique indexes are what is left
  * to protect the tables (migrations 1781600000000 and 1781700000000). */
module AwaitAccept {
  import opened Options
  import opened Marketplace
  import opened Lifecycle

  datatype Outcome = Replied(status: Status) | UniqueViolation

  /** What an accept call carries: who accepts whose offer, and the new row's id. */
  datatype Accepting = Accepting(seeker: UserId, id: RequestId, provider: UserId, eid: EngagementId)
  datatype Posting = Posting(seeker: UserId, id: RequestId, draft: Draft)

  datatype Call =
    | Done(outcome: Outcome)
    // engagements.service.ts accept, then requests.service.ts markFulfilled
    | AcceptFind(a: Accepting)
    | AcceptOffered(a: Accepting)
    | AcceptSeekerFree(a: Accepting)
    | AcceptProviderFree(a: Accepting)
    | AcceptSave(a: Accepting)
    | FulfilFind(id: RequestId, eid: EngagementId)
    | FulfilSave(id: RequestId, eid: EngagementId)
    | FulfilClear(id: RequestId)
    // markRemoved over fetched rows; `saved` is the row whose offers go next
    | Closing(todo: set<RequestId>, saved: Option<RequestId>, status: RequestStatus, next: Option<Posting>)
    | SweepFind
    | CancelFind(id: RequestId, seeker: UserId)
    | CreateSkill(p: Posting)
    | CreateBusy(p: Posting)
    | CreateOpen(p: Posting)
    | CreateInsert(p: Posting)
    | RespondFind(id: RequestId, provider: UserId)
    | RespondRejected(id: RequestId, provider: UserId)
    | RespondExisting(id: RequestId, provider: UserId)
    | RespondInsert(id: RequestId, provider: UserId)
    | RejectFind(id: RequestId, seeker: UserId, provider: UserId)
    | RejectDelete(id: RequestId, provider: UserId)
    | RejectKey(id: RequestId, provider: UserId)  // SADD and EXPIRE
    | CompleteFind(eid: EngagementId, user: UserId)
    | CompleteSave(eid: EngagementId, completedAt: nat)

  predicate Initial(c: Call) {
    || c.AcceptFind? || c.SweepFind? || c.CancelFind? || c.CreateSkill? || c.RespondFind? || c.RejectFind?
    || c.CompleteFind?
  }

  // ---- the unique indexes ----

  predicate EngagementClashes(es: Engagements, eid: EngagementId, e: Engagement) {
    eid in es
    || exists f :: f in es && (es[f].request == e.request
                               || (es[f].status == Active
                                   && (es[f].seeker == e.seeker || es[f].provider == e.provider)))
  }

  predicate OpenClashes(rs: Requests, p: Posting) {
    p.id in rs || exists r :: r in rs && rs[r].status == Open && rs[r].seeker == p.seeker
  }

  // ---- one table operation of one call ----

  function Fail(reason: Reason): Call { Done(Replied(BadRequest(reason))) }

  function StepAccept(db: Db, c: Call): (Db, Call)
    requires c.AcceptFind? || c.AcceptOffered? || c.AcceptSeekerFree? || c.AcceptProviderFree? || c.AcceptSave?
  {
    match c
    case AcceptFind(a) =>
      (db, if a.id !in db.requests then Done(Replied(NotFound))
           else if db.requests[a.id].seeker != a.seeker then Done(Replied(Forbidden))
           else if !IsLive(db, db.requests[a.id]) then Fail(NotOpen)
           else AcceptOffered(a))
    case AcceptOffered(a) =>
      (db, if Offer(a.id, a.provider) in db.offers then AcceptSeekerFree(a) else Fail(NoOffer))
    case AcceptSeekerFree(a) =>
      (db, if SeekerActive(db, a.seeker) then Fail(SeekerHasActive) else AcceptProviderFree(a))
    case AcceptProviderFree(a) =>
      (db, if ProviderActive(db, a.provider) then Fail(ProviderHasActive) else AcceptSave(a))
    case AcceptSave(a) =>
      var e := Engagement(a.id, a.seeker, a.provider, Active, None);
      if EngagementClashes(db.engagements, a.eid, e) then (db, Done(UniqueViolation))
      else (db.(engagements := db.engagements[a.eid := e]), FulfilFind(a.id, a.eid))
  }

  function SetStatus(rs: Requests, id: RequestId, status: RequestStatus): Requests {
    WithStatus(rs, {id}, status)
  }

  /** `pick` is the row a closing loop takes next: the fetch order is not specified. */
  function StepOther(db: Db, c: Call, pick: RequestId): (Db, Call) {
    match c
    case FulfilFind(id, eid) => (db, if id in db.requests then FulfilSave(id, eid) else Done(Replied(Ok)))
    case FulfilSave(id, eid) => (db.(requests := SetStatus(db.requests, id, Fulfilled)), FulfilClear(id))
    case FulfilClear(id) => (db.(offers := WithoutOffers(db.offers, {id})), Done(Replied(Ok)))
    case Closing(todo, saved, status, next) =>
      if saved.Some? then (db.(offers := WithoutOffers(db.offers, {saved.value})), c.(saved := None))
      else if todo == {} then (db, if next.Some? then CreateInsert(next.value) else Done(Replied(Ok)))
      else if pick in todo then
        (db.(requests := SetStatus(db.requests, pick, status)), c.(todo := todo - {pick}, saved := Some(pick)))
      else (db, c)
    case SweepFind => (db, Closing(DueIds(db), None, Expired, None))
    case CancelFind(id, seeker) =>
      (db, if id !in db.requests then Done(Replied(NotFound))
           else if db.requests[id].seeker != seeker then Done(Replied(Forbidden))
           else if db.requests[id].status == Open then Closing({id}, None, Cancelled, None)
           else Done(Replied(Ok)))
    case CreateSkill(p) => (db, if p.draft.skill in db.skills then CreateBusy(p) else Done(Replied(NotFound)))
    case CreateBusy(p) => (db, if SeekerActive(db, p.seeker) then Fail(SeekerBusy) else CreateOpen(p))
    case CreateOpen(p) => (db, Closing(OpenOf(db, p.seeker), None, Cancelled, Some(p)))
    case CreateInsert(p) =>
      if OpenClashes(db.requests, p) then (db, Done(UniqueViolation))
      else (db.(requests := db.requests[p.id := Request(p.seeker, p.draft, Open, db.now, db.now + REQUEST_TTL_MS)]),
            Done(Replied(Ok)))
    case RespondFind(id, p) =>
      (db, if id !in db.requests then Done(Replied(NotFound))
           else if !IsLive(db, db.requests[id]) then Fail(NotOpen) else RespondRejected(id, p))
    case RespondRejected(id, p) =>
      (db, if id in RejectedSet(db, p) then Fail(WasRejected) else RespondExisting(id, p))
    case RespondExisting(id, p) =>
      (db, if Offer(id, p) in db.offers then Done(Replied(Ok)) else RespondInsert(id, p))
    case RespondInsert(id, p) =>
      if Offer(id, p) in db.offers then (db, Done(UniqueViolation))
      else (db.(offers := db.offers[Offer(id, p) := db.now]), Done(Replied(Ok)))
    case RejectFind(id, seeker, p) =>
      (db, if id !in db.requests then Done(Replied(NotFound))
           else if db.requests[id].seeker != seeker then Done(Replied(Forbidden)) else RejectDelete(id, p))
    case RejectDelete(id, p) => (db.(offers := db.offers - {Offer(id, p)}), RejectKey(id, p))
    case RejectKey(id, p) =>
      (db.(rejected := db.rejected[p := Rejection(RejectedSet(db, p) + {id}, db.now + REJECTED_TTL_MS)]),
       Done(Replied(Ok)))
    case CompleteFind(eid, u) =>
      (db, if eid !in db.engagements then Done(Replied(NotFound))
           else if db.engagements[eid].seeker != u then Done(Replied(Forbidden))
           else if db.engagements[eid].status == Active then CompleteSave(eid, db.now)
           else Done(Replied(Ok)))
    case CompleteSave(eid, at) =>
      if eid !in db.engagements then (db, Done(Replied(Ok)))
      else
        var done := db.engagements[eid].(status := Completed, completedAt := Some(at));
        (db.(engagements := db.engagements[eid := done]), Done(Replied(Ok)))
    case _ => (db, c)
  }

  function StepCall(db: Db, c: Call, pick: RequestId): (Db, Call) {
    if c.AcceptFind? || c.AcceptOffered? || c.AcceptSeekerFree? || c.AcceptProviderFree? || c.AcceptSave?
    then StepAccept(db, c) else StepOther(db, c, pick)
  }

  // ---- interleavings ----

  datatype Sys = Sys(db: Db, calls: map<nat, Call>)
  datatype Act = Start(k: nat, call: Call) | Step(k: nat, pick: RequestId) | Wait(ms: nat)

  function Perform(s: Sys, act: Act): Sys {
    match act
    case Start(k, call) => if k !in s.calls && Initial(call) then s.(calls := s.calls[k := call]) else s
    case Step(k, pick) =>
      if k !in s.calls then s else
        var (db, call) := StepCall(s.db, s.calls[k], pick);
        Sys(db, s.calls[k := call])
    case Wait(ms) => s.(db := s.db.(now := s.db.now + ms))
  }

  ghost function Interleave(s: Sys, acts: seq<Act>): Sys
    decreases |acts|
  {
    if acts == [] then s else Interleave(Perform(s, acts[0]), acts[1..])
  }

  // ---- what every interleaving keeps ----

  /** The values a call has read and still relies on. */
  ghost predicate CallOk(rs: Requests, es: Engagements, c: Call) {
    match c
    case AcceptOffered(a) => a.id in rs && rs[a.id].seeker == a.seeker
    case AcceptSeekerFree(a) => a.id in rs && rs[a.id].seeker == a.seeker
    case AcceptProviderFree(a) => a.id in rs && rs[a.id].seeker == a.seeker
    case AcceptSave(a) => a.id in rs && rs[a.id].seeker == a.seeker
    case FulfilFind(id, eid) => eid in es && es[eid].request == id
    case FulfilSave(id, eid) => eid in es && es[eid].request == id
    case Closing(_, _, status, _) => status == Cancelled || status == Expired
    case _ => true
  }

  ghost predicate CallsOk(s: Sys) {
    forall k :: k in s.calls ==> CallOk(s.db.requests, s.db.engagements, s.calls[k])
  }

  /** Between the save of the engagement and the save of its request. */
  predicate Fulfilling(c: Call, eid: EngagementId) {
    (c.FulfilFind? || c.FulfilSave?) && c.eid == eid
  }

  ghost predicate SomeFulfilling(calls: map<nat, Call>, eid: EngagementId) {
    exists k :: k in calls && Fulfilling(calls[k], eid)
  }

  /** An engaged request is not OPEN, unless its accept is still on its way to say so. */
  ghost predicate EngagedClosing(s: Sys) {
    forall e :: e in s.db.engagements ==>
      && s.db.engagements[e].request in s.db.requests
      && s.db.requests[s.db.engagements[e].request].seeker == s.db.engagements[e].seeker
      && (s.db.requests[s.db.engagements[e].request].status == Open ==> SomeFulfilling(s.calls, e))
  }

  ghost predicate AwaitInv(s: Sys) {
    && CallsOk(s) && EngagedClosing(s)
    && OneOpen(s.db.requests) && FulfilledIsEngaged(s.db.requests, s.db.engagements)
    && OneEngagement(s.db.engagements) && OneActive(s.db.engagements)
  }

  /** Requests keep their owner and never return to OPEN, engagements keep theirs:
    * so what other calls have read stays good. */
  ghost predicate OwnersKept(a: Requests, b: Requests) {
    forall r :: r in a ==>
      r in b && b[r].seeker == a[r].seeker && (a[r].status != Open ==> b[r].status != Open)
  }

  ghost predicate PartiesKept(a: Engagements, b: Engagements) {
    forall e :: e in a ==> e in b && b[e].request == a[e].request && b[e].seeker == a[e].seeker
  }

  ghost predicate TablesLater(a: Db, b: Db) {
    OwnersKept(a.requests, b.requests) && PartiesKept(a.engagements, b.engagements)
  }

  lemma RequestsUntouched(db: Db, c: Call, pick: RequestId)
    requires !c.FulfilSave? && !c.Closing? && !c.CreateInsert?
    ensures StepCall(db, c, pick).0.requests == db.requests
  {
  }

  lemma StepOwnersKept(db: Db, c: Call, pick: RequestId)
    requires CallOk(db.requests, db.engagements, c)
    ensures OwnersKept(db.requests, StepCall(db, c, pick).0.requests)
  {
    if !c.FulfilSave? && !c.Closing? && !c.CreateInsert? { RequestsUntouched(db, c, pick); }
  }

  lemma StepTablesLater(db: Db, c: Call, pick: RequestId)
    requires CallOk(db.requests, db.engagements, c)
    ensures TablesLater(db, StepCall(db, c, pick).0)
  {
    StepOwnersKept(db, c, pick);
    if !c.AcceptSave? && !c.CompleteSave? {
      assert StepCall(db, c, pick).0.engagements == db.engagements;
    }
  }

  lemma OthersStayOk(a: Db, b: Db, c: Call)
    requires TablesLater(a, b) && CallOk(a.requests, a.engagements, c)
    ensures CallOk(b.requests, b.engagements, c)
  {
  }

  lemma StepCallsOk(s: Sys, k: nat, pick: RequestId)
    requires CallsOk(s) && k in s.calls
    ensures CallsOk(Perform(s, Step(k, pick)))
  {
    var c := s.calls[k];
    var (db, c') := StepCall(s.db, c, pick);
    StepTablesLater(s.db, c, pick);
    StepOk(s.db, c, pick);
    forall j | j in s.calls ensures CallOk(db.requests, db.engagements, s.calls[j]) {
      OthersStayOk(s.db, db, s.calls[j]);
    }
  }

  lemma StepOk(db: Db, c: Call, pick: RequestId)
    requires CallOk(db.requests, db.engagements, c)
    ensures var (db', c') := StepCall(db, c, pick); CallOk(db'.requests, db'.engagements, c')
  {
  }

  lemma InsertOneOpen(rs: Requests, p: Posting, row: Request)
    requires OneOpen(rs) && !OpenClashes(rs, p) && row.seeker == p.seeker
    ensures OneOpen(rs[p.id := row])
  {
  }

  lemma CloseOneOpen(rs: Requests, id: RequestId, status: RequestStatus)
    requires OneOpen(rs) && status != Open
    ensures OneOpen(SetStatus(rs, id, status))
  {
  }

  lemma StepOneOpen(db: Db, c: Call, pick: RequestId)
    requires OneOpen(db.requests) && CallOk(db.requests, db.engagements, c)
    ensures OneOpen(StepCall(db, c, pick).0.requests)
  {
    if c.CreateInsert? {
      if !OpenClashes(db.requests, c.p) {
        InsertOneOpen(db.requests, c.p, Request(c.p.seeker, c.p.draft, Open, db.now, db.now + REQUEST_TTL_MS));
      }
    } else if c.FulfilSave? {
      CloseOneOpen(db.requests, c.id, Fulfilled);
    } else if c.Closing? {
      CloseOneOpen(db.requests, pick, c.status);
    } else {
      RequestsUntouched(db, c, pick);
    }
  }

  /** The unique indexes decide a race of accepts. */
  lemma SaveOneEngagement(es: Engagements, eid: EngagementId, e: Engagement)
    requires OneEngagement(es) && OneActive(es) && !EngagementClashes(es, eid, e)
    ensures OneEngagement(es[eid := e]) && OneActive(es[eid := e])
  {
  }

  lemma StepOneEngagement(db: Db, c: Call, pick: RequestId)
    requires OneEngagement(db.engagements) && OneActive(db.engagements)
    ensures OneEngagement(StepCall(db, c, pick).0.engagements) && OneActive(StepCall(db, c, pick).0.engagements)
  {
    if c.AcceptSave? {
      var e := Engagement(c.a.id, c.a.seeker, c.a.provider, Active, None);
      if !EngagementClashes(db.engagements, c.a.eid, e) { SaveOneEngagement(db.engagements, c.a.eid, e); }
    } else if !c.CompleteSave? {
      assert StepCall(db, c, pick).0.engagements == db.engagements;
    }
  }

  lemma StepFulfilledEngaged(db: Db, c: Call, pick: RequestId)
    requires FulfilledIsEngaged(db.requests, db.engagements) && CallOk(db.requests, db.engagements, c)
    ensures FulfilledIsEngaged(StepCall(db, c, pick).0.requests, StepCall(db, c, pick).0.engagements)
  {
    var db' := StepCall(db, c, pick).0;
    StepTablesLater(db, c, pick);
    forall r | r in db'.requests && db'.requests[r].status == Fulfilled ensures HasEngagement(db'.engagements, r) {
      if r in db.requests && db.requests[r].status == Fulfilled {
        assert HasEngagement(db.engagements, r);
        var e :| e in db.engagements && db.engagements[e].request == r;
        assert db'.engagements[e].request == r;
      } else {
        BecameFulfilled(db, c, pick, r);
        assert db'.engagements[c.eid].request == r;
      }
    }
  }

  lemma BecameFulfilled(db: Db, c: Call, pick: RequestId, r: RequestId)
    requires CallOk(db.requests, db.engagements, c)
    requires r in StepCall(db, c, pick).0.requests && StepCall(db, c, pick).0.requests[r].status == Fulfilled
    requires r in db.requests ==> db.requests[r].status != Fulfilled
    ensures c.FulfilSave? && c.id == r
  {
  }

  predicate IsOpen(rs: Requests, r: RequestId) { r in rs && rs[r].status == Open }

  lemma FulfillingSurvives(s: Sys, k: nat, pick: RequestId, e: EngagementId)
    requires CallsOk(s) && k in s.calls && SomeFulfilling(s.calls, e)
    requires e in s.db.engagements && s.db.engagements[e].request in s.db.requests
    ensures
      var s' := Perform(s, Step(k, pick));
      SomeFulfilling(s'.calls, e) || !IsOpen(s'.db.requests, s.db.engagements[e].request)
  {
    var j :| j in s.calls && Fulfilling(s.calls[j], e);
    var s' := Perform(s, Step(k, pick));
    if j != k {
      assert s'.calls[j] == s.calls[j];
    } else if s.calls[k].FulfilFind? {
      assert Fulfilling(s'.calls[k], e);
    }
  }

  lemma StepEngagedClosing(s: Sys, k: nat, pick: RequestId)
    requires AwaitInv(s) && k in s.calls
    ensures EngagedClosing(Perform(s, Step(k, pick)))
  {
    var s' := Perform(s, Step(k, pick));
    var c := s.calls[k];
    StepTablesLater(s.db, c, pick);
    forall e | e in s'.db.engagements
      ensures
        && s'.db.engagements[e].request in s'.db.requests
        && s'.db.requests[s'.db.engagements[e].request].seeker == s'.db.engagements[e].seeker
        && (s'.db.requests[s'.db.engagements[e].request].status == Open ==> SomeFulfilling(s'.calls, e))
    {
      if e in s.db.engagements {
        if s.db.requests[s.db.engagements[e].request].status == Open { FulfillingSurvives(s, k, pick, e); }
      } else {
        NewEngagement(s.db, c, pick, e);
        assert Fulfilling(s'.calls[k], e);
      }
    }
  }

  lemma NewEngagement(db: Db, c: Call, pick: RequestId, e: EngagementId)
    requires CallOk(db.requests, db.engagements, c)
    requires e !in db.engagements && e in StepCall(db, c, pick).0.engagements
    ensures c.AcceptSave? && c.a.eid == e && StepCall(db, c, pick).1 == FulfilFind(c.a.id, e)
    ensures StepCall(db, c, pick).0.requests == db.requests
    ensures StepCall(db, c, pick).0.engagements[e].request == c.a.id
    ensures StepCall(db, c, pick).0.engagements[e].seeker == c.a.seeker
  {
  }

  lemma PerformKeeps(s: Sys, act: Act)
    requires AwaitInv(s)
    ensures AwaitInv(Perform(s, act))
  {
    match act
    case Start(k, call) => StartKeeps(s, k, call);
    case Wait(_) =>
    case Step(k, pick) =>
      if k in s.calls {
        StepCallsOk(s, k, pick);
        StepEngagedClosing(s, k, pick);
        StepOneOpen(s.db, s.calls[k], pick);
        StepOneEngagement(s.db, s.calls[k], pick);
        StepFulfilledEngaged(s.db, s.calls[k], pick);
      }
  }

  lemma StartKeeps(s: Sys, k: nat, call: Call)
    requires AwaitInv(s)
    ensures AwaitInv(Perform(s, Start(k, call)))
  {
    var s' := Perform(s, Start(k, call));
    forall e | e in s.db.engagements && SomeFulfilling(s.calls, e) ensures SomeFulfilling(s'.calls, e) {
      var j :| j in s.calls && Fulfilling(s.calls[j], e);
      assert s'.calls[j] == s.calls[j];
    }
  }

  lemma {:induction false} EveryInterleaving(s: Sys, acts: seq<Act>)
    requires AwaitInv(s)
    ensures AwaitInv(Interleave(s, acts))
    decreases |acts|
  {
    if acts != [] {
      PerformKeeps(s, acts[0]);
      EveryInterleaving(Perform(s, acts[0]), acts[1..]);
    }
  }

  ghost predicate Empty(s: Sys) {
    s.db.requests == map[] && s.db.engagements == map[] && s.calls == map[]
  }

  /** In every interleaving from empty tables: one engagement per request, one ACTIVE per
    * seeker and per provider, one OPEN request per seeker, and an engaged request is OPEN
    * only while an accept is between its two saves for it. */
  lemma FromEmptyTables(s: Sys, acts: seq<Act>)
    requires Empty(s)
    ensures
      var after := Interleave(s, acts);
      && OneEngagement(after.db.engagements) && OneActive(after.db.engagements) && OneOpen(after.db.requests)
      && EngagedClosing(after)
  {
    EveryInterleaving(s, acts);
  }

  lemma SettledMeansClosed(s: Sys, acts: seq<Act>, e: EngagementId)
    requires Empty(s) && e in Interleave(s, acts).db.engagements
    requires forall k :: k in Interleave(s, acts).calls ==> !Fulfilling(Interleave(s, acts).calls[k], e)
    ensures
      var db := Interleave(s, acts).db;
      db.engagements[e].request in db.requests && db.requests[db.engagements[e].request].status != Open
  {
    EveryInterleaving(s, acts);
  }

  /** No engagement has this request, and none that is ACTIVE this seeker or provider. */
  ghost predicate NoneInTheWay(db: Db, a: Accepting) {
    !HasEngagement(db.engagements, a.id) && !SeekerActive(db, a.seeker) && !ProviderActive(db, a.provider)
  }

  /** An accept writes nothing unless its save goes through. A save that goes through
    * adds one engagement and touches nothing else; it goes through exactly when no
    * engagement has this request, and none that is ACTIVE has this seeker or provider. */
  lemma FailedAcceptWritesNothing(db: Db, c: Call)
    requires c.AcceptFind? || c.AcceptOffered? || c.AcceptSeekerFree? || c.AcceptProviderFree? || c.AcceptSave?
    ensures
      var (after, c') := StepAccept(db, c);
      if !c'.FulfilFind? then after == db
      else
        && c.AcceptSave? && after.(engagements := db.engagements) == db
        && after.engagements.Keys == db.engagements.Keys + {c.a.eid} && c.a.eid !in db.engagements
    ensures c.AcceptSave? && c.a.eid !in db.engagements ==>
              (StepAccept(db, c).1.FulfilFind? <==> NoneInTheWay(db, c.a))
  {
  }

  /** Nor do a create or a respond whose insert breaks an index: a request goes in exactly
    * when the id is new and the seeker has no OPEN one, an offer exactly when it is new. */
  lemma FailedInsertWritesNothing(db: Db, p: Posting, id: RequestId, provider: UserId)
    ensures
      var (after, c) := StepCall(db, CreateInsert(p), 0);
      if p.id in db.requests || OpenOf(db, p.seeker) != {} then after == db && c == Done(UniqueViolation)
      else
        && c == Done(Replied(Ok)) && after == db.(requests := after.requests)
        && after.requests.Keys == db.requests.Keys + {p.id}
        && (forall r :: r in db.requests ==> after.requests[r] == db.requests[r])
    ensures
      var (after, c) := StepCall(db, RespondInsert(id, provider), 0);
      if Offer(id, provider) in db.offers then after == db && c == Done(UniqueViolation)
      else c == Done(Replied(Ok)) && after == db.(offers := db.offers[Offer(id, provider) := db.now])
  {
    forall r ensures r in OpenOf(db, p.seeker) <==>
      r in db.requests && db.requests[r].status == Open && db.requests[r].seeker == p.seeker {}
  }

  // ---- what the indexes do not protect ----

  /** The steps an undisturbed accept takes. */
  ghost predicate AcceptsAlone(s: Sys, k: nat, a: Accepting) {
    && k in s.calls && s.calls[k] == AcceptFind(a)
    && a.id in s.db.requests && s.db.requests[a.id].seeker == a.seeker && IsLive(s.db, s.db.requests[a.id])
    && Offer(a.id, a.provider) in s.db.offers && a.eid !in s.db.engagements
    && NoneInTheWay(s.db, a)
  }

  /** Two steps of call k that only read. */
  lemma TwoReads(s: Sys, k: nat, c: Call, c': Call)
    requires k in s.calls && StepCall(s.db, s.calls[k], 0) == (s.db, c) && StepCall(s.db, c, 0) == (s.db, c')
    ensures Interleave(s, [Step(k, 0), Step(k, 0)]) == s.(calls := s.calls[k := c'])
  {
    var s1 := Perform(s, Step(k, 0));
    assert Interleave(s1, [Step(k, 0)]) == Interleave(Perform(s1, Step(k, 0)), []);
    assert s.calls[k := c][k := c'] == s.calls[k := c'];
  }

  lemma AcceptChecksPass(s: Sys, k: nat, a: Accepting)
    requires AcceptsAlone(s, k, a)
    ensures Interleave(s, [Step(k, 0), Step(k, 0), Step(k, 0), Step(k, 0)]) == s.(calls := s.calls[k := AcceptSave(a)])
  {
    var two, mid := [Step(k, 0), Step(k, 0)], s.(calls := s.calls[k := AcceptSeekerFree(a)]);
    TwoReads(s, k, AcceptOffered(a), AcceptSeekerFree(a));
    TwoReads(mid, k, AcceptProviderFree(a), AcceptSave(a));
    InterleaveThen(s, two, two);
    assert two + two == [Step(k, 0), Step(k, 0), Step(k, 0), Step(k, 0)];
    assert mid.calls[k := AcceptSave(a)] == s.calls[k := AcceptSave(a)];
  }

  lemma AcceptSaves(s: Sys, k: nat, a: Accepting)
    requires k in s.calls && s.calls[k] == AcceptSave(a) && a.id in s.db.requests && a.eid !in s.db.engagements
    requires NoneInTheWay(s.db, a)
    ensures
      var after := Interleave(s, [Step(k, 0), Step(k, 0), Step(k, 0)]);
      && after.calls == s.calls[k := FulfilClear(a.id)]
      && a.eid in after.db.engagements && after.db.engagements[a.eid].request == a.id
      && a.id in after.db.requests && after.db.requests[a.id].status == Fulfilled
  {
    var t := Step(k, 0);
    FailedAcceptWritesNothing(s.db, AcceptSave(a));
    var s1 := Perform(s, t);
    var s2 := Perform(s1, t);
    assert s1.db.engagements[a.eid].request == a.id;
    assert Interleave(s2, [t]) == Interleave(Perform(s2, t), []);
    assert Interleave(s1, [t, t]) == Interleave(s2, [t]);
  }

  lemma {:induction false} InterleaveThen(s: Sys, acts: seq<Act>, more: seq<Act>)
    ensures Interleave(s, acts + more) == Interleave(Interleave(s, acts), more)
    decreases |acts|
  {
    if acts == [] {
      assert acts + more == more;
    } else {
      InterleaveThen(Perform(s, acts[0]), acts[1..], more);
      assert (acts + more)[1..] == acts[1..] + more;
    }
  }

  lemma AcceptRuns(s: Sys, k: nat, a: Accepting) returns (acts: seq<Act>)
    requires AcceptsAlone(s, k, a)
    ensures
      var after := Interleave(s, acts);
      && after.calls == s.calls[k := FulfilClear(a.id)]
      && a.eid in after.db.engagements && after.db.engagements[a.eid].request == a.id
      && a.id in after.db.requests && after.db.requests[a.id].status == Fulfilled
  {
    var checks, saves := [Step(k, 0), Step(k, 0), Step(k, 0), Step(k, 0)], [Step(k, 0), Step(k, 0), Step(k, 0)];
    AcceptChecksPass(s, k, a);
    AcceptSaves(s.(calls := s.calls[k := AcceptSave(a)]), k, a);
    InterleaveThen(s, checks, saves);
    assert s.calls[k := AcceptSave(a)][k := FulfilClear(a.id)] == s.calls[k := FulfilClear(a.id)];
    acts := checks + saves;
  }

  /** FULFILLED-iff-engaged holds for atomic calls only: a cancel that has read the row
    * as OPEN before the accept overwrites FULFILLED with CANCELLED afterwards. */
  lemma StaleCancelWins(s: Sys, k: nat, a: Accepting, j: nat) returns (acts: seq<Act>)
    requires AcceptsAlone(s, k, a)
    requires j != k && j in s.calls && s.calls[j] == Closing({a.id}, None, Cancelled, None)
    ensures
      var db := Interleave(s, acts).db;
      && a.eid in db.engagements && db.engagements[a.eid].request == a.id
      && a.id in db.requests && db.requests[a.id].status == Cancelled
  {
    acts := AcceptRuns(s, k, a);
    var mid, last := Interleave(s, acts), Step(j, a.id);
    assert mid.calls[j] == Closing({a.id}, None, Cancelled, None);
    InterleaveThen(s, acts, [last]);
    assert Interleave(mid, [last]) == Interleave(Perform(mid, last), []);
    acts := acts + [last];
  }
}
