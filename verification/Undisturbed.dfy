/** The calls at the level of awaits are the calls of Marketplace cut into pieces: a call
  * that runs with nothing in between answers and writes what the atomic one does. */
module Undisturbed {
  import opened Options
  import opened Marketplace
  import opened Lifecycle
  import opened AwaitAccept

  /** The atomic call that a call in flight stands for when it starts. */
  function OpOf(c: Call): Op
    requires Initial(c)
  {
    match c
    case AcceptFind(a) => AcceptOp(a.seeker, a.id, a.provider, a.eid)
    case SweepFind => SweepOp
    case CancelFind(id, seeker) => CancelOp(id, seeker)
    case CreateSkill(p) => CreateOp(p.seeker, p.id, p.draft)
    case RespondFind(id, p) => RespondOp(id, p)
    case RejectFind(id, seeker, p) => RejectOp(id, seeker, p)
    case CompleteFind(eid, u) => CompleteOp(eid, u)
  }

  /** Its new row's id, if it has one, is new. */
  predicate FreshIds(db: Db, c: Call) {
    (c.AcceptFind? ==> c.a.eid !in db.engagements) && (c.CreateSkill? ==> c.p.id !in db.requests)
  }

  // ---- one call by itself ----

  ghost function StepAll(db: Db, c: Call, picks: seq<RequestId>): (Db, Call)
    decreases |picks|
  {
    if picks == [] then (db, c)
    else var (db', c') := StepCall(db, c, picks[0]); StepAll(db', c', picks[1..])
  }

  lemma {:induction false} StepAllThen(db: Db, c: Call, picks: seq<RequestId>, pick: RequestId)
    ensures var (db', c') := StepAll(db, c, picks); StepAll(db, c, picks + [pick]) == StepCall(db', c', pick)
    decreases |picks|
  {
    if picks == [] {
      assert ([pick])[1..] == [];
    } else {
      var (db', c') := StepCall(db, c, picks[0]);
      StepAllThen(db', c', picks[1..], pick);
      assert (picks + [pick])[1..] == picks[1..] + [pick];
    }
  }

  ghost predicate Becomes(db: Db, c: Call, db': Db, c': Call) {
    exists picks :: StepAll(db, c, picks) == (db', c')
  }

  lemma Begins(db: Db, c: Call)
    ensures Becomes(db, c, db, c)
  {
    assert StepAll(db, c, []) == (db, c);
  }

  lemma Continues(db: Db, c: Call, mid: Db, d: Call, pick: RequestId, db': Db, c': Call)
    requires Becomes(db, c, mid, d) && StepCall(mid, d, pick) == (db', c')
    ensures Becomes(db, c, db', c')
  {
    var picks :| StepAll(db, c, picks) == (mid, d);
    StepAllThen(db, c, picks, pick);
  }

  /** A step that only reads. */
  lemma Reads(db: Db, c: Call, mid: Db, d: Call, c': Call)
    requires Becomes(db, c, mid, d) && StepCall(mid, d, 0) == (mid, c')
    ensures Becomes(db, c, mid, c')
  {
    Continues(db, c, mid, d, 0, mid, c');
  }

  // ---- the closing loops ----

  lemma CloseOne(db: Db, id: RequestId, status: RequestStatus)
    ensures CloseAll(db, {id}, status)
         == db.(requests := SetStatus(db.requests, id, status), offers := WithoutOffers(db.offers, {id}))
  {
  }

  lemma {:induction false} ClosesAll(db: Db, c: Call, mid: Db, todo: set<RequestId>, status: RequestStatus,
                                     next: Option<Posting>)
    requires Becomes(db, c, mid, Closing(todo, None, status, next))
    ensures Becomes(db, c, CloseAll(mid, todo, status), Closing({}, None, status, next))
    decreases |todo|
  {
    if todo == {} {
      assert CloseAll(mid, {}, status).requests == mid.requests && CloseAll(mid, {}, status).offers == mid.offers;
    } else {
      var id :| id in todo;
      var rest, saved := todo - {id}, mid.(requests := SetStatus(mid.requests, id, status));
      var closed := CloseAll(mid, {id}, status);
      CloseOne(mid, id, status);
      Continues(db, c, mid, Closing(todo, None, status, next), id, saved, Closing(rest, Some(id), status, next));
      Continues(db, c, saved, Closing(rest, Some(id), status, next), id, closed, Closing(rest, None, status, next));
      ClosesAll(db, c, closed, rest, status, next);
      CloseTwice(mid, {id}, rest, status);
      assert {id} + rest == todo;
    }
  }

  // ---- call by call ----

  ghost predicate EndsAs(db: Db, c: Call, result: (Db, Status)) {
    Becomes(db, c, result.0, Done(Replied(result.1)))
  }

  lemma SweepAlone(db: Db)
    ensures EndsAs(db, SweepFind, (Sweep(db), Ok))
  {
    Begins(db, SweepFind);
    Reads(db, SweepFind, db, SweepFind, Closing(DueIds(db), None, Expired, None));
    ClosesAll(db, SweepFind, db, DueIds(db), Expired, None);
    Reads(db, SweepFind, Sweep(db), Closing({}, None, Expired, None), Done(Replied(Ok)));
  }

  lemma CancelAlone(db: Db, id: RequestId, seeker: UserId)
    ensures EndsAs(db, CancelFind(id, seeker), Cancel(db, id, seeker))
  {
    var c := CancelFind(id, seeker);
    Begins(db, c);
    Reads(db, c, db, c, StepCall(db, c, 0).1);
    if id in db.requests && db.requests[id].seeker == seeker && db.requests[id].status == Open {
      ClosesAll(db, c, db, {id}, Cancelled, None);
      Reads(db, c, CloseAll(db, {id}, Cancelled), Closing({}, None, Cancelled, None), Done(Replied(Ok)));
    }
  }

  lemma NoOpenClash(db: Db, p: Posting)
    requires p.id !in db.requests && OpenOf(db, p.seeker) == {}
    ensures !OpenClashes(db.requests, p)
  {
    forall r | r in db.requests && db.requests[r].status == Open ensures db.requests[r].seeker != p.seeker {
      assert r !in OpenOf(db, p.seeker);
    }
  }

  lemma CreateAlone(db: Db, p: Posting)
    requires p.id !in db.requests
    ensures EndsAs(db, CreateSkill(p), Create(db, p.seeker, p.id, p.draft))
  {
    var c := CreateSkill(p);
    Begins(db, c);
    Reads(db, c, db, c, StepCall(db, c, 0).1);
    if p.draft.skill in db.skills {
      Reads(db, c, db, CreateBusy(p), StepCall(db, CreateBusy(p), 0).1);
      if !SeekerActive(db, p.seeker) { CreateRest(db, c, p); }
    }
  }

  lemma CreateRest(db: Db, c: Call, p: Posting)
    requires Becomes(db, c, db, CreateOpen(p)) && p.id !in db.requests
    requires p.draft.skill in db.skills && !SeekerActive(db, p.seeker)
    ensures EndsAs(db, c, Create(db, p.seeker, p.id, p.draft))
  {
    var own := OpenOf(db, p.seeker);
    var mid := CloseAll(db, own, Cancelled);
    Reads(db, c, db, CreateOpen(p), Closing(own, None, Cancelled, Some(p)));
    ClosesAll(db, c, db, own, Cancelled, Some(p));
    Reads(db, c, mid, Closing({}, None, Cancelled, Some(p)), CreateInsert(p));
    SupersededNoneOpen(db, p.seeker);
    NoOpenClash(mid, p);
    var (after, done) := StepCall(mid, CreateInsert(p), 0);
    Continues(db, c, mid, CreateInsert(p), 0, after, done);
  }

  lemma RespondAlone(db: Db, id: RequestId, p: UserId)
    ensures EndsAs(db, RespondFind(id, p), Respond(db, id, p))
  {
    var c := RespondFind(id, p);
    Begins(db, c);
    Reads(db, c, db, c, StepCall(db, c, 0).1);
    if id in db.requests && IsLive(db, db.requests[id]) {
      Reads(db, c, db, RespondRejected(id, p), StepCall(db, RespondRejected(id, p), 0).1);
      if id !in RejectedSet(db, p) {
        Reads(db, c, db, RespondExisting(id, p), StepCall(db, RespondExisting(id, p), 0).1);
        if Offer(id, p) !in db.offers {
          Continues(db, c, db, RespondInsert(id, p), 0, Respond(db, id, p).0, Done(Replied(Ok)));
        }
      }
    }
  }

  lemma RejectAlone(db: Db, id: RequestId, seeker: UserId, p: UserId)
    ensures EndsAs(db, RejectFind(id, seeker, p), Reject(db, id, seeker, p))
  {
    var c := RejectFind(id, seeker, p);
    Begins(db, c);
    Reads(db, c, db, c, StepCall(db, c, 0).1);
    if id in db.requests && db.requests[id].seeker == seeker {
      var mid := db.(offers := db.offers - {Offer(id, p)});
      Continues(db, c, db, RejectDelete(id, p), 0, mid, RejectKey(id, p));
      Continues(db, c, mid, RejectKey(id, p), 0, Reject(db, id, seeker, p).0, Done(Replied(Ok)));
    }
  }

  lemma CompleteAlone(db: Db, eid: EngagementId, u: UserId)
    ensures EndsAs(db, CompleteFind(eid, u), Complete(db, eid, u))
  {
    var c := CompleteFind(eid, u);
    Begins(db, c);
    Reads(db, c, db, c, StepCall(db, c, 0).1);
    if eid in db.engagements && db.engagements[eid].seeker == u && db.engagements[eid].status == Active {
      Continues(db, c, db, CompleteSave(eid, db.now), 0, Complete(db, eid, u).0, Done(Replied(Ok)));
    }
  }

  lemma AcceptAlone(db: Db, a: Accepting)
    requires Inv(db) && a.eid !in db.engagements
    ensures EndsAs(db, AcceptFind(a), Accept(db, a.seeker, a.id, a.provider, a.eid))
  {
    var c := AcceptFind(a);
    Begins(db, c);
    Reads(db, c, db, c, StepCall(db, c, 0).1);
    if a.id in db.requests && db.requests[a.id].seeker == a.seeker && IsLive(db, db.requests[a.id]) {
      Reads(db, c, db, AcceptOffered(a), StepCall(db, AcceptOffered(a), 0).1);
      if Offer(a.id, a.provider) in db.offers {
        Reads(db, c, db, AcceptSeekerFree(a), StepCall(db, AcceptSeekerFree(a), 0).1);
        if !SeekerActive(db, a.seeker) {
          Reads(db, c, db, AcceptProviderFree(a), StepCall(db, AcceptProviderFree(a), 0).1);
          if !ProviderActive(db, a.provider) { AcceptRest(db, c, a); }
        }
      }
    }
  }

  lemma NoClash(db: Db, a: Accepting)
    requires EngagedIsFulfilled(db.requests, db.engagements) && a.eid !in db.engagements
    requires a.id in db.requests && db.requests[a.id].status == Open
    requires !SeekerActive(db, a.seeker) && !ProviderActive(db, a.provider)
    ensures !EngagementClashes(db.engagements, a.eid, Engagement(a.id, a.seeker, a.provider, Active, None))
  {
  }

  lemma AcceptRest(db: Db, c: Call, a: Accepting)
    requires Inv(db) && Becomes(db, c, db, AcceptSave(a)) && Accept(db, a.seeker, a.id, a.provider, a.eid).1 == Ok
    ensures EndsAs(db, c, Accept(db, a.seeker, a.id, a.provider, a.eid))
  {
    NoClash(db, a);
    var e := Engagement(a.id, a.seeker, a.provider, Active, None);
    var saved := db.(engagements := db.engagements[a.eid := e]);
    var set' := saved.(requests := SetStatus(saved.requests, a.id, Fulfilled));
    Continues(db, c, db, AcceptSave(a), 0, saved, FulfilFind(a.id, a.eid));
    Reads(db, c, saved, FulfilFind(a.id, a.eid), FulfilSave(a.id, a.eid));
    Continues(db, c, saved, FulfilSave(a.id, a.eid), 0, set', FulfilClear(a.id));
    CloseOne(saved, a.id, Fulfilled);
    Continues(db, c, set', FulfilClear(a.id), 0, CloseAll(saved, {a.id}, Fulfilled), Done(Replied(Ok)));
  }

  lemma EndsAlone(db: Db, c: Call)
    requires Inv(db) && Initial(c) && FreshIds(db, c)
    ensures EndsAs(db, c, Write(db, OpOf(c)))
  {
    match c
    case AcceptFind(a) => AcceptAlone(db, a);
    case SweepFind => SweepAlone(db);
    case CancelFind(id, seeker) => CancelAlone(db, id, seeker);
    case CreateSkill(p) => CreateAlone(db, p);
    case RespondFind(id, p) => RespondAlone(db, id, p);
    case RejectFind(id, seeker, p) => RejectAlone(db, id, seeker, p);
    case CompleteFind(eid, u) => CompleteAlone(db, eid, u);
  }

  // ---- in the system of all calls ----

  ghost predicate StepsOf(acts: seq<Act>, k: nat) {
    forall i :: 0 <= i < |acts| ==> acts[i].Step? && acts[i].k == k
  }

  lemma {:induction false} StepsAlone(s: Sys, k: nat, picks: seq<RequestId>) returns (acts: seq<Act>)
    requires k in s.calls
    ensures StepsOf(acts, k)
    ensures var (db, c) := StepAll(s.db, s.calls[k], picks); Interleave(s, acts) == Sys(db, s.calls[k := c])
    decreases |picks|
  {
    if picks == [] {
      acts := [];
      assert s.calls[k := s.calls[k]] == s.calls;
    } else {
      var mid := Perform(s, Step(k, picks[0]));
      var rest := StepsAlone(mid, k, picks[1..]);
      acts := [Step(k, picks[0])] + rest;
      assert acts[1..] == rest;
      var c := StepAll(s.db, s.calls[k], picks).1;
      assert mid.calls[k := c] == s.calls[k := c];
    }
  }

  /** A call that runs undisturbed ends with the answer of the atomic call and leaves the
    * tables as that one does; other calls in flight do not notice. */
  lemma AloneIsAtomic(s: Sys, k: nat) returns (acts: seq<Act>)
    requires Inv(s.db) && k in s.calls && Initial(s.calls[k]) && FreshIds(s.db, s.calls[k])
    ensures StepsOf(acts, k)
    ensures var (after, status) := Write(s.db, OpOf(s.calls[k]));
            Interleave(s, acts) == Sys(after, s.calls[k := Done(Replied(status))])
  {
    EndsAlone(s.db, s.calls[k]);
    var (after, status) := Write(s.db, OpOf(s.calls[k]));
    var picks :| StepAll(s.db, s.calls[k], picks) == (after, Done(Replied(status)));
    acts := StepsAlone(s, k, picks);
  }
}
