/** A provider pages through completed jobs while the marketplace runs: `completedJobs` of
  * engagements.service.ts between other calls, any number of them per fetch. */
module JobPaging {
  import opened Options
  import opened Marketplace
  import opened Lifecycle
  import opened Keyset
  import opened LivePaging

  ghost function JobRows(db: Db, p: UserId): set<Row> {
    set e | e in db.engagements && db.engagements[e].provider == p && db.engagements[e].completedAt.Some?
      :: Row(db.engagements[e].completedAt.value, e)
  }

  /** Listed is exactly what is COMPLETED of the provider, under the time it was. */
  lemma JobsListed(db: Db, p: UserId, e: EngagementId)
    requires CompletedStamped(db.engagements, db.now)
    ensures (exists t :: Row(t, e) in JobRows(db, p)) <==>
              e in db.engagements && db.engagements[e].provider == p && db.engagements[e].status == Completed
    ensures forall t: nat :: Row(t, e) in JobRows(db, p) ==>
              e in db.engagements && db.engagements[e].completedAt == Some(t)
  {
    if e in db.engagements && db.engagements[e].provider == p && db.engagements[e].completedAt.Some? {
      assert Row(db.engagements[e].completedAt.value, e) in JobRows(db, p);
    }
  }

  /** The states a sequence of page fetches sees: batches[i] runs before fetch i + 1. */
  ghost function Fetches(db: Db, batches: seq<seq<Op>>, p: UserId): (snaps: seq<set<Row>>)
    ensures |snaps| == |batches| + 1 && snaps[0] == JobRows(db, p)
    decreases |batches|
  {
    if batches == [] then [JobRows(db, p)]
    else [JobRows(db, p)] + Fetches(Run(db, batches[0]), batches[1..], p)
  }

  lemma JobsOnlyGrow(db: Db, ops: seq<Op>, p: UserId)
    requires Inv(db)
    ensures JobRows(db, p) <= JobRows(Run(db, ops), p)
  {
    RunLater(db, ops);
    forall e | e in db.engagements && db.engagements[e].completedAt.Some?
      ensures Run(db, ops).engagements[e] == db.engagements[e] {}
  }

  lemma {:induction false} FetchesGrow(db: Db, batches: seq<seq<Op>>, p: UserId)
    requires Inv(db)
    ensures Growing(Fetches(db, batches, p))
    decreases |batches|
  {
    if batches != [] {
      JobsOnlyGrow(db, batches[0], p);
      RunKeeps(db, batches[0]);
      FetchesGrow(Run(db, batches[0]), batches[1..], p);
    }
  }

  /** A provider pages through completed jobs while the marketplace runs: whatever
    * happens between the fetches, no job is delivered twice, and every job completed
    * before the first fetch is delivered by the end of the walk. */
  lemma JobsPagedWhileRunning(db: Db, batches: seq<seq<Op>>, p: UserId, limits: nat -> int)
    requires Inv(db)
    ensures
      var pages := LiveWalk(Fetches(db, batches, p), 1, limits, 0, Param(Empty));
      && Descending(Delivered(pages))
      && (Finished(pages) ==> forall r :: r in JobRows(db, p) ==> r in Delivered(pages))
  {
    FetchesGrow(db, batches, p);
    PagingUnderWrites(Fetches(db, batches, p), limits);
  }

  // ---- the walk ends ----

  /** What was not yet completed at the first fetch is stamped then or later. */
  lemma {:induction false} NewJobsLater(db: Db, ops: seq<Op>, p: UserId, r: Row)
    requires r in JobRows(Run(db, ops), p) && r !in JobRows(db, p)
    ensures r.t >= db.now
    decreases |ops|
  {
    if ops != [] {
      var after := Next(db, ops[0]);
      NextLater(db, ops[0]);
      if r in JobRows(after, p) { StampedNow(db, ops[0], p, r); } else { NewJobsLater(after, ops[1..], p, r); }
    }
  }

  lemma StampedNow(db: Db, op: Op, p: UserId, r: Row)
    requires r in JobRows(Next(db, op), p) && r !in JobRows(db, p)
    ensures r.t == db.now
  {
    var e :| e in Next(db, op).engagements && Next(db, op).engagements[e].provider == p
             && Next(db, op).engagements[e].completedAt.Some?
             && r == Row(Next(db, op).engagements[e].completedAt.value, e);
    assert !op.CompleteOp? && !op.AcceptOp? ==> Next(db, op).engagements == db.engagements;
  }

  lemma {:induction false} FetchedLater(db: Db, batches: seq<seq<Op>>, p: UserId, i: nat, r: Row)
    requires i < |Fetches(db, batches, p)| && r in Fetches(db, batches, p)[i] && r !in JobRows(db, p)
    ensures r.t >= db.now
    decreases |batches|
  {
    if i > 0 {
      var after := Run(db, batches[0]);
      RunLater(db, batches[0]);
      if r in JobRows(after, p) {
        NewJobsLater(db, batches[0], p, r);
      } else {
        FetchedLater(after, batches[1..], p, i - 1, r);
      }
    }
  }

  /** The rows that a walk can still see below a row of its first fetch: those of that
    * fetch, and jobs completed in its very millisecond with a smaller id. */
  ghost function Reachable(db: Db, p: UserId, ids: nat): set<Row> {
    JobRows(db, p) + set j | 0 <= j < ids :: Row(db.now, j)
  }

  lemma {:induction false} StampsCount(now: nat, ids: nat)
    ensures |set j | 0 <= j < ids :: Row(now, j)| == ids
  {
    if ids > 0 {
      StampsCount(now, ids - 1);
      assert (set j | 0 <= j < ids :: Row(now, j)) == (set j | 0 <= j < ids - 1 :: Row(now, j)) + {Row(now, ids - 1)};
    }
  }

  lemma BelowIsReachable(db: Db, batches: seq<seq<Op>>, p: UserId, ids: nat, cut: Row, i: nat)
    requires Inv(db) && cut in JobRows(db, p) && cut.id < ids && i < |Fetches(db, batches, p)|
    ensures Visible(Fetches(db, batches, p)[i], Some(cut)) <= Reachable(db, p, ids)
  {
    forall r | r in Visible(Fetches(db, batches, p)[i], Some(cut)) ensures r in Reachable(db, p, ids) {
      if r !in JobRows(db, p) {
        FetchedLater(db, batches, p, i, r);
        assert r == Row(db.now, r.id);
      }
    }
  }

  lemma RestEnds(db: Db, batches: seq<seq<Op>>, p: UserId, limits: nat -> int, k: nat, ids: nat, raw: Option<Raw>)
    requires Inv(db) && DecodeCursor(raw).Some? && DecodeCursor(raw).value in JobRows(db, p)
    requires DecodeCursor(raw).value.id < ids && |batches| > |JobRows(db, p)| + ids
    ensures Finished(LiveWalk(Fetches(db, batches, p)[1..], 1, limits, k, raw))
  {
    var later, cut := Fetches(db, batches, p)[1..], DecodeCursor(raw).value;
    forall i | 0 <= i < |later| ensures Visible(later[i], Some(cut)) <= Reachable(db, p, ids) {
      BelowIsReachable(db, batches, p, ids, cut, i + 1);
    }
    StampsCount(db.now, ids);
    VisibleFewer(Reachable(db, p, ids), Some(cut));
    LiveWalkEnds(later, 1, limits, k, raw, Reachable(db, p, ids));
  }

  lemma WalkEndsFrom(db: Db, batches: seq<seq<Op>>, p: UserId, limits: nat -> int, k: nat, ids: nat, raw: Option<Raw>,
                     next: Option<Raw>)
    requires Inv(db) && (forall r :: r in JobRows(db, p) ==> r.id < ids) && |batches| > |JobRows(db, p)| + ids
    requires next == FetchPage(JobRows(db, p), 1, limits(k), raw).next
    ensures Finished(LiveWalk(Fetches(db, batches, p), 1, limits, k, raw))
  {
    CursorInTable(JobRows(db, p), limits(k), raw);
    if next.Some? { RestEnds(db, batches, p, limits, k + 1, ids, next); }
    FinishedRest(Fetches(db, batches, p), 1, limits, k, raw);
  }

  /** The walk comes to its end, however many jobs complete meanwhile: after at most as many
    * fetches as there were jobs at the first one, plus one for each id below theirs. */
  lemma JobsWalkEnds(db: Db, batches: seq<seq<Op>>, p: UserId, limits: nat -> int, ids: nat)
    requires Inv(db) && (forall r :: r in JobRows(db, p) ==> r.id < ids)
    requires |batches| > |JobRows(db, p)| + ids
    ensures Finished(LiveWalk(Fetches(db, batches, p), 1, limits, 0, Param(Empty)))
  {
    var next := FetchPage(JobRows(db, p), 1, limits(0), Param(Empty)).next;
    WalkEndsFrom(db, batches, p, limits, 0, ids, Param(Empty), next);
  }

  /** Whatever happens between the fetches, a walk that is followed long enough delivers
    * every job completed before its first fetch, and none twice. */
  lemma JobsPagedToTheEnd(db: Db, batches: seq<seq<Op>>, p: UserId, limits: nat -> int, ids: nat)
    requires Inv(db) && (forall r :: r in JobRows(db, p) ==> r.id < ids)
    requires |batches| > |JobRows(db, p)| + ids
    ensures
      var pages := LiveWalk(Fetches(db, batches, p), 1, limits, 0, Param(Empty));
      && Finished(pages) && Descending(Delivered(pages))
      && (forall r :: r in JobRows(db, p) ==> r in Delivered(pages))
  {
    JobsWalkEnds(db, batches, p, limits, ids);
    JobsPagedWhileRunning(db, batches, p, limits);
  }

  /** If the first fetch comes in a later millisecond than the last completion, the walk
    * returns exactly the list of that fetch, in as many fetches as it takes alone. */
  lemma JobsPagedExactly(db: Db, batches: seq<seq<Op>>, p: UserId, limits: nat -> int)
    requires Inv(db) && (forall r :: r in JobRows(db, p) ==> r.t < db.now)
    requires |batches| >= |JobRows(db, p)|
    ensures Delivered(LiveWalk(Fetches(db, batches, p), 1, limits, 0, Param(Empty))) == SortDesc(JobRows(db, p))
  {
    var snaps := Fetches(db, batches, p);
    FetchesGrow(db, batches, p);
    forall i | 0 <= i < |snaps| ensures AddsOnlyNewer(snaps[0], snaps[i]) {
      SnapsContain(snaps[..i + 1]);
      forall r, q | r in snaps[i] && r !in snaps[0] && q in snaps[0] ensures Below(q, r) {
        FetchedLater(db, batches, p, i, r);
      }
    }
    WalkPages(JobRows(db, p), 1, limits);
    PagingUnderNewerWrites(snaps, limits);
  }
}
