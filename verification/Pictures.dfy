/** The pictures of an application under review. A presigned PUT URL stays valid for five
  * minutes whatever becomes of the application, so a file can still be written over. */
module Pictures {
  import opened Options
  import opened Providers

  /** All files of some document rows. */
  function OwnFiles(own: map<DocId, Document>): set<ObjectKey> {
    set d, k | d in own && k in FilesOf(own[d]) :: k
  }

  /** What presentForAdmin's links lead to. */
  function PicturesOf(db: Db, u: UserId): map<ObjectKey, Content> {
    map k | k in OwnFiles(DocumentsOf(db.documents, u)) && k in db.objects :: db.objects[k]
  }

  predicate IsFileOf(db: Db, u: UserId, k: ObjectKey) { k in OwnFiles(DocumentsOf(db.documents, u)) }

  /** No PUT URL of a file of u is valid any more. */
  ghost predicate AllClosed(db: Db, u: UserId) { forall k :: IsFileOf(db, u, k) ==> !PutOpen(db, k) }

  // ---- rows stay in their folders ----

  lemma CallKeepsFiled(db: Db, op: Op)
    requires Filed(db.documents)
    ensures Filed(Next(db, op).documents)
  {
    if op.OpConfirm? && Call(db, op).1 == Ok {
      ReplacedFiled(Drafted(db, op.u), op.u, op.kind, op.key, op.id, op.thumbs);
    } else {
      OnlyConfirmTouchesDocuments(db, op);
    }
  }

  lemma FileInFolder(db: Db, u: UserId, k: ObjectKey)
    requires Filed(db.documents) && IsFileOf(db, u, k)
    ensures Folder(u) <= k && k in Files(db.documents, db.documents.Keys)
  {
    var d :| d in DocumentsOf(db.documents, u) && k in FilesOf(db.documents[d]);
  }

  // ---- one call, one file ----

  lemma ConfirmLeavesFile(db: Db, op: Op, u: UserId, k: ObjectKey)
    requires UnderReview(db, u) && Filed(db.documents) && IsFileOf(db, u, k) && op.OpConfirm?
    ensures var after := Next(db, op).objects;
            (k in after <==> k in db.objects) && (k in db.objects ==> after[k] == db.objects[k])
  {
    FileInFolder(db, u, k);
    if op.u != u && Call(db, op).1 == Ok {
      ReplacedStaysHome(Drafted(db, op.u), op.u, op.kind, op.key, op.id, op.thumbs, u, k);
    }
  }

  lemma FileStays(db: Db, op: Op, u: UserId, k: ObjectKey)
    requires UnderReview(db, u) && Filed(db.documents) && IsFileOf(db, u, k) && !PutOpen(db, k)
    ensures var after := Next(db, op).objects;
            (k in after <==> k in db.objects) && (k in db.objects ==> after[k] == db.objects[k])
  {
    if op.OpConfirm? {
      ConfirmLeavesFile(db, op, u, k);
    } else if !op.Tick? && !op.OpPresign? && !op.OpPut? {
      CallSameFiles(db, op);
    }
  }

  lemma ConfirmKeepsUrls(db: Db, op: Op)
    requires op.OpConfirm?
    ensures Next(db, op).urls == db.urls && Next(db, op).now == db.now
  {
  }

  lemma OnlyPresignOpens(db: Db, op: Op)
    requires !op.OpPresign?
    ensures Next(db, op).urls == db.urls && Next(db, op).now >= db.now
  {
    if op.OpConfirm? {
      ConfirmKeepsUrls(db, op);
    } else if !op.Tick? && !op.OpPut? {
      CallSameFiles(db, op);
    }
  }

  /** A closed URL stays closed: a file that is recorded is never presigned again. */
  lemma StaysClosed(db: Db, op: Op, u: UserId, k: ObjectKey)
    requires Filed(db.documents) && IsFileOf(db, u, k) && !PutOpen(db, k)
    ensures !PutOpen(Next(db, op), k)
  {
    FileInFolder(db, u, k);
    if !op.OpPresign? { OnlyPresignOpens(db, op); }
  }

  // ---- whole runs ----

  predicate NotRejected(ops: seq<Op>, u: UserId) {
    forall i :: 0 <= i < |ops| ==> !(ops[i].OpReject? && ops[i].u == u)
  }

  lemma {:induction false} PicturesFrozen(db: Db, ops: seq<Op>, u: UserId)
    requires UnderReview(db, u) && Filed(db.documents) && NotRejected(ops, u) && AllClosed(db, u)
    ensures PicturesOf(Run(db, ops), u) == PicturesOf(db, u)
    decreases |ops|
  {
    if ops != [] {
      var after := Next(db, ops[0]);
      FormFrozen(db, ops[0], u);
      DocumentsFrozen(db, ops[0], u);
      CallKeepsFiled(db, ops[0]);
      forall k | IsFileOf(db, u, k)
        ensures !PutOpen(after, k) && (k in after.objects <==> k in db.objects)
        ensures k in db.objects ==> after.objects[k] == db.objects[k]
      {
        FileStays(db, ops[0], u, k);
        StaysClosed(db, ops[0], u, k);
      }
      assert AllClosed(after, u);
      assert PicturesOf(after, u) == PicturesOf(db, u);
      PicturesFrozen(after, ops[1..], u);
    }
  }

  function Another(db: Db, k: ObjectKey): Content {
    if k in db.objects && db.objects[k] == Original(0) then Original(1) else Original(0)
  }

  lemma PutReplaces(db: Db, u: UserId, k: ObjectKey)
    requires IsFileOf(db, u, k) && PutOpen(db, k)
    ensures PicturesOf(Put(db, k, Another(db, k)).0, u) != PicturesOf(db, u)
  {
    var after := Put(db, k, Another(db, k)).0;
    assert k in PicturesOf(after, u) && PicturesOf(after, u)[k] == Another(db, k);
  }

  ghost predicate Swaps(db: Db, ops: seq<Op>, u: UserId) {
    NotRejected(ops, u) && PicturesOf(Run(db, ops), u) != PicturesOf(db, u)
  }

  /** The pictures under review can change before a decision if and only if a PUT URL of
    * one of them is still valid; else what is approved is what was submitted. */
  lemma PicturesCanChangeIff(db: Db, u: UserId)
    requires UnderReview(db, u) && Filed(db.documents)
    ensures (exists ops :: Swaps(db, ops, u)) <==> !AllClosed(db, u)
  {
    if AllClosed(db, u) {
      forall ops ensures !Swaps(db, ops, u) {
        if NotRejected(ops, u) { PicturesFrozen(db, ops, u); }
      }
    } else {
      var k :| IsFileOf(db, u, k) && PutOpen(db, k);
      var put := OpPut(k, Another(db, k));
      PutReplaces(db, u, k);
      assert Run(db, [put]) == Run(Next(db, put), []);
      assert Swaps(db, [put], u);
    }
  }

  // ---- five minutes ----

  ghost predicate UrlsInTime(db: Db) { forall k :: k in db.urls ==> db.urls[k] <= db.now + PUT_TTL_MS }

  lemma {:induction false} RunUrlsInTime(db: Db, ops: seq<Op>)
    requires UrlsInTime(db)
    ensures UrlsInTime(Run(db, ops))
    decreases |ops|
  {
    if ops != [] {
      if !ops[0].OpPresign? { OnlyPresignOpens(db, ops[0]); }
      RunUrlsInTime(Next(db, ops[0]), ops[1..]);
    }
  }

  lemma {:induction false} RunFiled(db: Db, ops: seq<Op>)
    requires Filed(db.documents)
    ensures Filed(Run(db, ops).documents)
    decreases |ops|
  {
    if ops != [] {
      CallKeepsFiled(db, ops[0]);
      RunFiled(Next(db, ops[0]), ops[1..]);
    }
  }

  /** Whatever PUT URLs the files of u have run out by then. */
  ghost predicate CloseBy(db: Db, u: UserId, until: nat) {
    forall k :: IsFileOf(db, u, k) && k in db.urls ==> db.urls[k] <= until
  }

  lemma {:induction false} RunCloseBy(db: Db, ops: seq<Op>, u: UserId, until: nat)
    requires UnderReview(db, u) && Filed(db.documents) && NotRejected(ops, u) && CloseBy(db, u, until)
    ensures UnderReview(Run(db, ops), u) && CloseBy(Run(db, ops), u, until)
    decreases |ops|
  {
    if ops != [] {
      FormFrozen(db, ops[0], u);
      DocumentsFrozen(db, ops[0], u);
      CallKeepsFiled(db, ops[0]);
      forall k | IsFileOf(db, u, k) && k in Next(db, ops[0]).urls ensures Next(db, ops[0]).urls[k] <= until {
        FileInFolder(db, u, k);
        if !ops[0].OpPresign? { OnlyPresignOpens(db, ops[0]); }
      }
      RunCloseBy(Next(db, ops[0]), ops[1..], u, until);
    }
  }

  /** Five minutes after a submission its pictures are final, whatever went on in between:
    * no run without a rejection changes them any more. */
  lemma FinalAfterFiveMinutes(start: Db, before: seq<Op>, u: UserId, between: seq<Op>, ops: seq<Op>)
    requires start.urls == map[] && start.documents == map[] && UnderReview(Run(start, before), u)
    requires NotRejected(between, u) && NotRejected(ops, u)
    requires Run(Run(start, before), between).now >= Run(start, before).now + PUT_TTL_MS
    ensures var later := Run(Run(start, before), between);
            PicturesOf(Run(later, ops), u) == PicturesOf(later, u)
  {
    var submitted := Run(start, before);
    RunFiled(start, before);
    RunUrlsInTime(start, before);
    RunCloseBy(submitted, between, u, submitted.now + PUT_TTL_MS);
    RunFiled(submitted, between);
    PicturesFrozen(Run(submitted, between), ops, u);
  }

  lemma SubmitAccepts(db: Db, u: UserId)
    requires u in db.profiles && Editable(db.profiles[u]) && MissingAt(db, u) == []
    ensures var after := Submit(db, u).0; u in after.profiles && after.profiles[u].status == Submitted
  {
  }

  /** Before that they need not be: submit, write over the selfie, approve. */
  lemma SwappedBeforeApproval(db: Db, u: UserId, k: ObjectKey)
    requires u in db.profiles && Editable(db.profiles[u]) && MissingAt(db, u) == []
    requires IsFileOf(db, u, k) && PutOpen(db, k)
    ensures
      var submitted := Submit(db, u).0;
      var swapped := Put(submitted, k, Another(submitted, k)).0;
      var approved := Approve(swapped, u).0;
      && UnderReview(submitted, u) && u in approved.profiles && approved.profiles[u].status == Approved
      && PicturesOf(approved, u) != PicturesOf(submitted, u)
  {
    var submitted := Submit(db, u).0;
    SubmitAccepts(db, u);
    SubmitSameFiles(db, u, MissingAt(db, u));
    PutReplaces(submitted, u, k);
    var swapped := Put(submitted, k, Another(submitted, k)).0;
    ApproveSameFiles(swapped, u);
    assert PicturesOf(Approve(swapped, u).0, u) == PicturesOf(swapped, u);
  }
}
