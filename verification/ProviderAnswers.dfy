/** What each call of the provider application answers and leaves behind, field by field and
  * row by row of the tables before and after. */
module ProviderAnswers {
  import opened Options
  import opened Providers

  // ---- the words these statements use ----

  predicate Known(db: Db, u: UserId) { u in db.profiles || u in db.users }

  predicate InReview(db: Db, u: UserId) {
    u in db.profiles && (db.profiles[u].status == Submitted || db.profiles[u].status == Approved)
  }

  /** The application as it is, or the empty draft that viewing it would have made. */
  function Before(db: Db, u: UserId): Profile {
    if u in db.profiles then db.profiles[u] else Profile(None, None, None, false, {}, Draft, None, None, None)
  }

  /** Of the applications only u's changed, and nothing but applications. */
  ghost predicate OnlyProfileOf(db: Db, after: Db, u: UserId) {
    && after == db.(profiles := after.profiles)
    && after.profiles.Keys == db.profiles.Keys + {u}
    && (forall v :: v in db.profiles && v != u ==> after.profiles[v] == db.profiles[v])
  }

  predicate LengthIn(f: Field<string>, least: nat, most: nat) {
    match f case Given(s) => least <= |s| <= most case _ => true
  }

  ghost predicate WellFormed(dto: Dto) {
    && LengthIn(dto.legalName, 2, 120) && LengthIn(dto.description, 0, 1000) && LengthIn(dto.phone, 7, 15)
    && (dto.skillIds.Given? ==>
          var ids := dto.skillIds.value;
          |ids| <= 20 && forall i, j :: 0 <= i < |ids| && 0 <= j < |ids| && ids[i] == ids[j] ==> i == j)
  }

  /** A field of the body as the column takes it. */
  predicate Takes(was: Option<string>, f: Field<string>, now: Option<string>) {
    match f case Absent => now == was case Null => now.None? case Given(s) => now == Some(s)
  }

  // ---- providers.service.ts ----

  lemma UpdateAnswers(db: Db, u: UserId, dto: Dto)
    ensures
      var (after, reply) := Update(db, u, dto);
      && (reply == Ok <==> WellFormed(dto) && Known(db, u) && !InReview(db, u))
      && (!WellFormed(dto) ==> reply == BadRequest)
      && (WellFormed(dto) && !Known(db, u) ==> reply == UserGone)
      && (WellFormed(dto) && InReview(db, u) ==> reply == Locked)
      && (reply != Ok ==> after == db)
  {
  }

  /** Given fields are what is stored, null clears, absent ones stay; the number stays
    * verified exactly when it is the verified one; of the skills asked for those that
    * exist. */
  lemma UpdateLeaves(db: Db, u: UserId, dto: Dto)
    requires Update(db, u, dto).1 == Ok
    ensures
      var after, was := Update(db, u, dto).0, Before(db, u);
      && OnlyProfileOf(db, after, u)
      && var p := after.profiles[u];
         && Takes(was.legalName, dto.legalName, p.legalName) && Takes(was.description, dto.description, p.description)
         && Takes(was.phone, dto.phone, p.phone)
         && (p.phoneVerified <==> was.phoneVerified && p.phone == was.phone)
         && (dto.skillIds.Given? ==> forall s :: s in p.skills <==> s in db.skills && s in dto.skillIds.value)
         && (!dto.skillIds.Given? ==> p.skills == was.skills)
         && p.status == was.status && p.rejectionReason == was.rejectionReason
         && p.submittedAt == was.submittedAt && p.reviewedAt == was.reviewedAt
  {
  }

  predicate NumberOnFile(p: Profile) { p.phone.Some? && |p.phone.value| > 0 }

  lemma SendOtpAnswers(db: Db, u: UserId, code: Code)
    ensures
      var (after, reply) := SendOtp(db, u, code);
      && (reply == Ok <==> Known(db, u) && NumberOnFile(Before(db, u)))
      && (!Known(db, u) ==> reply == UserGone && after == db)
      && (Known(db, u) && !NumberOnFile(Before(db, u)) ==> reply == BadRequest)
      && (Known(db, u) ==>
            && after == db.(profiles := db.profiles[u := Before(db, u)], otps := after.otps)
            && (forall v :: v != u ==> (v in after.otps <==> v in db.otps))
            && (forall v :: v in db.otps && v != u ==> after.otps[v] == db.otps[v])
            && (reply == Ok ==> u in after.otps && after.otps[u] == Otp(code, db.now + 15 * 60 * 1000))
            && (reply != Ok ==> after.otps == db.otps))
  {
    assert u in db.profiles ==> db.profiles[u := db.profiles[u]] == db.profiles;
  }

  /** A code works once, within a quarter of an hour, and for its user only. */
  lemma VerifyOtpAnswers(db: Db, u: UserId, code: Code)
    ensures
      var (after, reply) := VerifyOtp(db, u, code);
      var live := u in db.otps && db.otps[u].code == code && db.otps[u].expireAt > db.now;
      && (reply == Ok <==> live && Known(db, u))
      && (!live ==> reply == BadRequest && after == db)
      && (live ==>
            && after == db.(profiles := after.profiles, otps := after.otps)
            && (forall v :: v in after.otps <==> v in db.otps && v != u)
            && (forall v :: v in after.otps ==> after.otps[v] == db.otps[v])
            && (!Known(db, u) ==> reply == UserGone && after.profiles == db.profiles)
            && (Known(db, u) ==> after.profiles == db.profiles[u := Before(db, u).(phoneVerified := true)]))
  {
  }

  /** In the user's folder, for five minutes, and for a key nothing is known of. */
  lemma PresignAnswers(db: Db, u: UserId, key: ObjectKey, image: bool)
    ensures
      var (after, reply) := Presign(db, u, key, image);
      && (reply == Ok <==> image && "providers/" + u + "/" <= key && Unheard(db, key))
      && (!image ==> reply == BadRequest) && (reply != Ok ==> after == db)
      && (reply == Ok ==> after == db.(urls := after.urls) && after.urls == db.urls[key := db.now + 5 * 60 * 1000])
  {
  }

  lemma PutAnswers(db: Db, key: ObjectKey, content: Content)
    ensures
      var (after, reply) := Put(db, key, content);
      && (reply == Ok <==> key in db.urls && db.now < db.urls[key])
      && after == db.(objects := after.objects)
      && after.objects == if reply == Ok then db.objects[key := content] else db.objects
  {
  }

  /** An upload of at most five megabytes, in the user's own folder, that is there. */
  predicate Acceptable(db: Db, u: UserId, key: ObjectKey, size: nat) {
    size <= 5 * 1024 * 1024 && "providers/" + u + "/" <= key && key in db.objects
  }

  lemma ConfirmAnswers(db: Db, u: UserId, kind: Kind, key: ObjectKey, size: nat, id: DocId, thumbs: bool)
    requires id !in db.documents
    ensures
      var (after, reply) := Confirm(db, u, kind, key, size, id, thumbs);
      && (reply == Ok <==> Acceptable(db, u, key, size) && Known(db, u) && !InReview(db, u))
      && (!Acceptable(db, u, key, size) ==> reply == BadRequest)
      && (Acceptable(db, u, key, size) && !Known(db, u) ==> reply == UserGone)
      && (Acceptable(db, u, key, size) && InReview(db, u) ==> reply == Locked)
      && (reply != Ok ==> after == db)
  {
  }

  /** A file of one of the user's documents of that kind. */
  ghost predicate OldFile(db: Db, u: UserId, kind: Kind, k: ObjectKey) {
    exists d :: d in db.documents && db.documents[d].owner == u && db.documents[d].kind == kind
                && (k == db.documents[d].key || db.documents[d].thumb == Some(k))
  }

  lemma FilesMean(db: Db, u: UserId, kind: Kind, k: ObjectKey)
    ensures k in Files(db.documents, Previous(db.documents, u, kind)) <==> OldFile(db, u, kind, k)
  {
    var gone := Previous(db.documents, u, kind);
    if k in Files(db.documents, gone) {
      var d :| d in gone && d in db.documents && k in FilesOf(db.documents[d]);
      assert db.documents[d].owner == u && db.documents[d].kind == kind;
    }
    if OldFile(db, u, kind, k) {
      var d :| d in db.documents && db.documents[d].owner == u && db.documents[d].kind == kind
               && (k == db.documents[d].key || db.documents[d].thumb == Some(k));
      assert d in gone && k in FilesOf(db.documents[d]);
    }
  }

  /** The user's documents of the kind make way for the new one, row by row. */
  lemma ConfirmLeavesRows(db: Db, u: UserId, kind: Kind, key: ObjectKey, size: nat, id: DocId, thumbs: bool)
    requires Confirm(db, u, kind, key, size, id, thumbs).1 == Ok
    ensures
      var after := Confirm(db, u, kind, key, size, id, thumbs).0;
      && after == db.(profiles := db.profiles[u := Before(db, u)],
                      documents := after.documents, objects := after.objects)
      && id !in db.documents && id in after.documents
      && (forall d :: d in after.documents && d != id <==>
            d in db.documents && !(db.documents[d].owner == u && db.documents[d].kind == kind))
      && (forall d :: d in after.documents && d != id ==> after.documents[d] == db.documents[d])
      && after.documents[id].owner == u && after.documents[id].kind == kind && after.documents[id].key == key
  {
    assert u in db.profiles ==> db.profiles[u := db.profiles[u]] == db.profiles;
  }

  /** Their files go; a thumbnail of the upload is added exactly when one can be made of a
    * file that is still there; every other file is as it was. */
  lemma ConfirmLeavesFiles(db: Db, u: UserId, kind: Kind, key: ObjectKey, size: nat, id: DocId, thumbs: bool,
                           k: ObjectKey)
    requires Confirm(db, u, kind, key, size, id, thumbs).1 == Ok
    ensures
      var after := Confirm(db, u, kind, key, size, id, thumbs).0;
      var thumb := key + ".thumb.jpg";
      var made := thumbs && !OldFile(db, u, kind, key);
      && after.documents[id].thumb == (if made then Some(thumb) else None)
      && (k != thumb || !made ==>
            && (k in after.objects <==> k in db.objects && !OldFile(db, u, kind, k))
            && (k in after.objects ==> after.objects[k] == db.objects[k]))
      && (made ==> thumb in after.objects && after.objects[thumb] == Thumbnail(db.objects[key]))
  {
    FilesMean(db, u, kind, k);
    FilesMean(db, u, kind, key);
    ConfirmLeavesRows(db, u, kind, key, size, id, thumbs);
  }

  ghost predicate HasDocument(db: Db, u: UserId, kind: Kind) {
    exists d :: d in db.documents && db.documents[d].owner == u && db.documents[d].kind == kind
  }

  function Rank(part: Missing): nat {
    match part case LegalName => 0 case VerifiedPhone => 1 case Skill => 2 case SelfiePhoto => 3 case IdPhoto => 4
  }

  /** What an application lacks: each part exactly when it is not there. */
  lemma MissingMeans(db: Db, u: UserId)
    requires u in db.profiles
    ensures
      var missing, p := MissingAt(db, u), db.profiles[u];
      && (LegalName in missing <==> p.legalName.None? || p.legalName.value == "")
      && (VerifiedPhone in missing <==> !p.phoneVerified)
      && (Skill in missing <==> forall s :: s !in p.skills)
      && (SelfiePhoto in missing <==> !HasDocument(db, u, Selfie))
      && (IdPhoto in missing <==> !HasDocument(db, u, IdDocument))
  {
    var p := db.profiles[u];
    assert p.skills == {} <==> forall s :: s !in p.skills;
  }

  lemma MissingInOrder(db: Db, u: UserId)
    requires u in db.profiles
    ensures var missing := MissingAt(db, u);
            forall i, j :: 0 <= i < j < |missing| ==> Rank(missing[i]) < Rank(missing[j])
  {
  }

  ghost predicate AllThere(db: Db, u: UserId) {
    var p := Before(db, u);
    && p.legalName.Some? && p.legalName.value != "" && p.phoneVerified && p.skills != {}
    && HasDocument(db, u, Selfie) && HasDocument(db, u, IdDocument)
  }

  lemma SubmitAnswers(db: Db, u: UserId)
    ensures
      var (after, reply) := Submit(db, u);
      && (reply == Ok <==> Known(db, u) && !InReview(db, u) && AllThere(db, u))
      && (!Known(db, u) ==> reply == UserGone && after == db)
      && (InReview(db, u) ==> reply == Locked && after == db)
      && (Known(db, u) && !InReview(db, u) && !AllThere(db, u) ==>
            reply.Incomplete? && after == db.(profiles := db.profiles[u := Before(db, u)]))
  {
    assert u in db.profiles ==> db.profiles[u := db.profiles[u]] == db.profiles;
  }

  /** Locked with the time of day, the old rejection gone; and the user, if the account is
    * not deleted, is a provider and no seeker any more. */
  lemma SubmitLeaves(db: Db, u: UserId)
    requires Submit(db, u).1 == Ok
    ensures
      var after := Submit(db, u).0;
      && after == db.(profiles := after.profiles, users := after.users)
      && after.profiles == db.profiles[u := Before(db, u).(status := Submitted, submittedAt := Some(db.now),
                                                           rejectionReason := None)]
      && after.users.Keys == db.users.Keys
      && (forall v :: v in db.users && (v != u || db.users[v].deleted) ==> after.users[v] == db.users[v])
      && (u in db.users && !db.users[u].deleted ==>
            && !after.users[u].deleted
            && forall r :: r in after.users[u].roles <==> r == Provider || (r in db.users[u].roles && r != Seeker))
  {
  }

  predicate AwaitsReview(db: Db, u: UserId) { u in db.profiles && db.profiles[u].status == Submitted }

  lemma ApproveAnswers(db: Db, u: UserId)
    ensures
      var (after, reply) := Approve(db, u);
      && (reply == Ok <==> AwaitsReview(db, u))
      && (u !in db.profiles ==> reply == NotFound)
      && (u in db.profiles && !AwaitsReview(db, u) ==> reply == BadRequest)
      && (reply != Ok ==> after == db)
      && (reply == Ok ==>
            && OnlyProfileOf(db, after, u)
            && after.profiles[u] == db.profiles[u].(status := Approved, reviewedAt := after.profiles[u].reviewedAt,
                                                    rejectionReason := after.profiles[u].rejectionReason)
            && after.profiles[u].reviewedAt == Some(db.now) && after.profiles[u].rejectionReason.None?)
  {
  }

  lemma RejectAnswers(db: Db, u: UserId, reason: string)
    ensures
      var (after, reply) := Reject(db, u, reason);
      && (reply == Ok <==> AwaitsReview(db, u) && 3 <= |reason| <= 500)
      && (!(3 <= |reason| <= 500) ==> reply == BadRequest)
      && (3 <= |reason| <= 500 && u !in db.profiles ==> reply == NotFound)
      && (3 <= |reason| <= 500 && u in db.profiles && !AwaitsReview(db, u) ==> reply == BadRequest)
      && (reply != Ok ==> after == db)
      && (reply == Ok ==>
            && OnlyProfileOf(db, after, u)
            && after.profiles[u] == db.profiles[u].(status := Rejected, reviewedAt := after.profiles[u].reviewedAt,
                                                    rejectionReason := after.profiles[u].rejectionReason)
            && after.profiles[u].reviewedAt == Some(db.now) && after.profiles[u].rejectionReason == Some(reason))
  {
  }

  /** Looking at one's application makes the draft, if there is none. */
  lemma ViewAnswers(db: Db, u: UserId)
    ensures
      var (after, reply) := Call(db, OpView(u));
      && (reply == Ok <==> Known(db, u)) && (!Known(db, u) ==> reply == UserGone && after == db)
      && (Known(db, u) ==> after == db.(profiles := db.profiles[u := Before(db, u)]))
  {
    assert u in db.profiles ==> db.profiles[u := db.profiles[u]] == db.profiles;
  }

  // ---- users.service.ts ----

  /** Signing in takes back a deletion; a new account starts without a role. */
  lemma SignInLeaves(db: Db, u: UserId)
    ensures
      var (after, reply) := SignIn(db, u);
      && reply == Ok && after == db.(users := after.users) && after.users.Keys == db.users.Keys + {u}
      && !after.users[u].deleted && after.users[u].roles == (if u in db.users then db.users[u].roles else {})
      && (forall v :: v in db.users && v != u ==> after.users[v] == db.users[v])
  {
  }

  lemma DeleteAccountAnswers(db: Db, u: UserId, busy: bool)
    ensures
      var (after, reply) := DeleteAccount(db, u, busy);
      && (reply == Conflict <==> busy) && (reply == Ok <==> !busy) && (busy ==> after == db)
      && after == db.(users := after.users) && after.users.Keys == db.users.Keys
      && (forall v :: v in db.users && v != u ==> after.users[v] == db.users[v])
      && (u in db.users && !busy ==> after.users[u].deleted && after.users[u].roles == db.users[u].roles)
  {
  }

  lemma ChooseSeekerAnswers(db: Db, u: UserId)
    ensures
      var (after, reply) := ChooseSeeker(db, u);
      var found := u in db.users && !db.users[u].deleted;
      && (reply == Conflict <==> found && Provider in db.users[u].roles)
      && (reply == Ok <==> !found || Provider !in db.users[u].roles)
      && after == db.(users := after.users) && after.users.Keys == db.users.Keys
      && (forall v :: v in db.users && v != u ==> after.users[v] == db.users[v])
      && (u in db.users ==>
            && after.users[u].deleted == db.users[u].deleted
            && forall r :: r in after.users[u].roles <==>
                 r in db.users[u].roles || (r == Seeker && found && reply == Ok))
  {
  }
}
