/** The provider application: providers.service.ts, the role changes of users.service.ts
  * and the wizard's resume step. One step per service call. A profile is named by its
  * user (userId is unique); new document ids are fresh, so a taken one is refused. */
module Providers {
  import opened Options

  /** A UUID, so it holds no slash. */
  type UserId = u: string | '/' !in u witness ""
  type SkillId = nat
  type DocId = nat
  type Code = nat
  type ObjectKey = string

  const MAX_UPLOAD_BYTES: nat := 5 * 1024 * 1024
  const OTP_TTL_MS: nat := 15 * 60 * 1000
  const PUT_TTL_MS: nat := 5 * 60 * 1000

  datatype Role = Seeker | Provider | Admin
  datatype User = User(roles: set<Role>, deleted: bool)
  datatype Status = Draft | Submitted | Approved | Rejected
  datatype Profile = Profile(legalName: Option<string>, description: Option<string>, phone: Option<string>,
                             phoneVerified: bool, skills: set<SkillId>, status: Status,
                             rejectionReason: Option<string>, submittedAt: Option<nat>, reviewedAt: Option<nat>)
  datatype Kind = Selfie | IdDocument
  datatype Document = Document(owner: UserId, kind: Kind, key: ObjectKey, thumb: Option<ObjectKey>)
  datatype Otp = Otp(code: Code, expireAt: nat)

  /** What a file holds. */
  datatype Content = Original(n: nat) | Thumbnail(of: Content)

  /** urls: the keys a PUT URL was presigned for, and until when it is valid; objects: the
    * files in the storage bucket. */
  datatype Db = Db(now: nat, skills: set<SkillId>, users: map<UserId, User>, profiles: map<UserId, Profile>,
                   documents: map<DocId, Document>, otps: map<UserId, Otp>, urls: map<ObjectKey, nat>,
                   objects: map<ObjectKey, Content>)

  /** A field of a JSON body. IsOptional skips every other rule for null as well. */
  datatype Field<T> = Absent | Null | Given(value: T)
  datatype Dto = Dto(legalName: Field<string>, description: Field<string>, phone: Field<string>,
                     skillIds: Field<seq<SkillId>>)

  datatype Missing = LegalName | VerifiedPhone | Skill | SelfiePhoto | IdPhoto
  datatype Reply = Ok | BadRequest | Locked | Incomplete(missing: seq<Missing>) | NotFound | Conflict | UserGone

  // ---- The pieces the service and the wizard share ----

  /** JavaScript truthiness of a nullable string. */
  predicate Truthy(s: Option<string>) { s.Some? && s.value != "" }

  predicate Editable(p: Profile) { p.status != Submitted && p.status != Approved }

  predicate Has(documents: map<DocId, Document>, u: UserId, kind: Kind) {
    exists d :: d in documents && documents[d].owner == u && documents[d].kind == kind
  }

  function Also(so: seq<Missing>, lacks: bool, part: Missing): seq<Missing> { if lacks then so + [part] else so }

  function MissingOf(p: Profile, selfie: bool, id: bool): seq<Missing> {
    var details := Also(Also([], !Truthy(p.legalName), LegalName), !p.phoneVerified, VerifiedPhone);
    Also(Also(Also(details, p.skills == {}, Skill), !selfie, SelfiePhoto), !id, IdPhoto)
  }

  /** computeResumeStep */
  function ResumeStep(p: Profile, selfie: bool, id: bool): nat {
    if !Truthy(p.legalName) || !Truthy(p.phone) then 1
    else if !p.phoneVerified then 2
    else if p.skills == {} then 3
    else if !selfie || !id then 4
    else 5
  }

  function MissingAt(db: Db, u: UserId): seq<Missing>
    requires u in db.profiles
  {
    MissingOf(db.profiles[u], Has(db.documents, u, Selfie), Has(db.documents, u, IdDocument))
  }

  function ResumeAt(db: Db, u: UserId): nat
    requires u in db.profiles
  {
    ResumeStep(db.profiles[u], Has(db.documents, u, Selfie), Has(db.documents, u, IdDocument))
  }

  // ---- Service calls ----

  function EmptyDraft(): Profile {
    Profile(None, None, None, false, {}, Draft, None, None, None)
  }

  /** getOrCreateDraft. Inserting for a purged user breaks the foreign key. */
  predicate Draftable(db: Db, u: UserId) { u in db.profiles || u in db.users }

  function Drafted(db: Db, u: UserId): Db {
    if u in db.profiles then db else db.(profiles := db.profiles[u := EmptyDraft()])
  }

  function WithProfile(db: Db, u: UserId, p: Profile): Db { db.(profiles := db.profiles[u := p]) }

  predicate TextOk(f: Field<string>, least: nat, most: nat) { f.Given? ==> least <= |f.value| <= most }

  predicate NoRepeats(ids: seq<SkillId>) { forall i, j :: 0 <= i < j < |ids| ==> ids[i] != ids[j] }

  predicate ValidDto(dto: Dto) {
    && TextOk(dto.legalName, 2, 120) && TextOk(dto.phone, 7, 15) && TextOk(dto.description, 0, 1000)
    && (dto.skillIds.Given? ==> |dto.skillIds.value| <= 20 && NoRepeats(dto.skillIds.value))
  }

  function Nullable(f: Field<string>, kept: Option<string>): Option<string> {
    match f case Absent => kept case Null => None case Given(s) => Some(s)
  }

  function Chosen(skills: set<SkillId>, ids: seq<SkillId>): set<SkillId> {
    set s | s in skills && s in ids
  }

  function Edited(p: Profile, dto: Dto, skills: set<SkillId>): Profile {
    var phone := Nullable(dto.phone, p.phone);
    p.(legalName := Nullable(dto.legalName, p.legalName),
       description := Nullable(dto.description, p.description),
       phone := phone,
       phoneVerified := p.phoneVerified && phone == p.phone,
       skills := if dto.skillIds.Given? then Chosen(skills, dto.skillIds.value) else p.skills)
  }

  function Update(db: Db, u: UserId, dto: Dto): (Db, Reply) {
    if !ValidDto(dto) then (db, BadRequest)
    else if !Draftable(db, u) then (db, UserGone)
    else UpdateDraft(Drafted(db, u), u, dto)
  }

  function UpdateDraft(db: Db, u: UserId, dto: Dto): (Db, Reply)
    requires u in db.profiles
  {
    if !Editable(db.profiles[u]) then (db, Locked)
    else (WithProfile(db, u, Edited(db.profiles[u], dto, db.skills)), Ok)
  }

  function SendOtp(db: Db, u: UserId, code: Code): (Db, Reply) {
    if !Draftable(db, u) then (db, UserGone)
    else
      var d := Drafted(db, u);
      if !Truthy(d.profiles[u].phone) then (d, BadRequest)
      else (d.(otps := d.otps[u := Otp(code, d.now + OTP_TTL_MS)]), Ok)
  }

  predicate LiveOtp(db: Db, u: UserId, code: Code) {
    u in db.otps && db.now < db.otps[u].expireAt && db.otps[u].code == code
  }

  function VerifyOtp(db: Db, u: UserId, code: Code): (Db, Reply) {
    if !LiveOtp(db, u, code) then (db, BadRequest)
    else
      var spent := db.(otps := db.otps - {u});
      if !Draftable(spent, u) then (spent, UserGone)
      else
        var d := Drafted(spent, u);
        (WithProfile(d, u, d.profiles[u].(phoneVerified := true)), Ok)
  }

  function Folder(u: UserId): string { "providers/" + u + "/" }

  function ThumbKey(key: ObjectKey): ObjectKey { key + ".thumb.jpg" }

  function Previous(documents: map<DocId, Document>, u: UserId, kind: Kind): set<DocId> {
    set d | d in documents && documents[d].owner == u && documents[d].kind == kind
  }

  /** What one row keeps in the bucket. */
  function FilesOf(row: Document): set<ObjectKey> {
    {row.key} + if row.thumb.Some? then {row.thumb.value} else {}
  }

  function Files(documents: map<DocId, Document>, ids: set<DocId>): set<ObjectKey> {
    set d, k | d in ids && d in documents && k in FilesOf(documents[d]) :: k
  }

  /** The rows and files after the previous document of that kind made way. thumbs: the
    * image can be turned into a thumbnail (it also has to be there still). */
  function Replaced(db: Db, u: UserId, kind: Kind, key: ObjectKey, id: DocId, thumbs: bool): Db {
    var gone := Previous(db.documents, u, kind);
    var left := db.objects - Files(db.documents, gone);
    var thumb := if thumbs && key in left then Some(ThumbKey(key)) else None;
    db.(documents := (db.documents - gone)[id := Document(u, kind, key, thumb)],
        objects := if thumb.Some? then left[thumb.value := Thumbnail(left[key])] else left)
  }

  function Confirm(db: Db, u: UserId, kind: Kind, key: ObjectKey, size: nat, id: DocId, thumbs: bool): (Db, Reply) {
    if size > MAX_UPLOAD_BYTES || !(Folder(u) <= key) || key !in db.objects then (db, BadRequest)
    else if !Draftable(db, u) then (db, UserGone)
    else ConfirmDraft(Drafted(db, u), u, kind, key, id, thumbs)
  }

  function ConfirmDraft(db: Db, u: UserId, kind: Kind, key: ObjectKey, id: DocId, thumbs: bool): (Db, Reply)
    requires u in db.profiles
  {
    if !Editable(db.profiles[u]) then (db, Locked)
    else if id in db.documents then (db, Conflict)
    else (Replaced(db, u, kind, key, id, thumbs), Ok)
  }

  /** A key that ends in a new random UUID: none presigned, stored or recorded so far. */
  predicate Unheard(db: Db, key: ObjectKey) {
    key !in db.urls && key !in db.objects && key !in Files(db.documents, db.documents.Keys)
  }

  /** image: the file type is one of those allowed. */
  function Presign(db: Db, u: UserId, key: ObjectKey, image: bool): (Db, Reply) {
    if !image then (db, BadRequest)
    else if !(Folder(u) <= key) || !Unheard(db, key) then (db, Conflict)
    else (db.(urls := db.urls[key := db.now + PUT_TTL_MS]), Ok)
  }

  predicate PutOpen(db: Db, key: ObjectKey) { key in db.urls && db.now < db.urls[key] }

  /** A PUT straight to the bucket, again and again while the URL is valid. */
  function Put(db: Db, key: ObjectKey, content: Content): (Db, Reply) {
    if !PutOpen(db, key) then (db, BadRequest) else (db.(objects := db.objects[key := content]), Ok)
  }

  /** findById does not see a soft-deleted account. */
  predicate Found(db: Db, u: UserId) { u in db.users && !db.users[u].deleted }

  function Promote(db: Db, u: UserId): Db {
    if !Found(db, u) then db
    else db.(users := db.users[u := db.users[u].(roles := db.users[u].roles - {Seeker} + {Provider})])
  }

  function Submit(db: Db, u: UserId): (Db, Reply) {
    if !Draftable(db, u) then (db, UserGone)
    else
      var d := Drafted(db, u);
      SubmitDraft(d, u, MissingAt(d, u))
  }

  function SubmitDraft(db: Db, u: UserId, missing: seq<Missing>): (Db, Reply)
    requires u in db.profiles
  {
    if !Editable(db.profiles[u]) then (db, Locked)
    else if missing != [] then (db, Incomplete(missing))
    else (Lock(db, u), Ok)
  }

  function Lock(db: Db, u: UserId): Db
    requires u in db.profiles
  {
    var p := db.profiles[u].(status := Submitted, submittedAt := Some(db.now), rejectionReason := None);
    Promote(WithProfile(db, u, p), u)
  }

  function Approve(db: Db, u: UserId): (Db, Reply) {
    if u !in db.profiles then (db, NotFound)
    else if db.profiles[u].status != Submitted then (db, BadRequest)
    else (WithProfile(db, u, db.profiles[u].(status := Approved, reviewedAt := Some(db.now),
                                             rejectionReason := None)), Ok)
  }

  function Reject(db: Db, u: UserId, reason: string): (Db, Reply) {
    if !(3 <= |reason| <= 500) then (db, BadRequest)
    else if u !in db.profiles then (db, NotFound)
    else if db.profiles[u].status != Submitted then (db, BadRequest)
    else (WithProfile(db, u, db.profiles[u].(status := Rejected, rejectionReason := Some(reason),
                                             reviewedAt := Some(db.now))), Ok)
  }

  function ChooseSeeker(db: Db, u: UserId): (Db, Reply) {
    if !Found(db, u) then (db, Ok)
    else if Provider in db.users[u].roles then (db, Conflict)
    else (db.(users := db.users[u := db.users[u].(roles := db.users[u].roles + {Seeker})]), Ok)
  }

  /** A Google sign-in creates the account without roles, or takes back its deletion. */
  function SignIn(db: Db, u: UserId): (Db, Reply) {
    (db.(users := db.users[u := if u in db.users then db.users[u].(deleted := false) else User({}, false)]), Ok)
  }

  /** busy: a job is in progress. */
  function DeleteAccount(db: Db, u: UserId, busy: bool): (Db, Reply) {
    if busy then (db, Conflict)
    else if u !in db.users then (db, Ok)
    else (db.(users := db.users[u := db.users[u].(deleted := true)]), Ok)
  }

  datatype Op =
    | Tick(ms: nat)
    | OpSignIn(u: UserId)
    | OpDeleteAccount(u: UserId, busy: bool)
    | OpChooseSeeker(u: UserId)
    | OpView(u: UserId)
    | OpUpdate(u: UserId, dto: Dto)
    | OpSendOtp(u: UserId, code: Code)
    | OpVerifyOtp(u: UserId, code: Code)
    | OpPresign(u: UserId, key: ObjectKey, image: bool)
    | OpPut(key: ObjectKey, content: Content)
    | OpConfirm(u: UserId, kind: Kind, key: ObjectKey, size: nat, id: DocId, thumbs: bool)
    | OpSubmit(u: UserId)
    | OpApprove(u: UserId)
    | OpReject(u: UserId, reason: string)

  function Call(db: Db, op: Op): (Db, Reply) {
    match op
    case Tick(ms) => (db.(now := db.now + ms), Ok)
    case OpSignIn(u) => SignIn(db, u)
    case OpDeleteAccount(u, busy) => DeleteAccount(db, u, busy)
    case OpChooseSeeker(u) => ChooseSeeker(db, u)
    case OpView(u) => if Draftable(db, u) then (Drafted(db, u), Ok) else (db, UserGone)
    case OpUpdate(u, dto) => Update(db, u, dto)
    case OpSendOtp(u, code) => SendOtp(db, u, code)
    case OpVerifyOtp(u, code) => VerifyOtp(db, u, code)
    case OpPresign(u, key, image) => Presign(db, u, key, image)
    case OpPut(key, content) => Put(db, key, content)
    case OpConfirm(u, kind, key, size, id, thumbs) => Confirm(db, u, kind, key, size, id, thumbs)
    case OpSubmit(u) => Submit(db, u)
    case OpApprove(u) => Approve(db, u)
    case OpReject(u, reason) => Reject(db, u, reason)
  }

  function Next(db: Db, op: Op): Db { Call(db, op).0 }

  function Run(db: Db, ops: seq<Op>): Db
    decreases |ops|
  {
    if ops == [] then db else Run(Next(db, ops[0]), ops[1..])
  }

  /** Accounts may exist already, with any roles but seeker and provider at once. */
  predicate Start(db: Db) {
    db.profiles == map[] && db.documents == map[] && db.otps == map[] && Exclusive(db.users)
  }

  /** Nothing about documents, uploads or time has changed. */
  predicate SameFiles(a: Db, b: Db) {
    a.documents == b.documents && a.urls == b.urls && a.objects == b.objects && a.now == b.now
  }

  lemma UpdateSameFiles(db: Db, v: UserId, dto: Dto)
    requires v in db.profiles
    ensures SameFiles(db, UpdateDraft(db, v, dto).0)
  {
  }

  lemma SendOtpSameFiles(db: Db, v: UserId, code: Code)
    ensures SameFiles(db, SendOtp(db, v, code).0)
  {
  }

  lemma VerifyOtpSameFiles(db: Db, v: UserId, code: Code)
    ensures SameFiles(db, VerifyOtp(db, v, code).0)
  {
  }

  lemma SubmitSameFiles(db: Db, v: UserId, missing: seq<Missing>)
    requires v in db.profiles
    ensures SameFiles(db, SubmitDraft(db, v, missing).0)
  {
  }

  lemma ApproveSameFiles(db: Db, v: UserId)
    ensures SameFiles(db, Approve(db, v).0)
  {
  }

  lemma RejectSameFiles(db: Db, v: UserId, reason: string)
    ensures SameFiles(db, Reject(db, v, reason).0)
  {
  }

  /** Only a confirmation, a PUT, a presign and time can change any of that. */
  lemma CallSameFiles(db: Db, op: Op)
    requires !op.Tick? && !op.OpPresign? && !op.OpPut?
    requires op.OpConfirm? ==> Call(db, op).1 != Ok
    ensures SameFiles(db, Next(db, op))
  {
    match op
    case OpUpdate(v, dto) => if Draftable(db, v) { UpdateSameFiles(Drafted(db, v), v, dto); }
    case OpSendOtp(v, code) => SendOtpSameFiles(db, v, code);
    case OpVerifyOtp(v, code) => VerifyOtpSameFiles(db, v, code);
    case OpSubmit(v) => if Draftable(db, v) { SubmitSameFiles(Drafted(db, v), v, MissingAt(Drafted(db, v), v)); }
    case OpApprove(v) => ApproveSameFiles(db, v);
    case OpReject(v, reason) => RejectSameFiles(db, v, reason);
    case _ =>
  }

  lemma OnlyConfirmTouchesDocuments(db: Db, op: Op)
    requires op.OpConfirm? ==> Call(db, op).1 != Ok
    ensures Next(db, op).documents == db.documents
  {
    if !op.Tick? && !op.OpPresign? && !op.OpPut? { CallSameFiles(db, op); }
  }

  lemma OnlyConfirmRemovesFiles(db: Db, op: Op)
    requires op.OpConfirm? ==> Call(db, op).1 != Ok
    ensures db.objects.Keys <= Next(db, op).objects.Keys
  {
    if !op.Tick? && !op.OpPresign? && !op.OpPut? { CallSameFiles(db, op); }
  }

  // ---- Submitted means complete, on every run ----

  predicate Exclusive(users: map<UserId, User>) {
    forall u :: u in users ==> !(Seeker in users[u].roles && Provider in users[u].roles)
  }

  predicate OnePerKind(documents: map<DocId, Document>) {
    forall d, e ::
      (d in documents && e in documents
       && documents[d].owner == documents[e].owner && documents[d].kind == documents[e].kind) ==> d == e
  }

  /** What each part of a complete application is, in words of the tables themselves. */
  predicate Complete(p: Profile, documents: map<DocId, Document>, u: UserId) {
    && Truthy(p.legalName) && p.phoneVerified && p.skills != {}
    && Has(documents, u, Selfie) && Has(documents, u, IdDocument)
  }

  predicate CompleteIfUnderReview(profiles: map<UserId, Profile>, documents: map<DocId, Document>, u: UserId) {
    u in profiles && !Editable(profiles[u]) ==> Complete(profiles[u], documents, u)
  }

  predicate UnderReviewIsComplete(profiles: map<UserId, Profile>, documents: map<DocId, Document>) {
    forall u :: u in profiles ==> CompleteIfUnderReview(profiles, documents, u)
  }

  predicate Sound(db: Db) {
    Exclusive(db.users) && OnePerKind(db.documents) && UnderReviewIsComplete(db.profiles, db.documents)
  }

  lemma ReplacedKeepsOnePerKind(db: Db, u: UserId, kind: Kind, key: ObjectKey, id: DocId, thumbs: bool)
    requires id !in db.documents && OnePerKind(db.documents)
    ensures OnePerKind(Replaced(db, u, kind, key, id, thumbs).documents)
  {
  }

  lemma ReplacedSparesOthers(db: Db, u: UserId, kind: Kind, key: ObjectKey, id: DocId, thumbs: bool,
                             v: UserId, other: Kind)
    requires id !in db.documents
    ensures var after := Replaced(db, u, kind, key, id, thumbs).documents;
            Has(after, v, other) <==> Has(db.documents, v, other) || (v == u && other == kind)
  {
    var after := Replaced(db, u, kind, key, id, thumbs).documents;
    assert after[id].owner == u && after[id].kind == kind;
    if Has(db.documents, v, other) && !(v == u && other == kind) {
      var d :| d in db.documents && db.documents[d].owner == v && db.documents[d].kind == other;
      assert d in after && after[d] == db.documents[d];
    }
  }

  lemma CompleteIffNothingMissing(p: Profile, documents: map<DocId, Document>, u: UserId)
    ensures Complete(p, documents, u) <==> MissingOf(p, Has(documents, u, Selfie), Has(documents, u, IdDocument)) == []
  {
  }

  lemma ChooseSeekerKeepsExclusive(db: Db, v: UserId)
    requires Exclusive(db.users)
    ensures Exclusive(ChooseSeeker(db, v).0.users)
  {
  }

  lemma SubmitKeepsExclusive(db: Db, v: UserId, missing: seq<Missing>)
    requires v in db.profiles && Exclusive(db.users)
    ensures Exclusive(SubmitDraft(db, v, missing).0.users)
  {
  }

  lemma CallKeepsExclusive(db: Db, op: Op)
    requires Exclusive(db.users)
    ensures Exclusive(Next(db, op).users)
  {
    match op
    case OpChooseSeeker(v) => ChooseSeekerKeepsExclusive(db, v);
    case OpSubmit(v) => if Draftable(db, v) { SubmitKeepsExclusive(Drafted(db, v), v, MissingAt(Drafted(db, v), v)); }
    case _ =>
  }

  lemma CallKeepsOnePerKind(db: Db, op: Op)
    requires OnePerKind(db.documents)
    ensures OnePerKind(Next(db, op).documents)
  {
    if !op.OpConfirm? {
      OnlyConfirmTouchesDocuments(db, op);
    } else if op.id !in db.documents {
      ReplacedKeepsOnePerKind(Drafted(db, op.u), op.u, op.kind, op.key, op.id, op.thumbs);
    }
  }

  lemma DraftedKeepsComplete(db: Db, v: UserId, u: UserId)
    requires Draftable(db, v)
    requires CompleteIfUnderReview(db.profiles, db.documents, u)
    ensures CompleteIfUnderReview(Drafted(db, v).profiles, Drafted(db, v).documents, u)
  {
  }

  lemma UpdateKeepsComplete(db: Db, v: UserId, dto: Dto, u: UserId)
    requires v in db.profiles
    requires CompleteIfUnderReview(db.profiles, db.documents, u)
    ensures var after := UpdateDraft(db, v, dto).0; CompleteIfUnderReview(after.profiles, after.documents, u)
  {
  }

  lemma ConfirmKeepsComplete(db: Db, v: UserId, kind: Kind, key: ObjectKey, id: DocId, thumbs: bool, u: UserId)
    requires v in db.profiles
    requires CompleteIfUnderReview(db.profiles, db.documents, u)
    ensures var after := ConfirmDraft(db, v, kind, key, id, thumbs).0;
            CompleteIfUnderReview(after.profiles, after.documents, u)
  {
    if id !in db.documents {
      ReplacedSparesOthers(db, v, kind, key, id, thumbs, u, Selfie);
      ReplacedSparesOthers(db, v, kind, key, id, thumbs, u, IdDocument);
    }
  }

  lemma SubmitKeepsComplete(db: Db, v: UserId, missing: seq<Missing>, u: UserId)
    requires v in db.profiles && missing == MissingAt(db, v)
    requires CompleteIfUnderReview(db.profiles, db.documents, u)
    ensures var after := SubmitDraft(db, v, missing).0; CompleteIfUnderReview(after.profiles, after.documents, u)
  {
    CompleteIffNothingMissing(db.profiles[v], db.documents, v);
  }

  lemma SendOtpKeepsComplete(db: Db, v: UserId, code: Code, u: UserId)
    requires CompleteIfUnderReview(db.profiles, db.documents, u)
    ensures CompleteIfUnderReview(SendOtp(db, v, code).0.profiles, SendOtp(db, v, code).0.documents, u)
  {
  }

  lemma VerifyOtpKeepsComplete(db: Db, v: UserId, code: Code, u: UserId)
    requires CompleteIfUnderReview(db.profiles, db.documents, u)
    ensures CompleteIfUnderReview(VerifyOtp(db, v, code).0.profiles, VerifyOtp(db, v, code).0.documents, u)
  {
  }

  lemma ApproveKeepsComplete(db: Db, v: UserId, u: UserId)
    requires CompleteIfUnderReview(db.profiles, db.documents, u)
    ensures CompleteIfUnderReview(Approve(db, v).0.profiles, Approve(db, v).0.documents, u)
  {
  }

  lemma RejectKeepsComplete(db: Db, v: UserId, reason: string, u: UserId)
    requires CompleteIfUnderReview(db.profiles, db.documents, u)
    ensures CompleteIfUnderReview(Reject(db, v, reason).0.profiles, Reject(db, v, reason).0.documents, u)
  {
  }

  lemma CallKeepsComplete(db: Db, op: Op, u: UserId)
    requires CompleteIfUnderReview(db.profiles, db.documents, u)
    ensures CompleteIfUnderReview(Next(db, op).profiles, Next(db, op).documents, u)
  {
    match op
    case OpUpdate(v, dto) =>
      if Draftable(db, v) {
        DraftedKeepsComplete(db, v, u);
        UpdateKeepsComplete(Drafted(db, v), v, dto, u);
      }
    case OpSendOtp(v, code) => SendOtpKeepsComplete(db, v, code, u);
    case OpVerifyOtp(v, code) => VerifyOtpKeepsComplete(db, v, code, u);
    case OpConfirm(v, kind, key, _, id, thumbs) =>
      if Draftable(db, v) {
        DraftedKeepsComplete(db, v, u);
        ConfirmKeepsComplete(Drafted(db, v), v, kind, key, id, thumbs, u);
      }
    case OpSubmit(v) =>
      if Draftable(db, v) {
        DraftedKeepsComplete(db, v, u);
        SubmitKeepsComplete(Drafted(db, v), v, MissingAt(Drafted(db, v), v), u);
      }
    case OpApprove(v) => ApproveKeepsComplete(db, v, u);
    case OpReject(v, reason) => RejectKeepsComplete(db, v, reason, u);
    case _ =>
  }

  lemma CallKeepsSound(db: Db, op: Op)
    requires Sound(db)
    ensures Sound(Next(db, op))
  {
    CallKeepsExclusive(db, op);
    CallKeepsOnePerKind(db, op);
    forall v | v in Next(db, op).profiles
      ensures CompleteIfUnderReview(Next(db, op).profiles, Next(db, op).documents, v)
    {
      CallKeepsComplete(db, op, v);
    }
  }

  /** In every reachable state a submitted or approved application is complete, there is
    * at most one document of each kind, and nobody is both seeker and provider. */
  lemma {:induction false} SubmittedMeansComplete(db: Db, ops: seq<Op>)
    requires Sound(db)
    ensures Sound(Run(db, ops))
    decreases |ops|
  {
    if ops != [] {
      CallKeepsSound(db, ops[0]);
      SubmittedMeansComplete(Next(db, ops[0]), ops[1..]);
    }
  }

  // ---- What was submitted is what gets approved ----

  function DocumentsOf(documents: map<DocId, Document>, u: UserId): map<DocId, Document> {
    map d | d in documents && documents[d].owner == u :: documents[d]
  }

  /** The form: name, phone, description, skills, time of submission. */
  predicate SameForm(p: Profile, q: Profile) {
    && q.legalName == p.legalName && q.description == p.description && q.phone == p.phone
    && q.skills == p.skills && q.submittedAt == p.submittedAt
  }

  predicate UnderReview(db: Db, u: UserId) { u in db.profiles && !Editable(db.profiles[u]) }

  lemma ReplacedIsOwn(db: Db, u: UserId, kind: Kind, key: ObjectKey, id: DocId, thumbs: bool, v: UserId)
    requires id !in db.documents && v != u
    ensures DocumentsOf(Replaced(db, u, kind, key, id, thumbs).documents, v) == DocumentsOf(db.documents, v)
  {
  }

  lemma DocumentsFrozen(db: Db, op: Op, u: UserId)
    requires UnderReview(db, u)
    ensures DocumentsOf(Next(db, op).documents, u) == DocumentsOf(db.documents, u)
  {
    if !op.OpConfirm? {
      OnlyConfirmTouchesDocuments(db, op);
    } else if op.u != u && op.id !in db.documents {
      ReplacedIsOwn(Drafted(db, op.u), op.u, op.kind, op.key, op.id, op.thumbs, u);
    }
  }

  /** Still under review with the same form; approved for good. */
  predicate FormKept(db: Db, after: Db, u: UserId)
    requires u in db.profiles
  {
    && UnderReview(after, u) && SameForm(db.profiles[u], after.profiles[u])
    && (db.profiles[u].status == Approved ==> after.profiles[u].status == Approved)
  }

  lemma DraftedKeepsForm(db: Db, v: UserId, u: UserId)
    requires Draftable(db, v)
    requires UnderReview(db, u)
    ensures FormKept(db, Drafted(db, v), u)
  {
  }

  lemma UpdateKeepsForm(db: Db, v: UserId, dto: Dto, u: UserId)
    requires v in db.profiles
    requires UnderReview(db, u)
    ensures var after := UpdateDraft(db, v, dto).0; FormKept(db, after, u)
  {
  }

  lemma ConfirmKeepsForm(db: Db, v: UserId, kind: Kind, key: ObjectKey, id: DocId, thumbs: bool, u: UserId)
    requires v in db.profiles
    requires UnderReview(db, u)
    ensures var after := ConfirmDraft(db, v, kind, key, id, thumbs).0; FormKept(db, after, u)
  {
  }

  lemma SubmitKeepsForm(db: Db, v: UserId, missing: seq<Missing>, u: UserId)
    requires v in db.profiles
    requires UnderReview(db, u)
    ensures var after := SubmitDraft(db, v, missing).0; FormKept(db, after, u)
  {
  }

  lemma SendOtpKeepsForm(db: Db, v: UserId, code: Code, u: UserId)
    requires UnderReview(db, u)
    ensures FormKept(db, SendOtp(db, v, code).0, u)
  {
  }

  lemma VerifyOtpKeepsForm(db: Db, v: UserId, code: Code, u: UserId)
    requires UnderReview(db, u)
    ensures FormKept(db, VerifyOtp(db, v, code).0, u)
  {
  }

  lemma ApproveKeepsForm(db: Db, v: UserId, u: UserId)
    requires UnderReview(db, u)
    ensures FormKept(db, Approve(db, v).0, u)
  {
  }

  lemma RejectKeepsForm(db: Db, v: UserId, reason: string, u: UserId)
    requires UnderReview(db, u)
    requires v == u ==> db.profiles[u].status == Approved
    ensures FormKept(db, Reject(db, v, reason).0, u)
  {
  }

  lemma EditsKeepForm(db: Db, op: Op, u: UserId)
    requires op.OpUpdate? || op.OpConfirm? || op.OpSubmit?
    requires UnderReview(db, u)
    requires op.OpReject? && op.u == u ==> db.profiles[u].status == Approved
    ensures FormKept(db, Next(db, op), u)
  {
    match op
    case OpUpdate(v, dto) =>
      if Draftable(db, v) {
        DraftedKeepsForm(db, v, u);
        UpdateKeepsForm(Drafted(db, v), v, dto, u);
      }
    case OpConfirm(v, kind, key, _, id, thumbs) =>
      if Draftable(db, v) {
        DraftedKeepsForm(db, v, u);
        ConfirmKeepsForm(Drafted(db, v), v, kind, key, id, thumbs, u);
      }
    case OpSubmit(v) =>
      if Draftable(db, v) {
        DraftedKeepsForm(db, v, u);
        SubmitKeepsForm(Drafted(db, v), v, MissingAt(Drafted(db, v), v), u);
      }
  }

  lemma FormFrozen(db: Db, op: Op, u: UserId)
    requires UnderReview(db, u)
    requires op.OpReject? && op.u == u ==> db.profiles[u].status == Approved
    ensures FormKept(db, Next(db, op), u)
  {
    match op
    case OpSendOtp(v, code) => SendOtpKeepsForm(db, v, code, u);
    case OpVerifyOtp(v, code) => VerifyOtpKeepsForm(db, v, code, u);
    case OpApprove(v) => ApproveKeepsForm(db, v, u);
    case OpReject(v, reason) => RejectKeepsForm(db, v, reason, u);
    case _ => if op.OpUpdate? || op.OpConfirm? || op.OpSubmit? { EditsKeepForm(db, op, u); }
  }

  /** From submission until a rejection the form and the document rows cannot change; an
    * approval is final. (What the files hold is another matter: see Pictures.) */
  lemma {:induction false} FrozenUnderReview(db: Db, ops: seq<Op>, u: UserId)
    requires UnderReview(db, u)
    requires (forall i :: 0 <= i < |ops| ==> !(ops[i].OpReject? && ops[i].u == u)) || db.profiles[u].status == Approved
    ensures
      var after := Run(db, ops);
      && UnderReview(after, u) && SameForm(db.profiles[u], after.profiles[u])
      && DocumentsOf(after.documents, u) == DocumentsOf(db.documents, u)
      && (db.profiles[u].status == Approved ==> after.profiles[u].status == Approved)
    decreases |ops|
  {
    if ops != [] {
      FormFrozen(db, ops[0], u);
      DocumentsFrozen(db, ops[0], u);
      FrozenUnderReview(Next(db, ops[0]), ops[1..], u);
    }
  }

  // ---- The wizard and submit ----

  /** The wizard reaches its review step exactly when nothing is missing and a phone
    * number is on file; otherwise it stops at the first step with a gap. */
  lemma ResumeMeans(db: Db, u: UserId)
    requires u in db.profiles
    ensures ResumeAt(db, u) == 5 <==> MissingAt(db, u) == [] && Truthy(db.profiles[u].phone)
    ensures (ResumeAt(db, u) == 5 <==> MissingAt(db, u) == [])
            <==> (Truthy(db.profiles[u].phone) || MissingAt(db, u) != [])
    ensures ResumeAt(db, u) == 2 ==> VerifiedPhone in MissingAt(db, u) && LegalName !in MissingAt(db, u)
    ensures ResumeAt(db, u) == 3 ==> Skill in MissingAt(db, u) && VerifiedPhone !in MissingAt(db, u)
    ensures ResumeAt(db, u) == 4 ==>
              MissingAt(db, u) != [] && forall m :: m in MissingAt(db, u) ==> m == SelfiePhoto || m == IdPhoto
  {
  }

  predicate WellTyped(op: Op) { op.OpUpdate? ==> !op.dto.phone.Null? }

  /** No number is ever taken away, so a verified one and one awaiting a code are set. */
  predicate PhoneOnFile(profiles: map<UserId, Profile>, otps: map<UserId, Otp>, u: UserId) {
    && (u in otps ==> u in profiles && Truthy(profiles[u].phone))
    && (u in profiles && profiles[u].phoneVerified ==> Truthy(profiles[u].phone))
  }

  lemma DraftedKeepsPhone(db: Db, v: UserId, u: UserId)
    requires Draftable(db, v)
    requires PhoneOnFile(db.profiles, db.otps, u)
    ensures PhoneOnFile(Drafted(db, v).profiles, Drafted(db, v).otps, u)
  {
  }

  lemma UpdateKeepsPhone(db: Db, v: UserId, dto: Dto, u: UserId)
    requires v in db.profiles && ValidDto(dto) && !dto.phone.Null?
    requires PhoneOnFile(db.profiles, db.otps, u)
    ensures var after := UpdateDraft(db, v, dto).0; PhoneOnFile(after.profiles, after.otps, u)
  {
  }

  lemma ConfirmKeepsPhone(db: Db, v: UserId, kind: Kind, key: ObjectKey, id: DocId, thumbs: bool, u: UserId)
    requires v in db.profiles
    requires PhoneOnFile(db.profiles, db.otps, u)
    ensures var after := ConfirmDraft(db, v, kind, key, id, thumbs).0; PhoneOnFile(after.profiles, after.otps, u)
  {
  }

  lemma SubmitKeepsPhone(db: Db, v: UserId, missing: seq<Missing>, u: UserId)
    requires v in db.profiles
    requires PhoneOnFile(db.profiles, db.otps, u)
    ensures var after := SubmitDraft(db, v, missing).0; PhoneOnFile(after.profiles, after.otps, u)
  {
  }

  lemma SendKeepsPhone(db: Db, v: UserId, code: Code, u: UserId)
    requires PhoneOnFile(db.profiles, db.otps, u)
    ensures PhoneOnFile(SendOtp(db, v, code).0.profiles, SendOtp(db, v, code).0.otps, u)
  {
  }

  lemma VerifyKeepsPhone(db: Db, v: UserId, code: Code, u: UserId)
    requires PhoneOnFile(db.profiles, db.otps, u)
    ensures PhoneOnFile(VerifyOtp(db, v, code).0.profiles, VerifyOtp(db, v, code).0.otps, u)
  {
  }

  lemma ReviewKeepsPhone(db: Db, v: UserId, reason: string, u: UserId)
    requires PhoneOnFile(db.profiles, db.otps, u)
    ensures PhoneOnFile(Approve(db, v).0.profiles, Approve(db, v).0.otps, u)
    ensures PhoneOnFile(Reject(db, v, reason).0.profiles, Reject(db, v, reason).0.otps, u)
  {
  }

  lemma CallKeepsPhone(db: Db, op: Op, u: UserId)
    requires PhoneOnFile(db.profiles, db.otps, u) && WellTyped(op)
    ensures PhoneOnFile(Next(db, op).profiles, Next(db, op).otps, u)
  {
    match op
    case OpUpdate(v, dto) =>
      if Draftable(db, v) && ValidDto(dto) {
        DraftedKeepsPhone(db, v, u);
        UpdateKeepsPhone(Drafted(db, v), v, dto, u);
      }
    case OpSendOtp(v, code) => SendKeepsPhone(db, v, code, u);
    case OpVerifyOtp(v, code) => VerifyKeepsPhone(db, v, code, u);
    case OpConfirm(v, kind, key, _, id, thumbs) =>
      if Draftable(db, v) {
        DraftedKeepsPhone(db, v, u);
        ConfirmKeepsPhone(Drafted(db, v), v, kind, key, id, thumbs, u);
      }
    case OpSubmit(v) =>
      if Draftable(db, v) {
        DraftedKeepsPhone(db, v, u);
        SubmitKeepsPhone(Drafted(db, v), v, MissingAt(Drafted(db, v), v), u);
      }
    case OpApprove(v) => ReviewKeepsPhone(db, v, "", u);
    case OpReject(v, reason) => ReviewKeepsPhone(db, v, reason, u);
    case _ =>
  }

  /** With well-typed bodies the wizard offers the review step exactly when submit, called
    * now on an editable draft, would go through. */
  lemma {:induction false} ResumeAgreesWithSubmit(db: Db, ops: seq<Op>, u: UserId)
    requires PhoneOnFile(db.profiles, db.otps, u)
    requires forall i :: 0 <= i < |ops| ==> WellTyped(ops[i])
    ensures var after := Run(db, ops);
            && PhoneOnFile(after.profiles, after.otps, u)
            && (u in after.profiles && Editable(after.profiles[u]) ==>
                  (ResumeAt(after, u) == 5 <==> Submit(after, u).1 == Ok))
    decreases |ops|
  {
    if ops != [] {
      CallKeepsPhone(db, ops[0], u);
      ResumeAgreesWithSubmit(Next(db, ops[0]), ops[1..], u);
    } else if u in db.profiles {
      ResumeMeans(db, u);
    }
  }

  /** With a null number it does not: any complete draft with a code under way can clear
    * its number and enter the code. The wizard is back at step 1, yet submit takes it. */
  lemma NullPhoneSplitsThem(db: Db, u: UserId, code: Code)
    requires u in db.profiles && Editable(db.profiles[u]) && MissingAt(db, u) == []
    requires LiveOtp(db, u, code)
    ensures var after := Run(db, [OpUpdate(u, Dto(Absent, Absent, Null, Absent)), OpVerifyOtp(u, code)]);
            u in after.profiles && ResumeAt(after, u) == 1 && Submit(after, u).1 == Ok
  {
    var clear, enter := OpUpdate(u, Dto(Absent, Absent, Null, Absent)), OpVerifyOtp(u, code);
    var cleared := Next(db, clear);
    var entered := Next(cleared, enter);
    RunTwo(db, clear, enter);
    assert entered.profiles[u] == db.profiles[u].(phone := None, phoneVerified := true);
    assert entered.documents == db.documents;
    assert MissingAt(entered, u) == [];
  }

  lemma RunTwo(db: Db, one: Op, two: Op)
    ensures Run(db, [one, two]) == Next(Next(db, one), two)
  {
    assert [one, two][1..] == [two];
    assert Run(Next(db, one), [two]) == Run(Next(Next(db, one), two), []);
  }

  // ---- Submitting makes a provider, for an account that is not deleted ----

  predicate LiveSubmit(db: Db, op: Op) { op.OpSubmit? ==> op.u !in db.users || !db.users[op.u].deleted }

  predicate LiveSubmits(db: Db, ops: seq<Op>)
    decreases |ops|
  {
    ops == [] || (LiveSubmit(db, ops[0]) && LiveSubmits(Next(db, ops[0]), ops[1..]))
  }

  /** The account is there (the foreign key) and past a draft it is a provider's. */
  predicate Promoted(profiles: map<UserId, Profile>, users: map<UserId, User>, u: UserId) {
    u in profiles ==> u in users && (profiles[u].status != Draft ==> Provider in users[u].roles)
  }

  /** The one call that can leave an applicant unpromoted, and exactly when it does. */
  lemma SubmitPromotesIff(db: Db, u: UserId)
    requires u in db.users && Submit(db, u).1 == Ok
    ensures var roles := Submit(db, u).0.users[u].roles;
            && (Provider in roles && Seeker !in roles <==>
                  !db.users[u].deleted || (Provider in db.users[u].roles && Seeker !in db.users[u].roles))
            && (Admin in roles <==> Admin in db.users[u].roles)
  {
  }

  lemma SignInKeepsPromoted(db: Db, v: UserId, u: UserId)
    requires Promoted(db.profiles, db.users, u)
    ensures Promoted(SignIn(db, v).0.profiles, SignIn(db, v).0.users, u)
  {
  }

  lemma DeleteAccountKeepsPromoted(db: Db, v: UserId, busy: bool, u: UserId)
    requires Promoted(db.profiles, db.users, u)
    ensures Promoted(DeleteAccount(db, v, busy).0.profiles, DeleteAccount(db, v, busy).0.users, u)
  {
  }

  lemma ChooseSeekerKeepsPromoted(db: Db, v: UserId, u: UserId)
    requires Promoted(db.profiles, db.users, u)
    ensures Promoted(ChooseSeeker(db, v).0.profiles, ChooseSeeker(db, v).0.users, u)
  {
  }

  lemma DraftedKeepsPromoted(db: Db, v: UserId, u: UserId)
    requires Draftable(db, v)
    requires Promoted(db.profiles, db.users, u)
    ensures Promoted(Drafted(db, v).profiles, Drafted(db, v).users, u)
  {
  }

  lemma UpdateKeepsPromoted(db: Db, v: UserId, dto: Dto, u: UserId)
    requires v in db.profiles
    requires Promoted(db.profiles, db.users, u)
    ensures var after := UpdateDraft(db, v, dto).0; Promoted(after.profiles, after.users, u)
  {
  }

  lemma ConfirmKeepsPromoted(db: Db, v: UserId, kind: Kind, key: ObjectKey, id: DocId, thumbs: bool, u: UserId)
    requires v in db.profiles
    requires Promoted(db.profiles, db.users, u)
    ensures var after := ConfirmDraft(db, v, kind, key, id, thumbs).0; Promoted(after.profiles, after.users, u)
  {
  }

  lemma SubmitKeepsPromoted(db: Db, v: UserId, missing: seq<Missing>, u: UserId)
    requires v in db.profiles && (v !in db.users || !db.users[v].deleted)
    requires Promoted(db.profiles, db.users, u)
    ensures var after := SubmitDraft(db, v, missing).0; Promoted(after.profiles, after.users, u)
  {
  }

  lemma SendOtpKeepsPromoted(db: Db, v: UserId, code: Code, u: UserId)
    requires Promoted(db.profiles, db.users, u)
    ensures Promoted(SendOtp(db, v, code).0.profiles, SendOtp(db, v, code).0.users, u)
  {
  }

  lemma VerifyOtpKeepsPromoted(db: Db, v: UserId, code: Code, u: UserId)
    requires Promoted(db.profiles, db.users, u)
    ensures Promoted(VerifyOtp(db, v, code).0.profiles, VerifyOtp(db, v, code).0.users, u)
  {
  }

  lemma ApproveKeepsPromoted(db: Db, v: UserId, u: UserId)
    requires Promoted(db.profiles, db.users, u)
    ensures Promoted(Approve(db, v).0.profiles, Approve(db, v).0.users, u)
  {
  }

  lemma RejectKeepsPromoted(db: Db, v: UserId, reason: string, u: UserId)
    requires Promoted(db.profiles, db.users, u)
    ensures Promoted(Reject(db, v, reason).0.profiles, Reject(db, v, reason).0.users, u)
  {
  }

  lemma EditsKeepPromoted(db: Db, op: Op, u: UserId)
    requires op.OpUpdate? || op.OpConfirm? || op.OpSubmit?
    requires Promoted(db.profiles, db.users, u) && LiveSubmit(db, op)
    ensures Promoted(Next(db, op).profiles, Next(db, op).users, u)
  {
    match op
    case OpUpdate(v, dto) =>
      if Draftable(db, v) {
        DraftedKeepsPromoted(db, v, u);
        UpdateKeepsPromoted(Drafted(db, v), v, dto, u);
      }
    case OpConfirm(v, kind, key, _, id, thumbs) =>
      if Draftable(db, v) {
        DraftedKeepsPromoted(db, v, u);
        ConfirmKeepsPromoted(Drafted(db, v), v, kind, key, id, thumbs, u);
      }
    case OpSubmit(v) =>
      if Draftable(db, v) {
        DraftedKeepsPromoted(db, v, u);
        SubmitKeepsPromoted(Drafted(db, v), v, MissingAt(Drafted(db, v), v), u);
      }
  }

  lemma CallKeepsPromoted(db: Db, op: Op, u: UserId)
    requires Promoted(db.profiles, db.users, u) && LiveSubmit(db, op)
    ensures Promoted(Next(db, op).profiles, Next(db, op).users, u)
  {
    match op
    case OpSignIn(v) => SignInKeepsPromoted(db, v, u);
    case OpDeleteAccount(v, busy) => DeleteAccountKeepsPromoted(db, v, busy, u);
    case OpChooseSeeker(v) => ChooseSeekerKeepsPromoted(db, v, u);
    case OpSendOtp(v, code) => SendOtpKeepsPromoted(db, v, code, u);
    case OpVerifyOtp(v, code) => VerifyOtpKeepsPromoted(db, v, code, u);
    case OpApprove(v) => ApproveKeepsPromoted(db, v, u);
    case OpReject(v, reason) => RejectKeepsPromoted(db, v, reason, u);
    case _ => if op.OpUpdate? || op.OpConfirm? || op.OpSubmit? { EditsKeepPromoted(db, op, u); }
  }

  /** Whoever got past a draft is a provider for good, even after a rejection, and by
    * SubmittedMeansComplete no seeker. */
  lemma {:induction false} ApplicantsAreProviders(db: Db, ops: seq<Op>, u: UserId)
    requires Promoted(db.profiles, db.users, u) && LiveSubmits(db, ops)
    ensures Promoted(Run(db, ops).profiles, Run(db, ops).users, u)
    decreases |ops|
  {
    if ops != [] {
      CallKeepsPromoted(db, ops[0], u);
      ApplicantsAreProviders(Next(db, ops[0]), ops[1..], u);
    }
  }

  /** An access token outlives a deletion by minutes: submitted in that time and signed in
    * again, a seeker stays a seeker with an application under review. */
  lemma DeletedAccountSubmits(db: Db, u: UserId)
    requires u in db.profiles && u in db.users && Editable(db.profiles[u]) && MissingAt(db, u) == []
    requires db.users[u].roles == {Seeker}
    ensures var after := Run(db, [OpDeleteAccount(u, false), OpSubmit(u), OpSignIn(u)]);
            u in after.users && after.users[u] == User({Seeker}, false) && UnderReview(after, u)
  {
    var ops := [OpDeleteAccount(u, false), OpSubmit(u), OpSignIn(u)];
    var deleted := Next(db, ops[0]);
    assert ops[1..] == [ops[1], ops[2]];
    RunTwo(deleted, ops[1], ops[2]);
    assert MissingAt(deleted, u) == [];
  }

  // ---- Documents and their files ----

  lemma Letter(v: UserId, key: ObjectKey, k: nat)
    requires Folder(v) <= key
    ensures |"providers/"| + |v| < |key| && key[|"providers/"| + |v|] == '/'
    ensures k < |v| ==> key[|"providers/"| + k] != '/'
  {
    var n := |"providers/"|;
    assert Folder(v)[n + |v|] == '/';
    assert k < |v| ==> Folder(v)[n + k] == v[k];
  }

  lemma NoLonger(u: UserId, v: UserId, key: ObjectKey)
    requires Folder(u) <= key && Folder(v) <= key
    ensures |v| <= |u|
  {
    Letter(u, key, 0);
    Letter(v, key, |u|);
  }

  /** No key lies in two users' folders. */
  lemma FolderIsPrivate(u: UserId, v: UserId, key: ObjectKey)
    requires Folder(u) <= key && Folder(v) <= key
    ensures u == v
  {
    NoLonger(u, v, key);
    NoLonger(v, u, key);
    var n := |"providers/"|;
    assert u == Folder(u)[n..n + |u|] == key[n..n + |u|];
    assert v == Folder(v)[n..n + |v|] == key[n..n + |v|];
  }

  predicate Backed(documents: map<DocId, Document>, objects: map<ObjectKey, Content>) {
    forall d :: d in documents ==> documents[d].key in objects
  }

  /** Every row's files lie in its owner's folder. */
  predicate Filed(documents: map<DocId, Document>) {
    forall d, k :: d in documents && k in FilesOf(documents[d]) ==> Folder(documents[d].owner) <= k
  }

  function Other(kind: Kind): Kind { if kind == Selfie then IdDocument else Selfie }

  /** The key to confirm is not a file of the document it replaces, and replacing that
    * document takes no file the user's other document lives on (a thumbnail written again
    * under the same name does not count as taken). */
  predicate Clear(db: Db, u: UserId, kind: Kind, key: ObjectKey, thumbs: bool) {
    var gone := Files(db.documents, Previous(db.documents, u, kind));
    && key !in gone
    && forall d :: d in Previous(db.documents, u, Other(kind)) && db.documents[d].key in gone ==>
                     thumbs && db.documents[d].key == ThumbKey(key)
  }

  /** Replacing a document touches nothing in other users' folders. */
  lemma ReplacedStaysHome(db: Db, u: UserId, kind: Kind, key: ObjectKey, id: DocId, thumbs: bool,
                          v: UserId, k: ObjectKey)
    requires Filed(db.documents) && Folder(u) <= key && Folder(v) <= k && u != v
    ensures var after := Replaced(db, u, kind, key, id, thumbs).objects;
            (k in after <==> k in db.objects) && (k in db.objects ==> after[k] == db.objects[k])
  {
    assert Folder(u) <= k ==> false by {
      if Folder(u) <= k { FolderIsPrivate(u, v, k); }
    }
    assert Folder(u) <= ThumbKey(key);
    assert k !in Files(db.documents, Previous(db.documents, u, kind));
  }

  lemma ReplacedFiled(db: Db, u: UserId, kind: Kind, key: ObjectKey, id: DocId, thumbs: bool)
    requires Filed(db.documents) && Folder(u) <= key
    ensures Filed(Replaced(db, u, kind, key, id, thumbs).documents)
  {
    assert Folder(u) <= ThumbKey(key);
  }

  /** A confirmed upload leaves every document with its picture exactly when it is clear. */
  lemma ConfirmKeepsBackedIff(db: Db, u: UserId, kind: Kind, key: ObjectKey, size: nat, id: DocId, thumbs: bool)
    requires Backed(db.documents, db.objects) && Filed(db.documents)
    requires Confirm(db, u, kind, key, size, id, thumbs).1 == Ok
    ensures var after := Confirm(db, u, kind, key, size, id, thumbs).0;
            Backed(after.documents, after.objects) <==> Clear(db, u, kind, key, thumbs)
  {
    var before := Drafted(db, u);
    var after := Replaced(before, u, kind, key, id, thumbs);
    var gone := Files(db.documents, Previous(db.documents, u, kind));
    assert after.documents[id].key == key;
    if Backed(after.documents, after.objects) {
      assert ThumbKey(key) != key;
      assert key !in gone;
      forall d | d in Previous(db.documents, u, Other(kind)) && db.documents[d].key in gone
        ensures thumbs && db.documents[d].key == ThumbKey(key)
      {
        assert after.documents[d] == db.documents[d];
      }
    }
    if Clear(db, u, kind, key, thumbs) {
      forall d | d in after.documents
        ensures after.documents[d].key in after.objects
      {
        if d != id && db.documents[d].owner != u {
          assert db.documents[d].key in FilesOf(db.documents[d]);
          ReplacedStaysHome(before, u, kind, key, id, thumbs, db.documents[d].owner, db.documents[d].key);
        }
      }
    }
  }

  /** A retried confirmation of the same upload deletes the picture it confirms. */
  lemma RetryLosesThePicture(db: Db, u: UserId, kind: Kind, key: ObjectKey, size: nat, id: DocId, again: DocId,
                             thumbs: bool)
    requires Confirm(db, u, kind, key, size, id, thumbs).1 == Ok
    requires key !in Files(db.documents, Previous(db.documents, u, kind))
    requires again !in db.documents && again != id
    ensures var once := Next(db, OpConfirm(u, kind, key, size, id, thumbs));
            var twice := Confirm(once, u, kind, key, size, again, thumbs);
            && twice.1 == Ok && again in twice.0.documents
            && twice.0.documents[again].key == key && key !in twice.0.objects
  {
    var once := Next(db, OpConfirm(u, kind, key, size, id, thumbs));
    assert id in Previous(once.documents, u, kind) && key in FilesOf(once.documents[id]);
    assert key in Files(once.documents, Previous(once.documents, u, kind));
  }

  /** A key nobody's row holds, as original or as thumbnail, and whose own thumbnail is
    * nobody's original. Presigned keys end in a random UUID. */
  predicate FreshKey(documents: map<DocId, Document>, key: ObjectKey) {
    forall d :: d in documents ==> key !in FilesOf(documents[d]) && documents[d].key != ThumbKey(key)
  }

  predicate Apart(documents: map<DocId, Document>) {
    forall d, e :: d in documents && e in documents && d != e ==> documents[e].key !in FilesOf(documents[d])
  }

  predicate FreshUpload(db: Db, op: Op) { op.OpConfirm? ==> FreshKey(db.documents, op.key) }

  predicate FreshUploads(db: Db, ops: seq<Op>)
    decreases |ops|
  {
    ops == [] || (FreshUpload(db, ops[0]) && FreshUploads(Next(db, ops[0]), ops[1..]))
  }

  predicate Kept(db: Db) { Backed(db.documents, db.objects) && Filed(db.documents) && Apart(db.documents) }

  lemma ConfirmKept(db: Db, u: UserId, kind: Kind, key: ObjectKey, size: nat, id: DocId, thumbs: bool)
    requires Kept(db) && FreshKey(db.documents, key)
    requires Confirm(db, u, kind, key, size, id, thumbs).1 == Ok
    ensures Kept(Confirm(db, u, kind, key, size, id, thumbs).0)
  {
    var before := Drafted(db, u);
    var gone := Files(db.documents, Previous(db.documents, u, kind));
    assert Clear(db, u, kind, key, thumbs);
    ConfirmKeepsBackedIff(db, u, kind, key, size, id, thumbs);
    ReplacedFiled(before, u, kind, key, id, thumbs);
    assert Apart(Replaced(before, u, kind, key, id, thumbs).documents);
  }

  /** Clients that confirm each upload once: in every reachable state every document still
    * has its picture. */
  lemma {:induction false} EveryDocumentHasItsPicture(db: Db, ops: seq<Op>)
    requires Kept(db) && FreshUploads(db, ops)
    ensures Kept(Run(db, ops))
    decreases |ops|
  {
    if ops != [] {
      var op := ops[0];
      if op.OpConfirm? && Call(db, op).1 == Ok {
        ConfirmKept(db, op.u, op.kind, op.key, op.size, op.id, op.thumbs);
      } else {
        OnlyConfirmTouchesDocuments(db, op);
        OnlyConfirmRemovesFiles(db, op);
      }
      EveryDocumentHasItsPicture(Next(db, op), ops[1..]);
    }
  }

  /** All of it from the start: what holds on every run, and what holds given that bodies
    * are well typed, that deleted accounts do not submit, that uploads are confirmed once. */
  lemma FromTheStart(db: Db, ops: seq<Op>, u: UserId)
    requires Start(db)
    ensures Sound(Run(db, ops))
    ensures (forall i :: 0 <= i < |ops| ==> WellTyped(ops[i])) ==>
              var after := Run(db, ops);
              u in after.profiles && Editable(after.profiles[u]) ==>
                (ResumeAt(after, u) == 5 <==> Submit(after, u).1 == Ok)
    ensures LiveSubmits(db, ops) ==> Promoted(Run(db, ops).profiles, Run(db, ops).users, u)
    ensures FreshUploads(db, ops) ==> Kept(Run(db, ops))
  {
    SubmittedMeansComplete(db, ops);
    if forall i :: 0 <= i < |ops| ==> WellTyped(ops[i]) { ResumeAgreesWithSubmit(db, ops, u); }
    if LiveSubmits(db, ops) { ApplicantsAreProviders(db, ops, u); }
    if FreshUploads(db, ops) { EveryDocumentHasItsPicture(db, ops); }
  }
}
