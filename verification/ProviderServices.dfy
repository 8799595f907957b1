/** providers.service.ts and the role methods of users.service.ts as they work on the
  * tables, each proved to be its step of Providers. */
module ProviderServices {
  import opened Options
  import opened Providers
  import opened ProviderAnswers

  lemma RemoveOneMore(rows: map<DocId, Document>, files: map<ObjectKey, Content>, done: set<DocId>, d: DocId)
    requires d in rows
    ensures (files - Files(rows, done)) - FilesOf(rows[d]) == files - Files(rows, done + {d})
    ensures (rows - done) - {d} == rows - (done + {d})
  {
    assert Files(rows, done + {d}) == Files(rows, done) + FilesOf(rows[d]);
  }

  // ---- what an edit and a confirmation leave behind for the applicant ----

  /** A number stays verified only if it is the one that was. */
  lemma UpdateGives(db: Db, u: UserId, dto: Dto)
    ensures var (after, reply) := Update(db, u, dto);
            reply == Ok && after.profiles[u].phoneVerified ==>
              u in db.profiles && db.profiles[u].phoneVerified && after.profiles[u].phone == db.profiles[u].phone
  {
  }

  /** The confirmed upload is the one document of its kind. */
  lemma ConfirmGives(db: Db, u: UserId, kind: Kind, key: ObjectKey, size: nat, id: DocId, thumbs: bool)
    ensures var (after, reply) := Confirm(db, u, kind, key, size, id, thumbs);
            reply == Ok ==>
              && Previous(after.documents, u, kind) == {id} && after.documents[id].key == key
              && Folder(u) <= key && !UnderReview(after, u)
  {
  }

  lemma UpdateKeepsSound(db: Db, u: UserId, dto: Dto)
    requires Sound(db)
    ensures Sound(Update(db, u, dto).0)
  {
    CallKeepsSound(db, OpUpdate(u, dto));
  }

  lemma ConfirmKeepsSound(db: Db, u: UserId, kind: Kind, key: ObjectKey, size: nat, id: DocId, thumbs: bool)
    requires Sound(db)
    ensures Sound(Confirm(db, u, kind, key, size, id, thumbs).0)
  {
    CallKeepsSound(db, OpConfirm(u, kind, key, size, id, thumbs));
  }

  class Registry {
    var now: nat
    var skills: set<SkillId>
    var users: map<UserId, User>
    var profiles: map<UserId, Profile>
    var documents: map<DocId, Document>
    var otps: map<UserId, Otp>
    var urls: map<ObjectKey, nat>
    var objects: map<ObjectKey, Content>

    function State(): Db
      reads this
    {
      Db(now, skills, users, profiles, documents, otps, urls, objects)
    }

    /** Roles exclude each other, one document per kind, nothing incomplete under review. The
      * helpers below run in the middle of a handler, where it need not hold. */
    predicate Valid()
      reads this
    {
      Sound(State())
    }

    constructor (skills: set<SkillId>, users: map<UserId, User>)
      requires Exclusive(users)
      ensures Valid()
      ensures State() == Db(0, skills, users, map[], map[], map[], map[], map[])
    {
      this.skills := skills;
      this.users := users;
      now, profiles, documents, otps, urls, objects := 0, map[], map[], map[], map[], map[];
    }

    // ---- users.service.ts ----

    method AddRole(u: UserId, role: Role)
      modifies this`users
      ensures users == if Found(old(State()), u)
                       then old(users)[u := old(users[u]).(roles := old(users[u]).roles + {role})] else old(users)
    {
      if !Found(State(), u) { return; }
      var user := users[u];
      if role !in user.roles {
        users := users[u := user.(roles := user.roles + {role})];
      } else {
        assert user.roles + {role} == user.roles;
      }
    }

    method AssignSeekerRole(u: UserId) returns (reply: Reply)
      requires Valid()
      modifies this`users
      ensures Valid() && (State(), reply) == Providers.ChooseSeeker(old(State()), u)
      ensures reply == Ok && Found(State(), u) ==> Seeker in users[u].roles && Provider !in users[u].roles
    {
      CallKeepsSound(State(), OpChooseSeeker(u));
      if !Found(State(), u) { return Ok; }
      if Provider in users[u].roles { return Conflict; }
      AddRole(u, Seeker);
      return Ok;
    }

    method PromoteToProvider(u: UserId)
      modifies this`users
      ensures State() == Promote(old(State()), u)
    {
      if !Found(State(), u) { return; }
      var roles := users[u].roles;
      roles := roles - {Seeker};
      roles := roles + {Provider};
      users := users[u := users[u].(roles := roles)];
    }

    // ---- providers.service.ts ----

    method GetOrCreateDraft(u: UserId) returns (found: bool)
      modifies this`profiles
      ensures found == Draftable(old(State()), u)
      ensures State() == if found then Drafted(old(State()), u) else old(State())
    {
      if u in profiles { return true; }
      if u !in users { return false; }
      profiles := profiles[u := EmptyDraft()];
      return true;
    }

    /** Field by field, as the body's fields are there or not. */
    method EditFields(before: Profile, dto: Dto) returns (profile: Profile)
      ensures profile == Edited(before, dto, skills)
    {
      profile := before;
      if dto.legalName != Absent {
        profile := profile.(legalName := Nullable(dto.legalName, None));
      }
      if dto.description != Absent {
        profile := profile.(description := Nullable(dto.description, None));
      }
      var phone := Nullable(dto.phone, None);
      if dto.phone != Absent && phone != profile.phone {
        profile := profile.(phone := phone, phoneVerified := false);
      }
      if dto.skillIds.Given? {
        profile := profile.(skills := Chosen(skills, dto.skillIds.value));
      }
    }

    method UpdateApplication(u: UserId, dto: Dto) returns (reply: Reply)
      requires Valid()
      modifies this`profiles
      ensures Valid() && (State(), reply) == Update(old(State()), u, dto)
      ensures reply == Ok <==> old(WellFormed(dto) && Known(State(), u) && !InReview(State(), u))
      ensures reply == Ok && profiles[u].phoneVerified ==>
        u in old(profiles) && old(profiles[u].phoneVerified) && profiles[u].phone == old(profiles[u].phone)
    {
      UpdateKeepsSound(State(), u, dto);
      UpdateGives(State(), u, dto);
      UpdateAnswers(State(), u, dto);
      if !ValidDto(dto) { return BadRequest; }
      var found := GetOrCreateDraft(u);
      if !found { return UserGone; }
      if !Editable(profiles[u]) { return Locked; }
      var profile := EditFields(profiles[u], dto);
      profiles := profiles[u := profile];
      return Ok;
    }

    method SendPhoneOtp(u: UserId, code: Code) returns (reply: Reply)
      requires Valid()
      modifies this`profiles, this`otps
      ensures Valid() && (State(), reply) == SendOtp(old(State()), u, code)
      ensures reply == Ok <==> old(Known(State(), u) && NumberOnFile(Before(State(), u)))
      ensures reply == Ok ==> Truthy(profiles[u].phone) && LiveOtp(State(), u, code)
      ensures reply != Ok ==> otps == old(otps)
    {
      CallKeepsSound(State(), OpSendOtp(u, code));
      SendOtpAnswers(State(), u, code);
      var found := GetOrCreateDraft(u);
      if !found { return UserGone; }
      if !Truthy(profiles[u].phone) { return BadRequest; }
      otps := otps[u := Otp(code, now + OTP_TTL_MS)];
      return Ok;
    }

    method VerifyPhoneOtp(u: UserId, code: Code) returns (reply: Reply)
      requires Valid()
      modifies this`profiles, this`otps
      ensures Valid() && (State(), reply) == VerifyOtp(old(State()), u, code)
      ensures reply == Ok ==> old(LiveOtp(State(), u, code)) && profiles[u].phoneVerified
      ensures forall any :: reply == Ok ==> !LiveOtp(State(), u, any)
    {
      CallKeepsSound(State(), OpVerifyOtp(u, code));
      if !LiveOtp(State(), u, code) { return BadRequest; }
      otps := otps - {u};
      var found := GetOrCreateDraft(u);
      if !found { return UserGone; }
      profiles := profiles[u := profiles[u].(phoneVerified := true)];
      return Ok;
    }

    method RemoveOne(d: DocId, row: Document)
      modifies this`documents, this`objects
      ensures documents == old(documents) - {d} && objects == old(objects) - FilesOf(row)
    {
      objects := objects - {row.key};
      if row.thumb.Some? {
        objects := objects - {row.thumb.value};
      }
      documents := documents - {d};
    }

    /** storage.presignedPut, for a key that is new. */
    method PresignDocument(u: UserId, key: ObjectKey, image: bool) returns (reply: Reply)
      requires Valid()
      modifies this`urls
      ensures Valid() && (State(), reply) == Presign(old(State()), u, key, image)
      ensures reply == Ok ==> Folder(u) <= key && PutOpen(State(), key) && !old(PutOpen(State(), key))
    {
      if !image { return BadRequest; }
      if !(Folder(u) <= key) || !Unheard(State(), key) { return Conflict; }
      urls := urls[key := now + PUT_TTL_MS];
      return Ok;
    }

    /** Fetch the documents of that kind, then drop their files and rows one by one. */
    method RemovePrevious(u: UserId, kind: Kind)
      modifies this`documents, this`objects
      ensures var gone := Previous(old(documents), u, kind);
              documents == old(documents) - gone && objects == old(objects) - Files(old(documents), gone)
    {
      var previous := Previous(documents, u, kind);
      ghost var rows, files, gone, done: set<DocId> := documents, objects, previous, {};
      while previous != {}
        invariant previous <= gone && gone <= rows.Keys && done == gone - previous
        invariant documents == rows - done && objects == files - Files(rows, done)
        decreases |previous|
      {
        var d :| d in previous;
        RemoveOneMore(rows, files, done, d);
        RemoveOne(d, documents[d]);
        previous, done := previous - {d}, done + {d};
      }
      assert done == gone;
    }

    /** The new row takes the place of the previous ones of its kind, with a thumbnail if
      * the file is still there to make one of. */
    method ReplaceDocument(u: UserId, kind: Kind, key: ObjectKey, id: DocId, thumbs: bool)
      modifies this`documents, this`objects
      ensures State() == Replaced(old(State()), u, kind, key, id, thumbs)
    {
      RemovePrevious(u, kind);
      var thumb: Option<ObjectKey> := None;
      if thumbs && key in objects {
        thumb := Some(ThumbKey(key));
        objects := objects[ThumbKey(key) := Thumbnail(objects[key])];
      }
      documents := documents[id := Document(u, kind, key, thumb)];
    }

    method ConfirmDocument(u: UserId, kind: Kind, key: ObjectKey, size: nat, id: DocId, thumbs: bool)
      returns (reply: Reply)
      requires Valid()
      modifies this`profiles, this`documents, this`objects
      ensures Valid() && (State(), reply) == Confirm(old(State()), u, kind, key, size, id, thumbs)
      ensures reply == Ok <==>
        old(Acceptable(State(), u, key, size) && Known(State(), u) && !InReview(State(), u)) && id !in old(documents)
      ensures reply == Ok ==>
        Previous(documents, u, kind) == {id} && documents[id].key == key && Folder(u) <= key && !UnderReview(State(), u)
    {
      ConfirmKeepsSound(State(), u, kind, key, size, id, thumbs);
      ConfirmGives(State(), u, kind, key, size, id, thumbs);
      if id !in documents { ConfirmAnswers(State(), u, kind, key, size, id, thumbs); }
      if size > MAX_UPLOAD_BYTES || !(Folder(u) <= key) || key !in objects { return BadRequest; }
      var found := GetOrCreateDraft(u);
      if !found { return UserGone; }
      if !Editable(profiles[u]) { return Locked; }
      if id in documents { return Conflict; }
      ReplaceDocument(u, kind, key, id, thumbs);
      return Ok;
    }

    method MissingParts(u: UserId) returns (missing: seq<Missing>)
      requires u in profiles
      ensures missing == MissingAt(State(), u)
    {
      var profile := profiles[u];
      missing := [];
      if !Truthy(profile.legalName) { missing := missing + [LegalName]; }
      if !profile.phoneVerified { missing := missing + [VerifiedPhone]; }
      if profile.skills == {} { missing := missing + [Skill]; }
      var kinds := set d | d in documents && documents[d].owner == u :: documents[d].kind;
      assert Selfie in kinds <==> Has(documents, u, Selfie);
      assert IdDocument in kinds <==> Has(documents, u, IdDocument);
      if Selfie !in kinds { missing := missing + [SelfiePhoto]; }
      if IdDocument !in kinds { missing := missing + [IdPhoto]; }
    }

    /** Collect what is missing, then lock the application and hand out the role. */
    method SubmitApplication(u: UserId) returns (reply: Reply)
      requires Valid()
      modifies this`profiles, this`users
      ensures Valid() && (State(), reply) == Submit(old(State()), u)
      ensures reply == Ok <==> old(Known(State(), u) && !InReview(State(), u) && AllThere(State(), u))
      ensures reply == Ok ==> profiles[u].status == Submitted && Complete(profiles[u], documents, u)
      ensures reply.Incomplete? ==> reply.missing != [] && !UnderReview(State(), u)
    {
      CallKeepsSound(State(), OpSubmit(u));
      SubmitAnswers(State(), u);
      var found := GetOrCreateDraft(u);
      if !found { return UserGone; }
      var profile := profiles[u];
      if !Editable(profile) { return Locked; }
      var missing := MissingParts(u);
      if missing != [] { return Incomplete(missing); }
      profiles := profiles[u := profile.(status := Submitted, submittedAt := Some(now), rejectionReason := None)];
      PromoteToProvider(u);
      return Ok;
    }

    method ApproveApplication(u: UserId) returns (reply: Reply)
      requires Valid()
      modifies this`profiles
      ensures Valid() && (State(), reply) == Approve(old(State()), u)
      ensures reply == Ok <==> old(u in profiles && profiles[u].status == Submitted)
      ensures reply == Ok ==> profiles[u].status == Approved && Complete(profiles[u], documents, u)
    {
      CallKeepsSound(State(), OpApprove(u));
      if u !in profiles { return NotFound; }
      var profile := profiles[u];
      if profile.status != Submitted { return BadRequest; }
      profiles := profiles[u := profile.(status := Approved, reviewedAt := Some(now), rejectionReason := None)];
      return Ok;
    }

    method RejectApplication(u: UserId, reason: string) returns (reply: Reply)
      requires Valid()
      modifies this`profiles
      ensures Valid() && (State(), reply) == Reject(old(State()), u, reason)
      ensures reply == Ok ==> old(u in profiles && profiles[u].status == Submitted) && Editable(profiles[u])
      ensures reply != Ok ==> profiles == old(profiles)
    {
      CallKeepsSound(State(), OpReject(u, reason));
      if !(3 <= |reason| <= 500) { return BadRequest; }
      if u !in profiles { return NotFound; }
      var profile := profiles[u];
      if profile.status != Submitted { return BadRequest; }
      profiles := profiles[u := profile.(status := Rejected, rejectionReason := Some(reason), reviewedAt := Some(now))];
      return Ok;
    }
  }
}
