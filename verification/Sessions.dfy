/** Refresh sessions on the server: auth.service.ts. A signed refresh token carries user,
  * session id and the second it was issued in, nothing else; the session row keeps its
  * hash (taken as injective, so the token itself stands for it). Times are in
  * milliseconds, `iat` in seconds. */
module Sessions {
  import opened Options

  type UserId = nat
  type Sid = nat

  datatype Token = Token(sub: UserId, sid: Sid, iat: nat)
  /** What a client may present: a token this server signed, or anything else. */
  datatype Presented = Signed(token: Token) | Unsigned

  datatype Key = Key(user: UserId, sid: Sid)
  datatype Session = Session(token: Token, expireAt: nat)

  /** drawn: the session ids randomUUID has returned so far. */
  datatype Server = Server(now: nat, sessionTtlMs: nat, tokenTtlS: nat,
                           users: set<UserId>, sessions: map<Key, Session>, drawn: set<Sid>)

  datatype Answer = Issued(token: Token) | InvalidToken | SessionExpired | ReuseDetected | UserGone | Done

  function Second(ms: nat): nat { ms / 1000 }

  function KeyOf(t: Token): Key { Key(t.sub, t.sid) }

  /** A Redis key with EX reads as missing once its time is up. */
  predicate Live(s: Server, k: Key) {
    k in s.sessions && s.now < s.sessions[k].expireAt
  }

  predicate Verifies(s: Server, p: Presented) {
    p.Signed? && Second(s.now) < p.token.iat + s.tokenTtlS
  }

  function Persist(s: Server, t: Token): Server {
    s.(sessions := s.sessions[KeyOf(t) := Session(t, s.now + s.sessionTtlMs)])
  }

  function Drop(s: Server, keys: set<Key>): Server {
    s.(sessions := s.sessions - keys)
  }

  /** A session id that was drawn before is refused: UUIDs do not repeat. */
  function Issue(s: Server, user: UserId, sid: Sid): (Server, Answer) {
    if sid in s.drawn then (s, Done)
    else
      var t := Token(user, sid, Second(s.now));
      (Persist(s.(drawn := s.drawn + {sid}), t), Issued(t))
  }

  function Rotate(s: Server, p: Presented): (Server, Answer) {
    if !Verifies(s, p) then (s, InvalidToken)
    else
      var k := KeyOf(p.token);
      if !Live(s, k) then (s, SessionExpired)
      else if s.sessions[k].token != p.token then (Drop(s, {k}), ReuseDetected)
      else if p.token.sub !in s.users then (Drop(s, {k}), UserGone)
      else
        var t := Token(p.token.sub, p.token.sid, Second(s.now));
        (Persist(s, t), Issued(t))
  }

  function RevokeToken(s: Server, p: Presented): Server {
    if Verifies(s, p) then Drop(s, {KeyOf(p.token)}) else s
  }

  function KeysOf(s: Server, user: UserId): set<Key> {
    set k | k in s.sessions && k.user == user
  }

  function RevokeAll(s: Server, user: UserId): Server {
    Drop(s, KeysOf(s, user))
  }

  datatype Op =
    | Tick(ms: nat)
    | IssueOp(user: UserId, sid: Sid)
    | RotateOp(p: Presented)
    | LogoutOp(p: Presented)
    | LogoutAllOp(user: UserId)
    | UserOp(user: UserId, exists': bool)   // account deleted or restored

  function Next(s: Server, op: Op): Server {
    match op
    case Tick(ms) => s.(now := s.now + ms)
    case IssueOp(u, sid) => Issue(s, u, sid).0
    case RotateOp(p) => Rotate(s, p).0
    case LogoutOp(p) => RevokeToken(s, p)
    case LogoutAllOp(u) => RevokeAll(s, u)
    case UserOp(u, e) => s.(users := if e then s.users + {u} else s.users - {u})
  }

  ghost function Run(s: Server, ops: seq<Op>): Server
    decreases |ops|
  {
    if ops == [] then s else Run(Next(s, ops[0]), ops[1..])
  }

  // ---- what each call answers, and what it leaves of the session keys ----

  /** The tokens that may be rotated or logged out with: signed here, not past their time. */
  predicate Unexpired(s: Server, p: Presented) {
    p.Signed? && s.now / 1000 < p.token.iat + s.tokenTtlS
  }

  /** What the server holds for the session of a token, while it holds it. */
  predicate Held(s: Server, t: Token, stored: Token) {
    var k := Key(t.sub, t.sid);
    k in s.sessions && s.now < s.sessions[k].expireAt && s.sessions[k].token == stored
  }

  predicate SomeHeld(s: Server, t: Token) {
    var k := Key(t.sub, t.sid);
    k in s.sessions && s.now < s.sessions[k].expireAt
  }

  /** All keys but this one are as before. */
  ghost predicate OnlyKey(s: Server, after: Server, k: Key) {
    && after == s.(sessions := after.sessions)
    && (forall j :: j != k ==> (j in after.sessions <==> j in s.sessions))
    && (forall j :: j != k && j in s.sessions ==> after.sessions[j] == s.sessions[j])
  }

  lemma IssueAnswers(s: Server, user: UserId, sid: Sid)
    requires sid !in s.drawn
    ensures
      var (after, answer) := Issue(s, user, sid);
      var k, t := Key(user, sid), Token(user, sid, s.now / 1000);
      && answer == Issued(t) && OnlyKey(s.(drawn := s.drawn + {sid}), after, k)
      && k in after.sessions && after.sessions[k] == Session(t, s.now + s.sessionTtlMs)
  {
  }

  /** A new token exactly for the stored one, unexpired, of a session that lives and a user
    * that exists; every other case with its own refusal. */
  lemma RotateAnswers(s: Server, p: Presented)
    ensures
      var answer := Rotate(s, p).1;
      && (answer.Issued? <==> Unexpired(s, p) && Held(s, p.token, p.token) && p.token.sub in s.users)
      && (answer.Issued? ==> answer.token == Token(p.token.sub, p.token.sid, s.now / 1000))
      && (answer == InvalidToken <==> !Unexpired(s, p))
      && (answer == SessionExpired <==> Unexpired(s, p) && !SomeHeld(s, p.token))
      && (answer == ReuseDetected <==> Unexpired(s, p) && SomeHeld(s, p.token) && !Held(s, p.token, p.token))
      && (answer == UserGone <==> Unexpired(s, p) && Held(s, p.token, p.token) && p.token.sub !in s.users)
  {
  }

  /** A rotation stores the new token for the whole lifetime of a session; reuse and a user
    * who is gone delete the key; other refusals leave everything. */
  lemma RotateLeaves(s: Server, p: Presented)
    ensures
      var (after, answer) := Rotate(s, p);
      if answer == InvalidToken || answer == SessionExpired then after == s
      else
        var k := Key(p.token.sub, p.token.sid);
        && OnlyKey(s, after, k)
        && (k in after.sessions <==> answer.Issued?)
        && (answer.Issued? ==> after.sessions[k] == Session(answer.token, s.now + s.sessionTtlMs))
  {
  }

  lemma LogoutLeaves(s: Server, p: Presented)
    ensures
      var after := RevokeToken(s, p);
      if !Unexpired(s, p) then after == s
      else OnlyKey(s, after, Key(p.token.sub, p.token.sid)) && Key(p.token.sub, p.token.sid) !in after.sessions
  {
  }

  lemma LogoutAllLeaves(s: Server, user: UserId)
    ensures
      var after := RevokeAll(s, user);
      && after == s.(sessions := after.sessions)
      && (forall k :: k in after.sessions <==> k in s.sessions && k.user != user)
      && (forall k :: k in after.sessions ==> after.sessions[k] == s.sessions[k])
  {
  }

  // ---- a revoked session stays revoked ----

  ghost predicate KeysDrawn(s: Server) {
    forall k :: k in s.sessions ==> k.sid in s.drawn && KeyOf(s.sessions[k].token) == k
  }

  lemma NextKeysDrawn(s: Server, op: Op)
    requires KeysDrawn(s)
    ensures KeysDrawn(Next(s, op))
  {
  }

  /** The session was issued once and is not live now. */
  ghost predicate Revoked(s: Server, k: Key) {
    k.sid in s.drawn && !Live(s, k)
  }

  lemma RevokedNext(s: Server, op: Op, k: Key)
    requires Revoked(s, k)
    ensures Revoked(Next(s, op), k)
  {
  }

  lemma {:induction false} RevokedForGood(s: Server, ops: seq<Op>, k: Key)
    requires Revoked(s, k)
    ensures Revoked(Run(s, ops), k)
    decreases |ops|
  {
    if ops != [] {
      RevokedNext(s, ops[0], k);
      RevokedForGood(Next(s, ops[0]), ops[1..], k);
    }
  }

  /** Its time runs out, it is logged out (or all of its user's are), or one of its tokens
    * is presented that is not the stored one or whose user is gone. */
  predicate Ends(s: Server, op: Op, k: Key)
    requires Live(s, k)
  {
    match op
    case Tick(ms) => s.now + ms >= s.sessions[k].expireAt
    case LogoutOp(p) => Verifies(s, p) && KeyOf(p.token) == k
    case LogoutAllOp(u) => u == k.user
    case RotateOp(p) => Verifies(s, p) && KeyOf(p.token) == k && (p.token != s.sessions[k].token || k.user !in s.users)
    case _ => false
  }

  /** These and nothing else revoke a live session; no login, rotation, logout or account
    * change of anyone else can. */
  lemma RevokedIffEnded(s: Server, op: Op, k: Key)
    requires KeysDrawn(s) && Live(s, k) && s.sessionTtlMs > 0
    ensures Revoked(Next(s, op), k) <==> Ends(s, op, k)
  {
  }

  /** Once a session is deleted or has run out, no token of it is ever rotated again,
    * whatever is issued, rotated or revoked in between. */
  lemma RevokedNeverRotates(s: Server, ops: seq<Op>, t: Token)
    requires Revoked(s, KeyOf(t))
    ensures !Rotate(Run(s, ops), Signed(t)).1.Issued?
  {
    RevokedForGood(s, ops, KeyOf(t));
  }

  // ---- what rotation invalidates ----

  /** After a rotation the same token, presented while the session lives and before it
    * expires itself, is refused (and the session revoked) if and only if the rotation
    * fell into a later second than the token: within one second the "new" token is the
    * old one, because a token holds nothing finer than its second. */
  lemma OldTokenRefusedIff(s: Server, t: Token, ms: nat)
    requires KeysDrawn(s) && Rotate(s, Signed(t)).1.Issued?
    requires Live(Next(Rotate(s, Signed(t)).0, Tick(ms)), KeyOf(t))
    requires Verifies(Next(Rotate(s, Signed(t)).0, Tick(ms)), Signed(t))
    ensures
      var later := Next(Rotate(s, Signed(t)).0, Tick(ms));
      && (Rotate(later, Signed(t)).1 == ReuseDetected <==> Second(s.now) != t.iat)
      && (Rotate(later, Signed(t)).1.Issued? <==> Second(s.now) == t.iat)
      && (Second(s.now) != t.iat ==> Revoked(Rotate(later, Signed(t)).0, KeyOf(t)))
  {
    assert Rotate(s, Signed(t)).0.sessions[KeyOf(t)].token == Token(t.sub, t.sid, Second(s.now));
  }

  /** The documented "invalidates the old refresh token" is false in the first second. */
  lemma SameSecondReplay(s: Server, user: UserId, sid: Sid)
    requires user in s.users && sid !in s.drawn && s.sessionTtlMs > 0 && s.tokenTtlS > 0
    ensures
      var t := Token(user, sid, Second(s.now));
      var s1 := Issue(s, user, sid).0;
      var s2 := Rotate(s1, Signed(t)).0;
      Rotate(s1, Signed(t)).1 == Issued(t) && Rotate(s2, Signed(t)).1 == Issued(t)
  {
  }

  // ---- revokeAll ----

  /** After a logout everywhere no token that any session of the user ever had rotates
    * again, in any run; and what anyone else's token is answered has not changed. */
  lemma LogoutEverywhere(s: Server, user: UserId, ops: seq<Op>, t: Token)
    requires KeysDrawn(s)
    ensures t.sub == user && t.sid in s.drawn ==> !Rotate(Run(RevokeAll(s, user), ops), Signed(t)).1.Issued?
    ensures t.sub != user ==> Rotate(RevokeAll(s, user), Signed(t)).1 == Rotate(s, Signed(t)).1
  {
    if t.sub == user && t.sid in s.drawn { RevokedNeverRotates(RevokeAll(s, user), ops, t); }
  }
}
