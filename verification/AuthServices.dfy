/** auth.service.ts and the axios.ts interceptor as they run: Redis keys set, overwritten
  * and deleted, a cursor loop over SCAN, and module variables updated as responses
  * arrive. Each method is proved to be the step of Sessions or SessionClient. */
module AuthServices {
  import opened Options
  import opened Sessions
  import C = SessionClient

  class AuthService {
    const sessionTtlMs: nat
    const tokenTtlS: nat
    var now: nat
    var users: set<UserId>
    var sessions: map<Key, Session>
    var drawn: set<Sid>

    function State(): Server
      reads this
    {
      Server(now, sessionTtlMs, tokenTtlS, users, sessions, drawn)
    }

    /** Every stored session was issued once, under the key its token names. */
    ghost predicate Valid()
      reads this
    {
      KeysDrawn(State())
    }

    constructor (sessionTtlMs: nat, tokenTtlS: nat)
      ensures Valid()
      ensures State() == Server(0, sessionTtlMs, tokenTtlS, {}, map[], {})
    {
      this.sessionTtlMs := sessionTtlMs;
      this.tokenTtlS := tokenTtlS;
      now, users, sessions, drawn := 0, {}, map[], {};
    }

    method PersistSession(user: UserId, sid: Sid, token: Token)
      requires token.sub == user && token.sid == sid
      modifies this`sessions
      ensures State() == Persist(old(State()), token)
    {
      sessions := sessions[Key(user, sid) := Session(token, now + sessionTtlMs)];
    }

    method IssueSession(user: UserId, sid: Sid) returns (answer: Answer)
      requires Valid()
      modifies this
      ensures Valid() && (State(), answer) == Issue(old(State()), user, sid)
      ensures answer.Issued? && sessionTtlMs > 0 ==>
        Live(State(), Key(user, sid)) && sessions[Key(user, sid)].token == answer.token
      ensures sid !in old(drawn) ==> answer.Issued? && Key(user, sid) !in old(sessions)
    {
      if sid in drawn { return Done; }
      drawn := drawn + {sid};
      var token := Token(user, sid, Second(now));
      PersistSession(user, sid, token);
      return Issued(token);
    }

    method RotateToken(p: Presented) returns (answer: Answer)
      requires Valid()
      modifies this`sessions
      ensures Valid() && (State(), answer) == Rotate(old(State()), p)
      ensures answer.Issued? <==>
        Unexpired(State(), p) && old(Held(State(), p.token, p.token)) && p.token.sub in users
      ensures answer.Issued? && sessionTtlMs > 0 ==>
        && p.Signed? && KeyOf(answer.token) == KeyOf(p.token)
        && Live(State(), KeyOf(p.token)) && sessions[KeyOf(p.token)].token == answer.token
      ensures answer == ReuseDetected || answer == UserGone ==>
        p.Signed? && old(Live(State(), KeyOf(p.token))) && Revoked(State(), KeyOf(p.token))
      ensures answer == InvalidToken || answer == SessionExpired ==> sessions == old(sessions)
    {
      if !Verifies(State(), p) { return InvalidToken; }
      var key := Key(p.token.sub, p.token.sid);
      if !Live(State(), key) { return SessionExpired; }
      var stored := sessions[key];
      if stored.token != p.token {
        sessions := sessions - {key};
        return ReuseDetected;
      }
      if p.token.sub !in users {
        sessions := sessions - {key};
        return UserGone;
      }
      var rotated := Token(p.token.sub, p.token.sid, Second(now));
      PersistSession(p.token.sub, p.token.sid, rotated);
      return Issued(rotated);
    }

    method RevokeFromToken(p: Presented)
      requires Valid()
      modifies this`sessions
      ensures Valid() && State() == RevokeToken(old(State()), p)
      ensures Verifies(State(), p) ==> !Live(State(), KeyOf(p.token))
    {
      if Verifies(State(), p) {
        sessions := sessions - {Key(p.token.sub, p.token.sid)};
      }
    }

    /** SCAN with MATCH session:<user>:*. Its guarantee is the precondition: the batches
      * up to the return of cursor 0 hold only matching keys and, between them, every
      * matching key that is there throughout. They may repeat keys, and name keys that
      * are gone by then. */
    method RevokeAllSessions(user: UserId, batches: seq<set<Key>>)
      requires |batches| > 0
      requires forall i, k :: 0 <= i < |batches| && k in batches[i] ==> k.user == user
      requires forall k :: k in sessions && k.user == user ==> exists i :: 0 <= i < |batches| && k in batches[i]
      requires Valid()
      modifies this`sessions
      ensures Valid() && State() == RevokeAll(old(State()), user)
      ensures KeysOf(State(), user) == {}
    {
      ghost var before := sessions;
      var cursor := 0;
      while true
        invariant 0 <= cursor < |batches|
        invariant forall k :: k in sessions ==> k in before && sessions[k] == before[k]
        invariant forall k :: k in before && k !in sessions ==> k.user == user
        invariant forall i, k :: 0 <= i < cursor && k in batches[i] ==> k !in sessions
        decreases |batches| - cursor
      {
        var keys := batches[cursor];
        if keys != {} { sessions := sessions - keys; }
        if cursor + 1 == |batches| {
          cursor := cursor + 1;
          break;
        }
        cursor := cursor + 1;
      }
      assert sessions == before - KeysOf(old(State()), user);
    }
  }

  /** The tabs of one browser; `tabs[t]` holds the module variables of tab t. */
  class Browser {
    var cookie: Option<Token>
    var started: nat
    var flights: map<nat, C.Flight>
    var tabs: map<C.TabId, C.Tab>
    var requests: map<nat, C.Request>

    function State(): C.Client
      reads this
    {
      C.Client(cookie, started, flights, tabs, requests)
    }

    constructor (cookie: Option<Token>)
      ensures State() == C.Client(cookie, 0, map[], map[], map[])
    {
      this.cookie := cookie;
      started, flights, tabs, requests := 0, map[], map[], map[];
    }

    method RefreshAccessToken(t: C.TabId) returns (promise: nat)
      modifies this`started, this`flights
      ensures promise == old(started) && State() == C.Begin(old(State()), t)
    {
      promise := started;
      flights := flights[promise := C.Flight(t, C.Asking(cookie))];
      started := started + 1;
    }

    /** The error half of the response interceptor, up to its `await refreshPromise`: the
      * request joins its tab's refresh, of which there is still at most one. */
    method Unauthorized(r: nat)
      requires r in requests && requests[r].phase == C.Flying && C.ClientOk(State())
      modifies this
      ensures State() == C.On401(old(State()), r) && C.ClientOk(State())
      ensures C.OthersKept(old(requests), requests, {r}) && requests[r].sends == old(requests[r]).sends
      ensures requests[r].phase.Waiting? <==> old(C.FirstRefusal(State(), r))
      ensures requests[r].phase.Waiting? ==> tabs[requests[r].tab] == C.App(Some(requests[r].phase.flight))
      ensures !requests[r].phase.Waiting? ==> requests[r].phase == C.Settled
      ensures flights.Keys == old(flights).Keys
        + if old(C.FirstRefusal(State(), r) && tabs[requests[r].tab] == C.App(None)) then {old(started)} else {}
    {
      C.On401Ok(State(), r);
      C.RefusedJoins(State(), r);
      C.RefusedStarts(State(), r);
      var original := requests[r];
      if original.retried || original.tab !in tabs || tabs[original.tab].Landing? {
        requests := requests[r := original.(phase := C.Settled)];
        return;
      }
      original := original.(retried := true);
      var refreshPromise := tabs[original.tab].refreshPromise;
      if refreshPromise.None? {
        var promise := RefreshAccessToken(original.tab);
        refreshPromise := Some(promise);
        tabs := tabs[original.tab := C.App(refreshPromise)];
      }
      requests := requests[r := original.(phase := C.Waiting(refreshPromise.value))];
    }

    /** The code after `await refreshPromise`, once for every request that waits for f. */
    method WakeWaiters(f: nat, ok: bool)
      modifies this`requests
      ensures requests == C.Wake(old(requests), f, ok)
      ensures requests.Keys == old(requests).Keys
      ensures forall r :: r in requests && old(requests)[r].phase != C.Waiting(f) ==> requests[r] == old(requests)[r]
      ensures forall r :: r in requests && old(requests)[r].phase == C.Waiting(f) ==>
        && requests[r].phase == (if ok then C.Flying else C.Settled)
        && requests[r].sends == old(requests)[r].sends + if ok then 1 else 0
    {
      ghost var before := requests;
      var waiters := set r | r in requests && requests[r].phase == C.Waiting(f);
      while waiters != {}
        invariant requests.Keys == before.Keys && waiters <= before.Keys
        invariant forall r :: r in waiters ==> requests[r] == before[r] && before[r].phase == C.Waiting(f)
        invariant forall r :: r in before && r !in waiters ==> requests[r] == C.Woken(before[r], f, ok)
        decreases |waiters|
      {
        var r :| r in waiters;
        var original := requests[r];
        if ok {
          requests := requests[r := original.(phase := C.Flying, sends := original.sends + 1)];
        } else {
          requests := requests[r := original.(phase := C.Settled)];
        }
        waiters := waiters - {r};
      }
    }

    /** A refresh settles: its tab forgets the promise, then the waiters go on. Nobody is
      * left waiting for it. */
    method Refreshed(f: nat, token: Option<Token>)
      requires f in flights && C.ClientOk(State())
      modifies this
      ensures State() == C.OnRefreshed(old(State()), f, old(flights)[f].tab, token) && C.ClientOk(State())
      ensures forall r :: r in requests ==> requests[r].phase != C.Waiting(f)
      ensures C.OthersKept(old(requests), requests, C.WaitersOf(old(State()), f))
      ensures forall r :: r in C.WaitersOf(old(State()), f) ==>
        && requests[r].phase == (if token.Some? then C.Flying else C.Settled)
        && requests[r].sends == old(requests)[r].sends + if token.Some? then 1 else 0
      ensures cookie == if token.Some? then token else old(cookie)
    {
      C.OnRefreshedOk(State(), f, token);
      var t := flights[f].tab;
      if token.Some? { cookie := token; }
      flights := flights - {f};
      if t in tabs && C.Refreshing(tabs[t]) == Some(f) { tabs := tabs[t := C.App(None)]; }
      WakeWaiters(f, token.Some?);
    }
  }
}
