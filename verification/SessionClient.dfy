/** The browser's side of the refresh token: the 401 interceptor of axios.ts in any number
  * of tabs and the cookie they share, with requests, refresh calls and their responses in
  * flight, against one session of module Sessions.
  *
  * Each tab has its own module variable `refreshPromise`. A tab may also open on the page
  * Google redirects to: it calls `refreshAccessToken` itself, and sends nothing else
  * before that has settled. */
module SessionClient {
  import opened Options
  import opened Sessions

  type TabId = nat

  /** POST /auth/refresh: on its way with the cookie it was sent with, then answered. */
  datatype Leg = Asking(cookie: Option<Token>) | Answering(token: Option<Token>)
  datatype Flight = Flight(tab: TabId, leg: Leg)

  /** The refresh a tab has in flight, if any: the callback page's, or the shared promise. */
  datatype Tab = Landing(flight: nat) | App(refreshPromise: Option<nat>)

  datatype Phase = Flying | Waiting(flight: nat) | Settled
  /** An API request: how often it was sent, and its `_retry` mark. */
  datatype Request = Request(tab: TabId, phase: Phase, sends: nat, retried: bool)

  /** Promises are numbered as they are made. */
  datatype Client = Client(cookie: Option<Token>, started: nat, flights: map<nat, Flight>, tabs: map<TabId, Tab>,
                           requests: map<nat, Request>)

  /** tripped: reuse was detected for this session; diverged: two refreshes were ever in
    * flight together while the client held two different tokens, or a response with a new
    * token was lost. Both only record. */
  datatype World = World(server: Server, client: Client, tripped: bool, diverged: bool)

  datatype Act =
    | OpenTab(t: TabId, landing: bool)
    | Send(t: TabId, r: nat)
    | Respond(r: nat, unauthorized: bool)  // the response to an API request arrives
    | ServeRefresh(f: nat)                  // the server handles a refresh
    | FinishRefresh(f: nat)                 // its response arrives
    | LoseRefresh(f: nat)                   // it fails on the way there or back
    | Elsewhere(op: Op)                     // time, other devices, account changes

  // ---- the interceptor ----

  /** refreshAccessToken, up to its await. */
  function Begin(c: Client, t: TabId): Client {
    c.(started := c.started + 1, flights := c.flights[c.started := Flight(t, Asking(c.cookie))])
  }

  /** A 401 to a request not yet retried joins its tab's refresh in flight or starts one. */
  function On401(c: Client, r: nat): Client
    requires r in c.requests
  {
    var q := c.requests[r];
    if q.retried || q.tab !in c.tabs || c.tabs[q.tab].Landing? then
      c.(requests := c.requests[r := q.(phase := Settled)])
    else
      var shared := c.tabs[q.tab].refreshPromise;
      var f := if shared.Some? then shared.value else c.started;
      var d := if shared.Some? then c else Begin(c, q.tab).(tabs := c.tabs[q.tab := App(Some(c.started))]);
      d.(requests := c.requests[r := q.(phase := Waiting(f), retried := true)])
  }

  function Woken(q: Request, f: nat, ok: bool): Request {
    if q.phase != Waiting(f) then q
    else if ok then q.(phase := Flying, sends := q.sends + 1) else q.(phase := Settled)
  }

  function Wake(requests: map<nat, Request>, f: nat, ok: bool): map<nat, Request> {
    map r | r in requests :: Woken(requests[r], f, ok)
  }

  function Refreshing(tab: Tab): Option<nat> { if tab.Landing? then Some(tab.flight) else tab.refreshPromise }

  /** The tab forgets the promise that settled; the callback page routes into the app. */
  function Forget(tabs: map<TabId, Tab>, t: TabId, f: nat): map<TabId, Tab> {
    if t in tabs && Refreshing(tabs[t]) == Some(f) then tabs[t := App(None)] else tabs
  }

  /** A refresh settles: its promise is forgotten, and every request that waits for it is
    * sent again or given up. */
  function OnRefreshed(c: Client, f: nat, t: TabId, token: Option<Token>): Client {
    c.(cookie := if token.Some? then token else c.cookie,
       flights := c.flights - {f},
       tabs := Forget(c.tabs, t, f),
       requests := Wake(c.requests, f, token.Some?))
  }

  // ---- the world ----

  /** The refresh endpoint: no cookie, no session. */
  function Serve(w: World, cookie: Option<Token>): (World, Leg) {
    if cookie.None? then (w, Answering(None))
    else
      var (server, answer) := Rotate(w.server, Signed(cookie.value));
      (w.(server := server, tripped := w.tripped || answer == ReuseDetected),
       Answering(if answer.Issued? then Some(answer.token) else None))
  }

  predicate Asks(c: Client, f: nat) { f in c.flights && c.flights[f].leg.Asking? }

  predicate Answers(c: Client, f: nat) { f in c.flights && c.flights[f].leg.Answering? }

  function Happen(w: World, act: Act): World {
    var c := w.client;
    match act
    case OpenTab(t, landing) =>
      if t in c.tabs then w
      else if landing then w.(client := Begin(c, t).(tabs := c.tabs[t := Landing(c.started)]))
      else w.(client := c.(tabs := c.tabs[t := App(None)]))
    case Send(t, r) =>
      if r in c.requests || t !in c.tabs || c.tabs[t].Landing? then w
      else w.(client := c.(requests := c.requests[r := Request(t, Flying, 1, false)]))
    case Respond(r, unauthorized) =>
      if r !in c.requests || c.requests[r].phase != Flying then w
      else if unauthorized then w.(client := On401(c, r))
      else w.(client := c.(requests := c.requests[r := c.requests[r].(phase := Settled)]))
    case ServeRefresh(f) =>
      if !Asks(c, f) then w
      else
        var (w', leg) := Serve(w, c.flights[f].leg.cookie);
        w'.(client := c.(flights := c.flights[f := c.flights[f].(leg := leg)]))
    case FinishRefresh(f) =>
      if !Answers(c, f) then w
      else w.(client := OnRefreshed(c, f, c.flights[f].tab, c.flights[f].leg.token))
    case LoseRefresh(f) =>
      if f !in c.flights then w else w.(client := OnRefreshed(c, f, c.flights[f].tab, None))
    case Elsewhere(op) => w.(server := Next(w.server, op))
  }

  // ---- what happens to a request, said request by request ----

  /** All requests but those are as before. */
  ghost predicate OthersKept(a: map<nat, Request>, b: map<nat, Request>, changed: set<nat>) {
    b.Keys == a.Keys && forall r :: r in a && r !in changed ==> b[r] == a[r]
  }

  /** The requests that wait for refresh f. */
  function WaitersOf(c: Client, f: nat): set<nat> {
    set r | r in c.requests && c.requests[r].phase == Waiting(f)
  }

  /** A first 401 of a request from inside the app. */
  predicate FirstRefusal(c: Client, r: nat) {
    r in c.requests && !c.requests[r].retried && c.requests[r].tab in c.tabs && c.tabs[c.requests[r].tab].App?
  }

  /** A first 401 puts the request to wait, marked as retried, for the refresh its tab has
    * in flight; any other 401 settles it. */
  lemma RefusedJoins(c: Client, r: nat)
    requires r in c.requests
    ensures
      var d := On401(c, r);
      && OthersKept(c.requests, d.requests, {r}) && d.cookie == c.cookie
      && d.requests[r].tab == c.requests[r].tab && d.requests[r].sends == c.requests[r].sends
      && (if FirstRefusal(c, r) then
            && d.requests[r].retried && d.requests[r].tab in d.tabs
            && d.requests[r].phase.Waiting? && d.tabs[d.requests[r].tab] == App(Some(d.requests[r].phase.flight))
          else d.requests[r].phase == Settled && d.requests[r].retried == c.requests[r].retried)
  {
  }

  /** A refresh starts exactly at a first 401 of a tab without one, and it asks with the
    * cookie of that moment; nothing else in flight and no other tab is touched. */
  lemma RefusedStarts(c: Client, r: nat)
    requires r in c.requests && forall f :: f in c.flights ==> f < c.started
    ensures
      var d, t := On401(c, r), c.requests[r].tab;
      if FirstRefusal(c, r) && c.tabs[t] == App(None) then
        && d.flights.Keys == c.flights.Keys + {c.started} && c.started !in c.flights && d.started == c.started + 1
        && d.flights[c.started] == Flight(t, Asking(c.cookie)) && d.tabs[t] == App(Some(c.started))
        && (forall f :: f in c.flights ==> d.flights[f] == c.flights[f])
        && d.tabs.Keys == c.tabs.Keys && (forall u :: u in c.tabs && u != t ==> d.tabs[u] == c.tabs[u])
      else d.flights == c.flights && d.tabs == c.tabs && d.started == c.started
  {
  }

  /** A refresh that brought a token sends every request that waits for it once more; one
    * that brought none settles them all. No other request is touched. */
  lemma SettledWakes(c: Client, f: nat, t: TabId, token: Option<Token>)
    ensures
      var d := OnRefreshed(c, f, t, token);
      && OthersKept(c.requests, d.requests, WaitersOf(c, f))
      && (forall r :: r in WaitersOf(c, f) ==>
            && d.requests[r].tab == c.requests[r].tab && d.requests[r].retried == c.requests[r].retried
            && (token.Some? ==> d.requests[r].phase == Flying && d.requests[r].sends == c.requests[r].sends + 1)
            && (token.None? ==> d.requests[r].phase == Settled && d.requests[r].sends == c.requests[r].sends))
  {
  }

  /** The token becomes the cookie, the refresh is over, and its tab may start another. */
  lemma SettledForgets(c: Client, f: nat, token: Option<Token>)
    requires f in c.flights
    ensures
      var d, t := OnRefreshed(c, f, c.flights[f].tab, token), c.flights[f].tab;
      && d.cookie == (if token.Some? then token else c.cookie)
      && (forall g :: g in d.flights <==> g in c.flights && g != f)
      && (forall g :: g in d.flights ==> d.flights[g] == c.flights[g])
      && d.tabs.Keys == c.tabs.Keys && (forall u :: u in c.tabs && u != t ==> d.tabs[u] == c.tabs[u])
      && (t in c.tabs && (c.tabs[t] == Landing(f) || c.tabs[t] == App(Some(f))) ==> d.tabs[t] == App(None))
  {
  }

  /** The refresh endpoint answers with a token exactly when the cookie's rotates, and then
    * with the one that is stored from then on. */
  lemma ServedMeans(w: World, f: nat)
    requires Asks(w.client, f)
    ensures
      var after, cookie := Happen(w, ServeRefresh(f)), w.client.flights[f].leg.cookie;
      && after.client.(flights := w.client.flights) == w.client
      && after.client.flights.Keys == w.client.flights.Keys
      && (forall g :: g in w.client.flights && g != f ==> after.client.flights[g] == w.client.flights[g])
      && after.client.flights[f].tab == w.client.flights[f].tab && after.client.flights[f].leg.Answering?
      && (after.client.flights[f].leg.token.Some? <==>
            && cookie.Some? && Unexpired(w.server, Signed(cookie.value))
            && Held(w.server, cookie.value, cookie.value) && cookie.value.sub in w.server.users)
      && (after.client.flights[f].leg.token.Some? ==>
            && after.client.flights[f].leg.token == Some(Token(cookie.value.sub, cookie.value.sid, w.server.now / 1000))
            && Key(cookie.value.sub, cookie.value.sid) in after.server.sessions
            && after.server.sessions[Key(cookie.value.sub, cookie.value.sid)].token
               == after.client.flights[f].leg.token.value)
  {
    var cookie := w.client.flights[f].leg.cookie;
    if cookie.Some? {
      RotateAnswers(w.server, Signed(cookie.value));
      RotateLeaves(w.server, Signed(cookie.value));
    }
  }

  /** Any other answer settles the request, and that is all it does. */
  lemma AnsweredSettles(w: World, r: nat)
    requires r in w.client.requests && w.client.requests[r].phase == Flying
    ensures
      var c, after := w.client, Happen(w, Respond(r, false));
      && after.(client := c) == w && after.client.(requests := c.requests) == c
      && OthersKept(c.requests, after.client.requests, {r})
      && after.client.requests[r].phase == Settled && after.client.requests[r].sends == c.requests[r].sends
  {
  }

  /** A tab opens in the app with nothing in flight, or on the callback page with a refresh
    * of its own that carries the cookie; and sends each request once. */
  lemma TabsOpenAndSend(w: World, t: TabId, landing: bool, r: nat)
    ensures t !in w.client.tabs ==>
      var c, d := w.client, Happen(w, OpenTab(t, landing)).client;
      && d.tabs.Keys == c.tabs.Keys + {t} && (forall u :: u in c.tabs ==> d.tabs[u] == c.tabs[u])
      && d.cookie == c.cookie && d.requests == c.requests
      && (if landing then
            d.tabs[t] == Landing(c.started) && d.started == c.started + 1
            && d.flights == c.flights[c.started := Flight(t, Asking(c.cookie))]
          else d.tabs[t] == App(None) && d.flights == c.flights && d.started == c.started)
    ensures t in w.client.tabs && w.client.tabs[t].App? && r !in w.client.requests ==>
      var c, d := w.client, Happen(w, Send(t, r)).client;
      && d.(requests := c.requests) == c && d.requests.Keys == c.requests.Keys + {r}
      && d.requests[r] == Request(t, Flying, 1, false)
      && (forall q :: q in c.requests ==> d.requests[q] == c.requests[q])
  {
  }

  /** At most one refresh is in flight. */
  predicate Alone(c: Client) {
    forall f, g :: f in c.flights && g in c.flights ==> f == g
  }

  function Carries(leg: Leg): Option<Token> { match leg case Asking(c) => c case Answering(t) => t }

  /** The cookie and everything in flight is one and the same token. */
  predicate OneToken(c: Client) {
    forall f :: f in c.flights && Carries(c.flights[f].leg).Some? ==> Carries(c.flights[f].leg) == c.cookie
  }

  /** The server has rotated, and the client will not hear of it. */
  predicate LosesToken(c: Client, act: Act) {
    act.LoseRefresh? && Answers(c, act.f) && c.flights[act.f].leg.token.Some? && c.flights[act.f].leg.token != c.cookie
  }

  predicate Diverges(w: World, act: Act) {
    var after := Happen(w, act).client;
    (!Alone(after) && !OneToken(after)) || LosesToken(w.client, act)
  }

  function Perform(w: World, act: Act): World {
    Happen(w, act).(diverged := w.diverged || Diverges(w, act))
  }

  ghost function Run(w: World, acts: seq<Act>): World
    decreases |acts|
  {
    if acts == [] then w else Run(Perform(w, acts[0]), acts[1..])
  }

  /** Others do not hold this session's tokens: no rotation or logout with them elsewhere. */
  predicate Honest(k: Key, act: Act) {
    act.Elsewhere? && (act.op.RotateOp? || act.op.LogoutOp?) && act.op.p.Signed? ==> KeyOf(act.op.p.token) != k
  }

  // ---- requests, promises and tabs fit together, in every interleaving ----

  /** A request is sent at most twice, and waits only for its tab's shared promise. */
  ghost predicate RequestOk(tabs: map<TabId, Tab>, q: Request) {
    && 1 <= q.sends <= 2
    && (q.sends == 2 ==> q.retried)
    && (q.phase == Flying && q.retried ==> q.sends == 2)
    && (q.phase.Waiting? ==>
          q.sends == 1 && q.retried && q.tab in tabs && tabs[q.tab] == App(Some(q.phase.flight)))
  }

  ghost predicate RequestsOk(c: Client) {
    forall r :: r in c.requests ==> RequestOk(c.tabs, c.requests[r])
  }

  /** What a tab is refreshing is in flight for it, and nothing else is. */
  ghost predicate FlightsOk(c: Client) {
    && (forall t :: t in c.tabs && Refreshing(c.tabs[t]).Some? ==>
          Refreshing(c.tabs[t]).value in c.flights && c.flights[Refreshing(c.tabs[t]).value].tab == t)
    && (forall f :: f in c.flights ==>
          && f < c.started && c.flights[f].tab in c.tabs
          && Refreshing(c.tabs[c.flights[f].tab]) == Some(f))
  }

  ghost predicate ClientOk(c: Client) { RequestsOk(c) && FlightsOk(c) }

  lemma BeginOk(c: Client, t: TabId, tab: Tab)
    requires ClientOk(c) && Refreshing(tab) == Some(c.started) && (t in c.tabs ==> c.tabs[t] == App(None))
    ensures ClientOk(Begin(c, t).(tabs := c.tabs[t := tab]))
  {
  }

  lemma On401Ok(c: Client, r: nat)
    requires ClientOk(c) && r in c.requests && c.requests[r].phase == Flying
    ensures ClientOk(On401(c, r))
  {
    var q := c.requests[r];
    if !q.retried && q.tab in c.tabs && c.tabs[q.tab] == App(None) {
      BeginOk(c, q.tab, App(Some(c.started)));
    }
  }

  lemma OnRefreshedOk(c: Client, f: nat, token: Option<Token>)
    requires ClientOk(c) && f in c.flights
    ensures ClientOk(OnRefreshed(c, f, c.flights[f].tab, token))
  {
  }

  lemma HappenOk(w: World, act: Act)
    requires ClientOk(w.client)
    ensures ClientOk(Happen(w, act).client)
  {
    var c := w.client;
    match act
    case OpenTab(t, landing) => if t !in c.tabs && landing { BeginOk(c, t, Landing(c.started)); }
    case Respond(r, unauthorized) => if r in c.requests && c.requests[r].phase == Flying { On401Ok(c, r); }
    case FinishRefresh(f) => if Answers(c, f) { OnRefreshedOk(c, f, c.flights[f].leg.token); }
    case LoseRefresh(f) => if f in c.flights { OnRefreshedOk(c, f, None); }
    case _ =>
  }

  lemma {:induction false} RunClientOk(w: World, acts: seq<Act>)
    requires ClientOk(w.client)
    ensures ClientOk(Run(w, acts).client)
    decreases |acts|
  {
    if acts != [] {
      HappenOk(w, acts[0]);
      RunClientOk(Perform(w, acts[0]), acts[1..]);
    }
  }

  /** When the answer arrives, every request that waited for it is in flight a second time
    * (with the new token as the cookie), or given up after its first. */
  lemma AnswerArrives(w: World, f: nat, r: nat)
    requires ClientOk(w.client) && Answers(w.client, f)
    requires r in w.client.requests && w.client.requests[r].phase == Waiting(f)
    ensures
      var token, later := w.client.flights[f].leg.token, Perform(w, FinishRefresh(f)).client;
      && r in later.requests
      && (if token.Some? then
            later.requests[r].phase == Flying && later.requests[r].sends == 2 && later.cookie == token
          else later.requests[r].phase == Settled && later.requests[r].sends == 1 && later.cookie == w.client.cookie)
  {
    SettledWakes(w.client, f, w.client.flights[f].tab, w.client.flights[f].leg.token);
    assert RequestOk(w.client.tabs, w.client.requests[r]);
  }

  /** Through a whole refresh: a request refused for the first time is sent again with a new
    * token if the cookie is the session's stored token, and given up otherwise. */
  lemma RefusedThenRefreshed(w: World, r: nat)
    requires ClientOk(w.client) && FirstRefusal(w.client, r) && w.client.requests[r].phase == Flying
    requires w.client.tabs[w.client.requests[r].tab] == App(None)
    ensures
      var f, cookie := w.client.started, w.client.cookie;
      var later := Perform(Perform(Perform(w, Respond(r, true)), ServeRefresh(f)), FinishRefresh(f)).client;
      var renewed := cookie.Some? && Unexpired(w.server, Signed(cookie.value))
                     && Held(w.server, cookie.value, cookie.value) && cookie.value.sub in w.server.users;
      && r in later.requests && f !in later.flights
      && later.requests[r].phase == (if renewed then Flying else Settled)
      && later.requests[r].sends == (if renewed then 2 else 1)
      && later.cookie
         == if renewed then Some(Token(cookie.value.sub, cookie.value.sid, w.server.now / 1000)) else cookie
  {
    var f := w.client.started;
    var asked := Perform(w, Respond(r, true));
    RefusedJoins(w.client, r);
    RefusedStarts(w.client, r);
    HappenOk(w, Respond(r, true));
    ServedMeans(asked, f);
    HappenOk(asked, ServeRefresh(f));
    var served := Perform(asked, ServeRefresh(f));
    AnswerArrives(served, f, r);
    SettledForgets(served.client, f, served.client.flights[f].leg.token);
  }

  // ---- when reuse detection trips ----

  ghost predicate OwnCookie(c: Option<Token>, k: Key) {
    c.Some? ==> KeyOf(c.value) == k
  }

  /** The server knows the session, and the client holds only tokens of it. */
  ghost predicate Own(server: Server, c: Client, k: Key) {
    && KeysDrawn(server) && k.sid in server.drawn && OwnCookie(c.cookie, k)
    && forall f :: f in c.flights ==> OwnCookie(Carries(c.flights[f].leg), k)
  }

  /** The server handles a refresh that carries an unexpired token of the live session. */
  ghost predicate Handled(w: World, act: Act, k: Key) {
    act.ServeRefresh? && Asks(w.client, act.f) && w.client.flights[act.f].leg.cookie.Some? && Live(w.server, k)
    && Verifies(w.server, Signed(w.client.flights[act.f].leg.cookie.value))
  }

  function IssuedIn(c: Client, f: nat): nat
    requires Asks(c, f) && c.flights[f].leg.cookie.Some?
  {
    c.flights[f].leg.cookie.value.iat
  }

  /** The second of the last refresh handled so far for a user that exists, with a token
    * of the second before it in this sense; at first that of the login. */
  ghost function LastRotation(w: World, act: Act, k: Key, last: nat): nat {
    if Handled(w, act, k) && IssuedIn(w.client, act.f) == last && k.user in w.server.users
    then Second(w.server.now) else last
  }

  /** Some refresh is handled whose token is of another second than the last rotation, by
    * the order and seconds of the refreshes handled before it. */
  ghost predicate SomeLate(w: World, acts: seq<Act>, k: Key, last: nat)
    decreases |acts|
  {
    acts != []
    && ((Handled(w, acts[0], k) && IssuedIn(w.client, acts[0].f) != last)
        || SomeLate(Perform(w, acts[0]), acts[1..], k, LastRotation(w, acts[0], k, last)))
  }

  lemma ServeOwn(w: World, cookie: Option<Token>, k: Key)
    requires KeysDrawn(w.server) && k.sid in w.server.drawn && OwnCookie(cookie, k)
    ensures
      var (after, leg) := Serve(w, cookie);
      KeysDrawn(after.server) && k.sid in after.server.drawn && OwnCookie(Carries(leg), k)
  {
  }

  lemma HappenOwn(w: World, act: Act, k: Key)
    requires Own(w.server, w.client, k)
    ensures Own(Happen(w, act).server, Happen(w, act).client, k)
  {
    match act
    case ServeRefresh(f) => if Asks(w.client, f) { ServeOwn(w, w.client.flights[f].leg.cookie, k); }
    case Elsewhere(op) => NextKeysDrawn(w.server, op);
    case _ =>
  }

  lemma OnlyItsTokensTouchIt(s: Server, op: Op, k: Key)
    requires k.sid in s.drawn && Honest(k, Elsewhere(op))
    ensures Live(Next(s, op), k) ==> Live(s, k) && Next(s, op).sessions[k] == s.sessions[k]
  {
  }

  /** What is stored is of the last rotation's second, and one refresh handled trips the
    * detection exactly when it is of another. */
  lemma HandleTrips(w: World, act: Act, k: Key, last: nat)
    requires Own(w.server, w.client, k) && Honest(k, act)
    requires Live(w.server, k) ==> w.server.sessions[k].token.iat == last
    ensures var after := Happen(w, act);
            Live(after.server, k) ==> after.server.sessions[k].token.iat == LastRotation(w, act, k, last)
    ensures Happen(w, act).tripped <==> w.tripped || (Handled(w, act, k) && IssuedIn(w.client, act.f) != last)
  {
    if act.Elsewhere? { OnlyItsTokensTouchIt(w.server, act.op, k); }
  }

  /** In every interleaving, over any number of tabs, whatever is lost: reuse detection
    * trips exactly when some refresh handled for the live session carries a token of
    * another second than the last rotation before it. */
  lemma {:induction false} TripsIffLate(w: World, acts: seq<Act>, k: Key, last: nat)
    requires Own(w.server, w.client, k) && forall i :: 0 <= i < |acts| ==> Honest(k, acts[i])
    requires Live(w.server, k) ==> w.server.sessions[k].token.iat == last
    ensures Run(w, acts).tripped <==> w.tripped || SomeLate(w, acts, k, last)
    decreases |acts|
  {
    if acts != [] {
      HappenOwn(w, acts[0], k);
      HandleTrips(w, acts[0], k, last);
      TripsIffLate(Perform(w, acts[0]), acts[1..], k, LastRotation(w, acts[0], k, last));
    }
  }

  // ---- the token in the cookie is the one the server expects ----

  /** All that is held against a live session is the stored token, except the cookie while
    * the one refresh in flight is bringing it. */
  ghost predicate InStep(c: Client, stored: Token) {
    && (forall f :: f in c.flights && c.flights[f].leg.Asking? ==> c.flights[f].leg.cookie == Some(stored))
    && (forall f :: f in c.flights && Carries(c.flights[f].leg).Some? ==> Carries(c.flights[f].leg) == Some(stored))
    && (c.cookie == Some(stored) || exists f :: Answers(c, f) && c.flights[f].leg.token == Some(stored))
    && (!Alone(c) ==> c.cookie == Some(stored))
  }

  ghost predicate WorldInv(w: World, k: Key) {
    && ClientOk(w.client) && Own(w.server, w.client, k)
    && (!w.diverged ==> !w.tripped && (Live(w.server, k) ==> InStep(w.client, w.server.sessions[k].token)))
  }

  /** A new refresh carries the cookie of the moment; if another is out, all are one token. */
  lemma BeginInStep(c: Client, t: TabId, stored: Token)
    requires InStep(c, stored) && (forall f :: f in c.flights ==> f < c.started)
    requires Alone(Begin(c, t)) || OneToken(Begin(c, t))
    ensures InStep(Begin(c, t), stored)
  {
    var d := Begin(c, t);
    assert c.started in d.flights && forall f :: f in c.flights ==> d.flights[f] == c.flights[f];
  }

  /** Served in its own second a refresh changes no token; served later it leaves nothing
    * older in flight, or the client has diverged. */
  lemma ServeInStep(w: World, f: nat, k: Key)
    requires Asks(w.client, f) && Own(w.server, w.client, k)
    requires Live(w.server, k) ==> InStep(w.client, w.server.sessions[k].token)
    requires var after := Happen(w, ServeRefresh(f)); Alone(after.client) || OneToken(after.client)
    ensures
      var after := Happen(w, ServeRefresh(f));
      Live(after.server, k) ==> InStep(after.client, after.server.sessions[k].token)
  {
    var c, after := w.client, Happen(w, ServeRefresh(f));
    if Live(after.server, k) {
      var (_, leg) := Serve(w, c.flights[f].leg.cookie);
      assert after.client.flights == c.flights[f := c.flights[f].(leg := leg)];
      assert Live(w.server, k) && c.flights[f].leg.cookie == Some(w.server.sessions[k].token);
      assert Answers(after.client, f);
      assert Alone(after.client) ==> forall g :: g in c.flights ==> g in after.client.flights;
    }
  }

  lemma FinishInStep(c: Client, f: nat, stored: Token)
    requires Answers(c, f) && InStep(c, stored)
    ensures InStep(OnRefreshed(c, f, c.flights[f].tab, c.flights[f].leg.token), stored)
  {
    var d := OnRefreshed(c, f, c.flights[f].tab, c.flights[f].leg.token);
    assert forall g :: g in d.flights ==> g in c.flights && d.flights[g] == c.flights[g];
  }

  lemma LoseInStep(c: Client, f: nat, stored: Token)
    requires f in c.flights && InStep(c, stored) && !LosesToken(c, LoseRefresh(f))
    ensures InStep(OnRefreshed(c, f, c.flights[f].tab, None), stored)
  {
    var d := OnRefreshed(c, f, c.flights[f].tab, None);
    assert forall g :: g in d.flights ==> g in c.flights && d.flights[g] == c.flights[g];
  }

  /** Acts that may start a refresh. */
  lemma StartInStep(w: World, act: Act, k: Key)
    requires ClientOk(w.client) && !Diverges(w, act) && (act.OpenTab? || act.Send? || act.Respond?)
    requires Live(w.server, k) && InStep(w.client, w.server.sessions[k].token)
    ensures InStep(Happen(w, act).client, w.server.sessions[k].token)
  {
    var c, after, stored := w.client, Happen(w, act).client, w.server.sessions[k].token;
    if act.OpenTab? && act.t !in c.tabs && act.landing {
      assert after.flights == Begin(c, act.t).flights;
      BeginInStep(c, act.t, stored);
    }
    if act.Respond? && after.flights != c.flights {
      assert after.flights == Begin(c, c.requests[act.r].tab).flights;
      BeginInStep(c, c.requests[act.r].tab, stored);
    }
  }

  lemma HappenInStep(w: World, act: Act, k: Key)
    requires ClientOk(w.client) && Own(w.server, w.client, k) && Honest(k, act) && !Diverges(w, act)
    requires Live(w.server, k) ==> InStep(w.client, w.server.sessions[k].token)
    ensures
      var after := Happen(w, act);
      Live(after.server, k) ==> InStep(after.client, after.server.sessions[k].token)
  {
    var c := w.client;
    if Live(w.server, k) {
      var stored := w.server.sessions[k].token;
      match act
      case ServeRefresh(f) => if Asks(c, f) { ServeInStep(w, f, k); }
      case FinishRefresh(f) => if Answers(c, f) { FinishInStep(c, f, stored); }
      case LoseRefresh(f) => if f in c.flights { LoseInStep(c, f, stored); }
      case Elsewhere(op) => OnlyItsTokensTouchIt(w.server, op, k);
      case _ => StartInStep(w, act, k);
    } else {
      StaysDead(w, act, k);
    }
  }

  lemma StaysDead(w: World, act: Act, k: Key)
    requires Own(w.server, w.client, k) && Honest(k, act) && !Live(w.server, k)
    ensures !Live(Happen(w, act).server, k)
  {
    if act.Elsewhere? { OnlyItsTokensTouchIt(w.server, act.op, k); }
  }

  /** In step, no refresh handled trips the detection. */
  lemma InStepNoTrip(w: World, act: Act, k: Key)
    requires Own(w.server, w.client, k) && Honest(k, act)
    requires Live(w.server, k) ==> InStep(w.client, w.server.sessions[k].token)
    ensures Happen(w, act).tripped == w.tripped
  {
  }

  lemma {:induction false} RunKeeps(w: World, acts: seq<Act>, k: Key)
    requires WorldInv(w, k) && forall i :: 0 <= i < |acts| ==> Honest(k, acts[i])
    ensures WorldInv(Run(w, acts), k)
    decreases |acts|
  {
    if acts != [] {
      HappenOk(w, acts[0]);
      HappenOwn(w, acts[0], k);
      if !Perform(w, acts[0]).diverged {
        InStepNoTrip(w, acts[0], k);
        HappenInStep(w, acts[0], k);
      }
      RunKeeps(Perform(w, acts[0]), acts[1..], k);
    }
  }

  /** Just logged in: the cookie, no tab and nothing in flight. */
  ghost predicate LoggedIn(w: World, k: Key) {
    && KeysDrawn(w.server) && Live(w.server, k)
    && w.client == Client(Some(w.server.sessions[k].token), 0, map[], map[], map[])
    && !w.tripped && !w.diverged
  }

  /** In every interleaving, over any number of tabs, in which two refreshes in flight
    * together never met a second token and no response with a new token was lost: reuse
    * detection has not tripped, and a refresh about to reach a live session carries the
    * stored token. In every interleaving at all: a tab has at most one refresh in flight,
    * a request is sent at most twice and waits only for its tab's. */
  lemma HonestClientSafe(w: World, acts: seq<Act>, k: Key)
    requires LoggedIn(w, k) && forall i :: 0 <= i < |acts| ==> Honest(k, acts[i])
    ensures
      var later := Run(w, acts);
      && ClientOk(later.client)
      && (!later.diverged ==>
            && !later.tripped
            && (forall f :: Asks(later.client, f) && Live(later.server, k)
                  ==> later.client.flights[f].leg.cookie == Some(later.server.sessions[k].token)))
  {
    RunClientOk(w, acts);
    RunKeeps(w, acts, k);
  }

  // ---- one tab ----

  predicate InTab(t: TabId, act: Act) { act.OpenTab? ==> act.t == t }

  /** One tab's client, whatever it has lost: the refresh asked for carries the cookie, and
    * an answer on its way is the stored token. */
  ghost predicate OneTab(w: World, t: TabId, k: Key) {
    && ClientOk(w.client) && Own(w.server, w.client, k) && w.client.tabs.Keys <= {t}
    && (forall f :: Asks(w.client, f) ==> w.client.flights[f].leg.cookie == w.client.cookie)
    && (Live(w.server, k) ==>
          forall f :: Answers(w.client, f) && w.client.flights[f].leg.token.Some? ==>
            w.client.flights[f].leg.token == Some(w.server.sessions[k].token))
  }

  lemma OneTabAlone(c: Client, t: TabId)
    requires ClientOk(c) && c.tabs.Keys <= {t}
    ensures Alone(c)
  {
    assert forall f :: f in c.flights ==> c.flights[f].tab == t;
  }

  lemma TabsStay(w: World, act: Act, t: TabId)
    requires InTab(t, act) && w.client.tabs.Keys <= {t}
    ensures Happen(w, act).client.tabs.Keys <= {t}
  {
  }

  lemma ServeOneTab(w: World, f: nat, t: TabId, k: Key)
    requires OneTab(w, t, k) && Asks(w.client, f)
    ensures OneTab(Happen(w, ServeRefresh(f)), t, k)
  {
    HappenOk(w, ServeRefresh(f));
    HappenOwn(w, ServeRefresh(f), k);
    OneTabAlone(w.client, t);
  }

  lemma ElsewhereOneTab(w: World, op: Op, t: TabId, k: Key)
    requires OneTab(w, t, k) && Honest(k, Elsewhere(op))
    ensures OneTab(Happen(w, Elsewhere(op)), t, k)
  {
    HappenOwn(w, Elsewhere(op), k);
    OnlyItsTokensTouchIt(w.server, op, k);
  }

  lemma SettleOneTab(w: World, act: Act, t: TabId, k: Key)
    requires OneTab(w, t, k) && (act.FinishRefresh? || act.LoseRefresh?)
    ensures OneTab(Happen(w, act), t, k)
  {
    HappenOk(w, act);
    HappenOwn(w, act, k);
    OneTabAlone(w.client, t);
    assert act.f in w.client.flights ==> w.client.flights - {act.f} == map[];
  }

  lemma StartsAtMostOne(w: World, act: Act)
    requires act.OpenTab? || act.Send? || act.Respond?
    ensures
      var c, d := w.client, Happen(w, act).client;
      && d.cookie == c.cookie && Happen(w, act).server == w.server
      && (forall f :: f in d.flights ==> f in c.flights || d.flights[f].leg == Asking(c.cookie))
      && (forall f :: f in d.flights && f in c.flights && f != c.started ==> d.flights[f] == c.flights[f])
  {
  }

  lemma StartOneTab(w: World, act: Act, t: TabId, k: Key)
    requires OneTab(w, t, k) && InTab(t, act) && (act.OpenTab? || act.Send? || act.Respond?)
    ensures OneTab(Happen(w, act), t, k)
  {
    HappenOk(w, act);
    HappenOwn(w, act, k);
    TabsStay(w, act, t);
    StartsAtMostOne(w, act);
  }

  lemma HappenOneTab(w: World, act: Act, t: TabId, k: Key)
    requires OneTab(w, t, k) && Honest(k, act) && InTab(t, act)
    ensures OneTab(Happen(w, act), t, k)
  {
    if act.Elsewhere? {
      ElsewhereOneTab(w, act.op, t, k);
    } else if act.ServeRefresh? {
      if Asks(w.client, act.f) { ServeOneTab(w, act.f, t, k); }
    } else if act.FinishRefresh? || act.LoseRefresh? {
      SettleOneTab(w, act, t, k);
    } else {
      StartOneTab(w, act, t, k);
    }
  }

  lemma {:induction false} OneTabRun(w: World, acts: seq<Act>, t: TabId, k: Key)
    requires OneTab(w, t, k) && forall i :: 0 <= i < |acts| ==> Honest(k, acts[i]) && InTab(t, acts[i])
    ensures OneTab(Run(w, acts), t, k)
    decreases |acts|
  {
    if acts != [] {
      HappenOneTab(w, acts[0], t, k);
      OneTabRun(Perform(w, acts[0]), acts[1..], t, k);
    }
  }

  /** The session lives, the cookie still verifies, and it is not what the server expects
    * nor is that on its way. */
  ghost predicate Adrift(w: World, k: Key) {
    && Live(w.server, k) && !InStep(w.client, w.server.sessions[k].token)
    && w.client.cookie.Some? && Verifies(w.server, Signed(w.client.cookie.value))
  }

  lemma AnswerIsInStep(w: World, f: nat, t: TabId, k: Key)
    requires OneTab(w, t, k) && Live(w.server, k) && Answers(w.client, f) && w.client.flights[f].leg.token.Some?
    ensures InStep(w.client, w.server.sessions[k].token)
  {
    OneTabAlone(w.client, t);
  }

  lemma OutOfStep(w: World, t: TabId, k: Key)
    requires OneTab(w, t, k) && Live(w.server, k)
    ensures InStep(w.client, w.server.sessions[k].token) <==>
              w.client.cookie == Some(w.server.sessions[k].token)
              || exists f :: Answers(w.client, f) && w.client.flights[f].leg.token.Some?
  {
    OneTabAlone(w.client, t);
    if f :| Answers(w.client, f) && w.client.flights[f].leg.token.Some? { AnswerIsInStep(w, f, t, k); }
  }

  /** Without a cookie that verifies there is nothing left to trip over. */
  lemma HopelessStays(w: World, act: Act, t: TabId, k: Key)
    requires OneTab(w, t, k) && Honest(k, act) && InTab(t, act) && !act.LoseRefresh?
    requires Live(w.server, k) && !InStep(w.client, w.server.sessions[k].token) && !Adrift(w, k)
    ensures !Adrift(Happen(w, act), k) && Happen(w, act).tripped == w.tripped
  {
    OutOfStep(w, t, k);
    OneTabAlone(w.client, t);
    assert Happen(w, act).client.cookie == w.client.cookie;
  }

  lemma NotAdriftStays(w: World, act: Act, t: TabId, k: Key)
    requires OneTab(w, t, k) && Honest(k, act) && InTab(t, act) && !act.LoseRefresh? && !Adrift(w, k)
    ensures !Adrift(Happen(w, act), k) && Happen(w, act).tripped == w.tripped
  {
    if Live(w.server, k) && !InStep(w.client, w.server.sessions[k].token) {
      HopelessStays(w, act, t, k);
    } else {
      HappenOneTab(w, act, t, k);
      OneTabAlone(Happen(w, act).client, t);
      HappenInStep(w, act, k);
      InStepNoTrip(w, act, k);
    }
  }

  /** A run of one tab without a further loss. */
  ghost predicate Undisturbed(acts: seq<Act>, t: TabId, k: Key) {
    forall i :: 0 <= i < |acts| ==> Honest(k, acts[i]) && InTab(t, acts[i]) && !acts[i].LoseRefresh?
  }

  lemma {:induction false} NotAdriftNeverTrips(w: World, acts: seq<Act>, t: TabId, k: Key)
    requires OneTab(w, t, k) && !Adrift(w, k) && Undisturbed(acts, t, k)
    ensures Run(w, acts).tripped == w.tripped
    decreases |acts|
  {
    if acts != [] {
      HappenOneTab(w, acts[0], t, k);
      NotAdriftStays(w, acts[0], t, k);
      NotAdriftNeverTrips(Perform(w, acts[0]), acts[1..], t, k);
    }
  }

  lemma {:induction false} RunThen(w: World, acts: seq<Act>, more: seq<Act>)
    ensures Run(w, acts + more) == Run(Run(w, acts), more)
    decreases |acts|
  {
    if acts == [] {
      assert acts + more == more;
    } else {
      RunThen(Perform(w, acts[0]), acts[1..], more);
      assert (acts + more)[1..] == acts[1..] + more;
    }
  }

  lemma {:induction false} Unused(ids: set<nat>) returns (r: nat)
    ensures forall i :: i in ids ==> i < r
  {
    if ids == {} {
      r := 0;
    } else {
      var x :| x in ids;
      var s := Unused(ids - {x});
      r := if x < s then s else x + 1;
      assert forall i :: i in ids ==> i == x || i in ids - {x};
    }
  }

  lemma AskerTrips(w: World, f: nat, t: TabId, k: Key)
    requires OneTab(w, t, k) && Adrift(w, k) && Asks(w.client, f)
    ensures Happen(w, ServeRefresh(f)).tripped
  {
    OutOfStep(w, t, k);
  }

  lemma NextAsks(w: World, t: TabId, r: nat)
    requires t in w.client.tabs && w.client.tabs[t] == App(None) && r !in w.client.requests && w.client.flights == map[]
    ensures
      var c, asked := w.client, Perform(Perform(w, Send(t, r)), Respond(r, true));
      && asked.client.flights == map[c.started := Flight(t, Asking(c.cookie))]
      && asked.client.cookie == c.cookie && asked.server == w.server
  {
  }

  /** With nothing in flight the next 401 asks with the stale cookie. */
  lemma RestingTrips(w: World, t: TabId, k: Key) returns (acts: seq<Act>)
    requires OneTab(w, t, k) && Adrift(w, k) && w.client.flights == map[] && t in w.client.tabs
    ensures Undisturbed(acts, t, k) && Run(w, acts).tripped
  {
    var r := Unused(w.client.requests.Keys);
    var f, sent := w.client.started, Perform(w, Send(t, r));
    var asked := Perform(sent, Respond(r, true));
    NextAsks(w, t, r);
    HappenOneTab(w, Send(t, r), t, k);
    HappenOneTab(sent, Respond(r, true), t, k);
    OutOfStep(w, t, k);
    OutOfStep(asked, t, k);
    AskerTrips(asked, f, t, k);
    RunThree(w, Send(t, r), Respond(r, true), ServeRefresh(f), []);
    acts := [Send(t, r), Respond(r, true), ServeRefresh(f)];
    assert acts + [] == acts;
  }

  lemma RunOne(w: World, act: Act)
    ensures Run(w, [act]) == Perform(w, act)
  {
    assert Run(w, [act]) == Run(Perform(w, act), []);
  }

  lemma AdriftTrips(w: World, t: TabId, k: Key) returns (acts: seq<Act>)
    requires OneTab(w, t, k) && Adrift(w, k)
    ensures Undisturbed(acts, t, k) && Run(w, acts).tripped
    decreases |w.client.flights|, t !in w.client.tabs
  {
    OutOfStep(w, t, k);
    OneTabAlone(w.client, t);
    if w.client.flights == map[] {
      if t in w.client.tabs {
        acts := RestingTrips(w, t, k);
      } else {
        var app := Perform(w, OpenTab(t, false));
        HappenOneTab(w, OpenTab(t, false), t, k);
        OutOfStep(app, t, k);
        var rest := AdriftTrips(app, t, k);
        RunOne(w, OpenTab(t, false));
        RunThen(w, [OpenTab(t, false)], rest);
        acts := [OpenTab(t, false)] + rest;
      }
    } else {
      var f :| f in w.client.flights;
      if Asks(w.client, f) {
        AskerTrips(w, f, t, k);
        RunOne(w, ServeRefresh(f));
        acts := [ServeRefresh(f)];
      } else {
        var settled := Perform(w, FinishRefresh(f));
        HappenOneTab(w, FinishRefresh(f), t, k);
        OutOfStep(settled, t, k);
        assert settled.client.flights == map[];
        var rest := AdriftTrips(settled, t, k);
        RunOne(w, FinishRefresh(f));
        RunThen(w, [FinishRefresh(f)], rest);
        acts := [FinishRefresh(f)] + rest;
      }
    }
  }

  ghost predicate CanTrip(w: World, acts: seq<Act>, t: TabId, k: Key) {
    Undisturbed(acts, t, k) && Run(w, acts).tripped
  }

  /** One tab, after any history of losses: some run without a further loss trips reuse
    * detection if and only if the tab is adrift. */
  lemma OneTabTripsIff(w: World, t: TabId, k: Key)
    requires OneTab(w, t, k) && !w.tripped
    ensures (exists acts :: CanTrip(w, acts, t, k)) <==> Adrift(w, k)
  {
    if Adrift(w, k) {
      var acts := AdriftTrips(w, t, k);
      assert CanTrip(w, acts, t, k);
    } else {
      forall acts ensures !CanTrip(w, acts, t, k) {
        if Undisturbed(acts, t, k) { NotAdriftNeverTrips(w, acts, t, k); }
      }
    }
  }

  /** One loss sets the tab adrift exactly when it is of an answer whose token is of another
    * second than the cookie, while the cookie still verifies. */
  lemma LossSetsAdriftIff(w: World, f: nat, t: TabId, k: Key)
    requires OneTab(w, t, k) && !Adrift(w, k) && Live(w.server, k) && f in w.client.flights && w.client.cookie.Some?
    ensures Adrift(Happen(w, LoseRefresh(f)), k) <==>
              && w.client.flights[f].leg.Answering? && w.client.flights[f].leg.token.Some?
              && w.client.flights[f].leg.token.value.iat != w.client.cookie.value.iat
              && Verifies(w.server, Signed(w.client.cookie.value))
  {
    var after := Happen(w, LoseRefresh(f));
    HappenOneTab(w, LoseRefresh(f), t, k);
    OneTabAlone(w.client, t);
    OutOfStep(w, t, k);
    OutOfStep(after, t, k);
    assert after.client.flights == map[];
    assert OwnCookie(Carries(w.client.flights[f].leg), k);
  }

  /** Single flight: in one tab, whatever 401s race and wherever it was opened, at most one
    * refresh is ever in flight; and reuse detection never trips, if no refresh is lost. */
  lemma OneTabNeverTrips(w: World, acts: seq<Act>, k: Key, t: TabId)
    requires LoggedIn(w, k) && forall i :: 0 <= i < |acts| ==> Honest(k, acts[i]) && InTab(t, acts[i])
    ensures Alone(Run(w, acts).client)
    ensures (forall i :: 0 <= i < |acts| ==> !acts[i].LoseRefresh?) ==> !Run(w, acts).tripped
  {
    OneTabRun(w, acts, t, k);
    OneTabAlone(Run(w, acts).client, t);
    if forall i :: 0 <= i < |acts| ==> !acts[i].LoseRefresh? { NotAdriftNeverTrips(w, acts, t, k); }
  }

  /** A tab's first refresh, answered by the server, its response lost. */
  ghost function FirstAnswerLost(): seq<Act> {
    [OpenTab(0, false), Send(0, 0), Respond(0, true)] + [ServeRefresh(0), LoseRefresh(0)]
  }

  /** It sets an honest client's only tab adrift exactly when the server handles it in
    * another second than the login; by OneTabTripsIff its session can then be revoked. */
  lemma FirstAnswerLostIff(w: World, k: Key)
    requires LoggedIn(w, k) && k.user in w.server.users && w.server.sessionTtlMs > 0
    requires Verifies(w.server, Signed(w.server.sessions[k].token))
    ensures OneTab(Run(w, FirstAnswerLost()), 0, k)
    ensures Adrift(Run(w, FirstAnswerLost()), k) <==> w.server.sessions[k].token.iat != Second(w.server.now)
  {
    var first, tab := w.server.sessions[k].token, Perform(w, OpenTab(0, false));
    var asked := Perform(Perform(tab, Send(0, 0)), Respond(0, true));
    OneTabRun(w, FirstAnswerLost(), 0, k);
    NextAsks(tab, 0, 0);
    AnswerLost(asked, 0, 0, first, k);
    RunThree(w, OpenTab(0, false), Send(0, 0), Respond(0, true), [ServeRefresh(0), LoseRefresh(0)]);
    RunTwo(asked, ServeRefresh(0), LoseRefresh(0));
  }

  lemma AnswerLost(w: World, f: nat, t: TabId, first: Token, k: Key)
    requires KeysDrawn(w.server) && Live(w.server, k) && w.server.sessions[k].token == first && k.user in w.server.users
    requires w.client.flights == map[f := Flight(t, Asking(Some(first)))] && w.client.cookie == Some(first)
    requires Verifies(w.server, Signed(first)) && w.server.sessionTtlMs > 0
    ensures Adrift(Perform(Perform(w, ServeRefresh(f)), LoseRefresh(f)), k) <==> first.iat != Second(w.server.now)
  {
    var served := Perform(w, ServeRefresh(f));
    ServeRotates(w, f, first, k);
    var lost := Perform(served, LoseRefresh(f));
    assert lost.client.flights == map[] && lost.client.cookie == Some(first) && lost.server == served.server;
  }

  lemma RunTwo(w: World, a: Act, b: Act)
    ensures Run(w, [a, b]) == Perform(Perform(w, a), b)
  {
    RunOne(w, a);
    RunOne(Perform(w, a), b);
    RunThen(w, [a], [b]);
    assert [a] + [b] == [a, b];
  }

  lemma ServeRotates(w: World, f: nat, first: Token, k: Key)
    requires KeysDrawn(w.server) && Live(w.server, k) && w.server.sessions[k].token == first && k.user in w.server.users
    requires Asks(w.client, f) && w.client.flights[f].leg.cookie == Some(first)
    requires Verifies(w.server, Signed(first)) && w.server.sessionTtlMs > 0
    ensures
      var served, rotated := Perform(w, ServeRefresh(f)), Token(first.sub, first.sid, Second(w.server.now));
      && KeysDrawn(served.server) && served.server == Persist(w.server, rotated) && Live(served.server, k)
      && served.server.sessions[k] == Session(rotated, w.server.now + w.server.sessionTtlMs)
      && served.client.(flights := w.client.flights) == w.client
      && served.client.flights == w.client.flights[f := w.client.flights[f].(leg := Answering(Some(rotated)))]
      && served.tripped == w.tripped
  {
    assert KeyOf(first) == k;
  }

  // ---- two tabs ----

  /** Two tabs whose requests come back 401 together ask with the same cookie; the server
    * handles one refresh, and some time later the other. */
  ghost function TwoTabs(ms: nat): seq<Act> {
    [OpenTab(0, false), OpenTab(1, false), Send(0, 0)] + [Send(1, 1), Respond(0, true), Respond(1, true)]
    + [ServeRefresh(0), Elsewhere(Tick(ms)), ServeRefresh(1)]
  }

  /** They revoke the honest client's session if and only if the server handles the first
    * in another second than its token was issued in. */
  lemma TwoTabsTripIff(w: World, k: Key, ms: nat)
    requires LoggedIn(w, k) && k.user in w.server.users && w.server.sessionTtlMs > ms
    requires Second(w.server.now + ms) < w.server.sessions[k].token.iat + w.server.tokenTtlS
    ensures Run(w, TwoTabs(ms)).tripped <==> w.server.sessions[k].token.iat != Second(w.server.now)
    ensures Run(w, TwoTabs(ms)).tripped <==> Revoked(Run(w, TwoTabs(ms)).server, k)
  {
    var first := w.server.sessions[k].token;
    var sent := Perform(Perform(Perform(w, OpenTab(0, false)), OpenTab(1, false)), Send(0, 0));
    assert sent.client == OneSent(first);
    var asked := Perform(Perform(Perform(sent, Send(1, 1)), Respond(0, true)), Respond(1, true));
    BothAsk(sent, first);
    var last := [ServeRefresh(0), Elsewhere(Tick(ms)), ServeRefresh(1)];
    var mid := [Send(1, 1), Respond(0, true), Respond(1, true)];
    assert TwoTabs(ms) == [OpenTab(0, false), OpenTab(1, false), Send(0, 0)] + (mid + last);
    RunThree(w, OpenTab(0, false), OpenTab(1, false), Send(0, 0), mid + last);
    RunThree(sent, Send(1, 1), Respond(0, true), Respond(1, true), last);
    RunThree(asked, ServeRefresh(0), Elsewhere(Tick(ms)), ServeRefresh(1), []);
    assert last + [] == last;
    BothServedTripIff(asked, first, k, ms);
  }

  function OneSent(first: Token): Client {
    Client(Some(first), 0, map[], map[0 := App(None), 1 := App(None)], map[0 := Request(0, Flying, 1, false)])
  }

  lemma BothAsk(w: World, first: Token)
    requires w.client == OneSent(first)
    ensures
      var asked := Perform(Perform(Perform(w, Send(1, 1)), Respond(0, true)), Respond(1, true));
      && asked.client.flights == map[0 := Flight(0, Asking(Some(first))), 1 := Flight(1, Asking(Some(first)))]
      && asked.server == w.server && asked.tripped == w.tripped
  {
    var two := Perform(w, Send(1, 1));
    var one := Perform(two, Respond(0, true));
    assert one.client.flights == map[0 := Flight(0, Asking(Some(first)))] && one.client.tabs[1] == App(None);
  }

  lemma BothServedTripIff(w: World, first: Token, k: Key, ms: nat)
    requires KeysDrawn(w.server) && Live(w.server, k) && w.server.sessions[k].token == first && k.user in w.server.users
    requires w.client.flights == map[0 := Flight(0, Asking(Some(first))), 1 := Flight(1, Asking(Some(first)))]
    requires Second(w.server.now + ms) < first.iat + w.server.tokenTtlS && w.server.sessionTtlMs > ms && !w.tripped
    ensures
      var after := Perform(Perform(Perform(w, ServeRefresh(0)), Elsewhere(Tick(ms))), ServeRefresh(1));
      && (after.tripped <==> first.iat != Second(w.server.now))
      && (after.tripped <==> Revoked(after.server, k))
  {
    ServeRotates(w, 0, first, k);
    var later := Perform(Perform(w, ServeRefresh(0)), Elsewhere(Tick(ms)));
    assert later.client.flights[1] == Flight(1, Asking(Some(first)));
  }

  lemma RunThree(w: World, a: Act, b: Act, c: Act, rest: seq<Act>)
    ensures Run(w, [a, b, c] + rest) == Run(Perform(Perform(Perform(w, a), b), c), rest)
  {
    var wa := Perform(w, a);
    var wb := Perform(wa, b);
    assert ([a, b, c] + rest)[1..] == [b, c] + rest && Run(w, [a, b, c] + rest) == Run(wa, [b, c] + rest);
    assert ([b, c] + rest)[1..] == [c] + rest && Run(wa, [b, c] + rest) == Run(wb, [c] + rest);
    assert ([c] + rest)[1..] == rest;
  }
}
