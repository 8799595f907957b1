/** One side of a call: call-provider.tsx. A handler runs to completion before the next
  * event; what it awaits on the way (the microphone, createPeer) succeeds or fails as
  * the event says. The timers remember, for the proofs only, which call armed them. */
module CallPeer {
  import opened Options

  type CallId = nat
  type Candidate = nat

  datatype Status = Idle | Calling | Incoming | Connecting | Active | Ended
  datatype EndReason = Declined | Missed | HungUp | Failed

  datatype Msg =
    | Invite(call: CallId)
    | Accept(call: CallId)
    | Decline(call: CallId)
    | OfferSdp(call: CallId)
    | AnswerSdp(call: CallId)
    | Ice(call: CallId, candidate: Candidate)
    | End(call: CallId)

  /** An RTCPeerConnection: whether its remote description is set, and the candidates
    * handed to it so far. */
  datatype Connection = Connection(call: CallId, remote: bool, handed: seq<Candidate>)

  datatype Peer = Peer(
    status: Status,
    callId: Option<CallId>,
    isCaller: bool,
    pc: Option<Connection>,
    pending: seq<Candidate>,
    ring: Option<CallId>,    // armed ring timer, and the call it was armed for
    fail: Option<CallId>,    // armed reconnect-grace timer, likewise
    linger: bool,            // armed "call ended" screen timer
    reconnecting: bool,
    endReason: Option<EndReason>)

  const Resting: Peer := Peer(Idle, None, false, None, [], None, None, false, false, None)

  datatype Event =
    | Start(call: CallId, engaged: bool, micOk: bool)
    | AcceptTap(micOk: bool)
    | DeclineTap
    | HangUpTap
    | Receive(msg: Msg, micOk: bool)
    | RingFires
    | FailFires
    | LingerFires
    | Connected
    | Disconnected
    | PathFailed(offerOk: bool)
    | Found(candidate: Candidate)

  // ---- teardown ----

  function Cleanup(p: Peer): Peer {
    p.(ring := None, fail := None, pc := None, pending := [], callId := None, isCaller := false, reconnecting := false)
  }

  function Finish(p: Peer, reason: EndReason): Peer {
    Cleanup(p).(endReason := Some(reason), status := Ended, linger := true)
  }

  function ArmFail(p: Peer): Peer {
    if p.fail.Some? then p else p.(fail := p.callId)
  }

  /** createPeer: a new connection replaces whatever pcRef held. */
  function WithConnection(p: Peer): Peer {
    if p.callId.None? then p else p.(pc := Some(Connection(p.callId.value, false, [])))
  }

  // ---- public actions ----

  function StartCall(p: Peer, c: CallId, engaged: bool, micOk: bool): (Peer, Option<Msg>) {
    if p.status != Idle || !engaged then (p, None)
    else
      var calling := p.(callId := Some(c), isCaller := true, status := Calling);
      if !micOk then (Finish(calling, Failed), None)
      else (calling.(ring := Some(c)), Some(Invite(c)))
  }

  function DeclineCall(p: Peer): (Peer, Option<Msg>) {
    (Finish(p, Declined), if p.callId.Some? then Some(Decline(p.callId.value)) else None)
  }

  function HangUp(p: Peer): (Peer, Option<Msg>) {
    (Finish(p, HungUp), if p.callId.Some? then Some(End(p.callId.value)) else None)
  }

  function AcceptCall(p: Peer, micOk: bool): (Peer, Option<Msg>) {
    if p.status != Incoming then (p, None)
    else
      var connecting := p.(isCaller := false, status := Connecting, ring := None);
      if !micOk then DeclineCall(connecting)
      else (WithConnection(connecting), if p.callId.Some? then Some(Accept(p.callId.value)) else None)
  }

  // ---- signalling listeners ----

  function OnInvite(p: Peer, c: CallId): (Peer, Option<Msg>) {
    if p.status != Idle then (p, Some(End(c)))
    else (p.(callId := Some(c), isCaller := false, status := Incoming, ring := Some(c)), None)
  }

  /** Nobody catches a failing createPeer here: the caller stays `connecting`. */
  function OnAccept(p: Peer, c: CallId, micOk: bool): (Peer, Option<Msg>) {
    if p.callId != Some(c) then (p, None)
    else
      var connecting := p.(ring := None, status := Connecting);
      if micOk then (WithConnection(connecting), Some(OfferSdp(c))) else (connecting, None)
  }

  /** setRemoteDescription, then drainPendingIce. */
  function Describe(p: Peer): Peer
    requires p.pc.Some?
  {
    p.(pc := Some(p.pc.value.(remote := true, handed := p.pc.value.handed + p.pending)), pending := [])
  }

  function OnOffer(p: Peer, c: CallId): (Peer, Option<Msg>) {
    if p.callId != Some(c) || p.pc.None? then (p, None) else (Describe(p), Some(AnswerSdp(c)))
  }

  function OnAnswer(p: Peer, c: CallId): (Peer, Option<Msg>) {
    if p.callId != Some(c) || p.pc.None? then (p, None) else (Describe(p), None)
  }

  function OnIce(p: Peer, c: CallId, candidate: Candidate): (Peer, Option<Msg>) {
    if p.callId != Some(c) then (p, None)
    else if p.pc.Some? && p.pc.value.remote then
      (p.(pc := Some(p.pc.value.(handed := p.pc.value.handed + [candidate]))), None)
    else (p.(pending := p.pending + [candidate]), None)
  }

  function OnMessage(p: Peer, m: Msg, micOk: bool): (Peer, Option<Msg>) {
    match m
    case Invite(c) => OnInvite(p, c)
    case Accept(c) => OnAccept(p, c, micOk)
    case OfferSdp(c) => OnOffer(p, c)
    case AnswerSdp(c) => OnAnswer(p, c)
    case Ice(c, candidate) => OnIce(p, c, candidate)
    case Decline(c) => (if p.callId == Some(c) then Finish(p, Declined) else p, None)
    case End(c) => (if p.callId == Some(c) then Finish(p, HungUp) else p, None)
  }

  // ---- timers and the connection's own events ----

  function OnRing(p: Peer): (Peer, Option<Msg>) {
    if p.ring.None? then (p, None)
    else (Finish(p, Missed), if p.callId.Some? then Some(End(p.callId.value)) else None)
  }

  function OnFail(p: Peer): Peer {
    if p.fail.None? then p else Finish(p, Failed)
  }

  function OnLinger(p: Peer): Peer {
    if !p.linger then p else p.(linger := false, endReason := None, status := Idle)
  }

  /** oniceconnectionstatechange of the current connection. */
  function OnConnected(p: Peer): Peer {
    if p.pc.None? then p else p.(ring := None, fail := None, reconnecting := false, status := Active)
  }

  function OnDisconnected(p: Peer): Peer {
    if p.pc.None? then p else ArmFail(p.(reconnecting := true))
  }

  /** Only the caller offers again (an ICE restart); making the offer may fail. */
  function OnPathFailed(p: Peer, offerOk: bool): (Peer, Option<Msg>) {
    if p.pc.None? then (p, None)
    else (ArmFail(p.(reconnecting := true)),
          if offerOk && p.isCaller && p.callId.Some? then Some(OfferSdp(p.callId.value)) else None)
  }

  function Handle(p: Peer, ev: Event): (Peer, Option<Msg>) {
    match ev
    case Start(c, engaged, micOk) => StartCall(p, c, engaged, micOk)
    case AcceptTap(micOk) => AcceptCall(p, micOk)
    case DeclineTap => DeclineCall(p)
    case HangUpTap => HangUp(p)
    case Receive(m, micOk) => OnMessage(p, m, micOk)
    case RingFires => OnRing(p)
    case FailFires => (OnFail(p), None)
    case LingerFires => (OnLinger(p), None)
    case Connected => (OnConnected(p), None)
    case Disconnected => (OnDisconnected(p), None)
    case PathFailed(offerOk) => OnPathFailed(p, offerOk)
    case Found(candidate) =>
      (p, if p.pc.Some? && p.callId.Some? then Some(Ice(p.callId.value, candidate)) else None)
  }

  // ---- what one peer keeps, whatever it is sent ----

  predicate InCall(s: Status) { s == Calling || s == Incoming || s == Connecting || s == Active }

  ghost predicate PeerInv(p: Peer) {
    && (p.callId.Some? <==> InCall(p.status))
    && (p.ring.Some? <==> p.status == Calling || p.status == Incoming)
    && (p.ring.Some? ==> p.ring == p.callId)
    && (p.linger <==> p.status == Ended)
    && (p.endReason.Some? <==> p.status == Ended)
    && (p.fail.Some? <==> p.reconnecting)
    && (p.fail.Some? ==> p.pc.Some? && p.fail == p.callId)
    && (p.pc.Some? ==> (p.status == Connecting || p.status == Active) && p.callId == Some(p.pc.value.call))
    && (p.status == Active ==> p.pc.Some?)
    && (p.status == Calling ==> p.isCaller)
    && (p.status == Incoming ==> !p.isCaller)
    && (p.isCaller ==> p.callId.Some?)
    && (p.callId.None? ==> p.pending == [])
    && (p.pc.Some? && p.pc.value.remote ==> p.pending == [])
  }

  lemma MessageKeeps(p: Peer, m: Msg, micOk: bool)
    requires PeerInv(p)
    ensures PeerInv(OnMessage(p, m, micOk).0)
  {
  }

  lemma HandleKeeps(p: Peer, ev: Event)
    requires PeerInv(p)
    ensures PeerInv(Handle(p, ev).0)
  {
    if ev.Receive? { MessageKeeps(p, ev.msg, ev.micOk); }
  }

  /** A found candidate goes out exactly while there is a connection for the current call. */
  lemma FoundGoesOut(p: Peer, candidate: Candidate, c: CallId)
    requires PeerInv(p)
    ensures Handle(p, Found(candidate)).0 == p
    ensures Handle(p, Found(candidate)).1 == Some(Ice(c, candidate)) <==> p.pc.Some? && p.callId == Some(c)
    ensures Handle(p, Found(candidate)).1.None? <==> p.pc.None?
  {
  }

  ghost function HandleAll(p: Peer, evs: seq<Event>): Peer
    decreases |evs|
  {
    if evs == [] then p else HandleAll(Handle(p, evs[0]).0, evs[1..])
  }

  lemma {:induction false} PeerInvAlways(p: Peer, evs: seq<Event>)
    requires PeerInv(p)
    ensures PeerInv(HandleAll(p, evs))
    decreases |evs|
  {
    if evs != [] {
      HandleKeeps(p, evs[0]);
      PeerInvAlways(Handle(p, evs[0]).0, evs[1..]);
    }
  }

  /** Timers belong to the right call. After any events: a ring or reconnect timer that
    * fires was armed for the call it ends; while the "ended" timer is armed there is no
    * call, so it ends none; and there is a call exactly in the four live states. */
  lemma TimersEndTheirOwnCall(evs: seq<Event>)
    ensures
      var p := HandleAll(Resting, evs);
      && (OnRing(p).0 != p ==> p.ring == p.callId && p.callId.Some?)
      && (OnFail(p) != p ==> p.fail == p.callId && p.callId.Some?)
      && (OnLinger(p) != p ==> p.callId.None? && p.pc.None? && OnLinger(p) == Resting)
      && (p.callId.Some? <==> InCall(p.status))
  {
    PeerInvAlways(Resting, evs);
  }

  /** From every reachable state a hang-up followed by the end screen's timer leads back
    * to the resting state: no timer, connection or candidate survives a call. */
  lemma HangUpThenRest(evs: seq<Event>)
    ensures OnLinger(HangUp(HandleAll(Resting, evs)).0) == Resting
  {
    PeerInvAlways(Resting, evs);
  }
}
