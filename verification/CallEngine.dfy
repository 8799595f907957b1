/** The call engine as the component runs it: refs and status fields reassigned by the
  * event handlers, the drain loop included. Each handler is proved to be the step of
  * module CallPeer, to keep the peer's invariant, and to give what its caller counts on. */
module CallEngine {
  import opened Options
  import opened CallPeer

  class Engine {
    var status: Status
    var callId: Option<CallId>
    var isCaller: bool
    var pc: Option<Connection>
    var pendingIce: seq<Candidate>
    var ringTimer: Option<CallId>
    var failTimer: Option<CallId>
    var endedTimer: bool
    var reconnecting: bool
    var endReason: Option<EndReason>

    function State(): Peer
      reads this
    {
      Peer(status, callId, isCaller, pc, pendingIce, ringTimer, failTimer, endedTimer, reconnecting, endReason)
    }

    /** What CallPeer.HandleKeeps keeps; every handler relies on it and restores it. */
    ghost predicate Valid()
      reads this
    {
      PeerInv(State())
    }

    /** The candidates received for the current connection, handed over or not, in order. */
    function Candidates(): seq<Candidate>
      reads this
    {
      (if pc.Some? then pc.value.handed else []) + pendingIce
    }

    constructor ()
      ensures Valid() && State() == Resting
    {
      status, callId, isCaller, pc, pendingIce := Idle, None, false, None, [];
      ringTimer, failTimer, endedTimer, reconnecting, endReason := None, None, false, false, None;
    }

    method DoCleanup()
      modifies this
      ensures State() == Cleanup(old(State()))
    {
      ringTimer := None;
      failTimer := None;
      pc := None;
      pendingIce := [];
      callId := None;
      isCaller := false;
      reconnecting := false;
    }

    /** Whatever was going on: no call, connection or candidate is left, and of the timers
      * only the linger timer is armed. */
    method DoFinish(reason: EndReason)
      modifies this
      ensures State() == Finish(old(State()), reason) && Valid()
      ensures callId.None? && pc.None? && pendingIce == [] && ringTimer.None? && failTimer.None? && endedTimer
      ensures status == Ended && endReason == Some(reason) && !isCaller && !reconnecting
    {
      DoCleanup();
      endReason := Some(reason);
      status := Ended;
      endedTimer := false;  // clearTimeout of an earlier one
      endedTimer := true;
    }

    /** The refs are only read: a signal needs a current call. */
    method Signal(make: CallId -> Msg) returns (out: Option<Msg>)
      ensures out == if callId.Some? then Some(make(callId.value)) else None
    {
      if callId.None? { return None; }
      return Some(make(callId.value));
    }

    method CreatePeer(micOk: bool) returns (ok: bool)
      modifies this`pc
      ensures ok == micOk
      ensures State() == if micOk then WithConnection(old(State())) else old(State())
    {
      if micOk && callId.Some? {
        pc := Some(Connection(callId.value, false, []));
      }
      return micOk;
    }

    /** Swap the queue out, then hand its candidates over one by one: none is lost, doubled
      * or overtaken. */
    method DrainPendingIce()
      requires pc.Some?
      modifies this`pc, this`pendingIce
      ensures pendingIce == [] && Candidates() == old(Candidates())
      ensures pc == Some(old(pc).value.(handed := old(Candidates())))
    {
      var queued := pendingIce;
      ghost var before := pc.value;
      pendingIce := [];
      var i := 0;
      assert before.handed + queued[..0] == before.handed;
      while i < |queued|
        invariant 0 <= i <= |queued|
        invariant pendingIce == []
        invariant pc == Some(before.(handed := before.handed + queued[..i]))
      {
        assert before.handed + queued[..i] + [queued[i]] == before.handed + queued[..i + 1];
        pc := Some(pc.value.(handed := pc.value.handed + [queued[i]]));
        i := i + 1;
      }
      assert queued[..i] == queued;
    }

    // ---- public actions ----

    /** An invite goes out exactly when a resting peer with an engagement and a microphone
      * calls, and then its ring timer is armed for that call. */
    method TapCall(c: CallId, engaged: bool, micOk: bool) returns (out: Option<Msg>)
      requires Valid()
      modifies this
      ensures (State(), out) == StartCall(old(State()), c, engaged, micOk) && Valid()
      ensures out == if old(status) == Idle && engaged && micOk then Some(Invite(c)) else None
      ensures out.Some? ==> status == Calling && isCaller && callId == Some(c) && ringTimer == Some(c) && pc.None?
      ensures old(status) == Idle && engaged && !micOk ==> status == Ended && endReason == Some(Failed)
      ensures old(status) != Idle || !engaged ==> State() == old(State())
    {
      HandleKeeps(State(), Start(c, engaged, micOk));
      if status != Idle || !engaged { return None; }
      callId := Some(c);
      isCaller := true;
      status := Calling;
      if !micOk {
        DoFinish(Failed);
        return None;
      }
      out := Signal((x: CallId) => Invite(x));
      ringTimer := callId;
    }

    /** The other side hears of it exactly when there is a call to decline. */
    method TapDecline() returns (out: Option<Msg>)
      modifies this
      ensures (State(), out) == DeclineCall(old(State())) && Valid()
      ensures out == if old(callId).Some? then Some(Decline(old(callId).value)) else None
      ensures status == Ended && endReason == Some(Declined)
    {
      out := Signal((x: CallId) => Decline(x));
      DoFinish(Declined);
    }

    /** The other side hears of it exactly when a call is on. */
    method TapHangUp() returns (out: Option<Msg>)
      requires Valid()
      modifies this
      ensures (State(), out) == HangUp(old(State())) && Valid()
      ensures out.Some? <==> InCall(old(status))
      ensures out.Some? ==> out == Some(End(old(callId).value))
      ensures status == Ended && endReason == Some(HungUp)
    {
      out := Signal((x: CallId) => End(x));
      DoFinish(HungUp);
    }

    /** A ringing peer answers the call it rings for, one way or the other, and its ring
      * timer is disarmed. */
    method TapAccept(micOk: bool) returns (out: Option<Msg>)
      requires Valid()
      modifies this
      ensures (State(), out) == AcceptCall(old(State()), micOk) && Valid()
      ensures out.Some? <==> old(status) == Incoming
      ensures out.Some? ==> ringTimer.None? && old(ringTimer).Some? && old(ringTimer) == old(callId)
      ensures out.Some? ==> out.value == if micOk then Accept(old(callId).value) else Decline(old(callId).value)
      ensures out.Some? && micOk ==>
        && pc == Some(Connection(old(callId).value, false, [])) && callId == old(callId)
        && status == Connecting && !isCaller
      ensures out.Some? && !micOk ==> status == Ended && endReason == Some(Declined)
      ensures out.None? ==> State() == old(State())
    {
      HandleKeeps(State(), AcceptTap(micOk));
      if status != Incoming { return None; }
      isCaller := false;
      status := Connecting;
      ringTimer := None;
      var ok := CreatePeer(micOk);
      if !ok {
        out := TapDecline();
        return;
      }
      out := Signal((x: CallId) => Accept(x));
    }

    // ---- signalling listeners ----

    /** A busy peer turns this invite away and is otherwise untouched; a resting one rings
      * for it, with its ring timer armed. */
    method HearInvite(c: CallId) returns (out: Option<Msg>)
      requires Valid()
      modifies this
      ensures (State(), out) == OnInvite(old(State()), c) && Valid()
      ensures if old(status) == Idle
              then out.None? && status == Incoming && callId == Some(c) && ringTimer == Some(c) && !isCaller
              else out == Some(End(c)) && State() == old(State())
    {
      MessageKeeps(State(), Invite(c), true);
      if status != Idle { return Some(End(c)); }
      callId := Some(c);
      isCaller := false;
      status := Incoming;
      ringTimer := None;
      ringTimer := callId;
      return None;
    }

    /** An offer goes out only for the current call, over a new connection. */
    method HearAccept(c: CallId, micOk: bool) returns (out: Option<Msg>)
      requires Valid()
      modifies this
      ensures (State(), out) == OnAccept(old(State()), c, micOk) && Valid()
      ensures out.Some? <==> old(callId) == Some(c) && micOk
      ensures out.Some? ==> out.value == OfferSdp(c) && pc == Some(Connection(c, false, [])) && ringTimer.None?
      ensures if old(callId) == Some(c)
              then status == Connecting && (callId, isCaller, pendingIce) == old((callId, isCaller, pendingIce))
              else State() == old(State())
    {
      MessageKeeps(State(), Accept(c), micOk);
      if callId != Some(c) { return None; }
      ringTimer := None;
      status := Connecting;
      var ok := CreatePeer(micOk);
      if !ok { return None; }
      out := Signal((x: CallId) => OfferSdp(x));
    }

    /** An answer goes out only for the current call with a connection, and by then every
      * candidate received has been handed over, in order. */
    method HearOffer(c: CallId) returns (out: Option<Msg>)
      requires Valid()
      modifies this
      ensures (State(), out) == OnOffer(old(State()), c) && Valid()
      ensures out.Some? <==> old(callId) == Some(c) && old(pc).Some?
      ensures out.Some? ==> out.value == AnswerSdp(c)
      ensures out.Some? ==> pc.Some? && pc.value.remote && pc.value.handed == old(Candidates())
      ensures Candidates() == old(Candidates())
      ensures State() == old(State()).(pc := pc, pending := pendingIce) && (out.None? ==> State() == old(State()))
    {
      MessageKeeps(State(), OfferSdp(c), true);
      if callId != Some(c) { return None; }
      if pc.None? { return None; }
      pc := Some(pc.value.(remote := true));
      DrainPendingIce();
      out := Signal((x: CallId) => AnswerSdp(x));
    }

    method HearAnswer(c: CallId) returns (out: Option<Msg>)
      requires Valid()
      modifies this
      ensures (State(), out) == OnAnswer(old(State()), c) && Valid()
      ensures old(callId) == Some(c) && old(pc).Some? ==>
                pc.Some? && pc.value.remote && pc.value.handed == old(Candidates())
      ensures Candidates() == old(Candidates()) && out.None?
      ensures State() == old(State()).(pc := pc, pending := pendingIce)
      ensures old(callId) != Some(c) || old(pc).None? ==> State() == old(State())
    {
      MessageKeeps(State(), AnswerSdp(c), true);
      if callId != Some(c) { return None; }
      if pc.None? { return None; }
      pc := Some(pc.value.(remote := true));
      DrainPendingIce();
      return None;
    }

    /** A candidate of the current call comes last of all received, wherever it is kept; it
      * is handed over at once exactly when the remote description is set. */
    method HearIce(c: CallId, candidate: Candidate) returns (out: Option<Msg>)
      requires Valid()
      modifies this
      ensures (State(), out) == OnIce(old(State()), c, candidate) && Valid()
      ensures Candidates() == old(Candidates()) + if old(callId) == Some(c) then [candidate] else []
      ensures pc.Some? && pc.value.remote ==> pc.value.handed == Candidates()
      ensures pc.Some? && !pc.value.remote ==> pc == old(pc)
      ensures State() == old(State()).(pc := pc, pending := pendingIce) && out.None?
      ensures old(callId) != Some(c) ==> State() == old(State())
    {
      MessageKeeps(State(), Ice(c, candidate), true);
      if callId != Some(c) { return None; }
      if pc.Some? && pc.value.remote {
        pc := Some(pc.value.(handed := pc.value.handed + [candidate]));
      } else {
        assert Candidates() + [candidate] == (if pc.Some? then pc.value.handed else []) + (pendingIce + [candidate]);
        pendingIce := pendingIce + [candidate];
      }
      return None;
    }

    /** call:decline and call:end: only the current call can be ended from outside. */
    method HearOver(c: CallId, reason: EndReason)
      requires Valid()
      modifies this
      ensures State() == (if old(callId) == Some(c) then Finish(old(State()), reason) else old(State())) && Valid()
      ensures if old(callId) == Some(c) then status == Ended && endReason == Some(reason) else State() == old(State())
    {
      if callId == Some(c) { DoFinish(reason); }
    }

    /** The socket subscriptions: every message reaches its listener. */
    method Hear(m: Msg, micOk: bool) returns (out: Option<Msg>)
      requires Valid()
      modifies this
      ensures (State(), out) == OnMessage(old(State()), m, micOk) && Valid()
      ensures out.Some? ==> out.value.call == m.call
      ensures m.Decline? || m.End? ==> out.None?
      ensures m.Decline? && old(callId) == Some(m.call) ==> callId.None? && endReason == Some(Declined)
      ensures m.End? && old(callId) == Some(m.call) ==> callId.None? && endReason == Some(HungUp)
      ensures !m.Invite? && old(callId) != Some(m.call) ==> State() == old(State()) && out.None?
    {
      out := None;
      match m
      case Invite(c) => out := HearInvite(c);
      case Accept(c) => out := HearAccept(c, micOk);
      case OfferSdp(c) => out := HearOffer(c);
      case AnswerSdp(c) => out := HearAnswer(c);
      case Ice(c, candidate) => out := HearIce(c, candidate);
      case Decline(c) => HearOver(c, Declined);
      case End(c) => HearOver(c, HungUp);
    }

    // ---- timers and connection events ----

    /** The signal names the call the timer was armed for. */
    method RingTimeout() returns (out: Option<Msg>)
      requires Valid() && ringTimer.Some?
      modifies this
      ensures (State(), out) == OnRing(old(State())) && Valid()
      ensures out == Some(End(old(ringTimer).value))
      ensures status == Ended && endReason == Some(Missed)
    {
      out := Signal((x: CallId) => End(x));
      DoFinish(Missed);
    }

    /** The call that ends is the one whose connection the timer was armed for. */
    method FailTimeout()
      requires Valid() && failTimer.Some?
      modifies this
      ensures State() == OnFail(old(State())) && Valid()
      ensures old(pc).Some? && old(failTimer) == Some(old(pc).value.call)
      ensures old(failTimer) == old(callId) && callId.None?
      ensures status == Ended && endReason == Some(Failed)
    {
      DoFinish(Failed);
    }

    /** Back to rest, and no call is ended by it. */
    method EndedTimeout()
      requires Valid() && endedTimer
      modifies this
      ensures State() == OnLinger(old(State())) && Valid()
      ensures old(callId).None? && State() == Resting
    {
      endedTimer := false;
      endReason := None;
      status := Idle;
    }

    method ArmFailTimer()
      modifies this`failTimer
      ensures State() == ArmFail(old(State()))
    {
      if failTimer.Some? { return; }
      failTimer := callId;
    }

    /** Active, with neither a ring nor a grace timer left to end it. */
    method IceConnected()
      requires Valid() && pc.Some?
      modifies this
      ensures State() == OnConnected(old(State())) && Valid()
      ensures status == Active && ringTimer.None? && failTimer.None? && !reconnecting
      ensures callId == old(callId) && isCaller == old(isCaller) && pc == old(pc) && pendingIce == old(pendingIce)
    {
      HandleKeeps(State(), Connected);
      ringTimer := None;
      failTimer := None;
      reconnecting := false;
      status := Active;
    }

    /** The grace timer is armed for the call of this connection, once. */
    method IceDisconnected()
      requires Valid() && pc.Some?
      modifies this
      ensures State() == OnDisconnected(old(State())) && Valid()
      ensures failTimer == Some(old(pc).value.call) && (old(failTimer).Some? ==> failTimer == old(failTimer))
      ensures reconnecting && State() == old(State()).(fail := failTimer, reconnecting := true)
    {
      HandleKeeps(State(), Disconnected);
      reconnecting := true;
      ArmFailTimer();
    }

    /** Likewise; and only the caller offers again, for the call of this connection. */
    method IceFailed(offerOk: bool) returns (out: Option<Msg>)
      requires Valid() && pc.Some?
      modifies this
      ensures (State(), out) == OnPathFailed(old(State()), offerOk) && Valid()
      ensures failTimer == Some(old(pc).value.call)
      ensures reconnecting && State() == old(State()).(fail := failTimer, reconnecting := true)
      ensures out == if offerOk && isCaller then Some(OfferSdp(old(pc).value.call)) else None
    {
      HandleKeeps(State(), PathFailed(offerOk));
      reconnecting := true;
      out := RestartIce(offerOk);
      ArmFailTimer();
    }

    /** onicecandidate: every candidate the connection finds goes to the other side, under
      * the name of this connection's call, and nothing changes here. */
    method IceCandidateFound(candidate: Candidate) returns (out: Option<Msg>)
      requires Valid() && pc.Some?
      ensures (State(), out) == Handle(State(), Found(candidate))
      ensures out == Some(Ice(pc.value.call, candidate))
    {
      out := Signal((x: CallId) => Ice(x, candidate));
    }

    method RestartIce(offerOk: bool) returns (out: Option<Msg>)
      ensures out == if offerOk && pc.Some? && isCaller && callId.Some? then Some(OfferSdp(callId.value)) else None
    {
      if pc.None? || !isCaller { return None; }
      if !offerOk { return None; }
      out := Signal((x: CallId) => OfferSdp(x));
    }
  }
}
