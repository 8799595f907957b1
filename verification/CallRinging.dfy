/** With a relay that loses nothing, what is ringing is really being called, as long as no
  * peer hears that a call is over before it has heard the invite. */
module CallRinging {
  import opened Options
  import opened CallPeer
  import opened CallNetwork
  import opened CallLiveness

  /** p is the peer that rings or will ring; q calls it. */
  ghost predicate Called(p: Peer, q: Peer, box: seq<Msg>) {
    && (forall c: CallId :: Invite(c) in box ==> On(q, Calling, c) || OverIn(box, c))
    && (p.status == Incoming && p.callId.Some? ==> On(q, Calling, p.callId.value) || OverIn(box, p.callId.value))
  }

  ghost predicate CalledSide(sys: Sys, s: Side) {
    Called(sys.peers.At(s), sys.peers.At(Other(s)), sys.inbox.At(s))
  }

  ghost predicate CalledSys(sys: Sys) { CalledSide(sys, Left) && CalledSide(sys, Right) }

  /** Reading `got` does not overtake the invite of its own call. */
  predicate InviteRead(box: seq<Msg>, got: Option<Msg>) {
    got.Some? && Over(got.value, got.value.call) ==> Invite(got.value.call) !in box
  }

  lemma CalledByMover(t: Turn)
    requires t.Fits() && InviteRead(t.box, t.got) && Called(t.p, t.q, t.box)
    ensures Called(t.p', t.q, t.box')
  {
    forall c: CallId | Invite(c) in t.box' ensures On(t.q, Calling, c) || OverIn(t.box', c) {
      TookMembers(t.box, t.box', t.got, Invite(c));
      TookMembers(t.box, t.box', t.got, End(c));
      TookMembers(t.box, t.box', t.got, Decline(c));
    }
    if t.p'.status == Incoming && t.p'.callId.Some? {
      var c := t.p'.callId.value;
      TookMembers(t.box, t.box', t.got, Invite(c));
      TookMembers(t.box, t.box', t.got, End(c));
      TookMembers(t.box, t.box', t.got, Decline(c));
    }
  }

  /** A caller that stops calling c says so, unless c is already over at the other end. */
  lemma StillCalledOrOver(t: Turn, c: CallId)
    requires t.Fits() && Tidy(t.h, t.p, t.q, Other(t.s), t.box, t.back)
    requires On(t.p, Calling, c) || OverIn(t.back, c)
    requires On(t.q, Incoming, c) || Invite(c) in t.back
    ensures On(t.p', Calling, c) || OverIn(t.Back'(), c)
  {
    if t.got.Some? { TookMembers(t.box, t.box', t.got, t.got.value); }
    assert Invite(c) in t.back ==> MsgOk(t.h, Other(t.s), Invite(c));
    assert Accept(c) in t.box ==> MsgOk(t.h, t.s, Accept(c));
  }

  lemma CalledByOther(t: Turn)
    requires t.Fits() && Tidy(t.h, t.p, t.q, Other(t.s), t.box, t.back) && Called(t.q, t.p, t.back)
    ensures Called(t.q, t.p', t.Back'())
  {
    forall c: CallId | Invite(c) in t.Back'() ensures On(t.p', Calling, c) || OverIn(t.Back'(), c) {
      if Invite(c) in t.back { StillCalledOrOver(t, c); }
    }
    if t.q.status == Incoming && t.q.callId.Some? { StillCalledOrOver(t, t.q.callId.value); }
  }

  /** The act does not deliver the end of a call past its invite. */
  predicate ReadsInviteFirst(sys: Sys, act: Act) {
    Enabled(sys, act) && act.Deliver? ==> InviteRead(sys.inbox.At(act.side), Some(sys.inbox.At(act.side)[act.index]))
  }

  ghost predicate InvitesFirst(sys: Sys, acts: seq<Act>)
    decreases |acts|
  {
    acts == [] || (ReadsInviteFirst(sys, acts[0]) && InvitesFirst(Next(sys, acts[0]), acts[1..]))
  }

  lemma CalledNext(sys: Sys, act: Act)
    requires TidySys(sys) && !act.Lose? && ReadsInviteFirst(sys, act) && CalledSys(sys)
    ensures CalledSys(Next(sys, act))
  {
    if Enabled(sys, act) {
      var t, sys' := TurnOf(sys, act), Next(sys, act);
      TurnFits(sys, act);
      assert CalledSide(sys, t.s) && CalledSide(sys, Other(t.s)) && TidySide(sys, t.s);
      CalledByMover(t);
      CalledByOther(t);
      assert CalledSide(sys', t.s) && CalledSide(sys', Other(t.s));
    }
  }

  lemma {:induction false} CalledRun(sys: Sys, acts: seq<Act>)
    requires TidySys(sys) && Lossless(acts) && InvitesFirst(sys, acts) && CalledSys(sys)
    ensures CalledSys(Run(sys, acts))
    decreases |acts|
  {
    if acts != [] {
      TidyNext(sys, acts[0]);
      CalledNext(sys, acts[0]);
      CalledRun(Next(sys, acts[0]), acts[1..]);
    }
  }

  /** A peer rings for a call that nobody makes and nobody will tell it is over. */
  ghost predicate RingsAlone(sys: Sys, s: Side) {
    && sys.peers.At(s).status == Incoming && sys.peers.At(s).callId.Some?
    && !On(sys.peers.At(Other(s)), Calling, sys.peers.At(s).callId.value)
    && !OverIn(sys.inbox.At(s), sys.peers.At(s).callId.value)
  }

  /** Nothing rings alone: with nothing lost and no end or decline delivered past the
    * invite of its call, while a peer is ringing the other side is calling it, or the
    * message that the call is over is on its way. */
  lemma NothingRingsAlone(acts: seq<Act>, s: Side)
    requires Lossless(acts) && InvitesFirst(Quiet, acts)
    ensures !RingsAlone(Run(Quiet, acts), s)
  {
    CalledRun(Quiet, acts);
    assert CalledSide(Run(Quiet, acts), s);
  }

  // ---- in-order delivery is enough ----

  /** No end or decline stands before the invite of its call. */
  ghost predicate InviteAhead(box: seq<Msg>) {
    forall i, j :: 0 <= i < j < |box| && box[j].Invite? ==> !Over(box[i], box[j].call)
  }

  predicate InOrder(acts: seq<Act>) {
    forall i :: 0 <= i < |acts| ==> acts[i].Deliver? ==> acts[i].index == 0
  }

  lemma RemoveAhead(box: seq<Msg>, k: nat)
    requires InviteAhead(box) && k < |box|
    ensures InviteAhead(Remove(box, k))
  {
    var rest := Remove(box, k);
    forall i, j | 0 <= i < j < |rest| && rest[j].Invite? ensures !Over(rest[i], rest[j].call) {
      assert rest[i] == box[if i < k then i else i + 1] && rest[j] == box[if j < k then j else j + 1];
    }
  }

  /** Only a fresh call is invited to. */
  lemma PostAhead(t: Turn)
    requires t.Fits() && InviteAhead(t.back)
    ensures InviteAhead(t.Back'())
  {
    forall i | 0 <= i < |t.back| && t.out.Some? && t.out.value.Invite? ensures !Over(t.back[i], t.out.value.call) {
      assert t.back[i] in t.back;
      assert MsgOk(t.h, Other(t.s), t.back[i]);
    }
  }

  ghost predicate AheadSys(sys: Sys) { forall s: Side :: InviteAhead(sys.inbox.At(s)) }

  lemma AheadNext(sys: Sys, act: Act)
    requires SysInv(sys) && AheadSys(sys)
    ensures AheadSys(Next(sys, act))
  {
    if Enabled(sys, act) {
      assert InviteAhead(sys.inbox.At(act.side)) && InviteAhead(sys.inbox.At(Other(act.side)));
      if !act.Local? { RemoveAhead(sys.inbox.At(act.side), act.index); }
      if !act.Lose? {
        TurnFits(sys, act);
        PostAhead(TurnOf(sys, act));
      }
      forall s: Side ensures InviteAhead(Next(sys, act).inbox.At(s)) {
        assert s == act.side || s == Other(act.side);
      }
    }
  }

  lemma {:induction false} InOrderRun(sys: Sys, acts: seq<Act>)
    requires SysInv(sys) && AheadSys(sys) && InOrder(acts)
    ensures InvitesFirst(sys, acts)
    decreases |acts|
  {
    if acts != [] {
      NextKeeps(sys, acts[0]);
      AheadNext(sys, acts[0]);
      assert acts[0].Deliver? ==> InviteAhead(sys.inbox.At(acts[0].side));
      InOrderRun(Next(sys, acts[0]), acts[1..]);
    }
  }

  /** Messages that arrive in the order they were sent never overtake their invite. */
  lemma InOrderIsEnough(acts: seq<Act>)
    requires InOrder(acts)
    ensures InvitesFirst(Quiet, acts)
  {
    InOrderRun(Quiet, acts);
  }

  // ---- and the order is needed ----

  lemma RunThree(sys: Sys, a: Act, b: Act, c: Act)
    ensures Run(sys, [a, b, c]) == Next(Next(Next(sys, a), b), c)
    ensures InvitesFirst(sys, [a, b, c]) <==>
              && ReadsInviteFirst(sys, a) && ReadsInviteFirst(Next(sys, a), b)
              && ReadsInviteFirst(Next(Next(sys, a), b), c)
  {
    var s1 := Next(sys, a);
    var s2 := Next(s1, b);
    assert Run(s2, [c]) == Run(Next(s2, c), []) && Run(s1, [b, c]) == Run(s2, [c]);
    assert InvitesFirst(s2, [c]) == ReadsInviteFirst(s2, c);
    assert [a, b, c][1..] == [b, c] && [b, c][1..] == [c];
  }

  /** An invite for a call that is over, with nothing behind it to say so: the peer hangs
    * up whatever it is in, comes to rest, hears the invite, and rings alone. */
  lemma OvertakenRings(sys: Sys, s: Side, i: nat) returns (acts: seq<Act>)
    requires TidySys(sys) && i < |sys.inbox.At(s)| && sys.inbox.At(s)[i].Invite?
    requires var c := sys.inbox.At(s)[i].call; !On(sys.peers.At(Other(s)), Calling, c) && !OverIn(sys.inbox.At(s), c)
    ensures Lossless(acts) && InvitesFirst(sys, acts) && RingsAlone(Run(sys, acts), s)
  {
    var a, b, d := Local(s, HangUpTap), Local(s, LingerFires), Deliver(s, i, true);
    acts := [a, b, d];
    RunThree(sys, a, b, d);
    var s1 := Next(sys, a);
    var s2 := Next(s1, b);
    assert s2.inbox.At(s) == sys.inbox.At(s) && s2.peers.At(Other(s)) == sys.peers.At(Other(s));
    assert s2.peers.At(s).status == Idle;
    var c := sys.inbox.At(s)[i].call;
    var s3 := Next(s2, d);
    assert s3.inbox.At(s) == Remove(sys.inbox.At(s), i);
    assert On(s3.peers.At(s), Incoming, c);
  }

  ghost predicate LeadsToAlone(sys: Sys, acts: seq<Act>, s: Side) {
    Lossless(acts) && InvitesFirst(sys, acts) && RingsAlone(Run(sys, acts), s)
  }

  /** Exactly then: from a state that loss and reordering can lead to, a lossless run that
    * reads invites first can ring alone if and only if some invite in flight, or some
    * ringing, is for a call neither being made nor about to be told over. */
  lemma CanRingAloneIff(sys: Sys)
    requires TidySys(sys)
    ensures (exists acts, s :: LeadsToAlone(sys, acts, s)) <==> !CalledSys(sys)
  {
    if CalledSys(sys) {
      forall acts, s ensures !LeadsToAlone(sys, acts, s) {
        if Lossless(acts) && InvitesFirst(sys, acts) {
          CalledRun(sys, acts);
          assert CalledSide(Run(sys, acts), s);
        }
      }
    } else {
      var s := if CalledSide(sys, Left) then Right else Left;
      assert !CalledSide(sys, s);
      if RingsAlone(sys, s) {
        assert LeadsToAlone(sys, [], s);
      } else {
        var q, box := sys.peers.At(Other(s)), sys.inbox.At(s);
        var c: CallId :| Invite(c) in box && !On(q, Calling, c) && !OverIn(box, c);
        var i :| 0 <= i < |box| && box[i] == Invite(c);
        var acts := OvertakenRings(sys, s, i);
        assert LeadsToAlone(sys, acts, s);
      }
    }
  }

  /** An end that overtakes its invite leaves a peer ringing for a call that is over. */
  lemma OvertakenInviteRings()
    ensures exists acts ::
      Lossless(acts) && Run(Quiet, acts).peers.right.status == Incoming
      && Run(Quiet, acts).peers.left.callId.None? && Run(Quiet, acts).inbox.right == []
  {
    var a, b := Local(Left, Start(1, true, true)), Local(Left, HangUpTap);
    var c, d := Deliver(Right, 1, true), Deliver(Right, 0, true);
    RunFour(Quiet, a, b, c, d);
    var sys2 := Next(Next(Quiet, a), b);
    assert sys2.inbox.right == [Invite(1), End(1)];
    var sys3 := Next(sys2, c);
    assert sys3.inbox.right == [Invite(1)];
    var sys4 := Next(sys3, d);
    assert sys4.inbox.right == [];
    var acts := [a, b, c, d];
    assert Lossless(acts) && Run(Quiet, acts) == sys4;
  }
}
