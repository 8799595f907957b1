/** With a relay that loses nothing, no peer rings or waits alone: what a calling peer
  * is waiting for exists, and (if messages also stay in order) what is ringing is
  * really being called. */
module CallLiveness {
  import opened Options
  import opened CallPeer
  import opened CallNetwork

  predicate Over(m: Msg, c: CallId) {
    m == End(c) || m == Decline(c)
  }

  predicate Says(m: Option<Msg>, c: CallId) {
    m.Some? && Over(m.value, c)
  }

  ghost predicate OverIn(box: seq<Msg>, c: CallId) {
    End(c) in box || Decline(c) in box
  }

  predicate On(p: Peer, status: Status, c: CallId) {
    p.status == status && p.callId == Some(c)
  }

  // ---- how a peer behaves in one step, as the other side sees it ----

  /** It ends a call only as it leaves it, or to turn an invite away; it accepts a call
    * only as it stops ringing for it. */
  ghost predicate SpeaksTruly(p: Peer, p': Peer, got: Option<Msg>, out: Option<Msg>) {
    && (out.Some? && Over(out.value, out.value.call) ==>
          (p.callId == Some(out.value.call) && p'.callId.None?) || (got == Some(Invite(out.value.call)) && p' == p))
    && (out.Some? && out.value.Accept? ==> On(p, Incoming, out.value.call) && On(p', Connecting, out.value.call))
  }

  /** How a peer comes to ring, to call, and to be past calling. */
  ghost predicate EntersProperly(p: Peer, p': Peer, got: Option<Msg>, out: Option<Msg>) {
    p'.callId.Some? ==>
      var c := p'.callId.value;
      && (p'.callId != p.callId ==> p.callId.None? && (p'.status == Calling || p'.status == Incoming))
      && (p'.status == Incoming ==> On(p, Incoming, c) || (p.callId.None? && got == Some(Invite(c)) && out.None?))
      && (p'.status == Calling ==> On(p, Calling, c) || (p.callId.None? && out == Some(Invite(c))))
      && (p'.isCaller && p'.status != Calling ==>
            p.callId == p'.callId && p.isCaller && (p.status == Calling ==> got == Some(Accept(c))))
  }

  /** A peer that stops ringing or calling says so or has been told; one that goes on has
    * not been told. An invite is rung for or turned away. */
  ghost predicate LeavesAudibly(p: Peer, p': Peer, got: Option<Msg>, out: Option<Msg>) {
    && (p.callId.Some? ==>
          var c := p.callId.value;
          && (p.status == Calling && !On(p', Calling, c) ==> Says(out, c) || Says(got, c) || got == Some(Accept(c)))
          && (p.status == Incoming && !On(p', Incoming, c) ==>
                Says(out, c) || out == Some(Accept(c)) || Says(got, c) || got == Some(Accept(c)))
          && (On(p', Calling, c) ==> !Says(got, c) && got != Some(Accept(c)))
          && (On(p', Incoming, c) ==> !Says(got, c)))
    && (got.Some? && got.value.Invite? ==> On(p', Incoming, got.value.call) || out == Some(End(got.value.call)))
  }

  ghost predicate Conduct(p: Peer, p': Peer, got: Option<Msg>, out: Option<Msg>) {
    SpeaksTruly(p, p', got, out) && EntersProperly(p, p', got, out) && LeavesAudibly(p, p', got, out)
  }

  lemma MessageConduct(p: Peer, m: Msg, micOk: bool)
    requires PeerInv(p)
    ensures var (p', out) := OnMessage(p, m, micOk); Conduct(p, p', Some(m), out)
  {
  }

  lemma LocalConduct(p: Peer, ev: Event)
    requires PeerInv(p) && !ev.Receive?
    ensures var (p', out) := Handle(p, ev); Conduct(p, p', None, out)
  {
  }

  // ---- what the two sides know of each other, whatever is lost or reordered ----

  /** p is the peer an inbox belongs to, q its sender, `back` the inbox of q. */
  ghost predicate Tidy(h: Hist, p: Peer, q: Peer, qSide: Side, box: seq<Msg>, back: seq<Msg>) {
    && (forall c: CallId :: OverIn(box, c) ==> q.callId != Some(c) && Invite(c) !in back)
    && (forall c: CallId :: Accept(c) in box ==>
          && !On(q, Incoming, c) && multiset(box)[Accept(c)] == 1
          && (p.callId == Some(c) ==> p.status == Calling))
    && (p.callId.Some? && p.isCaller && p.status != Calling ==>
          p.callId.value in h.joined.At(qSide) && !On(q, Incoming, p.callId.value))
  }

  ghost predicate TidySide(sys: Sys, s: Side) {
    var o := Other(s);
    Tidy(sys.hist, sys.peers.At(s), sys.peers.At(o), o, sys.inbox.At(s), sys.inbox.At(o))
  }

  ghost predicate TidySys(sys: Sys) {
    SysInv(sys) && TidySide(sys, Left) && TidySide(sys, Right)
  }

  /** The inbox after reading `got` from it, if anything. */
  ghost predicate Took(box: seq<Msg>, box': seq<Msg>, got: Option<Msg>) {
    if got.None? then box' == box else multiset(box) == multiset(box') + multiset{got.value}
  }

  lemma TookMembers(box: seq<Msg>, box': seq<Msg>, got: Option<Msg>, m: Msg)
    requires Took(box, box', got)
    ensures m in box' ==> m in box
    ensures m in box ==> m in box' || got == Some(m)
    ensures got == Some(m) && multiset(box)[m] <= 1 ==> m !in box'
    ensures got != Some(m) ==> multiset(box')[m] == multiset(box)[m]
    ensures got.Some? ==> got.value in box
  {
    assert m in box <==> multiset(box)[m] > 0;
    assert m in box' <==> multiset(box')[m] > 0;
    if got.Some? {
      assert got.value in multiset(box);
    }
  }

  /** One turn of the peer on side s: the history, that peer and its inbox before and
    * after, the other peer and its inbox, the message read and the message sent. */
  datatype Turn = Turn(h: Hist, h': Hist, s: Side, p: Peer, p': Peer, q: Peer, box: seq<Msg>, box': seq<Msg>,
                       back: seq<Msg>, got: Option<Msg>, out: Option<Msg>)
  {
    function Back'(): seq<Msg> { Post(back, out) }

    /** Everything the lemmas below need about a turn. */
    ghost predicate Fits() {
      && HistOk(h) && PeerOk(h, s, p) && PeerOk(h, Other(s), q) && InboxOk(h, s, box) && InboxOk(h, Other(s), back)
      && Conduct(p, p', got, out) && Move(h, s, p, p', out) && Took(box, box', got)
      && h' == Record(h, s, p'.callId, q.callId)
    }
  }

  lemma ReaderOver(t: Turn, c: CallId)
    requires t.Fits()
    requires Tidy(t.h, t.p, t.q, Other(t.s), t.box, t.back) && OverIn(t.box', c)
    ensures t.q.callId != Some(c) && Invite(c) !in t.Back'()
  {
    TookMembers(t.box, t.box', t.got, End(c));
    TookMembers(t.box, t.box', t.got, Decline(c));
    assert OverIn(t.box, c);
    assert (End(c) in t.box ==> MsgOk(t.h, t.s, End(c))) && (Decline(c) in t.box ==> MsgOk(t.h, t.s, Decline(c)));
  }

  lemma ReaderAccept(t: Turn, c: CallId)
    requires t.Fits()
    requires Tidy(t.h, t.p, t.q, Other(t.s), t.box, t.back) && Accept(c) in t.box'
    ensures !On(t.q, Incoming, c) && multiset(t.box')[Accept(c)] == 1
    ensures t.p'.callId == Some(c) ==> t.p'.status == Calling
  {
    TookMembers(t.box, t.box', t.got, Accept(c));
    assert MsgOk(t.h, t.s, Accept(c));
  }

  /** The mover's inbox stays tidy. */
  lemma TidyReader(t: Turn)
    requires t.Fits()
    requires Tidy(t.h, t.p, t.q, Other(t.s), t.box, t.back)
    ensures Tidy(t.h', t.p', t.q, Other(t.s), t.box', t.Back'())
  {
    forall c: CallId | OverIn(t.box', c) ensures t.q.callId != Some(c) && Invite(c) !in t.Back'() {
      ReaderOver(t, c);
    }
    forall c: CallId | Accept(c) in t.box'
      ensures !On(t.q, Incoming, c) && multiset(t.box')[Accept(c)] == 1
      ensures t.p'.callId == Some(c) ==> t.p'.status == Calling
    {
      ReaderAccept(t, c);
    }
    if t.p'.callId.Some? && t.p'.isCaller && t.p'.status != Calling && t.p.status == Calling {
      var c := t.p'.callId.value;
      TookMembers(t.box, t.box', t.got, Accept(c));
      assert MsgOk(t.h, t.s, Accept(c));
    }
  }

  lemma WriterOver(t: Turn, c: CallId)
    requires t.Fits()
    requires Tidy(t.h, t.q, t.p, t.s, t.back, t.box) && OverIn(t.Back'(), c)
    ensures t.p'.callId != Some(c) && Invite(c) !in t.box'
  {
    TookMembers(t.box, t.box', t.got, Invite(c));
    assert Invite(c) in t.box ==> MsgOk(t.h, t.s, Invite(c));
    assert End(c) in t.back ==> MsgOk(t.h, Other(t.s), End(c));
    assert Decline(c) in t.back ==> MsgOk(t.h, Other(t.s), Decline(c));
    assert OverIn(t.back, c) || Says(t.out, c);
  }

  lemma WriterAccept(t: Turn, c: CallId)
    requires t.Fits()
    requires Tidy(t.h, t.q, t.p, t.s, t.back, t.box) && Accept(c) in t.Back'()
    ensures !On(t.p', Incoming, c) && multiset(t.Back'())[Accept(c)] == 1
    ensures t.q.callId == Some(c) ==> t.q.status == Calling
  {
    if Accept(c) in t.back {
      assert MsgOk(t.h, Other(t.s), Accept(c));
      assert t.out != Some(Accept(c));
      TookMembers(t.box, t.box', t.got, Invite(c));
      assert t.got == Some(Invite(c)) ==> MsgOk(t.h, t.s, Invite(c));
    } else {
      assert t.out == Some(Accept(c));
      assert multiset(t.back)[Accept(c)] == 0;
    }
  }

  /** The inbox it writes to stays tidy. */
  lemma TidyWriter(t: Turn)
    requires t.Fits()
    requires Tidy(t.h, t.q, t.p, t.s, t.back, t.box)
    ensures Tidy(t.h', t.q, t.p', t.s, t.Back'(), t.box')
  {
    forall c: CallId | OverIn(t.Back'(), c) ensures t.p'.callId != Some(c) && Invite(c) !in t.box' {
      WriterOver(t, c);
    }
    forall c: CallId | Accept(c) in t.Back'()
      ensures !On(t.p', Incoming, c) && multiset(t.Back'())[Accept(c)] == 1
      ensures t.q.callId == Some(c) ==> t.q.status == Calling
    {
      WriterAccept(t, c);
    }
    if t.q.callId.Some? && t.q.isCaller && t.q.status != Calling && t.got == Some(Invite(t.q.callId.value)) {
      TookMembers(t.box, t.box', t.got, t.got.value);
      assert MsgOk(t.h, t.s, t.got.value);
    }
  }

  lemma RemoveTook(box: seq<Msg>, i: nat)
    requires i < |box|
    ensures Took(box, Remove(box, i), Some(box[i]))
  {
    RemoveCounts(box, i);
    assert box[i] in multiset(box);
  }

  function TurnAt(sys: Sys, s: Side, box': seq<Msg>, p': Peer, got: Option<Msg>, out: Option<Msg>): Turn {
    Turn(sys.hist, After(sys, s, box', p', out).hist, s, sys.peers.At(s), p', sys.peers.At(Other(s)),
         sys.inbox.At(s), box', sys.inbox.At(Other(s)), got, out)
  }

  /** The turn an enabled act other than a loss is. */
  function TurnOf(sys: Sys, act: Act): Turn
    requires Enabled(sys, act) && !act.Lose?
  {
    match act
    case Local(s, ev) =>
      var (p', out) := Handle(sys.peers.At(s), ev);
      TurnAt(sys, s, sys.inbox.At(s), p', None, out)
    case Deliver(s, i, micOk) =>
      var m := sys.inbox.At(s)[i];
      var (p', out) := OnMessage(sys.peers.At(s), m, micOk);
      TurnAt(sys, s, Remove(sys.inbox.At(s), i), p', Some(m), out)
  }

  /** What a state shows of a turn just taken in it. */
  ghost predicate TurnTaken(sys: Sys, t: Turn) {
    && sys.hist == t.h' && sys.peers.At(t.s) == t.p' && sys.peers.At(Other(t.s)) == t.q
    && sys.inbox.At(t.s) == t.box' && sys.inbox.At(Other(t.s)) == t.Back'()
  }

  lemma LocalTurn(sys: Sys, s: Side, ev: Event)
    requires SysInv(sys) && Enabled(sys, Local(s, ev))
    ensures TurnOf(sys, Local(s, ev)).Fits() && TurnTaken(Next(sys, Local(s, ev)), TurnOf(sys, Local(s, ev)))
  {
    assert SideOk(sys, s) && SideOk(sys, Other(s));
    LocalMove(sys, s, ev);
    LocalConduct(sys.peers.At(s), ev);
  }

  lemma DeliverTurn(sys: Sys, s: Side, i: nat, micOk: bool)
    requires SysInv(sys) && i < |sys.inbox.At(s)|
    ensures var act := Deliver(s, i, micOk); TurnOf(sys, act).Fits() && TurnTaken(Next(sys, act), TurnOf(sys, act))
  {
    assert SideOk(sys, s) && SideOk(sys, Other(s));
    DeliverMove(sys, s, i, micOk);
    MessageConduct(sys.peers.At(s), sys.inbox.At(s)[i], micOk);
    RemoveTook(sys.inbox.At(s), i);
  }

  lemma TurnFits(sys: Sys, act: Act)
    requires SysInv(sys) && Enabled(sys, act) && !act.Lose?
    ensures TurnOf(sys, act).Fits() && TurnTaken(Next(sys, act), TurnOf(sys, act))
  {
    match act
    case Local(s, ev) => LocalTurn(sys, s, ev);
    case Deliver(s, i, micOk) => DeliverTurn(sys, s, i, micOk);
  }

  lemma TidyTurn(sys: Sys, act: Act)
    requires TidySys(sys) && Enabled(sys, act) && !act.Lose?
    ensures TidySide(Next(sys, act), Left) && TidySide(Next(sys, act), Right)
  {
    var t, sys' := TurnOf(sys, act), Next(sys, act);
    TurnFits(sys, act);
    assert TidySide(sys, t.s) && TidySide(sys, Other(t.s));
    TidyReader(t);
    TidyWriter(t);
    assert TidySide(sys', t.s) && TidySide(sys', Other(t.s));
  }

  lemma TidyLose(h: Hist, p: Peer, q: Peer, qSide: Side, box: seq<Msg>, box': seq<Msg>, back: seq<Msg>, back': seq<Msg>,
                 got: Option<Msg>, got': Option<Msg>)
    requires Tidy(h, p, q, qSide, box, back) && Took(box, box', got) && Took(back, back', got')
    ensures Tidy(h, p, q, qSide, box', back')
  {
    forall c: CallId | OverIn(box', c) ensures q.callId != Some(c) && Invite(c) !in back' {
      TookMembers(box, box', got, End(c));
      TookMembers(box, box', got, Decline(c));
      TookMembers(back, back', got', Invite(c));
    }
    forall c: CallId | Accept(c) in box'
      ensures !On(q, Incoming, c) && multiset(box')[Accept(c)] == 1 && (p.callId == Some(c) ==> p.status == Calling)
    {
      TookMembers(box, box', got, Accept(c));
    }
  }

  lemma TidyNext(sys: Sys, act: Act)
    requires TidySys(sys)
    ensures TidySys(Next(sys, act))
  {
    NextKeeps(sys, act);
    if Enabled(sys, act) && !act.Lose? {
      TidyTurn(sys, act);
    } else if Enabled(sys, act) {
      var s, o, sys' := act.side, Other(act.side), Next(sys, act);
      assert TidySide(sys, s) && TidySide(sys, o);
      RemoveTook(sys.inbox.At(s), act.index);
      var box, box', back := sys.inbox.At(s), Remove(sys.inbox.At(s), act.index), sys.inbox.At(o);
      TidyLose(sys.hist, sys.peers.At(s), sys.peers.At(o), o, box, box', back, back, Some(box[act.index]), None);
      TidyLose(sys.hist, sys.peers.At(o), sys.peers.At(s), s, back, back, box, box', None, Some(box[act.index]));
      assert TidySide(sys', s) && TidySide(sys', o);
    }
  }

  lemma {:induction false} TidyRun(sys: Sys, acts: seq<Act>)
    requires TidySys(sys)
    ensures TidySys(Run(sys, acts))
    decreases |acts|
  {
    if acts != [] {
      TidyNext(sys, acts[0]);
      TidyRun(Next(sys, acts[0]), acts[1..]);
    }
  }

  // ---- nothing lost: a caller never waits on nobody ----

  /** p is calling; q is the peer it calls, `to` the inbox of q and `box` its own. */
  ghost predicate Awaited(p: Peer, q: Peer, box: seq<Msg>, to: seq<Msg>) {
    p.status == Calling && p.callId.Some? ==>
      var c := p.callId.value;
      Invite(c) in to || On(q, Incoming, c) || Accept(c) in box || OverIn(box, c)
  }

  ghost predicate AwaitedSide(sys: Sys, s: Side) {
    Awaited(sys.peers.At(s), sys.peers.At(Other(s)), sys.inbox.At(s), sys.inbox.At(Other(s)))
  }

  lemma AwaitedByMover(t: Turn)
    requires t.Fits()
    requires Awaited(t.p, t.q, t.box, t.back)
    ensures Awaited(t.p', t.q, t.box', t.Back'())
  {
    if t.p'.status == Calling && t.p'.callId.Some? {
      var c := t.p'.callId.value;
      TookMembers(t.box, t.box', t.got, Accept(c));
      TookMembers(t.box, t.box', t.got, End(c));
      TookMembers(t.box, t.box', t.got, Decline(c));
    }
  }

  lemma AwaitedByOther(t: Turn)
    requires t.Fits()
    requires Tidy(t.h, t.p, t.q, Other(t.s), t.box, t.back)
    requires Awaited(t.q, t.p, t.back, t.box)
    ensures Awaited(t.q, t.p', t.Back'(), t.box')
  {
    if t.q.status == Calling && t.q.callId.Some? {
      var c := t.q.callId.value;
      TookMembers(t.box, t.box', t.got, Invite(c));
      assert Accept(c) in t.box ==> MsgOk(t.h, t.s, Accept(c));
      assert OverIn(t.box, c) ==> t.q.callId != Some(c);
      if t.got.Some? { TookMembers(t.box, t.box', t.got, t.got.value); }
    }
  }

  predicate Lossless(acts: seq<Act>) {
    forall i :: 0 <= i < |acts| ==> !acts[i].Lose?
  }

  lemma AwaitedNext(sys: Sys, act: Act)
    requires TidySys(sys) && !act.Lose? && AwaitedSide(sys, Left) && AwaitedSide(sys, Right)
    ensures AwaitedSide(Next(sys, act), Left) && AwaitedSide(Next(sys, act), Right)
  {
    if Enabled(sys, act) {
      var t, sys' := TurnOf(sys, act), Next(sys, act);
      TurnFits(sys, act);
      assert AwaitedSide(sys, t.s) && AwaitedSide(sys, Other(t.s)) && TidySide(sys, t.s);
      AwaitedByMover(t);
      AwaitedByOther(t);
      assert AwaitedSide(sys', t.s) && AwaitedSide(sys', Other(t.s));
    }
  }

  lemma {:induction false} AwaitedRun(sys: Sys, acts: seq<Act>)
    requires TidySys(sys) && Lossless(acts) && AwaitedSide(sys, Left) && AwaitedSide(sys, Right)
    ensures AwaitedSide(Run(sys, acts), Left) && AwaitedSide(Run(sys, acts), Right)
    decreases |acts|
  {
    if acts != [] {
      TidyNext(sys, acts[0]);
      AwaitedNext(sys, acts[0]);
      AwaitedRun(Next(sys, acts[0]), acts[1..]);
    }
  }

  /** No caller waits on nobody: with nothing lost (in whatever order it arrives), while a
    * peer is calling on c its invite is on its way, or the other side is ringing for c,
    * or an accept, decline or end for c is on its way back. */
  lemma NoCallerWaitsOnNobody(acts: seq<Act>, s: Side, c: CallId)
    requires Lossless(acts)
    ensures
      var sys := Run(Quiet, acts);
      On(sys.peers.At(s), Calling, c) ==>
        Invite(c) in sys.inbox.At(Other(s)) || On(sys.peers.At(Other(s)), Incoming, c)
        || Accept(c) in sys.inbox.At(s) || OverIn(sys.inbox.At(s), c)
  {
    AwaitedRun(Quiet, acts);
    assert AwaitedSide(Run(Quiet, acts), s);
  }

  /** A peer calling with nobody at the other end, and nothing on its way that says so. */
  ghost predicate WaitsAlone(sys: Sys, s: Side) {
    && sys.peers.At(s).status == Calling && sys.peers.At(s).callId.Some?
    && var c := sys.peers.At(s).callId.value;
       && Invite(c) !in sys.inbox.At(Other(s)) && !On(sys.peers.At(Other(s)), Incoming, c)
       && Accept(c) !in sys.inbox.At(s) && !OverIn(sys.inbox.At(s), c)
  }

  ghost predicate LeadsToWaiting(sys: Sys, acts: seq<Act>, s: Side) {
    Lossless(acts) && WaitsAlone(Run(sys, acts), s)
  }

  /** Exactly then: from a state that loss and reordering can lead to, a lossless run can
    * leave a caller waiting alone if and only if one is waiting alone already. */
  lemma CanWaitAloneIff(sys: Sys)
    requires TidySys(sys)
    ensures (exists acts, s :: LeadsToWaiting(sys, acts, s)) <==> WaitsAlone(sys, Left) || WaitsAlone(sys, Right)
  {
    if AwaitedSide(sys, Left) && AwaitedSide(sys, Right) {
      forall acts, s ensures !LeadsToWaiting(sys, acts, s) {
        if Lossless(acts) {
          AwaitedRun(sys, acts);
          assert AwaitedSide(Run(sys, acts), s);
        }
      }
    } else {
      var s := if AwaitedSide(sys, Left) then Right else Left;
      assert WaitsAlone(sys, s);
      assert LeadsToWaiting(sys, [], s);
    }
  }

  // ---- and a call that waits alone never comes about ----

  /** The call c that p's side started has no invite, no ringing and no accept left; q is the
    * other peer, `box` p's inbox and `to` that of q. */
  ghost predicate Lapsed(h: Hist, s: Side, c: CallId, p: Peer, q: Peer, box: seq<Msg>, to: seq<Msg>) {
    && c in h.starter && h.starter[c] == s
    && Invite(c) !in to && !On(q, Incoming, c) && Accept(c) !in box
    && (p.callId == Some(c) ==> p.status == Calling)
  }

  ghost predicate Barren(sys: Sys, s: Side, c: CallId) {
    var o := Other(s);
    Lapsed(sys.hist, s, c, sys.peers.At(s), sys.peers.At(o), sys.inbox.At(s), sys.inbox.At(o))
  }

  lemma LapsedByMover(t: Turn, c: CallId)
    requires t.Fits() && Lapsed(t.h, t.s, c, t.p, t.q, t.box, t.back)
    ensures Lapsed(t.h', t.s, c, t.p', t.q, t.box', t.Back'())
  {
    TookMembers(t.box, t.box', t.got, Accept(c));
  }

  lemma LapsedByOther(t: Turn, c: CallId)
    requires t.Fits() && Lapsed(t.h, Other(t.s), c, t.q, t.p, t.back, t.box)
    ensures Lapsed(t.h', Other(t.s), c, t.q, t.p', t.Back'(), t.box')
  {
    TookMembers(t.box, t.box', t.got, Invite(c));
  }

  lemma BarrenTurn(sys: Sys, act: Act, s: Side, c: CallId)
    requires TidySys(sys) && Enabled(sys, act) && !act.Lose? && Barren(sys, s, c)
    ensures Barren(Next(sys, act), s, c)
  {
    var t := TurnOf(sys, act);
    TurnFits(sys, act);
    if t.s == s { LapsedByMover(t, c); } else { LapsedByOther(t, c); }
  }

  lemma BarrenNext(sys: Sys, act: Act, s: Side, c: CallId)
    requires TidySys(sys) && Barren(sys, s, c)
    ensures Barren(Next(sys, act), s, c)
  {
    if Enabled(sys, act) && !act.Lose? {
      BarrenTurn(sys, act, s, c);
    } else if Enabled(sys, act) {
      var box := sys.inbox.At(act.side);
      RemoveTook(box, act.index);
      TookMembers(box, Remove(box, act.index), Some(box[act.index]), Invite(c));
      TookMembers(box, Remove(box, act.index), Some(box[act.index]), Accept(c));
    }
  }

  lemma {:induction false} BarrenRun(sys: Sys, acts: seq<Act>, s: Side, c: CallId)
    requires TidySys(sys) && Barren(sys, s, c)
    ensures Barren(Run(sys, acts), s, c)
    decreases |acts|
  {
    if acts != [] {
      TidyNext(sys, acts[0]);
      BarrenNext(sys, acts[0], s, c);
      BarrenRun(Next(sys, acts[0]), acts[1..], s, c);
    }
  }

  /** Whatever happens after it waits alone, the caller never gets past calling in that call:
    * its own timer, its hang-up or news of the end is all that is left. */
  lemma WaitingAloneNeverConnects(sys: Sys, s: Side, acts: seq<Act>)
    requires TidySys(sys) && WaitsAlone(sys, s)
    ensures
      var later := Run(sys, acts).peers.At(s);
      later.callId == sys.peers.At(s).callId ==> later.status == Calling
  {
    assert SideOk(sys, s);
    BarrenRun(sys, acts, s, sys.peers.At(s).callId.value);
  }

  lemma RunFour(sys: Sys, a: Act, b: Act, c: Act, d: Act)
    ensures Run(sys, [a, b, c, d]) == Next(Next(Next(Next(sys, a), b), c), d)
    ensures Run(sys, [a, b]) == Next(Next(sys, a), b)
  {
    assert Run(Next(Next(Next(sys, a), b), c), [d]) == Run(Next(Next(Next(Next(sys, a), b), c), d), []);
    assert Run(Next(Next(sys, a), b), [c, d]) == Run(Next(Next(Next(sys, a), b), c), [d]);
    assert Run(Next(sys, a), [b, c, d]) == Run(Next(Next(sys, a), b), [c, d]);
    assert Run(Next(sys, a), [b]) == Run(Next(Next(sys, a), b), []);
  }

  /** A lost invite leaves a caller waiting (until its ring timer fires). */
  lemma LostInviteWaits()
    ensures exists acts ::
      Run(Quiet, acts).peers.left.status == Calling
      && Run(Quiet, acts).peers.right == Resting && Run(Quiet, acts).inbox == Pair([], [])
  {
    var a, b := Local(Left, Start(1, true, true)), Lose(Right, 0);
    RunFour(Quiet, a, b, a, b);
    assert Next(Quiet, a).inbox.right == [Invite(1)];
    assert Next(Next(Quiet, a), b).inbox == Pair([], []);
    var acts := [a, b];
    assert Run(Quiet, acts) == Next(Next(Quiet, a), b);
  }

  /** Under any loss and reordering: an accept for the call a peer is in finds it calling,
    * without a connection, and is the only one; so createPeer never replaces one. */
  lemma AcceptFindsCaller(acts: seq<Act>, s: Side, c: CallId)
    ensures
      var sys := Run(Quiet, acts);
      Accept(c) in sys.inbox.At(s) ==>
        && multiset(sys.inbox.At(s))[Accept(c)] == 1
        && (sys.peers.At(s).callId == Some(c) ==>
              sys.peers.At(s).status == Calling && sys.peers.At(s).isCaller && sys.peers.At(s).pc.None?)
  {
    TidyRun(Quiet, acts);
    var sys := Run(Quiet, acts);
    assert TidySide(sys, s) && SideOk(sys, s);
  }
}
