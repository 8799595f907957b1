/** ICE candidates from the peer that finds them to the peer they are for, over a relay
  * that may reorder and lose: the books of both sides agree, candidate by candidate. */
module CallCandidates {
  import opened Options
  import opened CallPeer
  import opened CallNetwork
  import opened CallLiveness

  /** What has arrived for the call a peer is in, handed to its connection or queued. */
  function Received(p: Peer): seq<Candidate> {
    (if p.pc.Some? then p.pc.value.handed else []) + p.pending
  }

  /** The connection of side s for call c finds candidate x. */
  predicate Finds(sys: Sys, act: Act, s: Side, c: CallId, x: Candidate) {
    act == Local(s, Found(x)) && sys.peers.At(s).pc.Some? && sys.peers.At(s).callId == Some(c)
  }

  /** The relay loses candidate x of call c on its way to the other side of s. */
  predicate Loses(sys: Sys, act: Act, s: Side, c: CallId, x: Candidate) {
    act.Lose? && act.side == Other(s) && act.index < |sys.inbox.At(act.side)|
    && sys.inbox.At(act.side)[act.index] == Ice(c, x)
  }

  ghost function FoundBy(sys: Sys, acts: seq<Act>, s: Side, c: CallId, x: Candidate): nat
    decreases |acts|
  {
    if acts == [] then 0
    else (if Finds(sys, acts[0], s, c, x) then 1 else 0) + FoundBy(Next(sys, acts[0]), acts[1..], s, c, x)
  }

  ghost function LostFrom(sys: Sys, acts: seq<Act>, s: Side, c: CallId, x: Candidate): nat
    decreases |acts|
  {
    if acts == [] then 0
    else (if Loses(sys, acts[0], s, c, x) then 1 else 0) + LostFrom(Next(sys, acts[0]), acts[1..], s, c, x)
  }

  // ---- one peer ----

  lemma SendsWhatItFinds(p: Peer, ev: Event, c: CallId, x: Candidate)
    requires !ev.Receive?
    ensures Handle(p, ev).1 == Some(Ice(c, x)) <==> ev == Found(x) && p.pc.Some? && p.callId == Some(c)
  {
  }

  lemma ReadsSendNone(p: Peer, m: Msg, micOk: bool, c: CallId, x: Candidate)
    ensures OnMessage(p, m, micOk).1 != Some(Ice(c, x))
  {
  }

  /** Within one call what was received stays received. */
  lemma ReceivedStays(p: Peer, ev: Event)
    requires PeerInv(p) && !ev.Receive? && p.callId.Some? && Handle(p, ev).0.callId == p.callId
    ensures Received(Handle(p, ev).0) == Received(p)
  {
  }

  /** Within one call a message adds a candidate of that call at most; an accept comes
    * before there is a connection. */
  lemma ReceivedGrows(p: Peer, m: Msg, micOk: bool)
    requires PeerInv(p) && p.callId.Some? && OnMessage(p, m, micOk).0.callId == p.callId
    requires m == Accept(p.callId.value) ==> p.status == Calling
    ensures Received(OnMessage(p, m, micOk).0)
         == Received(p) + if m.Ice? && p.callId == Some(m.call) then [m.candidate] else []
  {
  }

  lemma AppendCounts(xs: seq<Candidate>, ys: seq<Candidate>, y: Candidate, x: Candidate)
    requires ys == [] || ys == [y]
    ensures multiset(xs + ys)[x] == multiset(xs)[x] + if ys == [y] && x == y then 1 else 0
  {
  }

  lemma JoinsEmpty(p: Peer, ev: Event)
    requires PeerInv(p) && p.callId.None?
    ensures Received(Handle(p, ev).0) == []
  {
  }

  // ---- both peers ----

  /** Whoever started a call has been in it. */
  ghost predicate StartersJoined(h: Hist) {
    forall c :: c in h.starter ==> c in h.joined.At(h.starter[c])
  }

  lemma StartersStay(sys: Sys, act: Act)
    requires StartersJoined(sys.hist)
    ensures StartersJoined(Next(sys, act).hist)
  {
  }

  /** A connection means the other side has joined the call. */
  lemma ConnectionMeansJoined(sys: Sys, s: Side)
    requires SysInv(sys) && StartersJoined(sys.hist) && sys.peers.At(s).pc.Some?
    ensures sys.peers.At(s).callId.Some? && sys.peers.At(s).callId.value in sys.hist.joined.At(Other(s))
  {
    assert SideOk(sys, s);
  }

  /** found = received + under way + lost, while q is in the call; and before it has joined
    * there is nothing to be found. `box` is the inbox of q. */
  ghost predicate Books(q: Peer, box: seq<Msg>, joined: set<CallId>, c: CallId, x: Candidate, found: nat, lost: nat) {
    && (q.callId == Some(c) ==> found == multiset(Received(q))[x] + multiset(box)[Ice(c, x)] + lost)
    && (c !in joined ==> found == 0 && lost == 0 && Ice(c, x) !in box)
  }

  ghost predicate Accounted(sys: Sys, s: Side, c: CallId, x: Candidate, found: nat, lost: nat) {
    var o := Other(s);
    Books(sys.peers.At(o), sys.inbox.At(o), sys.hist.joined.At(o), c, x, found, lost)
  }

  lemma PostCounts(box: seq<Msg>, out: Option<Msg>, m: Msg)
    ensures multiset(Post(box, out))[m] == multiset(box)[m] + if out == Some(m) then 1 else 0
    ensures m in Post(box, out) <==> m in box || out == Some(m)
  {
  }

  lemma RemoveCountsOne(box: seq<Msg>, i: nat, m: Msg)
    requires i < |box|
    ensures multiset(Remove(box, i))[m] == multiset(box)[m] - if box[i] == m then 1 else 0
    ensures m in Remove(box, i) ==> m in box
  {
    RemoveCounts(box, i);
    assert box[i] in multiset(box);
  }

  lemma SentBooks(q: Peer, box: seq<Msg>, joined: set<CallId>, out: Option<Msg>, c: CallId, x: Candidate,
                  found: nat, lost: nat)
    requires Books(q, box, joined, c, x, found, lost) && (out == Some(Ice(c, x)) ==> c in joined)
    ensures Books(q, Post(box, out), joined, c, x, found + (if out == Some(Ice(c, x)) then 1 else 0), lost)
  {
    PostCounts(box, out, Ice(c, x));
  }

  lemma ActedBooks(q: Peer, ev: Event, box: seq<Msg>, joined: set<CallId>, joined': set<CallId>, c: CallId,
                   x: Candidate, found: nat, lost: nat)
    requires PeerInv(q) && !ev.Receive? && Books(q, box, joined, c, x, found, lost) && joined <= joined'
    requires q.callId != Some(c) && Handle(q, ev).0.callId == Some(c) ==> q.callId.None? && c !in joined
    ensures Books(Handle(q, ev).0, box, joined', c, x, found, lost)
  {
    if Handle(q, ev).0.callId == Some(c) {
      if q.callId == Some(c) { ReceivedStays(q, ev); } else { JoinsEmpty(q, ev); }
    }
  }

  lemma ReadBooks(q: Peer, box: seq<Msg>, i: nat, micOk: bool, joined: set<CallId>, joined': set<CallId>, c: CallId,
                  x: Candidate, found: nat, lost: nat)
    requires PeerInv(q) && i < |box| && Books(q, box, joined, c, x, found, lost) && joined <= joined'
    requires q.callId == Some(c) && box[i] == Accept(c) ==> q.status == Calling
    requires q.callId != Some(c) && OnMessage(q, box[i], micOk).0.callId == Some(c) ==> q.callId.None? && c !in joined
    ensures Books(OnMessage(q, box[i], micOk).0, Remove(box, i), joined', c, x, found, lost)
  {
    var m, after := box[i], OnMessage(q, box[i], micOk).0;
    RemoveCountsOne(box, i, Ice(c, x));
    if after.callId == Some(c) {
      if q.callId == Some(c) {
        ReceivedGrows(q, m, micOk);
        if m.Ice? && m.call == c { AppendCounts(Received(q), [m.candidate], m.candidate, x); }
        assert Received(q) + [] == Received(q);
      } else {
        JoinsEmpty(q, Receive(m, micOk));
      }
    }
  }

  // ---- the pieces a step leaves ----

  lemma LocalPieces(sys: Sys, s: Side, ev: Event)
    requires Enabled(sys, Local(s, ev))
    ensures
      var after, o := Next(sys, Local(s, ev)), Other(s);
      var (p', out) := Handle(sys.peers.At(s), ev);
      && after.peers.At(s) == p' && after.peers.At(o) == sys.peers.At(o)
      && after.inbox.At(s) == sys.inbox.At(s) && after.inbox.At(o) == Post(sys.inbox.At(o), out)
      && after.hist.joined.At(o) == sys.hist.joined.At(o) && sys.hist.joined.At(s) <= after.hist.joined.At(s)
  {
  }

  lemma DeliverPieces(sys: Sys, s: Side, i: nat, micOk: bool)
    requires i < |sys.inbox.At(s)|
    ensures
      var after, o := Next(sys, Deliver(s, i, micOk)), Other(s);
      var (p', out) := OnMessage(sys.peers.At(s), sys.inbox.At(s)[i], micOk);
      && after.peers.At(s) == p' && after.peers.At(o) == sys.peers.At(o)
      && after.inbox.At(s) == Remove(sys.inbox.At(s), i) && after.inbox.At(o) == Post(sys.inbox.At(o), out)
      && after.hist.joined.At(o) == sys.hist.joined.At(o) && sys.hist.joined.At(s) <= after.hist.joined.At(s)
  {
  }

  lemma FinderActs(sys: Sys, s: Side, ev: Event, c: CallId, x: Candidate, found: nat, lost: nat)
    requires SysInv(sys) && StartersJoined(sys.hist) && Enabled(sys, Local(s, ev))
    requires Accounted(sys, s, c, x, found, lost)
    ensures Accounted(Next(sys, Local(s, ev)), s, c, x,
                      found + (if Finds(sys, Local(s, ev), s, c, x) then 1 else 0), lost)
  {
    var o, out := Other(s), Handle(sys.peers.At(s), ev).1;
    LocalPieces(sys, s, ev);
    SendsWhatItFinds(sys.peers.At(s), ev, c, x);
    if out == Some(Ice(c, x)) { ConnectionMeansJoined(sys, s); }
    SentBooks(sys.peers.At(o), sys.inbox.At(o), sys.hist.joined.At(o), out, c, x, found, lost);
  }

  lemma FinderReads(sys: Sys, s: Side, i: nat, micOk: bool, c: CallId, x: Candidate, found: nat, lost: nat)
    requires i < |sys.inbox.At(s)| && Accounted(sys, s, c, x, found, lost)
    ensures Accounted(Next(sys, Deliver(s, i, micOk)), s, c, x, found, lost)
  {
    var o, out := Other(s), OnMessage(sys.peers.At(s), sys.inbox.At(s)[i], micOk).1;
    DeliverPieces(sys, s, i, micOk);
    ReadsSendNone(sys.peers.At(s), sys.inbox.At(s)[i], micOk, c, x);
    SentBooks(sys.peers.At(o), sys.inbox.At(o), sys.hist.joined.At(o), out, c, x, found, lost);
  }

  lemma JoinsByMove(h: Hist, s: Side, p: Peer, p': Peer, out: Option<Msg>, c: CallId)
    requires HistOk(h) && Move(h, s, p, p', out) && p.callId != Some(c) && p'.callId == Some(c)
    ensures p.callId.None? && c !in h.joined.At(s)
  {
  }

  lemma OtherActs(sys: Sys, s: Side, ev: Event, c: CallId, x: Candidate, found: nat, lost: nat)
    requires SysInv(sys) && Enabled(sys, Local(Other(s), ev)) && Accounted(sys, s, c, x, found, lost)
    ensures Accounted(Next(sys, Local(Other(s), ev)), s, c, x, found, lost)
  {
    var o := Other(s);
    var q := sys.peers.At(o);
    var (q', out) := Handle(q, ev);
    assert SideOk(sys, o);
    LocalPieces(sys, o, ev);
    LocalMove(sys, o, ev);
    if q.callId != Some(c) && q'.callId == Some(c) { JoinsByMove(sys.hist, o, q, q', out, c); }
    ActedBooks(q, ev, sys.inbox.At(o), sys.hist.joined.At(o), Next(sys, Local(o, ev)).hist.joined.At(o),
               c, x, found, lost);
  }

  lemma OtherReads(sys: Sys, s: Side, i: nat, micOk: bool, c: CallId, x: Candidate, found: nat, lost: nat)
    requires TidySys(sys) && i < |sys.inbox.At(Other(s))| && Accounted(sys, s, c, x, found, lost)
    ensures Accounted(Next(sys, Deliver(Other(s), i, micOk)), s, c, x, found, lost)
  {
    var o := Other(s);
    var q, m := sys.peers.At(o), sys.inbox.At(o)[i];
    var (q', out) := OnMessage(q, m, micOk);
    assert SideOk(sys, o) && TidySide(sys, o) && m in sys.inbox.At(o);
    DeliverPieces(sys, o, i, micOk);
    MessageMove(sys.hist, o, q, m, micOk);
    if q.callId != Some(c) && q'.callId == Some(c) { JoinsByMove(sys.hist, o, q, q', out, c); }
    ReadBooks(q, sys.inbox.At(o), i, micOk, sys.hist.joined.At(o), Next(sys, Deliver(o, i, micOk)).hist.joined.At(o),
              c, x, found, lost);
  }

  lemma LossAccounted(sys: Sys, act: Act, s: Side, c: CallId, x: Candidate, found: nat, lost: nat)
    requires act.Lose? && Enabled(sys, act) && Accounted(sys, s, c, x, found, lost)
    ensures Accounted(Next(sys, act), s, c, x, found, lost + if Loses(sys, act, s, c, x) then 1 else 0)
  {
    RemoveCountsOne(sys.inbox.At(act.side), act.index, Ice(c, x));
    var o, after := Other(s), Next(sys, act);
    assert after.peers == sys.peers && after.hist == sys.hist;
    assert after.inbox.At(o)
        == if act.side == o then Remove(sys.inbox.At(o), act.index) else sys.inbox.At(o);
  }

  lemma NoneFound(sys: Sys, act: Act, s: Side, c: CallId, x: Candidate, found: nat, lost: nat)
    requires TidySys(sys) && StartersJoined(sys.hist) && Accounted(sys, s, c, x, found, lost)
    requires Enabled(sys, act) && !act.Lose? && act != Local(s, Found(x))
    ensures Accounted(Next(sys, act), s, c, x, found, lost)
  {
    match act
    case Local(side, ev) =>
      if side == s { FinderActs(sys, s, ev, c, x, found, lost); } else { OtherActs(sys, s, ev, c, x, found, lost); }
    case Deliver(side, i, micOk) =>
      if side == s {
        FinderReads(sys, s, i, micOk, c, x, found, lost);
      } else {
        OtherReads(sys, s, i, micOk, c, x, found, lost);
      }
  }

  lemma AccountedNext(sys: Sys, act: Act, s: Side, c: CallId, x: Candidate, found: nat, lost: nat)
    requires TidySys(sys) && StartersJoined(sys.hist) && Accounted(sys, s, c, x, found, lost)
    ensures Accounted(Next(sys, act), s, c, x, found + (if Finds(sys, act, s, c, x) then 1 else 0),
                      lost + if Loses(sys, act, s, c, x) then 1 else 0)
  {
    if Enabled(sys, act) {
      if act.Lose? {
        LossAccounted(sys, act, s, c, x, found, lost);
      } else if act == Local(s, Found(x)) {
        FinderActs(sys, s, act.event, c, x, found, lost);
      } else {
        NoneFound(sys, act, s, c, x, found, lost);
      }
    }
  }

  lemma {:induction false} AccountedRun(sys: Sys, acts: seq<Act>, s: Side, c: CallId, x: Candidate,
                                        found: nat, lost: nat)
    requires TidySys(sys) && StartersJoined(sys.hist) && Accounted(sys, s, c, x, found, lost)
    ensures Accounted(Run(sys, acts), s, c, x, found + FoundBy(sys, acts, s, c, x), lost + LostFrom(sys, acts, s, c, x))
    decreases |acts|
  {
    if acts != [] {
      TidyNext(sys, acts[0]);
      StartersStay(sys, acts[0]);
      AccountedNext(sys, acts[0], s, c, x, found, lost);
      AccountedRun(Next(sys, acts[0]), acts[1..], s, c, x,
                   found + (if Finds(sys, acts[0], s, c, x) then 1 else 0),
                   lost + if Loses(sys, acts[0], s, c, x) then 1 else 0);
    }
  }

  /** Candidates cross over: while the other side is in call c, every candidate that side s
    * found for it has been received there, is on its way, or was lost by the relay; and
    * nothing else was received or is on its way. */
  lemma CandidatesCross(acts: seq<Act>, s: Side, c: CallId, x: Candidate)
    ensures
      var sys, o := Run(Quiet, acts), Other(s);
      sys.peers.At(o).callId == Some(c) ==>
        FoundBy(Quiet, acts, s, c, x)
           == multiset(Received(sys.peers.At(o)))[x] + multiset(sys.inbox.At(o))[Ice(c, x)]
              + LostFrom(Quiet, acts, s, c, x)
  {
    AccountedRun(Quiet, acts, s, c, x, 0, 0);
  }

  lemma {:induction false} NothingLost(sys: Sys, acts: seq<Act>, s: Side, c: CallId, x: Candidate)
    requires Lossless(acts)
    ensures LostFrom(sys, acts, s, c, x) == 0
    decreases |acts|
  {
    if acts != [] { NothingLost(Next(sys, acts[0]), acts[1..], s, c, x); }
  }

  /** With nothing lost and nothing under way, each side was given exactly what the other
    * found, once its description is set. */
  lemma AllCandidatesArrive(acts: seq<Act>, s: Side, c: CallId)
    requires Lossless(acts)
    ensures
      var sys, q := Run(Quiet, acts), Run(Quiet, acts).peers.At(Other(s));
      q.callId == Some(c) && Described(q) && (forall x: Candidate :: Ice(c, x) !in sys.inbox.At(Other(s))) ==>
        forall x :: multiset(q.pc.value.handed)[x] == FoundBy(Quiet, acts, s, c, x)
  {
    var sys, q := Run(Quiet, acts), Run(Quiet, acts).peers.At(Other(s));
    RunKeeps(Quiet, acts);
    assert SideOk(sys, Other(s));
    if q.callId == Some(c) && Described(q) && (forall x: Candidate :: Ice(c, x) !in sys.inbox.At(Other(s))) {
      assert Received(q) == q.pc.value.handed;
      forall x ensures multiset(q.pc.value.handed)[x] == FoundBy(Quiet, acts, s, c, x) {
        CandidatesCross(acts, s, c, x);
        NothingLost(Quiet, acts, s, c, x);
        assert Ice(c, x) !in sys.inbox.At(Other(s));
      }
    }
  }

  // ---- a call can be made ----

  ghost predicate OnTheLine(p: Peer, c: CallId) {
    p.status == Active && p.callId == Some(c) && Described(p)
  }

  /** Some run without a loss leads from one state to the other. */
  ghost predicate Leads(a: Sys, b: Sys) { exists acts :: LeadsBy(a, acts, b) }

  ghost predicate LeadsBy(a: Sys, acts: seq<Act>, b: Sys) { Lossless(acts) && Run(a, acts) == b }

  lemma {:induction false} RunThen(sys: Sys, acts: seq<Act>, more: seq<Act>)
    ensures Run(sys, acts + more) == Run(Run(sys, acts), more)
    decreases |acts|
  {
    if acts == [] {
      assert acts + more == more;
    } else {
      RunThen(Next(sys, acts[0]), acts[1..], more);
      assert (acts + more)[1..] == acts[1..] + more;
    }
  }

  lemma LeadsOn(a: Sys, b: Sys, act: Act)
    requires Leads(a, b) && !act.Lose?
    ensures Leads(a, Next(b, act))
  {
    var acts :| LeadsBy(a, acts, b);
    RunThen(a, acts, [act]);
    assert Run(b, [act]) == Run(Next(b, act), []);
    assert LeadsBy(a, acts + [act], Next(b, act));
  }

  /** Delivering what was sent last. */
  lemma DeliverLast(sys: Sys, s: Side, box: seq<Msg>, m: Msg)
    requires sys.inbox.At(s) == box + [m]
    ensures
      var after, o := Next(sys, Deliver(s, |box|, true)), Other(s);
      var (p', out) := OnMessage(sys.peers.At(s), m, true);
      && after.peers.At(s) == p' && after.peers.At(o) == sys.peers.At(o)
      && after.inbox.At(s) == box && after.inbox.At(o) == Post(sys.inbox.At(o), out)
  {
    DeliverPieces(sys, s, |box|, true);
    assert Remove(box + [m], |box|) == box;
  }

  /** The call is made and picked up. */
  lemma PickedUp(sys: Sys, s: Side, c: CallId) returns (after: Sys)
    requires sys.peers.At(s) == Resting && sys.peers.At(Other(s)) == Resting && c !in sys.hist.starter
    ensures Leads(sys, after)
    ensures after.peers.At(s) == Resting.(status := Calling, callId := Some(c), isCaller := true, ring := Some(c))
    ensures after.peers.At(Other(s))
         == Resting.(status := Connecting, callId := Some(c), pc := Some(Connection(c, false, [])))
    ensures after.inbox.At(Other(s)) == sys.inbox.At(Other(s)) && after.inbox.At(s) == sys.inbox.At(s) + [Accept(c)]
  {
    var o := Other(s);
    var call, pick := Local(s, Start(c, true, true)), Local(o, AcceptTap(true));
    assert LeadsBy(sys, [], sys);
    LocalPieces(sys, s, Start(c, true, true));
    LeadsOn(sys, sys, call);
    var s1 := Next(sys, call);
    DeliverLast(s1, o, sys.inbox.At(o), Invite(c));
    LeadsOn(sys, s1, Deliver(o, |sys.inbox.At(o)|, true));
    var s2 := Next(s1, Deliver(o, |sys.inbox.At(o)|, true));
    LocalPieces(s2, o, AcceptTap(true));
    LeadsOn(sys, s2, pick);
    after := Next(s2, pick);
  }

  /** Offer and answer are exchanged. */
  lemma Exchanged(sys: Sys, mid: Sys, s: Side, c: CallId, box: seq<Msg>) returns (after: Sys)
    requires Leads(sys, mid) && mid.inbox.At(s) == box + [Accept(c)]
    requires mid.peers.At(s) == Resting.(status := Calling, callId := Some(c), isCaller := true, ring := Some(c))
    requires mid.peers.At(Other(s))
          == Resting.(status := Connecting, callId := Some(c), pc := Some(Connection(c, false, [])))
    ensures Leads(sys, after)
    ensures after.peers.At(Other(s))
         == Resting.(status := Connecting, callId := Some(c), pc := Some(Connection(c, true, [])))
    ensures after.peers.At(s) == after.peers.At(Other(s)).(isCaller := true)
  {
    var o := Other(s);
    DeliverLast(mid, s, box, Accept(c));
    LeadsOn(sys, mid, Deliver(s, |box|, true));
    var s1 := Next(mid, Deliver(s, |box|, true));
    DeliverLast(s1, o, mid.inbox.At(o), OfferSdp(c));
    LeadsOn(sys, s1, Deliver(o, |mid.inbox.At(o)|, true));
    var s2 := Next(s1, Deliver(o, |mid.inbox.At(o)|, true));
    DeliverLast(s2, s, box, AnswerSdp(c));
    LeadsOn(sys, s2, Deliver(s, |box|, true));
    after := Next(s2, Deliver(s, |box|, true));
    var none: seq<Candidate> := [];
    assert none + none == none;
  }

  /** Side s calls, the other picks up: invite, accept, offer and answer lead two resting
    * peers into the same call, whatever is still under way from earlier ones. */
  lemma CallConnects(sys: Sys, s: Side, c: CallId) returns (after: Sys)
    requires sys.peers.At(s) == Resting && sys.peers.At(Other(s)) == Resting && c !in sys.hist.starter
    ensures Leads(sys, after)
    ensures OnTheLine(after.peers.At(s), c) && after.peers.At(s).isCaller && OnTheLine(after.peers.At(Other(s)), c)
  {
    var o := Other(s);
    var mid := PickedUp(sys, s, c);
    var met := Exchanged(sys, mid, s, c, sys.inbox.At(s));
    LocalPieces(met, s, Connected);
    LeadsOn(sys, met, Local(s, Connected));
    var up := Next(met, Local(s, Connected));
    LocalPieces(up, o, Connected);
    LeadsOn(sys, up, Local(o, Connected));
    after := Next(up, Local(o, Connected));
  }
}
