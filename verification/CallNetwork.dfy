/** Two peers of one ACTIVE engagement and the relay between them (calls.gateway.ts).
  * Each peer has an inbox; the network may deliver any message of an inbox next, or
  * lose it, but does not repeat it. Call ids are fresh. `Hist` only records the past:
  * who started which call, who has ever been in it, and which calls both peers were in
  * at the same time. */
module CallNetwork {
  import opened Options
  import opened CallPeer

  datatype Side = Left | Right

  function Other(s: Side): Side {
    if s == Left then Right else Left
  }

  datatype Pair<T> = Pair(left: T, right: T) {
    function At(s: Side): T { if s == Left then left else right }
    function With(s: Side, v: T): Pair<T> { if s == Left then Pair(v, right) else Pair(left, v) }
  }

  datatype Hist = Hist(starter: map<CallId, Side>, joined: Pair<set<CallId>>, met: set<CallId>, lastMet: Option<CallId>)

  datatype Sys = Sys(peers: Pair<Peer>, inbox: Pair<seq<Msg>>, hist: Hist)

  const Quiet: Sys := Sys(Pair(Resting, Resting), Pair([], []), Hist(map[], Pair({}, {}), {}, None))

  datatype Act =
    | Local(side: Side, event: Event)
    | Deliver(side: Side, index: nat, micOk: bool)
    | Lose(side: Side, index: nat)

  function Remove(box: seq<Msg>, i: nat): seq<Msg>
    requires i < |box|
  {
    box[..i] + box[i + 1..]
  }

  function Post(box: seq<Msg>, out: Option<Msg>): seq<Msg> {
    if out.Some? then box + [out.value] else box
  }

  function Record(h: Hist, s: Side, c: Option<CallId>, other: Option<CallId>): Hist {
    if c.None? then h
    else
      var h' := h.(joined := h.joined.With(s, h.joined.At(s) + {c.value}),
                   starter := if c.value in h.starter then h.starter else h.starter[c.value := s]);
      if other == c then h'.(met := h.met + {c.value}, lastMet := c) else h'
  }

  /** Peer s has moved to p, its inbox to box, and what it sent goes to the other inbox. */
  function After(sys: Sys, s: Side, box: seq<Msg>, p: Peer, out: Option<Msg>): Sys {
    var o := Other(s);
    Sys(sys.peers.With(s, p),
        sys.inbox.With(s, box).With(o, Post(sys.inbox.At(o), out)),
        Record(sys.hist, s, p.callId, sys.peers.At(o).callId))
  }

  predicate Enabled(sys: Sys, act: Act) {
    match act
    case Local(s, ev) => !ev.Receive? && (ev.Start? ==> ev.call !in sys.hist.starter)
    case Deliver(s, i, _) => i < |sys.inbox.At(s)|
    case Lose(s, i) => i < |sys.inbox.At(s)|
  }

  function Next(sys: Sys, act: Act): Sys {
    if !Enabled(sys, act) then sys else
    match act
    case Local(s, ev) =>
      var (p, out) := Handle(sys.peers.At(s), ev);
      After(sys, s, sys.inbox.At(s), p, out)
    case Deliver(s, i, micOk) =>
      var (p, out) := OnMessage(sys.peers.At(s), sys.inbox.At(s)[i], micOk);
      After(sys, s, Remove(sys.inbox.At(s), i), p, out)
    case Lose(s, i) => sys.(inbox := sys.inbox.With(s, Remove(sys.inbox.At(s), i)))
  }

  ghost function Run(sys: Sys, acts: seq<Act>): Sys
    decreases |acts|
  {
    if acts == [] then sys else Run(Next(sys, acts[0]), acts[1..])
  }

  // ---- the invariant, one side at a time ----

  /** A message in the inbox of s was sent by the other side, for a reason. */
  ghost predicate MsgOk(h: Hist, s: Side, m: Msg) {
    && m.call in h.starter
    && match m
       case Invite(c) => h.starter[c] == Other(s) && c !in h.joined.At(s)
       case Accept(c) => h.starter[c] == s && c in h.joined.At(Other(s))
       case OfferSdp(c) => h.starter[c] == Other(s) && c in h.met
       case AnswerSdp(c) => h.starter[c] == s && c in h.met
       case _ => true
  }

  ghost predicate InboxOk(h: Hist, s: Side, box: seq<Msg>) {
    && (forall m :: m in box ==> MsgOk(h, s, m))
    && (forall c :: multiset(box)[Invite(c)] <= 1)
  }

  ghost predicate HistOk(h: Hist) {
    && h.joined.left <= h.starter.Keys && h.joined.right <= h.starter.Keys
    && h.met <= h.joined.left && h.met <= h.joined.right
  }

  /** How one peer's current call relates to the past. */
  ghost predicate PeerOk(h: Hist, s: Side, p: Peer) {
    PeerInv(p) &&
    (p.callId.Some? ==>
      var c := p.callId.value;
      && c in h.joined.At(s) && c in h.starter
      && (p.isCaller <==> h.starter[c] == s)
      && (c in h.met ==> h.lastMet == Some(c))
      && (h.starter[c] == s && c in h.joined.At(Other(s)) ==> c in h.met)
      && (p.pc.Some? && (p.isCaller || p.pc.value.remote) ==> c in h.met))
  }

  ghost predicate SideOk(sys: Sys, s: Side) {
    PeerOk(sys.hist, s, sys.peers.At(s)) && InboxOk(sys.hist, s, sys.inbox.At(s))
  }

  ghost predicate SysInv(sys: Sys) {
    HistOk(sys.hist) && SideOk(sys, Left) && SideOk(sys, Right)
  }

  // ---- what a move of one peer must respect ----

  /** The call a peer is in after a step: the same, none, a fresh one it starts, or one
    * the other side started and it has never been in. */
  ghost predicate CallMove(h: Hist, s: Side, p: Peer, p': Peer) {
    || (p'.callId == p.callId && p'.isCaller == p.isCaller)
    || p'.callId.None?
    || (p.callId.None? && p'.callId.Some? && p'.isCaller && p'.pc.None? && p'.callId.value !in h.starter)
    || (p.callId.None? && p'.callId.Some? && !p'.isCaller && p'.pc.None?
        && p'.callId.value in h.starter && h.starter[p'.callId.value] == Other(s) && p'.callId.value !in h.joined.At(s))
  }

  ghost predicate Move(h: Hist, s: Side, p: Peer, p': Peer, out: Option<Msg>) {
    && PeerInv(p') && CallMove(h, s, p, p')
    && (p'.callId.Some? && p'.callId == p.callId && p'.pc.Some? && (p'.isCaller || p'.pc.value.remote)
        ==> p'.callId.value in h.met)
    && (out.Some? && out.value.Invite? ==>
          p.callId.None? && p'.callId == Some(out.value.call) && p'.isCaller && out.value.call !in h.starter)
    && (out.Some? && !out.value.Invite? ==> MsgOk(h, Other(s), out.value))
  }

  lemma MsgStays(h: Hist, s: Side, c: Option<CallId>, other: Option<CallId>, to: Side, m: Msg)
    requires MsgOk(h, to, m)
    requires m.Invite? && to == s ==> c != Some(m.call)
    ensures MsgOk(Record(h, s, c, other), to, m)
  {
  }

  lemma RecordHistOk(h: Hist, s: Side, c: Option<CallId>, other: Option<CallId>)
    requires HistOk(h)
    requires other.Some? ==> other.value in h.joined.At(Other(s))
    ensures HistOk(Record(h, s, c, other))
  {
  }

  /** The other peer, which did not move. */
  lemma OtherPeerOk(h: Hist, s: Side, p: Peer, p': Peer, q: Peer, out: Option<Msg>)
    requires HistOk(h) && PeerOk(h, s, p) && PeerOk(h, Other(s), q) && Move(h, s, p, p', out)
    ensures PeerOk(Record(h, s, p'.callId, q.callId), Other(s), q)
  {
  }

  lemma MovedPeerOk(h: Hist, s: Side, p: Peer, p': Peer, q: Peer, out: Option<Msg>)
    requires HistOk(h) && PeerOk(h, s, p) && PeerOk(h, Other(s), q) && Move(h, s, p, p', out)
    ensures PeerOk(Record(h, s, p'.callId, q.callId), s, p')
  {
  }

  lemma RemoveCounts(box: seq<Msg>, i: nat)
    requires i < |box|
    ensures multiset(Remove(box, i)) == multiset(box) - multiset{box[i]}
    ensures forall m :: m in Remove(box, i) ==> m in box
  {
    assert box == box[..i] + [box[i]] + box[i + 1..];
  }

  lemma RemovedInviteGone(box: seq<Msg>, i: nat)
    requires i < |box| && box[i].Invite? && multiset(box)[box[i]] <= 1
    ensures box[i] !in Remove(box, i)
  {
    RemoveCounts(box, i);
    assert multiset(Remove(box, i))[box[i]] == 0;
  }

  /** The inbox of the side that moved: no invite left in it is for the call it joined. */
  lemma MovedInboxOk(h: Hist, s: Side, box: seq<Msg>, c: Option<CallId>, other: Option<CallId>)
    requires InboxOk(h, s, box)
    requires c.Some? ==> Invite(c.value) !in box
    ensures InboxOk(Record(h, s, c, other), s, box)
  {
    forall m | m in box ensures MsgOk(Record(h, s, c, other), s, m) {
      MsgStays(h, s, c, other, s, m);
    }
  }

  lemma PostedInboxOk(h: Hist, s: Side, p: Peer, p': Peer, other: Option<CallId>, box: seq<Msg>, out: Option<Msg>)
    requires HistOk(h) && PeerInv(p) && InboxOk(h, Other(s), box) && Move(h, s, p, p', out)
    ensures InboxOk(Record(h, s, p'.callId, other), Other(s), Post(box, out))
  {
    var h' := Record(h, s, p'.callId, other);
    forall m | m in Post(box, out) ensures MsgOk(h', Other(s), m) {
      if m in box {
        MsgStays(h, s, p'.callId, other, Other(s), m);
      } else if !m.Invite? {
        MsgStays(h, s, p'.callId, other, Other(s), m);
      }
    }
    forall c ensures multiset(Post(box, out))[Invite(c)] <= 1 {
      if out == Some(Invite(c)) {
        assert Invite(c) !in box;
        assert multiset(box)[Invite(c)] == 0;
      }
    }
  }

  lemma AfterKeeps(sys: Sys, s: Side, box: seq<Msg>, p': Peer, out: Option<Msg>)
    requires SysInv(sys) && InboxOk(sys.hist, s, box)
    requires Move(sys.hist, s, sys.peers.At(s), p', out)
    requires p'.callId.Some? ==> Invite(p'.callId.value) !in box
    ensures SysInv(After(sys, s, box, p', out))
  {
    var o := Other(s);
    var p, q := sys.peers.At(s), sys.peers.At(o);
    assert SideOk(sys, s) && SideOk(sys, o);
    RecordHistOk(sys.hist, s, p'.callId, q.callId);
    OtherPeerOk(sys.hist, s, p, p', q, out);
    MovedPeerOk(sys.hist, s, p, p', q, out);
    MovedInboxOk(sys.hist, s, box, p'.callId, q.callId);
    PostedInboxOk(sys.hist, s, p, p', q.callId, sys.inbox.At(o), out);
    var sys' := After(sys, s, box, p', out);
    assert SideOk(sys', s) && SideOk(sys', o);
  }

  // ---- every step is such a move ----

  lemma LocalMove(sys: Sys, s: Side, ev: Event)
    requires SysInv(sys) && Enabled(sys, Local(s, ev))
    ensures var (p', out) := Handle(sys.peers.At(s), ev);
            && Move(sys.hist, s, sys.peers.At(s), p', out)
            && (p'.callId.Some? ==> Invite(p'.callId.value) !in sys.inbox.At(s))
  {
    assert SideOk(sys, s);
    var p := sys.peers.At(s);
    HandleKeeps(p, ev);
    var p' := Handle(p, ev).0;
    assert p'.callId.Some? && Invite(p'.callId.value) in sys.inbox.At(s) ==>
             MsgOk(sys.hist, s, Invite(p'.callId.value));
  }

  lemma MessageMove(h: Hist, s: Side, p: Peer, m: Msg, micOk: bool)
    requires PeerOk(h, s, p) && MsgOk(h, s, m)
    ensures var (p', out) := OnMessage(p, m, micOk); Move(h, s, p, p', out)
    ensures OnMessage(p, m, micOk).0.callId != p.callId && OnMessage(p, m, micOk).0.callId.Some? ==> m.Invite?
  {
    MessageKeeps(p, m, micOk);
  }

  lemma DeliverMove(sys: Sys, s: Side, i: nat, micOk: bool)
    requires SysInv(sys) && i < |sys.inbox.At(s)|
    ensures var (p', out) := OnMessage(sys.peers.At(s), sys.inbox.At(s)[i], micOk);
            && Move(sys.hist, s, sys.peers.At(s), p', out)
            && (p'.callId.Some? ==> Invite(p'.callId.value) !in Remove(sys.inbox.At(s), i))
  {
    assert SideOk(sys, s);
    var p, m := sys.peers.At(s), sys.inbox.At(s)[i];
    assert m in sys.inbox.At(s);
    MessageMove(sys.hist, s, p, m, micOk);
    RemoveCounts(sys.inbox.At(s), i);
    var (p', out) := OnMessage(p, m, micOk);
    if p'.callId.Some? && Invite(p'.callId.value) in Remove(sys.inbox.At(s), i) {
      assert MsgOk(sys.hist, s, Invite(p'.callId.value));
      assert m == Invite(p'.callId.value);
      RemovedInviteGone(sys.inbox.At(s), i);
    }
  }

  lemma RemovedInboxOk(h: Hist, s: Side, box: seq<Msg>, i: nat)
    requires InboxOk(h, s, box) && i < |box|
    ensures InboxOk(h, s, Remove(box, i))
  {
    RemoveCounts(box, i);
  }

  lemma NextKeeps(sys: Sys, act: Act)
    requires SysInv(sys)
    ensures SysInv(Next(sys, act))
  {
    if Enabled(sys, act) {
      match act
      case Local(s, ev) =>
        LocalMove(sys, s, ev);
        var (p', out) := Handle(sys.peers.At(s), ev);
        assert SideOk(sys, s);
        AfterKeeps(sys, s, sys.inbox.At(s), p', out);
      case Deliver(s, i, micOk) =>
        DeliverMove(sys, s, i, micOk);
        var (p', out) := OnMessage(sys.peers.At(s), sys.inbox.At(s)[i], micOk);
        assert SideOk(sys, s);
        RemovedInboxOk(sys.hist, s, sys.inbox.At(s), i);
        AfterKeeps(sys, s, Remove(sys.inbox.At(s), i), p', out);
      case Lose(s, i) =>
        assert SideOk(sys, s);
        RemovedInboxOk(sys.hist, s, sys.inbox.At(s), i);
    }
  }

  lemma {:induction false} RunKeeps(sys: Sys, acts: seq<Act>)
    requires SysInv(sys)
    ensures SysInv(Run(sys, acts))
    decreases |acts|
  {
    if acts != [] {
      NextKeeps(sys, acts[0]);
      RunKeeps(Next(sys, acts[0]), acts[1..]);
    }
  }

  ghost predicate Described(p: Peer) {
    p.pc.Some? && p.pc.value.remote
  }

  /** Call agreement: whatever is lost or reordered, through any calls, crossing invites,
    * hang-ups and silent failures, two peers that both hold a connection with a remote
    * description hold it for the same call, and exactly one of them is its caller. */
  lemma CallAgreement(acts: seq<Act>)
    ensures
      var peers := Run(Quiet, acts).peers;
      Described(peers.left) && Described(peers.right) ==>
        && peers.left.callId == peers.right.callId && peers.left.callId.Some?
        && peers.left.isCaller != peers.right.isCaller
  {
    RunKeeps(Quiet, acts);
  }

  /** A call both peers are in has exactly one caller. */
  lemma SharedCallHasOneCaller(acts: seq<Act>)
    ensures
      var peers := Run(Quiet, acts).peers;
      peers.left.callId.Some? && peers.left.callId == peers.right.callId ==>
        peers.left.isCaller != peers.right.isCaller
  {
    RunKeeps(Quiet, acts);
  }

  /** Single offerer: an offer under way to a peer is for a call the other peer started,
    * so the offers and ICE-restart offers of one call never cross. */
  lemma SingleOfferer(acts: seq<Act>, s: Side, c: CallId)
    ensures
      var sys := Run(Quiet, acts);
      OfferSdp(c) in sys.inbox.At(s) ==>
        c in sys.hist.starter && sys.hist.starter[c] == Other(s) && OfferSdp(c) !in sys.inbox.At(Other(s))
  {
    RunKeeps(Quiet, acts);
    var sys := Run(Quiet, acts);
    assert SideOk(sys, s) && SideOk(sys, Other(s));
    if OfferSdp(c) in sys.inbox.At(s) {
      assert MsgOk(sys.hist, s, OfferSdp(c));
      assert OfferSdp(c) in sys.inbox.At(Other(s)) ==> MsgOk(sys.hist, Other(s), OfferSdp(c));
    }
  }
}
