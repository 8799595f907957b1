/** ICE candidates of one peer at the level of awaits. The offer and answer listeners
  * suspend while the remote description is being set and once per drained candidate;
  * candidates keep arriving meanwhile, and a hang-up or a new call may come in between.
  *
  * Two facts of the browser are built in. What follows `await setRemoteDescription`
  * runs before the next event, so setting the description and swapping the queue out is
  * one step; and on a closed connection that await never returns. */
module IceDrain {
  import opened Options

  type CallId = nat
  datatype Candidate = Candidate(call: CallId, n: nat)

  datatype Conn = Conn(call: CallId, closed: bool, remote: bool, handed: multiset<Candidate>)

  /** An offer or answer listener in flight, with the connection it closed over. */
  datatype Task =
    | SettingRemote(conn: nat)
    | Draining(conn: nat, todo: seq<Candidate>)

  /** received: what has arrived for the live call; the rest is the component's refs. */
  datatype Peer = Peer(callId: Option<CallId>, pc: Option<nat>, pending: seq<Candidate>,
                       conns: seq<Conn>, tasks: seq<Task>, received: multiset<Candidate>)

  const Resting: Peer := Peer(None, None, [], [], [], multiset{})

  datatype Event =
    | Join(call: CallId)
    | CreatePeer
    | Describe(call: CallId)     // call:offer or call:answer arrives
    | RemoteSet(task: nat)       // its await returns
    | HandNext(task: nat)        // the drain loop goes round once
    | Arrive(candidate: Candidate)
    | Cleanup

  function Give(c: Conn, x: Candidate): Conn {
    if c.closed then c else c.(handed := c.handed + multiset{x})
  }

  function Step(p: Peer, ev: Event): Peer {
    match ev
    case Join(c) => if p.callId.Some? then p else p.(callId := Some(c), received := multiset{})
    case CreatePeer =>
      if p.callId.None? || p.pc.Some? then p
      else p.(pc := Some(|p.conns|), conns := p.conns + [Conn(p.callId.value, false, false, multiset{})])
    case Describe(c) =>
      if p.callId != Some(c) || p.pc.None? then p else p.(tasks := p.tasks + [SettingRemote(p.pc.value)])
    case RemoteSet(k) =>
      if k < |p.tasks| && p.tasks[k].SettingRemote? && p.tasks[k].conn < |p.conns|
         && !p.conns[p.tasks[k].conn].closed then
        var conn := p.tasks[k].conn;
        p.(conns := p.conns[conn := p.conns[conn].(remote := true)],
           tasks := p.tasks[k := Draining(conn, p.pending)],
           pending := [])
      else p
    case HandNext(k) =>
      if k < |p.tasks| && p.tasks[k].Draining? && p.tasks[k].todo != [] && p.tasks[k].conn < |p.conns| then
        var conn, todo := p.tasks[k].conn, p.tasks[k].todo;
        p.(conns := p.conns[conn := Give(p.conns[conn], todo[0])], tasks := p.tasks[k := Draining(conn, todo[1..])])
      else p
    case Arrive(x) =>
      if p.callId != Some(x.call) then p
      else
        var p' := p.(received := p.received + multiset{x});
        if p.pc.Some? && p.pc.value < |p.conns| && p.conns[p.pc.value].remote
        then p'.(conns := p.conns[p.pc.value := Give(p.conns[p.pc.value], x)])
        else p'.(pending := p.pending + [x])
    case Cleanup =>
      p.(callId := None, pc := None, pending := [], received := multiset{},
         conns := if p.pc.Some? && p.pc.value < |p.conns|
                  then p.conns[p.pc.value := p.conns[p.pc.value].(closed := true)] else p.conns)
  }

  // ---- what the events bring about ----

  /** A resting peer that joins a call and makes its connection is in that call, with an
    * empty connection of it and nothing received. */
  lemma JoinsAndConnects(p: Peer, c: CallId)
    requires p.callId.None? && p.pc.None?
    ensures
      var after := Step(Step(p, Join(c)), CreatePeer);
      && after.callId == Some(c) && after.pc == Some(|p.conns|) && after.received == multiset{}
      && after.conns == p.conns + [Conn(c, false, false, multiset{})] && after.tasks == p.tasks
  {
  }

  /** A candidate of the live call is received, once; any other leaves no trace. */
  lemma ArrivesOnce(p: Peer, x: Candidate)
    ensures
      var after := Step(p, Arrive(x));
      && after.received == p.received + (if p.callId == Some(x.call) then multiset{x} else multiset{})
      && (p.callId != Some(x.call) ==> after == p)
      && after.callId == p.callId && after.pc == p.pc && after.tasks == p.tasks && |after.conns| == |p.conns|
  {
  }

  /** Hanging up leaves no call, candidate or usable connection; every other connection is
    * as it was, and what was handed over stays handed over. */
  lemma HangUpClears(p: Peer)
    requires p.pc.Some? ==> p.pc.value < |p.conns|
    ensures
      var after := Step(p, Cleanup);
      && after.callId.None? && after.pc.None? && after.pending == [] && after.received == multiset{}
      && after.tasks == p.tasks && |after.conns| == |p.conns|
      && (forall i :: 0 <= i < |p.conns| ==>
            after.conns[i] == if p.pc == Some(i) then p.conns[i].(closed := true) else p.conns[i])
  {
  }

  // ---- conservation ----

  /** How many times x sits in drain loops of one connection. */
  ghost function Held(t: Task, conn: nat, x: Candidate): nat {
    if t.Draining? && t.conn == conn then multiset(t.todo)[x] else 0
  }

  ghost function InDrain(ts: seq<Task>, conn: nat, x: Candidate): nat {
    if ts == [] then 0 else InDrain(ts[..|ts| - 1], conn, x) + Held(ts[|ts| - 1], conn, x)
  }

  lemma {:induction false} InDrainUpdate(ts: seq<Task>, k: nat, t: Task, conn: nat, x: Candidate)
    requires k < |ts|
    ensures InDrain(ts[k := t], conn, x) + Held(ts[k], conn, x) == InDrain(ts, conn, x) + Held(t, conn, x)
  {
    var n := |ts| - 1;
    if k == n {
      assert ts[k := t][..n] == ts[..n];
    } else {
      assert ts[k := t][..n] == ts[..n][k := t];
      InDrainUpdate(ts[..n], k, t, conn, x);
    }
  }

  lemma InDrainAppend(ts: seq<Task>, t: Task, conn: nat, x: Candidate)
    ensures InDrain(ts + [t], conn, x) == InDrain(ts, conn, x) + Held(t, conn, x)
  {
    assert (ts + [t])[..|ts|] == ts;
  }

  lemma {:induction false} InDrainUnknown(ts: seq<Task>, conn: nat, x: Candidate)
    requires forall i :: 0 <= i < |ts| ==> ts[i].conn != conn
    ensures InDrain(ts, conn, x) == 0
  {
    if ts != [] { InDrainUnknown(ts[..|ts| - 1], conn, x); }
  }

  /** Refs, connections and listeners fit together. */
  ghost predicate Shape(p: Peer) {
    && (p.pc.Some? ==> p.pc.value < |p.conns| && p.callId == Some(p.conns[p.pc.value].call))
    && (forall i :: 0 <= i < |p.conns| ==> (!p.conns[i].closed <==> p.pc == Some(i)))
    && (forall k :: 0 <= k < |p.tasks| ==>
          p.tasks[k].conn < |p.conns| && (p.tasks[k].Draining? ==> p.conns[p.tasks[k].conn].remote))
    && (p.callId.None? ==> p.pending == [] && p.received == multiset{})
    && (p.pc.Some? && p.conns[p.pc.value].remote ==> p.pending == [])
    && (forall i :: 0 <= i < |p.conns| && !p.conns[i].remote ==> p.conns[i].handed == multiset{})
  }

  /** Every candidate is where a candidate of its call may be. */
  ghost predicate OwnCall(p: Peer) {
    && (forall x :: x in p.pending ==> p.callId == Some(x.call))
    && (forall i, x :: 0 <= i < |p.conns| && x in p.conns[i].handed ==> x.call == p.conns[i].call)
    && (forall k, x :: 0 <= k < |p.tasks| && p.tasks[k].Draining? && x in p.tasks[k].todo
          ==> p.tasks[k].conn < |p.conns| && x.call == p.conns[p.tasks[k].conn].call)
  }

  /** received = handed + draining + pending, for candidate x of the live call. */
  ghost predicate Balanced(p: Peer, x: Candidate) {
    p.received[x] == multiset(p.pending)[x]
      + if p.pc.Some? && p.pc.value < |p.conns|
        then p.conns[p.pc.value].handed[x] + InDrain(p.tasks, p.pc.value, x) else 0
  }

  ghost predicate Inv(p: Peer) {
    Shape(p) && OwnCall(p) && forall x :: Balanced(p, x)
  }

  lemma RemoteSetShape(p: Peer, k: nat)
    requires Shape(p)
    ensures Shape(Step(p, RemoteSet(k)))
  {
  }

  lemma HandNextShape(p: Peer, k: nat)
    requires Shape(p)
    ensures Shape(Step(p, HandNext(k)))
  {
  }

  lemma ArriveShape(p: Peer, x: Candidate)
    requires Shape(p)
    ensures Shape(Step(p, Arrive(x)))
  {
  }

  lemma CleanupShape(p: Peer)
    requires Shape(p)
    ensures Shape(Step(p, Cleanup))
  {
  }

  /** Events of the component's own making. */
  lemma OwnEventShape(p: Peer, ev: Event)
    requires Shape(p) && (ev.Join? || ev.CreatePeer? || ev.Describe?)
    ensures Shape(Step(p, ev))
  {
  }

  lemma StepShape(p: Peer, ev: Event)
    requires Shape(p)
    ensures Shape(Step(p, ev))
  {
    match ev
    case RemoteSet(k) => RemoteSetShape(p, k);
    case HandNext(k) => HandNextShape(p, k);
    case Arrive(x) => ArriveShape(p, x);
    case Cleanup => CleanupShape(p);
    case _ => OwnEventShape(p, ev);
  }

  lemma HandNextOwnCall(p: Peer, k: nat)
    requires Shape(p) && OwnCall(p)
    ensures OwnCall(Step(p, HandNext(k)))
  {
    if k < |p.tasks| && p.tasks[k].Draining? && p.tasks[k].todo != [] {
      assert p.tasks[k].todo[0] in p.tasks[k].todo;
      assert forall x :: x in p.tasks[k].todo[1..] ==> x in p.tasks[k].todo;
    }
  }

  lemma RemoteSetOwnCall(p: Peer, k: nat)
    requires Shape(p) && OwnCall(p)
    ensures OwnCall(Step(p, RemoteSet(k)))
  {
  }

  lemma ArriveOwnCall(p: Peer, x: Candidate)
    requires Shape(p) && OwnCall(p)
    ensures OwnCall(Step(p, Arrive(x)))
  {
  }

  lemma CleanupOwnCall(p: Peer)
    requires Shape(p) && OwnCall(p)
    ensures OwnCall(Step(p, Cleanup))
  {
  }

  /** Events of the component's own making. */
  lemma OwnEventOwnCall(p: Peer, ev: Event)
    requires Shape(p) && OwnCall(p) && (ev.Join? || ev.CreatePeer? || ev.Describe?)
    ensures OwnCall(Step(p, ev))
  {
  }

  lemma StepOwnCall(p: Peer, ev: Event)
    requires Shape(p) && OwnCall(p)
    ensures OwnCall(Step(p, ev))
  {
    match ev
    case RemoteSet(k) => RemoteSetOwnCall(p, k);
    case HandNext(k) => HandNextOwnCall(p, k);
    case Arrive(x) => ArriveOwnCall(p, x);
    case Cleanup => CleanupOwnCall(p);
    case _ => OwnEventOwnCall(p, ev);
  }

  lemma RemoteSetBalanced(p: Peer, k: nat, x: Candidate)
    requires Shape(p) && Balanced(p, x)
    ensures Balanced(Step(p, RemoteSet(k)), x)
  {
    if k < |p.tasks| && p.tasks[k].SettingRemote? && !p.conns[p.tasks[k].conn].closed {
      InDrainUpdate(p.tasks, k, Draining(p.tasks[k].conn, p.pending), p.pc.value, x);
    }
  }

  lemma HandNextBalanced(p: Peer, k: nat, x: Candidate)
    requires Shape(p) && Balanced(p, x)
    ensures Balanced(Step(p, HandNext(k)), x)
  {
    if k < |p.tasks| && p.tasks[k].Draining? && p.tasks[k].todo != [] && p.pc.Some? {
      var todo := p.tasks[k].todo;
      assert todo == [todo[0]] + todo[1..];
      InDrainUpdate(p.tasks, k, Draining(p.tasks[k].conn, todo[1..]), p.pc.value, x);
    }
  }

  lemma StepBalanced(p: Peer, ev: Event, x: Candidate)
    requires Shape(p) && Balanced(p, x)
    ensures Balanced(Step(p, ev), x)
  {
    match ev
    case CreatePeer =>
      if p.callId.Some? && p.pc.None? { InDrainUnknown(p.tasks, |p.conns|, x); }
    case Describe(c) =>
      if p.callId == Some(c) && p.pc.Some? { InDrainAppend(p.tasks, SettingRemote(p.pc.value), p.pc.value, x); }
    case RemoteSet(k) => RemoteSetBalanced(p, k, x);
    case HandNext(k) => HandNextBalanced(p, k, x);
    case _ =>
  }

  ghost function Run(p: Peer, evs: seq<Event>): Peer
    decreases |evs|
  {
    if evs == [] then p else Run(Step(p, evs[0]), evs[1..])
  }

  lemma {:induction false} RunInv(p: Peer, evs: seq<Event>)
    requires Inv(p)
    ensures Inv(Run(p, evs))
    decreases |evs|
  {
    if evs != [] {
      StepShape(p, evs[0]);
      StepOwnCall(p, evs[0]);
      forall x ensures Balanced(Step(p, evs[0]), x) { StepBalanced(p, evs[0], x); }
      RunInv(Step(p, evs[0]), evs[1..]);
    }
  }

  /** Candidates are conserved in every interleaving. For the live call: received =
    * handed + draining + pending, nothing is handed before the remote description is
    * set, and once it is set nothing waits in the queue. And no candidate, now or of an
    * earlier call, was ever handed to the connection of another call. */
  lemma CandidatesConserved(evs: seq<Event>)
    ensures
      var p := Run(Resting, evs);
      && (p.pc.None? ==> forall x :: p.received[x] == multiset(p.pending)[x])
      && (p.pc.Some? ==>
            && p.pc.value < |p.conns|
            && (forall x :: p.received[x]
                  == p.conns[p.pc.value].handed[x] + InDrain(p.tasks, p.pc.value, x) + multiset(p.pending)[x])
            && (if p.conns[p.pc.value].remote then p.pending == [] else p.conns[p.pc.value].handed == multiset{}))
      && (forall i, x :: 0 <= i < |p.conns| && x in p.conns[i].handed ==> x.call == p.conns[i].call)
  {
    RunInv(Resting, evs);
    var p := Run(Resting, evs);
    if p.pc.None? {
      forall x ensures p.received[x] == multiset(p.pending)[x] { assert Balanced(p, x); }
    } else {
      forall x ensures p.received[x]
        == p.conns[p.pc.value].handed[x] + InDrain(p.tasks, p.pc.value, x) + multiset(p.pending)[x] {
        assert Balanced(p, x);
      }
    }
  }

  ghost function HandAll(p: Peer, task: nat, times: nat): Peer
    decreases times
  {
    if times == 0 then p else HandAll(Step(p, HandNext(task)), task, times - 1)
  }

  lemma {:induction false} HandAllHands(p: Peer, k: nat, conn: nat)
    requires k < |p.tasks| && p.tasks[k].Draining? && p.tasks[k].conn == conn
    requires conn < |p.conns| && !p.conns[conn].closed
    ensures
      var todo, after := p.tasks[k].todo, HandAll(p, k, |p.tasks[k].todo|);
      && after.(conns := p.conns, tasks := p.tasks) == p && |after.conns| == |p.conns|
      && after.conns[conn] == p.conns[conn].(handed := p.conns[conn].handed + multiset(todo))
    decreases |p.tasks[k].todo|
  {
    var todo := p.tasks[k].todo;
    if todo == [] {
      assert p.conns[conn].handed + multiset(todo) == p.conns[conn].handed;
    } else {
      HandAllHands(Step(p, HandNext(k)), k, conn);
      assert todo == [todo[0]] + todo[1..];
      assert multiset(todo) == multiset{todo[0]} + multiset(todo[1..]);
    }
  }

  /** The drain does its work: a description for the live call, left to itself, ends with
    * everything received in the hands of the connection. */
  lemma DescribedThenDrained(evs: seq<Event>, c: CallId)
    requires var p := Run(Resting, evs);
             p.callId == Some(c) && p.pc.Some? && p.pc.value < |p.conns| && !p.conns[p.pc.value].remote
    ensures
      var p := Run(Resting, evs);
      var set' := Step(Step(p, Describe(c)), RemoteSet(|p.tasks|));
      var after := HandAll(set', |p.tasks|, |p.pending|);
      && after.pc == p.pc && |after.conns| == |p.conns| && after.conns[p.pc.value].remote
      && after.conns[p.pc.value].handed == p.received == after.received && after.pending == []
  {
    RunInv(Resting, evs);
    var p := Run(Resting, evs);
    var i := p.pc.value;
    var set' := Step(Step(p, Describe(c)), RemoteSet(|p.tasks|));
    HandAllHands(set', |p.tasks|, i);
    forall x ensures p.received[x] == multiset(p.pending)[x] {
      assert Balanced(p, x);
      NotDrained(p.tasks, p.conns, i, x);
    }
  }

  /** No drain runs on a connection without a description. */
  lemma {:induction false} NotDrained(ts: seq<Task>, conns: seq<Conn>, conn: nat, x: Candidate)
    requires conn < |conns| && !conns[conn].remote
    requires forall k :: 0 <= k < |ts| ==> ts[k].conn < |conns| && (ts[k].Draining? ==> conns[ts[k].conn].remote)
    ensures InDrain(ts, conn, x) == 0
  {
    if ts != [] { NotDrained(ts[..|ts| - 1], conns, conn, x); }
  }

  /** Once the description is set and the drains have run out, every candidate received
    * has been handed over exactly once. */
  lemma AllHandedOver(evs: seq<Event>)
    requires Run(Resting, evs).pc.Some? && Run(Resting, evs).pc.value < |Run(Resting, evs).conns|
    requires Run(Resting, evs).conns[Run(Resting, evs).pc.value].remote
    requires forall k :: 0 <= k < |Run(Resting, evs).tasks| ==>
               Run(Resting, evs).tasks[k].Draining? ==> Run(Resting, evs).tasks[k].todo == []
    ensures Run(Resting, evs).conns[Run(Resting, evs).pc.value].handed == Run(Resting, evs).received
  {
    RunInv(Resting, evs);
    var p := Run(Resting, evs);
    forall x ensures p.conns[p.pc.value].handed[x] == p.received[x] {
      assert Balanced(p, x);
      NothingHeld(p.tasks, p.pc.value, x);
    }
  }

  lemma {:induction false} NothingHeld(ts: seq<Task>, conn: nat, x: Candidate)
    requires forall k :: 0 <= k < |ts| ==> ts[k].Draining? ==> ts[k].todo == []
    ensures InDrain(ts, conn, x) == 0
  {
    if ts != [] { NothingHeld(ts[..|ts| - 1], conn, x); }
  }
}
