/** Rotation at the level of awaits: `rotate` reads the session, loads the user and only
  * then writes, so a logout in between is undone. The other calls stay whole. */
module SessionRaces {
  import opened Options
  import opened Sessions

  datatype Call =
    | Finished(answer: Answer)
    | RotateGet(p: Presented)     // verify, GET, compare
    | RotateDel(key: Key, answer: Answer)  // reuse, or no such user
    | RotateUser(token: Token)    // findById
    | RotateSet(token: Token)     // sign anew, SET

  datatype Sys = Sys(server: Server, calls: map<nat, Call>)
  datatype Act = Start(k: nat, p: Presented) | Step(k: nat) | Other(op: Op)

  function StepCall(s: Server, c: Call): (Server, Call) {
    match c
    case RotateGet(p) =>
      (s, if !Verifies(s, p) then Finished(InvalidToken)
          else if !Live(s, KeyOf(p.token)) then Finished(SessionExpired)
          else if s.sessions[KeyOf(p.token)].token != p.token then RotateDel(KeyOf(p.token), ReuseDetected)
          else RotateUser(p.token))
    case RotateDel(key, answer) => (Drop(s, {key}), Finished(answer))
    case RotateUser(t) => (s, if t.sub in s.users then RotateSet(t) else RotateDel(KeyOf(t), UserGone))
    case RotateSet(t) =>
      var rotated := Token(t.sub, t.sid, Second(s.now));
      (Persist(s, rotated), Finished(Issued(rotated)))
    case Finished(_) => (s, c)
  }

  /** The other calls are atomic; rotations run in steps. */
  function Perform(s: Sys, act: Act): Sys {
    match act
    case Start(k, p) => if k in s.calls then s else s.(calls := s.calls[k := RotateGet(p)])
    case Step(k) =>
      if k !in s.calls then s else
        var (server, call) := StepCall(s.server, s.calls[k]);
        Sys(server, s.calls[k := call])
    case Other(op) => if op.RotateOp? then s else s.(server := Next(s.server, op))
  }

  ghost function Interleave(s: Sys, acts: seq<Act>): Sys
    decreases |acts|
  {
    if acts == [] then s else Interleave(Perform(s, acts[0]), acts[1..])
  }

  /** Undisturbed, it is the atomic rotation: same keys, same answer. */
  lemma AloneIsRotate(s: Sys, k: nat, p: Presented)
    requires k !in s.calls
    ensures Interleave(s, [Start(k, p), Step(k), Step(k), Step(k)])
         == Sys(Rotate(s.server, p).0, s.calls[k := Finished(Rotate(s.server, p).1)])
  {
    var s0 := Perform(s, Start(k, p));
    var s1 := Perform(s0, Step(k));
    var s2 := Perform(s1, Step(k));
    Two(s2, Step(k), Step(k));
    assert Interleave(s1, [Step(k), Step(k)]) == Interleave(s2, [Step(k)]);
    assert Interleave(s0, [Step(k), Step(k), Step(k)]) == Interleave(s1, [Step(k), Step(k)]);
    assert s.calls[k := s0.calls[k]][k := s1.calls[k]][k := s2.calls[k]] == s.calls[k := s2.calls[k]];
  }

  /** A rotation of the session that is past its GET and may yet write. */
  predicate Writing(c: Call, k: Key) { (c.RotateUser? || c.RotateSet?) && KeyOf(c.token) == k }

  ghost predicate SomeWriting(calls: map<nat, Call>, k: Key) {
    exists j :: j in calls && Writing(calls[j], k)
  }

  lemma StepDead(s: Server, c: Call, k: Key)
    requires Revoked(s, k) && !Writing(c, k)
    ensures Revoked(StepCall(s, c).0, k) && !Writing(StepCall(s, c).1, k)
  {
  }

  lemma PerformDead(s: Sys, act: Act, k: Key)
    requires Revoked(s.server, k) && !SomeWriting(s.calls, k)
    ensures Revoked(Perform(s, act).server, k) && !SomeWriting(Perform(s, act).calls, k)
  {
    if act.Step? && act.k in s.calls { StepDead(s.server, s.calls[act.k], k); }
    if act.Other? { RevokedNext(s.server, act.op, k); }
    forall j | j in Perform(s, act).calls ensures !Writing(Perform(s, act).calls[j], k) {
      assert j in s.calls ==> !Writing(s.calls[j], k);
    }
  }

  lemma {:induction false} StaysDead(s: Sys, acts: seq<Act>, k: Key)
    requires Revoked(s.server, k) && !SomeWriting(s.calls, k)
    ensures Revoked(Interleave(s, acts).server, k)
    decreases |acts|
  {
    if acts != [] {
      PerformDead(s, acts[0], k);
      StaysDead(Perform(s, acts[0]), acts[1..], k);
    }
  }

  lemma Two(s: Sys, a: Act, b: Act)
    ensures Interleave(s, [a]) == Perform(s, a)
    ensures Interleave(s, [a, b]) == Perform(Perform(s, a), b)
  {
    assert Interleave(Perform(s, a), [b]) == Interleave(Perform(Perform(s, a), b), []);
    assert Interleave(s, [a]) == Interleave(Perform(s, a), []);
    assert [a, b][1..] == [b];
  }

  /** The rotation goes on: for a user that exists, to its SET. */
  lemma WriterRevives(s: Sys, j: nat, k: Key) returns (acts: seq<Act>)
    requires j in s.calls && Writing(s.calls[j], k) && s.server.sessionTtlMs > 0
    requires s.calls[j].RotateUser? ==> k.user in s.server.users
    ensures Live(Interleave(s, acts).server, k)
  {
    Two(s, Step(j), Step(j));
    if s.calls[j].RotateSet? {
      acts := [Step(j)];
    } else {
      var t := s.calls[j].token;
      assert Perform(s, Step(j)) == Sys(s.server, s.calls[j := RotateSet(t)]);
      acts := [Step(j), Step(j)];
    }
  }

  ghost predicate Revives(s: Sys, acts: seq<Act>, k: Key) { Live(Interleave(s, acts).server, k) }

  /** A session that is gone (logged out, revoked everywhere, expired) can come back if and
    * only if a rotation of it was past its GET at the time. */
  lemma RevivesIff(s: Sys, k: Key)
    requires Revoked(s.server, k) && s.server.sessionTtlMs > 0
    ensures (exists acts :: Revives(s, acts, k)) <==> SomeWriting(s.calls, k)
  {
    if SomeWriting(s.calls, k) {
      var j :| j in s.calls && Writing(s.calls[j], k);
      var restore := Other(UserOp(k.user, true));
      var known := Perform(s, restore);
      var acts := WriterRevives(known, j, k);
      assert ([restore] + acts)[1..] == acts;
      assert Revives(s, [restore] + acts, k);
    } else {
      forall acts ensures !Revives(s, acts, k) { StaysDead(s, acts, k); }
    }
  }

  /** It happens: a refresh has read its session, the same user logs out, the refresh
    * writes it back. */
  lemma LogoutUndone(s: Sys, t: Token)
    requires s.calls == map[] && KeysDrawn(s.server) && Live(s.server, KeyOf(t)) && Verifies(s.server, Signed(t))
    requires s.server.sessions[KeyOf(t)].token == t && t.sub in s.server.users && s.server.sessionTtlMs > 0
    ensures
      var read := Perform(Perform(s, Start(0, Signed(t))), Step(0));
      var out := Perform(read, Other(LogoutOp(Signed(t))));
      Revoked(out.server, KeyOf(t)) && Live(Perform(Perform(out, Step(0)), Step(0)).server, KeyOf(t))
  {
    var read := Perform(Perform(s, Start(0, Signed(t))), Step(0));
    assert read.calls[0] == RotateUser(t) && read.server == s.server;
    var out := Perform(read, Other(LogoutOp(Signed(t))));
    assert Perform(out, Step(0)).calls[0] == RotateSet(t);
  }
}
