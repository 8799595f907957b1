/** Who a call signal reaches: `relay` in calls.gateway.ts. */
module Relay {
  import opened Options
  import opened Marketplace
  import Lifecycle

  /** The receiver of a signal `from` sends about engagement `eid`, if it is forwarded.
    * A signal without engagement or call id is dropped. */
  function Receiver(es: map<EngagementId, Engagement>, from: UserId, eid: Option<EngagementId>, hasCallId: bool)
    : Option<UserId>
  {
    if eid.None? || !hasCallId || eid.value !in es || es[eid.value].status != Active then None
    else
      var e := es[eid.value];
      if e.seeker == from then Some(e.provider)
      else if e.provider == from then Some(e.seeker)
      else None
  }

  /** Forwarded exactly when it names a call and a running engagement of the sender, and
    * then to the other person of it. */
  lemma ReachesTheOther(es: map<EngagementId, Engagement>, from: UserId, eid: Option<EngagementId>, hasCallId: bool,
                        to: UserId)
    ensures Receiver(es, from, eid, hasCallId) == Some(to) <==>
      && hasCallId && eid.Some? && eid.value in es && es[eid.value].status == Active
      && ((es[eid.value].seeker == from && es[eid.value].provider == to)
          || (es[eid.value].provider == from && es[eid.value].seeker == to))
  {
  }

  /** A signal passes only inside an ACTIVE engagement and only between its two people:
    * what reaches someone can be answered along the same engagement. */
  lemma RelayIsTwoWay(es: map<EngagementId, Engagement>, from: UserId, eid: EngagementId, to: UserId)
    requires Receiver(es, from, Some(eid), true) == Some(to)
    ensures Receiver(es, to, Some(eid), true) == Some(from)
    ensures eid in es && es[eid].status == Active && {from, to} == {es[eid].seeker, es[eid].provider}
  {
  }

  /** In a reachable state the two people of an engagement are all a caller can reach in
    * the same role: no second ACTIVE engagement shares its seeker or its provider. */
  lemma OnePartner(db: Db, ops: seq<Op>, from: UserId, a: EngagementId, b: EngagementId)
    requires Lifecycle.Fresh(db)
    requires Receiver(Run(db, ops).engagements, from, Some(a), true).Some?
    requires Receiver(Run(db, ops).engagements, from, Some(b), true).Some?
    requires (Run(db, ops).engagements[a].seeker == from) == (Run(db, ops).engagements[b].seeker == from)
    ensures a == b
  {
    Lifecycle.ReachableInv(db, ops);
  }
}
