/** Replies repair what announcements missed: whoever sends a state that lost is told the winner
    and ends up with it, without assuming that anything was covered before. */
module GossipRepair {
  import opened Identity
  import opened RegistryMap
  import opened Gossip
  import opened GossipProofs

  /** On its way over `h`, as a relay or as a reply. */
  predicate Bound(x: Packet, h: Half) {
    Carries(x, h) || (x.ReplyDue? && x.node == From(h) && x.to == h.link)
  }

  /** The receiver of `h` holds at least `id`, or something that does is coming over `h`. */
  ghost predicate Coming(s: Net, h: Half, id: ChannelIdentity) {
    && To(h) in s.reg
    && (|| Holds(s.reg[To(h)], id)
        || exists x :: x in s.packets && Bound(x, h) && x.id.name == id.name && AtMost(KeyOf(id), KeyOf(x.id)))
  }

  /** The packet a step consumes. */
  function Consumed(step: Step): Option<Packet> {
    match step
    case Receive(h, id) => Some(OnWire(h, id))
    case Handle(p, via, id) => Some(InBox(p, via, id))
    case Relay(p, except, id) => Some(RelayDue(p, except, id))
    case Reply(p, to, id) => Some(ReplyDue(p, to, id))
    case _ => None
  }

  lemma OthersStay(s: Net, step: Step, h: Half, x: Packet)
    requires WellFormed(s) && Enabled(s, step) && step != Drop(h.link)
    requires x in s.packets && Bound(x, h) && Consumed(step) != Some(x)
    ensures x in Apply(s, step).packets
  {
    hide Identity.Below, ResolveCollision, Response, Snapshot, Sends, Merge;
  }

  /** What the consumed packet becomes, if it was bound for `h`. */
  lemma ConsumedMovesOn(s: Net, step: Step, h: Half, x: Packet)
    requires WellFormed(s) && Enabled(s, step) && h in s.up && x in s.packets && Bound(x, h)
             && Consumed(step) == Some(x)
    ensures var s' := Apply(s, step);
            || (To(h) in s'.reg && Holds(s'.reg[To(h)], x.id))
            || exists y :: y in s'.packets && Bound(y, h) && y.id == x.id
  {
    hide Identity.Below, ResolveCollision, Response, Snapshot, Holds, Merge, Sends;
    var s' := Apply(s, step);
    assert Placed(s, x);
    match step
    case Handle(p, via, id) => MergeHolds(s.reg[p], id);
    case Receive(g, id) => assert InBox(To(g), g.link, id) in s'.packets && Bound(InBox(To(g), g.link, id), h);
    case Relay(p, except, id) =>
      SentOver(Targets(s.up, p, except), id);
      assert OnWire(h, id) in s'.packets && Bound(OnWire(h, id), h);
    case Reply(p, to, id) =>
      SentOver(s.up * {Outgoing(to, p)}, id);
      assert OnWire(h, id) in s'.packets && Bound(OnWire(h, id), h);
  }

  lemma SentOver(halves: set<Half>, id: ChannelIdentity)
    ensures forall h :: h in halves ==> OnWire(h, id) in Sends(halves, id)
  {
    forall h | h in halves ensures OnWire(h, id) in Sends(halves, id) {
      assert OnWire(h, id) in (set g | g in halves :: OnWire(g, id));
    }
  }

  lemma StepKeepsComing(s: Net, step: Step, h: Half, id: ChannelIdentity)
    requires WellFormed(s) && Enabled(s, step) && h in s.up && step != Drop(h.link) && Coming(s, h, id)
    ensures h in Apply(s, step).up && Coming(Apply(s, step), h, id)
  {
    hide Identity.Below, ResolveCollision, Response, Snapshot, Merge, WithoutLink, Sends;
    var s' := Apply(s, step);
    StepAscends(s, step);
    UpStays(s, step, h);
    hide Apply;
    if !Holds(s.reg[To(h)], id) {
      var x :| x in s.packets && Bound(x, h) && x.id.name == id.name && AtMost(KeyOf(id), KeyOf(x.id));
      if Consumed(step) == Some(x) { ConsumedMovesOn(s, step, h, x); } else { OthersStay(s, step, h, x); }
      if Holds(s'.reg[To(h)], x.id) { HoldsTransitive(s'.reg[To(h)], id, x.id); }
    }
  }

  /** A state that lost is answered over the link it came in on. */
  lemma LoserIsAnswered(s: Net, p: NodeId, via: Link, id: ChannelIdentity)
    requires WellFormed(s) && Enabled(s, Handle(p, via, id)) && Outgoing(via, p) in s.up
    requires p in s.reg && id.name in s.reg[p] && Below(KeyOf(id), KeyOf(s.reg[p][id.name]))
    ensures Coming(Apply(s, Handle(p, via, id)), Outgoing(via, p), s.reg[p][id.name])
  {
    var winner, h := s.reg[p][id.name], Outgoing(via, p);
    assert Placed(s, InBox(p, via, id));
    KeysAreTotallyOrdered(KeyOf(id), KeyOf(winner), KeyOf(id));
    ResolveTakesTheHigher(winner, id);
    assert Merge(s.reg[p], id) == s.reg[p];
    assert ReplyDue(p, via, winner) in Apply(s, Handle(p, via, id)).packets && Bound(ReplyDue(p, via, winner), h);
  }

  /** Whoever sent a state that lost has the winner, or better, once the network is quiet, provided
      the link stayed up. Nothing else is assumed: not even that past changes were announced. */
  lemma {:induction false} StaleSenderIsCorrected(states: seq<Net>, steps: seq<Step>, i: nat, j: nat, p: NodeId,
                                                  via: Link, id: ChannelIdentity)
    requires Run(states, steps) && i < j < |states| && steps[i] == Handle(p, via, id)
             && Outgoing(via, p) in states[i].up
    requires p in states[i].reg && id.name in states[i].reg[p] && Below(KeyOf(id), KeyOf(states[i].reg[p][id.name]))
    requires forall k :: i < k < j ==> steps[k] != Drop(via)
    ensures Outgoing(via, p) in states[j].up && Coming(states[j], Outgoing(via, p), states[i].reg[p][id.name])
    ensures Quiescent(states[j]) ==> Holds(states[j].reg[Other(via, p)], states[i].reg[p][id.name])
    decreases j
  {
    hide Apply, Identity.Below;
    if i + 1 == j {
      LoserIsAnswered(states[i], p, via, id);
      UpStays(states[i], steps[i], Outgoing(via, p));
    } else {
      StaleSenderIsCorrected(states, steps, i, j - 1, p, via, id);
      StepKeepsComing(states[j - 1], steps[j - 1], Outgoing(via, p), states[i].reg[p][id.name]);
    }
  }

  lemma UpStays(s: Net, step: Step, h: Half)
    requires WellFormed(s) && Enabled(s, step) && h in s.up && step != Drop(h.link)
    ensures h in Apply(s, step).up
  {
  }
}
