/** Gossip goes quiet: with no new registrations and no link coming or going, only so many
    deliveries are possible, whatever order they happen in. */
module GossipTermination {
  import opened Identity
  import opened RegistryMap
  import opened Gossip
  import opened GossipProofs
  import opened PacketSum

  /** The identities in play, and how many half-links are up. */
  datatype Scope = Scope(universe: set<ChannelIdentity>, halves: nat)

  /** Everything held or on its way belongs to the scope. */
  ghost predicate Within(c: Scope, s: Net) {
    && c.halves == |s.up|
    && (forall p, n :: p in s.reg && n in s.reg[p] ==> s.reg[p][n] in c.universe)
    && (forall x :: x in s.packets ==> x.id in c.universe)
  }

  ghost function ScopeOf(s: Net): (c: Scope)
    ensures Within(c, s)
  {
    Scope((set x | x in s.packets :: x.id) + (set p, n | p in s.reg && n in s.reg[p] :: s.reg[p][n]), |s.up|)
  }

  /** The identities of the same name that would beat `id`. */
  ghost function Above(c: Scope, id: ChannelIdentity): set<ChannelIdentity> {
    set u | u in c.universe && u.name == id.name && Below(KeyOf(id), KeyOf(u))
  }

  /** How far `id` is from the top of its name. */
  ghost function Rank(c: Scope, id: ChannelIdentity): (r: nat)
    ensures r <= |c.universe|
  {
    SubsetSize(Above(c, id), c.universe);
    |Above(c, id)|
  }

  lemma {:induction false} SubsetSize<T>(a: set<T>, b: set<T>)
    requires a <= b
    ensures |a| <= |b|
    ensures a != b ==> |a| < |b|
    decreases b
  {
    if a != {} {
      var x :| x in a;
      SubsetSize(a - {x}, b - {x});
      assert a == (a - {x}) + {x} && b == (b - {x}) + {x};
    }
  }

  lemma HigherRanksLower(c: Scope, low: ChannelIdentity, high: ChannelIdentity)
    requires high in c.universe && low.name == high.name && Below(KeyOf(low), KeyOf(high))
    ensures Rank(c, high) < Rank(c, low)
  {
    KeysAreTotallyOrdered(KeyOf(high), KeyOf(high), KeyOf(high));
    forall u | u in Above(c, high) ensures u in Above(c, low) {
      KeysAreTotallyOrdered(KeyOf(low), KeyOf(high), KeyOf(u));
    }
    assert high in Above(c, low) && high !in Above(c, high);
    SubsetSize(Above(c, high), Above(c, low));
  }

  // ---------------- the measure ----------------

  /** How much work a packet may still cause without raising any registry. */
  ghost function Weight(c: Scope, x: Packet): nat {
    var r := Rank(c, x.id);
    match x
    case InBox(_, _, _) => 4 * r + 3
    case OnWire(_, _) => 4 * r + 4
    case ReplyDue(_, _, _) => 4 * r + 5
    case RelayDue(_, _, _) => c.halves * (4 * r + 4) + 1
  }

  ghost function WeightOf(c: Scope): Packet -> nat {
    (x: Packet) => Weight(c, x)
  }

  ghost function Total(c: Scope, packets: multiset<Packet>): nat {
    Sum(packets, WeightOf(c))
  }

  lemma TotalTakes(c: Scope, packets: multiset<Packet>, x: Packet)
    requires x in packets
    ensures Total(c, packets) == Weight(c, x) + Total(c, packets - multiset{x})
  {
    SumTakes(packets, WeightOf(c), x);
  }

  lemma TotalAdds(c: Scope, a: multiset<Packet>, b: multiset<Packet>)
    ensures Total(c, a + b) == Total(c, a) + Total(c, b)
  {
    SumAdds(a, b, WeightOf(c));
  }

  lemma TotalOfOne(c: Scope, x: Packet)
    ensures Total(c, multiset{x}) == Weight(c, x)
  {
    SumOfOne(x, WeightOf(c));
  }

  lemma {:induction false} TotalOfSends(c: Scope, halves: set<Half>, id: ChannelIdentity)
    ensures Total(c, Sends(halves, id)) == |halves| * (4 * Rank(c, id) + 4)
    decreases halves
  {
    if halves == {} {
      assert Sends(halves, id) == multiset{};
    } else {
      hide Total, Sends, Rank;
      var h :| h in halves;
      var rest := halves - {h};
      TotalOfSends(c, rest, id);
      OneMoreSend(halves, h, id);
      TotalAdds(c, Sends(rest, id), multiset{OnWire(h, id)});
      TotalOfOne(c, OnWire(h, id));
      Distribute(|rest|, 4 * Rank(c, id) + 4);
    }
  }

  lemma OneMoreSend(halves: set<Half>, h: Half, id: ChannelIdentity)
    requires h in halves
    ensures Sends(halves, id) == Sends(halves - {h}, id) + multiset{OnWire(h, id)}
  {
  }

  lemma Distribute(n: nat, k: nat)
    ensures (n + 1) * k == n * k + k
  {
  }

  /** Identities some node does not hold yet. */
  ghost function Room(c: Scope, s: Net): set<(NodeId, ChannelIdentity)> {
    set p, u | p in s.reg && u in c.universe && !Holds(s.reg[p], u) :: (p, u)
  }

  /** What one rise of a registry may add to the work in flight. */
  function PerRise(c: Scope): nat {
    c.halves * (4 * |c.universe| + 4) + 2
  }

  ghost function Measure(c: Scope, s: Net): nat {
    PerRise(c) * |Room(c, s)| + Total(c, s.packets)
  }

  predicate IsDelivery(step: Step) {
    step.Receive? || step.Handle? || step.Relay? || step.Reply?
  }

  // ---------------- every delivery lowers it ----------------

  /** One packet gives way to others that weigh less; registries stay as they are. */
  lemma ReplacedPacket(c: Scope, s: Net, s': Net, x: Packet, made: multiset<Packet>)
    requires x in s.packets && s'.packets == s.packets - multiset{x} + made && s'.reg == s.reg
    requires Total(c, made) < Weight(c, x)
    ensures Measure(c, s') < Measure(c, s)
  {
    hide Weight;
    TotalTakes(c, s.packets, x);
    TotalAdds(c, s.packets - multiset{x}, made);
  }

  lemma ReceiveLowers(c: Scope, s: Net, h: Half, id: ChannelIdentity)
    requires WellFormed(s) && Enabled(s, Receive(h, id))
    ensures Measure(c, Apply(s, Receive(h, id))) < Measure(c, s)
  {
    hide Measure;
    var box := InBox(To(h), h.link, id);
    TotalOfOne(c, box);
    ReplacedPacket(c, s, Apply(s, Receive(h, id)), OnWire(h, id), multiset{box});
  }

  lemma RelayLowers(c: Scope, s: Net, p: NodeId, except: Option<Link>, id: ChannelIdentity)
    requires WellFormed(s) && Within(c, s) && Enabled(s, Relay(p, except, id))
    ensures Measure(c, Apply(s, Relay(p, except, id))) < Measure(c, s)
  {
    hide Measure, Total, Rank, Sends;
    var targets := Targets(s.up, p, except);
    TotalOfSends(c, targets, id);
    SubsetSize(targets, s.up);
    MulMonotone(|targets|, c.halves, 4 * Rank(c, id) + 4);
    ReplacedPacket(c, s, Apply(s, Relay(p, except, id)), RelayDue(p, except, id), Sends(targets, id));
  }

  lemma ReplyLowers(c: Scope, s: Net, p: NodeId, to: Link, id: ChannelIdentity)
    requires WellFormed(s) && Enabled(s, Reply(p, to, id))
    ensures Measure(c, Apply(s, Reply(p, to, id))) < Measure(c, s)
  {
    hide Measure, Total, Rank, Sends;
    var one := s.up * {Outgoing(to, p)};
    TotalOfSends(c, one, id);
    SubsetSize(one, {Outgoing(to, p)});
    MulMonotone(|one|, 1, 4 * Rank(c, id) + 4);
    ReplacedPacket(c, s, Apply(s, Reply(p, to, id)), ReplyDue(p, to, id), Sends(one, id));
  }

  lemma MulMonotone(a: nat, b: nat, k: nat)
    requires a <= b
    ensures a * k <= b * k
  {
  }

  /** The arrived identity did not win: the reply, if any, is strictly above it. */
  lemma UnmovedHandleLowers(c: Scope, s: Net, p: NodeId, via: Link, id: ChannelIdentity)
    requires WellFormed(s) && Within(c, s) && Enabled(s, Handle(p, via, id))
    requires p in s.reg && Merge(s.reg[p], id) == s.reg[p]
    ensures Measure(c, Apply(s, Handle(p, via, id))) < Measure(c, s)
  {
    hide Measure, ResolveCollision, Rank;
    var s' := Apply(s, Handle(p, via, id));
    var made, winner := Response(s.reg[p], p, via, id), Winner(s.reg[p], id);
    assert s'.reg == s.reg;
    MergeHolds(s.reg[p], id);
    ResolveTakesTheHigher(s.reg[p][id.name], id);
    if LostTo(id, winner) {
      assert made == multiset{ReplyDue(p, via, winner)} && winner == s.reg[p][id.name];
      KeysAreTotallyOrdered(KeyOf(id), KeyOf(winner), KeyOf(id));
      HigherRanksLower(c, id, winner);
      TotalOfOne(c, ReplyDue(p, via, winner));
    } else {
      assert made == multiset{};
    }
    ReplacedPacket(c, s, s', InBox(p, via, id), made);
  }

  /** The arrived identity won: the node will never make room for it again, which pays for
      every relay it sets off. */
  lemma MovedHandleLowers(c: Scope, s: Net, p: NodeId, via: Link, id: ChannelIdentity)
    requires WellFormed(s) && Within(c, s) && Enabled(s, Handle(p, via, id))
    requires p in s.reg && Merge(s.reg[p], id) != s.reg[p]
    ensures Measure(c, Apply(s, Handle(p, via, id))) < Measure(c, s)
  {
    hide Rank, Response, Room, ResolveCollision, Total;
    var s' := Apply(s, Handle(p, via, id));
    var box, due := InBox(p, via, id), RelayDue(p, Some(via), id);
    RoomShrinks(c, s, p, via, id);
    assert Response(s.reg[p], p, via, id) == multiset{due} by { WinResponse(s.reg[p], p, via, id); }
    TotalTakes(c, s.packets, box);
    TotalAdds(c, s.packets - multiset{box}, multiset{due});
    TotalOfOne(c, due);
    MulMonotone(4 * Rank(c, id) + 4, 4 * |c.universe| + 4, c.halves);
    assert Weight(c, due) < PerRise(c);
    RisePays(PerRise(c), |Room(c, s')|, |Room(c, s)|);
  }

  lemma WinResponse(reg: Registry, p: NodeId, via: Link, id: ChannelIdentity)
    requires WellNamed(reg) && Merge(reg, id) != reg
    ensures Response(reg, p, via, id) == multiset{RelayDue(p, Some(via), id)}
  {
  }

  lemma RisePays(k: nat, low: nat, high: nat)
    requires low < high
    ensures k * low + k <= k * high
  {
    MulMonotone(low + 1, high, k);
    Distribute(low, k);
  }

  lemma RoomShrinks(c: Scope, s: Net, p: NodeId, via: Link, id: ChannelIdentity)
    requires WellFormed(s) && Within(c, s) && Enabled(s, Handle(p, via, id))
    requires p in s.reg && Merge(s.reg[p], id) != s.reg[p]
    ensures |Room(c, Apply(s, Handle(p, via, id)))| < |Room(c, s)|
  {
    var s' := Apply(s, Handle(p, via, id));
    MergeHolds(s.reg[p], id);
    MergeAscends(s, s', p, id);
    if id.name in s.reg[p] {
      KeysAreTotallyOrdered(KeyOf(id), KeyOf(s.reg[p][id.name]), KeyOf(id));
    }
    assert (p, id) in Room(c, s) && (p, id) !in Room(c, s');
    SubsetSize(Room(c, s'), Room(c, s));
  }

  /** Every delivery strictly lowers the measure. */
  lemma DeliveryLowersTheMeasure(c: Scope, s: Net, step: Step)
    requires WellFormed(s) && Within(c, s) && Enabled(s, step) && IsDelivery(step)
    ensures Measure(c, Apply(s, step)) < Measure(c, s)
  {
    hide Measure, Apply, Within;
    match step
    case Receive(h, id) => ReceiveLowers(c, s, h, id);
    case Handle(p, via, id) =>
      assert Placed(s, InBox(p, via, id));
      if Merge(s.reg[p], id) == s.reg[p] {
        UnmovedHandleLowers(c, s, p, via, id);
      } else {
        MovedHandleLowers(c, s, p, via, id);
      }
    case Relay(p, except, id) => RelayLowers(c, s, p, except, id);
    case Reply(p, to, id) => ReplyLowers(c, s, p, to, id);
  }

  /** Deliveries invent no identity and touch no link. */
  lemma DeliveryStaysWithin(c: Scope, s: Net, step: Step)
    requires WellFormed(s) && Within(c, s) && Enabled(s, step) && IsDelivery(step)
    ensures Within(c, Apply(s, step))
  {
    if step.Handle? {
      HandleStaysWithin(c, s, step.node, step.via, step.id);
    }
  }

  lemma HandleStaysWithin(c: Scope, s: Net, p: NodeId, via: Link, id: ChannelIdentity)
    requires WellFormed(s) && Within(c, s) && Enabled(s, Handle(p, via, id))
    ensures Within(c, Apply(s, Handle(p, via, id)))
  {
  }

  /** Gossip terminates: from any reachable state, no run of deliveries is longer than the
      state's measure. */
  lemma {:induction false} GossipTerminates(c: Scope, states: seq<Net>, steps: seq<Step>)
    requires Run(states, steps) && Inv(states[0]) && Within(c, states[0])
    requires forall k :: 0 <= k < |steps| ==> IsDelivery(steps[k])
    ensures |steps| + Measure(c, states[|steps|]) <= Measure(c, states[0])
    ensures Inv(states[|steps|]) && Within(c, states[|steps|])
  {
    hide Measure, Apply, Within, Gossip.Inv;
    if steps != [] {
      var n := |steps| - 1;
      assert Run(states[..n + 1], steps[..n]);
      GossipTerminates(c, states[..n + 1], steps[..n]);
      DeliveryLowersTheMeasure(c, states[n], steps[n]);
      DeliveryStaysWithin(c, states[n], steps[n]);
      StepKeepsInv(states[n], steps[n]);
    }
  }

  /** A network that is not quiet has a delivery to make, so running deliveries until none is
      left reaches the agreement. */
  lemma BusyNetworkCanDeliver(s: Net) returns (step: Step)
    requires WellFormed(s) && !Quiescent(s)
    ensures IsDelivery(step) && Enabled(s, step)
  {
    var x :| x in s.packets;
    match x
    case OnWire(h, id) => step := Receive(h, id);
    case InBox(p, via, id) => step := Handle(p, via, id);
    case RelayDue(p, except, id) => step := Relay(p, except, id);
    case ReplyDue(p, to, id) => step := Reply(p, to, id);
  }
}
