/** Put together: gossip left alone reaches agreement, and on the best anybody has seen. */
module GossipConvergence {
  import opened Identity
  import opened RegistryMap
  import opened Gossip
  import opened GossipProofs
  import opened GossipTermination
  import opened GossipPump

  /** What a node has held once, it holds or has replaced by something better ever after. */
  lemma {:induction false} NothingIsForgotten(states: seq<Net>, steps: seq<Step>, i: nat, j: nat, p: NodeId,
                                              id: ChannelIdentity)
    requires Run(states, steps) && i <= j < |states| && p in states[i].reg && Holds(states[i].reg[p], id)
    ensures p in states[j].reg && Holds(states[j].reg[p], id)
    decreases j
  {
    hide Apply, Holds;
    if i < j {
      NothingIsForgotten(states, steps, i, j - 1, p, id);
      StepAscends(states[j - 1], steps[j - 1]);
    }
  }

  /** Whatever any node ever held, at any time, every node it is connected to holds or beats as
      soon as the network is quiet, no matter which links came and went on the way. */
  lemma QuietNetworkHasTheBest(states: seq<Net>, steps: seq<Step>, i: nat, j: nat, id: ChannelIdentity,
                               route: seq<NodeId>)
    requires Run(states, steps) && Initial(states[0]) && i <= j < |states|
    requires Quiescent(states[j]) && Route(states[j], route)
    requires route[0] in states[i].reg && Holds(states[i].reg[route[0]], id)
    ensures route[|route| - 1] in states[j].reg && Holds(states[j].reg[route[|route| - 1]], id)
  {
    hide Apply;
    NothingIsForgotten(states, steps, i, j, route[0], id);
    EveryHalfLinkIsCovered(states, steps, j);
    QuietNetworkAgrees(states[j], route);
  }

  /** Left alone, the network goes quiet: deliveries in any order run out within the measure, and
      then the registries of connected nodes agree. */
  lemma {:induction false} DeliveriesReachAgreement(c: Scope, s: Net) returns (states: seq<Net>, steps: seq<Step>)
    requires Inv(s) && Within(c, s)
    ensures Run(states, steps) && states[0] == s && |steps| <= Measure(c, s)
    ensures forall k :: 0 <= k < |steps| ==> IsDelivery(steps[k])
    ensures Quiescent(states[|steps|]) && Inv(states[|steps|])
    decreases Measure(c, s)
  {
    hide Measure, Apply, Enabled, Gossip.Inv, WellFormed, Within;
    if Quiescent(s) {
      states, steps := [s], [];
      RunStarts(s);
    } else {
      InvIsWellFormed(s);
      var step := BusyNetworkCanDeliver(s);
      var s' := Apply(s, step);
      DeliveryLowersTheMeasure(c, s, step);
      DeliveryStaysWithin(c, s, step);
      StepKeepsInv(s, step);
      var later, more := DeliveriesReachAgreement(c, s');
      states, steps := [s] + later, [step] + more;
      RunPrepends(s, step, later, more);
    }
  }
}
