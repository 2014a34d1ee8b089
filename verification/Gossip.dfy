/** Registry gossip between nodes: relay on change, reply to a sender that is behind, a full
    snapshot on every new half-link. Links come and go, what is on the wire of a dropped
    link is lost, delivery may reorder; merging and sending are separate steps, so a link
    may come up in between (xchannel-net/src/node.rs, xchannel-net/src/broadcast.rs). */
module Gossip {
  import opened Bytes
  import opened Identity
  import opened RegistryMap

  /** A connection between two different nodes; `serial` tells parallel ones apart. */
  datatype Link = Link(a: NodeId, b: NodeId, serial: nat)

  /** One direction of a link: its sender has adopted the connection. */
  datatype Half = Half(link: Link, forward: bool)

  function From(h: Half): NodeId { if h.forward then h.link.a else h.link.b }

  function To(h: Half): NodeId { if h.forward then h.link.b else h.link.a }

  /** The half over which node `at` sends on `link`. */
  function Outgoing(link: Link, at: NodeId): Half { Half(link, at == link.a) }

  function Other(link: Link, at: NodeId): NodeId { if at == link.a then link.b else link.a }

  /** An identity on its way. */
  datatype Packet =
    | OnWire(half: Half, id: ChannelIdentity)                        // sent, not read yet
    | InBox(node: NodeId, via: Link, id: ChannelIdentity)            // read, not merged yet
    | RelayDue(node: NodeId, except: Option<Link>, id: ChannelIdentity) // to all links but one
    | ReplyDue(node: NodeId, to: Link, id: ChannelIdentity)          // to one link

  datatype Net = Net(reg: map<NodeId, Registry>, up: set<Half>, packets: multiset<Packet>)

  datatype Step =
    | Local(node: NodeId, id: ChannelIdentity)   // a registration, deregistration or reap here
    | Adopt(half: Half)
    | Drop(link: Link)
    | Receive(half: Half, id: ChannelIdentity)
    | Handle(node: NodeId, via: Link, id: ChannelIdentity)
    | Relay(node: NodeId, except: Option<Link>, id: ChannelIdentity)
    | Reply(node: NodeId, to: Link, id: ChannelIdentity)

  ghost predicate WellFormed(s: Net) {
    && (forall p :: p in s.reg ==> WellNamed(s.reg[p]))
    && (forall h :: h in s.up ==> h.link.a != h.link.b && h.link.a in s.reg && h.link.b in s.reg)
    && (forall x :: x in s.packets ==> Placed(s, x))
  }

  /** A packet sits somewhere that exists. */
  ghost predicate Placed(s: Net, x: Packet) {
    match x
    case OnWire(h, _) => h in s.up && From(h) in s.reg
    case InBox(p, via, _) => p in s.reg && via.a != via.b && via.a in s.reg && via.b in s.reg
      && (p == via.a || p == via.b)
    case RelayDue(p, _, _) => p in s.reg
    case ReplyDue(p, to, _) => p in s.reg && (p == to.a || p == to.b)
  }

  predicate Enabled(s: Net, step: Step) {
    match step
    case Local(p, _) => p in s.reg
    case Adopt(h) => h !in s.up && h.link.a != h.link.b && h.link.a in s.reg && h.link.b in s.reg
    case Drop(link) => true
    case Receive(h, id) => OnWire(h, id) in s.packets
    case Handle(p, via, id) => InBox(p, via, id) in s.packets
    case Relay(p, except, id) => RelayDue(p, except, id) in s.packets
    case Reply(p, to, id) => ReplyDue(p, to, id) in s.packets
  }

  /** The half-links a relay goes out on. */
  function Targets(up: set<Half>, p: NodeId, except: Option<Link>): set<Half> {
    set h | h in up && From(h) == p && except != Some(h.link)
  }

  function Sends(halves: set<Half>, id: ChannelIdentity): multiset<Packet> {
    multiset(set h | h in halves :: OnWire(h, id))
  }

  /** A snapshot of the registry on one half-link. */
  function Snapshot(reg: Registry, h: Half): multiset<Packet> {
    multiset(set n | n in reg :: OnWire(h, reg[n]))
  }

  /** Whether a reply tells the sender something: the keys differ. */
  predicate LostTo(incoming: ChannelIdentity, winner: ChannelIdentity) {
    KeyOf(incoming) != KeyOf(winner)
  }

  /** What merging one arrived identity makes due. */
  function Response(reg: Registry, p: NodeId, via: Link, id: ChannelIdentity): multiset<Packet> {
    var winner := Winner(reg, id);
    if Merge(reg, id) != reg then multiset{RelayDue(p, Some(via), winner)}
    else if LostTo(id, winner) then multiset{ReplyDue(p, via, winner)}
    else multiset{}
  }

  ghost function WithoutLink(packets: multiset<Packet>, link: Link): multiset<Packet> {
    Filter(packets, set x | x in packets && x.OnWire? && x.half.link == link)
  }

  /** `packets` without the members of `gone`. */
  ghost function Filter(packets: multiset<Packet>, gone: set<Packet>): (r: multiset<Packet>)
    ensures forall x :: r[x] == if x in gone then 0 else packets[x]
    decreases gone
  {
    if gone == {} then packets
    else var x :| x in gone; Filter(packets[x := 0], gone - {x})
  }

  ghost function Apply(s: Net, step: Step): Net
    requires WellFormed(s) && Enabled(s, step)
  {
    match step
    case Local(p, id) =>
      Net(s.reg[p := Merge(s.reg[p], id)], s.up, s.packets + multiset{RelayDue(p, None, id)})
    case Adopt(h) => Net(s.reg, s.up + {h}, s.packets + Snapshot(s.reg[From(h)], h))
    case Drop(link) =>
      Net(s.reg, s.up - {Half(link, true), Half(link, false)}, WithoutLink(s.packets, link))
    case Receive(h, id) =>
      s.(packets := s.packets - multiset{OnWire(h, id)} + multiset{InBox(To(h), h.link, id)})
    case Handle(p, via, id) =>
      Net(s.reg[p := Merge(s.reg[p], id)], s.up,
          s.packets - multiset{InBox(p, via, id)} + Response(s.reg[p], p, via, id))
    case Relay(p, except, id) =>
      s.(packets := s.packets - multiset{RelayDue(p, except, id)} + Sends(Targets(s.up, p, except), id))
    case Reply(p, to, id) =>
      s.(packets := s.packets - multiset{ReplyDue(p, to, id)}
                    + Sends(s.up * {Outgoing(to, p)}, id))
  }

  ghost predicate Initial(s: Net) {
    && s.up == {} && s.packets == multiset{}
    && forall p :: p in s.reg ==> WellNamed(s.reg[p])
  }

  ghost predicate Run(states: seq<Net>, steps: seq<Step>) {
    && |states| == |steps| + 1
    && forall k :: 0 <= k < |steps| ==>
         && WellFormed(states[k]) && Enabled(states[k], steps[k])
         && states[k + 1] == Apply(states[k], steps[k])
  }

  // ---------------- what every step keeps ----------------

  /** On its way from the half's sender to its receiver, counting what the sender still owes. */
  predicate Carries(x: Packet, h: Half) {
    match x
    case OnWire(half, _) => half == h
    case InBox(p, via, _) => p == To(h) && via == h.link
    case RelayDue(p, except, _) => p == From(h) && except != Some(h.link)
    case ReplyDue(_, _, _) => false
  }

  /** The receiver of `h` holds at least the sender's entry for `n`, or one that does is coming. */
  ghost predicate Covered(s: Net, h: Half, n: Text)
    requires From(h) in s.reg && To(h) in s.reg
  {
    n in s.reg[From(h)] ==>
      var mine := s.reg[From(h)][n];
      Holds(s.reg[To(h)], mine)
      || exists x :: x in s.packets && Carries(x, h) && x.id.name == n && AtMost(KeyOf(mine), KeyOf(x.id))
  }

  /** Whoever put `x` on its way holds at least what it says. */
  ghost predicate Backed(s: Net, x: Packet)
    requires Placed(s, x)
  {
    match x
    case OnWire(h, id) => Holds(s.reg[From(h)], id)
    case InBox(p, via, id) => Holds(s.reg[Other(via, p)], id)
    case RelayDue(p, _, id) => Holds(s.reg[p], id)
    case ReplyDue(p, _, id) => Holds(s.reg[p], id)
  }

  ghost predicate Inv(s: Net) {
    && WellFormed(s)
    && (forall x :: x in s.packets ==> Backed(s, x))
    && (forall h, n :: h in s.up ==> Covered(s, h, n))
  }
}
