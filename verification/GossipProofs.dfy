/** Gossip keeps every half-link covered, and a quiet network agrees. */
module GossipProofs {
  import opened Bytes
  import opened Identity
  import opened RegistryMap
  import opened Gossip

  lemma HoldsTransitive(reg: Registry, a: ChannelIdentity, b: ChannelIdentity)
    requires a.name == b.name && AtMost(KeyOf(a), KeyOf(b)) && Holds(reg, b)
    ensures Holds(reg, a)
  {
  }

  /** Registries only ever climb. */
  ghost predicate Ascends(s: Net, s': Net) {
    && s'.reg.Keys == s.reg.Keys
    && forall p, id :: p in s.reg && Holds(s.reg[p], id) ==> Holds(s'.reg[p], id)
  }

  /** A packet that carried the sender's entry is still there, or its receiver has it now. */
  ghost predicate StillCarried(s: Net, s': Net, h: Half)
    requires To(h) in s'.reg
  {
    forall x :: x in s.packets && Carries(x, h) ==>
      || Holds(s'.reg[To(h)], x.id)
      || exists y :: y in s'.packets && Carries(y, h) && y.id == x.id
  }

  lemma CoverageKept(s: Net, s': Net, h: Half, n: Text)
    requires From(h) in s.reg && To(h) in s.reg && Ascends(s, s') && StillCarried(s, s', h)
    requires WellNamed(s.reg[From(h)])
    requires Covered(s, h, n)
    requires n in s'.reg[From(h)] ==> n in s.reg[From(h)] && s'.reg[From(h)][n] == s.reg[From(h)][n]
    ensures Covered(s', h, n)
  {
  }

  /** Packets that were there stay placed and backed as registries climb; so the new ones
      are all that needs looking at. */
  lemma PacketsFit(s: Net, s': Net, added: multiset<Packet>)
    requires WellFormed(s) && (forall x :: x in s.packets ==> Backed(s, x))
    requires Ascends(s, s') && s.up <= s'.up
    requires forall x :: x in s'.packets ==> x in s.packets || x in added
    requires forall x :: x in added ==> Placed(s', x) && Backed(s', x)
    ensures forall x :: x in s'.packets ==> Placed(s', x) && Backed(s', x)
  {
  }

  /** A node's registry after one merge; every other node's is as it was. */
  lemma MergeAscends(s: Net, s': Net, p: NodeId, id: ChannelIdentity)
    requires (forall q :: q in s.reg ==> WellNamed(s.reg[q])) && p in s.reg
    requires s'.reg == s.reg[p := Merge(s.reg[p], id)]
    ensures Ascends(s, s') && forall q :: q in s'.reg ==> WellNamed(s'.reg[q])
  {
  }

  /** Every step lets registries only climb. */
  lemma StepAscends(s: Net, step: Step)
    requires WellFormed(s) && Enabled(s, step)
    ensures Ascends(s, Apply(s, step))
  {
    hide ResolveCollision, Merge, Holds, Response, Sends, Snapshot, WithoutLink;
    var s' := Apply(s, step);
    match step
    case Local(p, id) => MergeAscends(s, s', p, id);
    case Handle(p, via, id) =>
      assert Placed(s, InBox(p, via, id));
      MergeAscends(s, s', p, id);
    case _ => assert s'.reg == s.reg;
  }

  lemma LocalStep(s: Net, p: NodeId, id: ChannelIdentity)
    requires Inv(s) && Enabled(s, Local(p, id))
    ensures Inv(Apply(s, Local(p, id)))
  {
    hide Identity.Below, ResolveCollision;
    var s' := Apply(s, Local(p, id));
    var due := RelayDue(p, None, id);
    MergeHolds(s.reg[p], id);
    MergeAscends(s, s', p, id);
    PacketsFit(s, s', multiset{due});
    forall h, n | h in s'.up ensures Covered(s', h, n) {
      assert Covered(s, h, n);
      if From(h) == p && n == id.name && s'.reg[p] != s.reg[p] {
        assert due in s'.packets && Carries(due, h);
      } else {
        forall x | x in s.packets && Carries(x, h) ensures x in s'.packets { }
        CoverageKept(s, s', h, n);
      }
    }
  }

  lemma AdoptStep(s: Net, h0: Half)
    requires Inv(s) && Enabled(s, Adopt(h0))
    ensures Inv(Apply(s, Adopt(h0)))
  {
    hide Identity.Below, ResolveCollision;
    var s' := Apply(s, Adopt(h0));
    var mine := s.reg[From(h0)];
    PacketsFit(s, s', Snapshot(mine, h0));
    forall h, n | h in s'.up ensures Covered(s', h, n) {
      if h == h0 {
        if n in mine {
          assert OnWire(h0, mine[n]) in (set m | m in mine :: OnWire(h0, mine[m]));
          assert OnWire(h0, mine[n]) in s'.packets;
        }
      } else {
        assert Covered(s, h, n);
        forall x | x in s.packets && Carries(x, h) ensures x in s'.packets { }
        CoverageKept(s, s', h, n);
      }
    }
  }

  lemma DropStep(s: Net, link: Link)
    requires Inv(s) && Enabled(s, Drop(link))
    ensures Inv(Apply(s, Drop(link)))
  {
    hide Identity.Below, ResolveCollision;
    var s' := Apply(s, Drop(link));
    forall x | x in s'.packets ensures x in s.packets && Placed(s', x) && Backed(s', x) {
      assert x in s.packets;
      assert Placed(s, x) && Backed(s, x);
    }
    forall h, n | h in s'.up ensures Covered(s', h, n) {
      assert Covered(s, h, n) && h.link != link;
      forall x | x in s.packets && Carries(x, h) ensures x in s'.packets { }
      CoverageKept(s, s', h, n);
    }
  }

  lemma ReceiveStep(s: Net, h0: Half, id: ChannelIdentity)
    requires Inv(s) && Enabled(s, Receive(h0, id))
    ensures Inv(Apply(s, Receive(h0, id)))
  {
    hide Identity.Below, ResolveCollision;
    var s' := Apply(s, Receive(h0, id));
    var box := InBox(To(h0), h0.link, id);
    assert Placed(s, OnWire(h0, id)) && Backed(s, OnWire(h0, id));
    PacketsFit(s, s', multiset{box});
    forall h, n | h in s'.up ensures Covered(s', h, n) {
      assert Covered(s, h, n);
      forall x | x in s.packets && Carries(x, h)
        ensures exists y :: y in s'.packets && Carries(y, h) && y.id == x.id
      {
        if x == OnWire(h0, id) { assert box in s'.packets && Carries(box, h); }
        else { assert x in s'.packets; }
      }
      CoverageKept(s, s', h, n);
    }
  }

  lemma ResponseFits(s: Net, s': Net, p: NodeId, via: Link, id: ChannelIdentity)
    requires p in s.reg && WellNamed(s.reg[p]) && (p == via.a || p == via.b)
    requires s'.reg == s.reg[p := Merge(s.reg[p], id)]
    ensures forall x :: x in Response(s.reg[p], p, via, id) ==> Placed(s', x) && Backed(s', x)
    ensures s'.reg[p] != s.reg[p] ==> RelayDue(p, Some(via), id) in Response(s.reg[p], p, via, id)
  {
  }

  lemma HandleStep(s: Net, p: NodeId, via: Link, id: ChannelIdentity)
    requires Inv(s) && Enabled(s, Handle(p, via, id))
    ensures Inv(Apply(s, Handle(p, via, id)))
  {
    hide Identity.Below, ResolveCollision, Covered, StillCarried, Merge, Response, Holds, Backed;
    var s' := Apply(s, Handle(p, via, id));
    assert Placed(s, InBox(p, via, id));
    MergeAscends(s, s', p, id);
    ResponseFits(s, s', p, via, id);
    PacketsFit(s, s', Response(s.reg[p], p, via, id));
    forall h, n | h in s'.up ensures Covered(s', h, n) {
      HandleKeepsCoverage(s, p, via, id, h, n);
    }
  }

  lemma HandleKeepsCoverage(s: Net, p: NodeId, via: Link, id: ChannelIdentity, h: Half, n: Text)
    requires Inv(s) && Enabled(s, Handle(p, via, id)) && h in s.up
    ensures var s' := Apply(s, Handle(p, via, id));
            From(h) in s'.reg && To(h) in s'.reg && Covered(s', h, n)
  {
    hide Identity.Below, ResolveCollision, Response, Covered, Holds, Merge;
    var s' := Apply(s, Handle(p, via, id));
    var box := InBox(p, via, id);
    assert Placed(s, box) && Backed(s, box);
    MergeHolds(s.reg[p], id);
    MergeAscends(s, s', p, id);
    ResponseFits(s, s', p, via, id);
    if From(h) == p && n == id.name && s'.reg[p] != s.reg[p] {
      CoveredByTheNews(s', h, via, id);
    } else {
      assert Covered(s, h, n);
      forall x | x in s.packets && Carries(x, h)
        ensures Holds(s'.reg[To(h)], x.id) || x in s'.packets
      {
      }
      CoverageKept(s, s', h, n);
    }
  }

  /** A node that just took `id` over from the other end of `via`: that end has it already,
      every other one is about to be told. */
  lemma CoveredByTheNews(s: Net, h: Half, via: Link, id: ChannelIdentity)
    requires From(h) in s.reg && To(h) in s.reg
    requires id.name in s.reg[From(h)] && s.reg[From(h)][id.name] == id
    requires RelayDue(From(h), Some(via), id) in s.packets
    requires h.link == via ==> Holds(s.reg[To(h)], id)
    ensures Covered(s, h, id.name)
  {
  }

  lemma SendsFit(s: Net, halves: set<Half>, id: ChannelIdentity)
    requires halves <= s.up && forall h :: h in halves ==> From(h) in s.reg && Holds(s.reg[From(h)], id)
    ensures forall x :: x in Sends(halves, id) ==> Placed(s, x) && Backed(s, x)
    ensures forall h :: h in halves ==> OnWire(h, id) in Sends(halves, id)
  {
  }

  lemma RelayStep(s: Net, p: NodeId, except: Option<Link>, id: ChannelIdentity)
    requires Inv(s) && Enabled(s, Relay(p, except, id))
    ensures Inv(Apply(s, Relay(p, except, id)))
  {
    hide Identity.Below, ResolveCollision, Covered, StillCarried, Sends, Holds;
    var s' := Apply(s, Relay(p, except, id));
    assert Placed(s, RelayDue(p, except, id)) && Backed(s, RelayDue(p, except, id));
    SendsFit(s', Targets(s.up, p, except), id);
    PacketsFit(s, s', Sends(Targets(s.up, p, except), id));
    forall h, n | h in s'.up ensures Covered(s', h, n) {
      RelayKeepsCoverage(s, p, except, id, h, n);
    }
  }

  lemma RelayKeepsCoverage(s: Net, p: NodeId, except: Option<Link>, id: ChannelIdentity, h: Half, n: Text)
    requires Inv(s) && Enabled(s, Relay(p, except, id)) && h in s.up
    ensures Covered(Apply(s, Relay(p, except, id)), h, n)
  {
    hide Identity.Below, ResolveCollision, Sends, Holds;
    var s', due := Apply(s, Relay(p, except, id)), RelayDue(p, except, id);
    assert Placed(s, due) && Backed(s, due) && Covered(s, h, n);
    SendsFit(s', Targets(s.up, p, except), id);
    forall x | x in s.packets && Carries(x, h)
      ensures exists y :: y in s'.packets && Carries(y, h) && y.id == x.id
    {
      if x == due {
        assert OnWire(h, id) in s'.packets && Carries(OnWire(h, id), h);
      } else {
        assert x in s'.packets;
      }
    }
    CoverageKept(s, s', h, n);
  }

  lemma ReplyStep(s: Net, p: NodeId, to: Link, id: ChannelIdentity)
    requires Inv(s) && Enabled(s, Reply(p, to, id))
    ensures Inv(Apply(s, Reply(p, to, id)))
  {
    hide Identity.Below, ResolveCollision, Covered, StillCarried, Sends, Holds;
    var s' := Apply(s, Reply(p, to, id));
    assert Placed(s, ReplyDue(p, to, id)) && Backed(s, ReplyDue(p, to, id));
    SendsFit(s', s.up * {Outgoing(to, p)}, id);
    PacketsFit(s, s', Sends(s.up * {Outgoing(to, p)}, id));
    forall h, n | h in s'.up ensures Covered(s', h, n) {
      ReplyKeepsCoverage(s, p, to, id, h, n);
    }
  }

  lemma ReplyKeepsCoverage(s: Net, p: NodeId, to: Link, id: ChannelIdentity, h: Half, n: Text)
    requires Inv(s) && Enabled(s, Reply(p, to, id)) && h in s.up
    ensures Covered(Apply(s, Reply(p, to, id)), h, n)
  {
    hide Identity.Below, ResolveCollision, Sends, Holds;
    var s' := Apply(s, Reply(p, to, id));
    assert Covered(s, h, n);
    forall x | x in s.packets && Carries(x, h) ensures x in s'.packets { }
    CoverageKept(s, s', h, n);
  }

  lemma StepKeepsInv(s: Net, step: Step)
    requires Inv(s) && Enabled(s, step)
    ensures Inv(Apply(s, step))
  {
    hide Apply, Inv;
    match step
    case Local(p, id) => LocalStep(s, p, id);
    case Adopt(h) => AdoptStep(s, h);
    case Drop(link) => DropStep(s, link);
    case Receive(h, id) => ReceiveStep(s, h, id);
    case Handle(p, via, id) => HandleStep(s, p, via, id);
    case Relay(p, except, id) => RelayStep(s, p, except, id);
    case Reply(p, to, id) => ReplyStep(s, p, to, id);
  }

  /** In every reachable state, for every half-link that is up and every name: the receiver's
      entry is at least the sender's, or one that is at least the sender's is on its way. */
  lemma {:induction false} EveryHalfLinkIsCovered(states: seq<Net>, steps: seq<Step>, k: nat)
    requires Run(states, steps) && Initial(states[0]) && k < |states|
    ensures Inv(states[k])
  {
    if k > 0 {
      EveryHalfLinkIsCovered(states, steps, k - 1);
      StepKeepsInv(states[k - 1], steps[k - 1]);
    }
  }

  // ---------------- agreement ----------------

  /** Nothing is on the wire, in a box or due. */
  predicate Quiescent(s: Net) {
    s.packets == multiset{}
  }

  /** Both directions of a link between `p` and `q` are up. */
  ghost predicate Joined(s: Net, p: NodeId, q: NodeId) {
    exists link :: Half(link, true) in s.up && Half(link, false) in s.up
                   && ((link.a == p && link.b == q) || (link.a == q && link.b == p))
  }

  /** Two registries hold the same winners as far as the order can tell. */
  ghost predicate SameWinners(a: Registry, b: Registry) {
    a.Keys == b.Keys && forall n :: n in a ==> KeyOf(a[n]) == KeyOf(b[n])
  }

  lemma JoinedAgree(s: Net, p: NodeId, q: NodeId)
    requires Inv(s) && Quiescent(s) && Joined(s, p, q)
    ensures p in s.reg && q in s.reg && SameWinners(s.reg[p], s.reg[q])
  {
    var link :| Half(link, true) in s.up && Half(link, false) in s.up
                && ((link.a == p && link.b == q) || (link.a == q && link.b == p));
    forall n ensures n in s.reg[p] ==> n in s.reg[q] && AtMost(KeyOf(s.reg[p][n]), KeyOf(s.reg[q][n]))
             ensures n in s.reg[q] ==> n in s.reg[p] && AtMost(KeyOf(s.reg[q][n]), KeyOf(s.reg[p][n]))
    {
      assert Covered(s, Half(link, true), n) && Covered(s, Half(link, false), n);
    }
    assert s.reg[p].Keys == s.reg[q].Keys;
    forall n | n in s.reg[p] ensures KeyOf(s.reg[p][n]) == KeyOf(s.reg[q][n]) {
      KeysAreTotallyOrdered(KeyOf(s.reg[p][n]), KeyOf(s.reg[q][n]), KeyOf(s.reg[p][n]));
    }
  }

  /** `route` walks from node to node over links that are up both ways. */
  ghost predicate Route(s: Net, route: seq<NodeId>) {
    && |route| > 0 && route[0] in s.reg
    && forall i :: 0 <= i < |route| - 1 ==> Joined(s, route[i], route[i + 1])
  }

  /** Gossip agreement: in every quiescent reachable state, nodes connected by any route hold
      the same winners; if a name's key determines its payload, the very same entries. */
  lemma {:induction false} QuietNetworkAgrees(s: Net, route: seq<NodeId>)
    requires Inv(s) && Quiescent(s) && Route(s, route)
    ensures route[|route| - 1] in s.reg
    ensures SameWinners(s.reg[route[0]], s.reg[route[|route| - 1]])
  {
    if |route| > 1 {
      var n := |route|;
      QuietNetworkAgrees(s, route[..n - 1]);
      assert Joined(s, route[n - 2], route[n - 2 + 1]);
      JoinedAgree(s, route[n - 2], route[n - 1]);
    }
  }

  /** Entries of one name and key are one entry, across the whole network. */
  ghost predicate KeysDeterminePayloads(s: Net) {
    forall p, q, n ::
      p in s.reg && q in s.reg && n in s.reg[p] && n in s.reg[q] && KeyOf(s.reg[p][n]) == KeyOf(s.reg[q][n]) ==>
        s.reg[p][n] == s.reg[q][n]
  }

  lemma QuietNetworkIsIdentical(s: Net, route: seq<NodeId>)
    requires Inv(s) && Quiescent(s) && Route(s, route) && KeysDeterminePayloads(s)
    ensures route[|route| - 1] in s.reg && s.reg[route[0]] == s.reg[route[|route| - 1]]
  {
    QuietNetworkAgrees(s, route);
    var a, b := s.reg[route[0]], s.reg[route[|route| - 1]];
    forall n | n in a ensures a[n] == b[n] { }
  }

  /** The agreement needs every local change to be announced. A claim merged but never made due
      leaves two linked nodes in agreement exactly if it did not move the registry; otherwise they
      stay apart with nothing left on its way to correct them. */
  lemma UnannouncedClaimNeverReachesAnyone(s: Net, p: NodeId, q: NodeId, id: ChannelIdentity)
    requires Inv(s) && Quiescent(s) && Joined(s, p, q) && p != q
    ensures var torn := s.(reg := s.reg[p := Merge(s.reg[p], id)]);
            Quiescent(torn) && (SameWinners(torn.reg[p], torn.reg[q]) <==> Holds(s.reg[p], id))
  {
    hide ResolveCollision;
    JoinedAgree(s, p, q);
    MergeHolds(s.reg[p], id);
    var torn := s.(reg := s.reg[p := Merge(s.reg[p], id)]);
    if id.name in s.reg[p] {
      KeysAreTotallyOrdered(KeyOf(s.reg[p][id.name]), KeyOf(id), KeyOf(id));
    } else {
      assert id.name in torn.reg[p].Keys && id.name !in torn.reg[q].Keys;
    }
  }
}
