/** Posting the batches: what a node writes to its links in frames is what the protocol's relay and
    reply steps put on them, a failed write being a link that drops
    (xchannel-net/src/node.rs, xchannel-net/src/broadcast.rs). */
module GossipPost {
  import opened Bytes
  import opened Identity
  import opened RegistryMap
  import opened RegistryStore
  import opened Gossip
  import opened GossipProofs
  import opened GossipPump
  import opened GossipRepair
  import opened PacketSum

  // ---------------- what the dues put on a half-link ----------------

  /** Whether posting a due packet puts `id` on `h`. */
  ghost function Hit(h: Half, id: ChannelIdentity): Packet -> nat {
    (x: Packet) => if (x.RelayDue? || x.ReplyDue?) && Bound(x, h) && x.id == id then 1 else 0
  }

  /** How often `id` goes out on `h` when all of `dues` are posted. */
  ghost function Owed(dues: multiset<Packet>, h: Half, id: ChannelIdentity): nat {
    Sum(dues, Hit(h, id))
  }

  ghost predicate AllDue(dues: multiset<Packet>) {
    forall x :: x in dues ==> x.RelayDue? || x.ReplyDue?
  }

  function PostStep(x: Packet): Step
    requires x.RelayDue? || x.ReplyDue?
  {
    if x.RelayDue? then Relay(x.node, x.except, x.id) else Reply(x.node, x.to, x.id)
  }

  /** What one post does to every packet count. */
  lemma PostOne(s: Net, x: Packet, y: Packet)
    requires WellFormed(s) && x in s.packets && (x.RelayDue? || x.ReplyDue?)
    ensures Enabled(s, PostStep(x))
    ensures var s' := Apply(s, PostStep(x));
            && s'.reg == s.reg && s'.up == s.up
            && s'.packets[y] == s.packets[y] - (if y == x then 1 else 0)
                                + if y.OnWire? && y.half in s.up then Hit(y.half, y.id)(x) else 0
  {
    hide WellFormed, Bound, Sends, Targets;
    SendsCount(PostHalves(s, x), x.id, y);
    if y.OnWire? && y.half in s.up { HalvesAreBound(s, x, y.half); }
    assert PostHalves(s, x) <= s.up by { HalvesAreUp(s, x); }
  }

  /** The half-links a due packet goes out on. */
  function PostHalves(s: Net, x: Packet): set<Half>
    requires x.RelayDue? || x.ReplyDue?
  {
    if x.RelayDue? then Targets(s.up, x.node, x.except) else s.up * {Outgoing(x.to, x.node)}
  }

  lemma HalvesAreUp(s: Net, x: Packet)
    requires x.RelayDue? || x.ReplyDue?
    ensures PostHalves(s, x) <= s.up
  {
  }

  lemma HalvesAreBound(s: Net, x: Packet, h: Half)
    requires WellFormed(s) && x in s.packets && (x.RelayDue? || x.ReplyDue?) && h in s.up
    ensures h in PostHalves(s, x) <==> Bound(x, h)
  {
    hide WellFormed;
    PlacedAll(s, x);
    UpIsProper(s, h);
  }

  lemma PlacedAll(s: Net, x: Packet)
    requires WellFormed(s) && x in s.packets
    ensures Placed(s, x)
  {
  }

  lemma UpIsProper(s: Net, h: Half)
    requires WellFormed(s) && h in s.up
    ensures h.link.a != h.link.b
  {
  }

  lemma SendsCount(halves: set<Half>, id: ChannelIdentity, y: Packet)
    ensures Sends(halves, id)[y] == if y.OnWire? && y.half in halves && y.id == id then 1 else 0
  {
    var sent := set h | h in halves :: OnWire(h, id);
    if y.OnWire? && y.half in halves && y.id == id { assert OnWire(y.half, id) in sent; }
  }

  /** Every packet count after posting all of `dues`. */
  ghost predicate PostedFrom(s: Net, dues: multiset<Packet>, end: Net) {
    && end.reg == s.reg && end.up == s.up
    && forall y :: end.packets[y] == s.packets[y] - dues[y]
                                     + if y.OnWire? && y.half in s.up then Owed(dues, y.half, y.id) else 0
  }

  /** Posting whatever is due is a run of relays and replies. */
  lemma {:induction false} PostAll(s: Net, dues: multiset<Packet>) returns (states: seq<Net>, steps: seq<Step>)
    requires Inv(s) && dues <= s.packets && AllDue(dues)
    ensures Run(states, steps) && |states| == |steps| + 1 && states[0] == s && Inv(states[|steps|])
    ensures PostedFrom(s, dues, states[|steps|])
    ensures forall k :: 0 <= k < |steps| ==> steps[k].Relay? || steps[k].Reply?
    decreases |dues|
  {
    hide Apply, Enabled, WellFormed, Gossip.Inv, Run, Hit, PostedFrom;
    InvIsWellFormed(s);
    if dues == multiset{} {
      states, steps := [s], [];
      RunStarts(s);
      assert PostedFrom(s, dues, s) by { NothingPosted(s); }
    } else {
      var x :| x in dues;
      var step, rest := PostStep(x), dues - multiset{x};
      PostOne(s, x, x);
      var s' := Apply(s, step);
      StepKeepsInv(s, step);
      assert rest <= s'.packets && PostedFrom(s, multiset{x}, s') by { FirstPosted(s, x, dues); }
      var later, more := PostAll(s', rest);
      states, steps := [s] + later, [step] + more;
      RunPrepends(s, step, later, more);
      PostedOn(s, x, s', rest, later[|more|], dues);
    }
  }

  lemma NothingPosted(s: Net)
    ensures PostedFrom(s, multiset{}, s)
  {
  }

  lemma FirstPosted(s: Net, x: Packet, dues: multiset<Packet>)
    requires WellFormed(s) && x in dues && dues <= s.packets && (x.RelayDue? || x.ReplyDue?)
    ensures Enabled(s, PostStep(x))
    ensures dues - multiset{x} <= Apply(s, PostStep(x)).packets
    ensures PostedFrom(s, multiset{x}, Apply(s, PostStep(x)))
  {
    hide Apply, Enabled, WellFormed, Hit;
    PostOne(s, x, x);
    var s' := Apply(s, PostStep(x));
    forall y ensures s'.packets[y] == s.packets[y] - multiset{x}[y]
                                      + if y.OnWire? && y.half in s.up then Owed(multiset{x}, y.half, y.id) else 0
    {
      PostOne(s, x, y);
      if y.OnWire? { SumOfOne(x, Hit(y.half, y.id)); }
    }
  }

  lemma PostedOn(s: Net, x: Packet, s': Net, rest: multiset<Packet>, end: Net, dues: multiset<Packet>)
    requires PostedFrom(s, multiset{x}, s') && PostedFrom(s', rest, end) && x in dues && rest == dues - multiset{x}
    ensures PostedFrom(s, dues, end)
  {
    hide Hit;
    assert dues == multiset{x} + rest;
    forall y ensures end.packets[y] == s.packets[y] - dues[y]
                                       + if y.OnWire? && y.half in s.up then Owed(dues, y.half, y.id) else 0
    {
      if y.OnWire? { SumAdds(multiset{x}, rest, Hit(y.half, y.id)); }
    }
  }

  // ---------------- failed writes ----------------

  /** The network without the links in `gone`. */
  ghost predicate Without(s: Net, gone: set<Link>, end: Net) {
    && end.reg == s.reg
    && (forall h :: h in end.up <==> h in s.up && h.link !in gone)
    && forall y :: end.packets[y] == if y.OnWire? && y.half.link in gone then 0 else s.packets[y]
  }

  lemma {:induction false} DropAll(s: Net, gone: set<Link>) returns (states: seq<Net>, steps: seq<Step>)
    requires Inv(s)
    ensures Run(states, steps) && |states| == |steps| + 1 && states[0] == s && Inv(states[|steps|])
    ensures Without(s, gone, states[|steps|])
    decreases gone
  {
    hide Apply, WellFormed, Gossip.Inv, Run;
    InvIsWellFormed(s);
    if gone == {} {
      states, steps := [s], [];
      RunStarts(s);
    } else {
      var l :| l in gone;
      var s' := Apply(s, Drop(l));
      StepKeepsInv(s, Drop(l));
      assert Without(s, {l}, s') by { OneGone(s, l); }
      var later, more := DropAll(s', gone - {l});
      states, steps := [s] + later, [Drop(l)] + more;
      RunPrepends(s, Drop(l), later, more);
    }
  }

  lemma OneGone(s: Net, l: Link)
    requires WellFormed(s)
    ensures Without(s, {l}, Apply(s, Drop(l)))
  {
    var s' := Apply(s, Drop(l));
    forall h ensures h in s'.up <==> h in s.up && h.link != l {
      assert h == Half(h.link, h.forward);
    }
  }

  lemma RunsJoin(states: seq<Net>, steps: seq<Step>, later: seq<Net>, more: seq<Step>)
    requires Run(states, steps) && Run(later, more) && later[0] == states[|steps|]
    ensures Run(states + later[1..], steps + more)
    ensures (states + later[1..])[|steps| + |more|] == later[|more|]
  {
    hide Apply, Enabled, WellFormed;
    var all, both := states + later[1..], steps + more;
    forall k | 0 <= k < |both|
      ensures WellFormed(all[k]) && Enabled(all[k], both[k]) && all[k + 1] == Apply(all[k], both[k])
    {
      if k >= |steps| {
        assert all[k] == later[k - |steps|] && all[k + 1] == later[k - |steps| + 1] && both[k] == more[k - |steps|];
      }
    }
  }

  // ---------------- what the frames hold ----------------

  function RelayDues(p: NodeId, from: Link, delta: seq<ChannelIdentity>): multiset<Packet> {
    if delta == [] then multiset{}
    else RelayDues(p, from, delta[..|delta| - 1]) + multiset{RelayDue(p, Some(from), delta[|delta| - 1])}
  }

  function ReplyDues(p: NodeId, to: Link, delta: seq<ChannelIdentity>): multiset<Packet> {
    if delta == [] then multiset{}
    else ReplyDues(p, to, delta[..|delta| - 1]) + multiset{ReplyDue(p, to, delta[|delta| - 1])}
  }

  lemma {:induction false} DuesCount(p: NodeId, link: Link, delta: seq<ChannelIdentity>, x: Packet)
    ensures RelayDues(p, link, delta)[x]
         == if x.RelayDue? && x.node == p && x.except == Some(link) then multiset(delta)[x.id] else 0
    ensures ReplyDues(p, link, delta)[x]
         == if x.ReplyDue? && x.node == p && x.to == link then multiset(delta)[x.id] else 0
  {
    if delta != [] {
      DuesCount(p, link, delta[..|delta| - 1], x);
      LastCounts(delta, x.id);
    }
  }

  lemma DueHits(p: NodeId, link: Link, d: ChannelIdentity, l: Link, id: ChannelIdentity)
    requires p == l.a || p == l.b
    ensures Hit(Outgoing(l, p), id)(RelayDue(p, Some(link), d)) == if l != link && d == id then 1 else 0
    ensures Hit(Outgoing(l, p), id)(ReplyDue(p, link, d)) == if l == link && d == id then 1 else 0
  {
  }

  lemma LastCounts(delta: seq<ChannelIdentity>, id: ChannelIdentity)
    requires delta != []
    ensures multiset(delta)[id]
         == multiset(delta[..|delta| - 1])[id] + if delta[|delta| - 1] == id then 1 else 0
  {
    assert delta == delta[..|delta| - 1] + [delta[|delta| - 1]];
  }

  /** What a relayed delta puts on the half-link over `l`. */
  lemma {:induction false} RelayHits(p: NodeId, from: Link, delta: seq<ChannelIdentity>, l: Link, id: ChannelIdentity)
    requires p == l.a || p == l.b
    ensures Owed(RelayDues(p, from, delta), Outgoing(l, p), id) == if l == from then 0 else multiset(delta)[id]
  {
    if delta != [] {
      hide Hit;
      var n, h := |delta| - 1, Outgoing(l, p);
      RelayHits(p, from, delta[..n], l, id);
      LastCounts(delta, id);
      DueHits(p, from, delta[n], l, id);
      SumAdds(RelayDues(p, from, delta[..n]), multiset{RelayDue(p, Some(from), delta[n])}, Hit(h, id));
      SumOfOne(RelayDue(p, Some(from), delta[n]), Hit(h, id));
    }
  }

  lemma {:induction false} ReplyHits(p: NodeId, to: Link, delta: seq<ChannelIdentity>, l: Link, id: ChannelIdentity)
    requires p == l.a || p == l.b
    ensures Owed(ReplyDues(p, to, delta), Outgoing(l, p), id) == if l == to then multiset(delta)[id] else 0
  {
    if delta != [] {
      hide Hit;
      var n, h := |delta| - 1, Outgoing(l, p);
      ReplyHits(p, to, delta[..n], l, id);
      LastCounts(delta, id);
      DueHits(p, to, delta[n], l, id);
      SumAdds(ReplyDues(p, to, delta[..n]), multiset{ReplyDue(p, to, delta[n])}, Hit(h, id));
      SumOfOne(ReplyDue(p, to, delta[n]), Hit(h, id));
    }
  }

  lemma FlattenFirst(a: seq<Frame>)
    requires a != []
    ensures Flatten(a) == a[0] + Flatten(a[1..])
  {
  }

  lemma {:induction false} FlattenAdds(a: seq<Frame>, b: seq<Frame>)
    ensures Flatten(a + b) == Flatten(a) + Flatten(b)
  {
    hide Flatten;
    if a == [] {
      assert a + b == b;
      FlattenNothing();
    } else {
      FlattenAdds(a[1..], b);
      FlattenFirst(a + b);
      FlattenFirst(a);
      assert (a + b)[0] == a[0] && (a + b)[1..] == a[1..] + b;
      assert a[0] + (Flatten(a[1..]) + Flatten(b)) == a[0] + Flatten(a[1..]) + Flatten(b);
    }
  }

  lemma FlattenNothing()
    ensures Flatten([]) == []
  {
  }

  type Peers = map<Link, seq<Frame>>

  /** The frames written to one link hold exactly what the dues put on its half-link. */
  ghost predicate SentOn(before: seq<Frame>, after: seq<Frame>, dues: multiset<Packet>, h: Half) {
    && before <= after
    && forall id :: multiset(Flatten(after[|before|..]))[id] == Owed(dues, h, id)
  }

  /** ... for every link still up. */
  ghost predicate SentFor(before: Peers, after: Peers, dues: multiset<Packet>, p: NodeId) {
    forall l :: l in after ==> l in before && SentOn(before[l], after[l], dues, Outgoing(l, p))
  }

  /** One more batch that does not go to this link. */
  lemma NotSentOn(before: seq<Frame>, mid: seq<Frame>, dues: multiset<Packet>, more: multiset<Packet>, h: Half)
    requires SentOn(before, mid, dues, h) && forall id :: Owed(more, h, id) == 0
    ensures SentOn(before, mid, dues + more, h)
  {
    hide Hit, Flatten;
    forall id ensures multiset(Flatten(mid[|before|..]))[id] == Owed(dues + more, h, id) {
      SumAdds(dues, more, Hit(h, id));
      assert Owed(more, h, id) == 0;
    }
  }

  /** One more batch that does, whole. */
  lemma BatchSentOn(before: seq<Frame>, mid: seq<Frame>, dues: multiset<Packet>, more: multiset<Packet>, h: Half,
                    delta: seq<ChannelIdentity>)
    requires SentOn(before, mid, dues, h) && forall id :: Owed(more, h, id) == multiset(delta)[id]
    ensures SentOn(before, mid + Chunks(delta), dues + more, h)
  {
    hide Hit, Flatten, Chunks;
    var after := mid + Chunks(delta);
    assert after[|before|..] == mid[|before|..] + Chunks(delta);
    FlattenAdds(mid[|before|..], Chunks(delta));
    ChunksFlattenBack(delta);
    forall id ensures multiset(Flatten(after[|before|..]))[id] == Owed(dues + more, h, id) {
      SumAdds(dues, more, Hit(h, id));
      assert Owed(more, h, id) == multiset(delta)[id];
    }
  }

  lemma RelaySent(before: Peers, mid: Peers, after: Peers, dues: multiset<Packet>, p: NodeId, from: Link,
                  delta: seq<ChannelIdentity>)
    requires SentFor(before, mid, dues, p) && forall l :: l in mid ==> p == l.a || p == l.b
    requires forall l :: l in after ==> l in mid && after[l] == mid[l] + if l == from then [] else Chunks(delta)
    ensures SentFor(before, after, dues + RelayDues(p, from, delta), p)
  {
    hide Hit, Flatten, Chunks, SentOn, Owed;
    forall l | l in after
      ensures l in before && SentOn(before[l], after[l], dues + RelayDues(p, from, delta), Outgoing(l, p))
    {
      forall id
        ensures Owed(RelayDues(p, from, delta), Outgoing(l, p), id) == if l == from then 0 else multiset(delta)[id]
      {
        RelayHits(p, from, delta, l, id);
      }
      if l == from {
        assert after[l] == mid[l];
        NotSentOn(before[l], mid[l], dues, RelayDues(p, from, delta), Outgoing(l, p));
      } else {
        BatchSentOn(before[l], mid[l], dues, RelayDues(p, from, delta), Outgoing(l, p), delta);
      }
    }
  }

  lemma ReplySent(before: Peers, mid: Peers, after: Peers, dues: multiset<Packet>, p: NodeId, to: Link,
                  delta: seq<ChannelIdentity>)
    requires SentFor(before, mid, dues, p) && forall l :: l in mid ==> p == l.a || p == l.b
    requires forall l :: l in after ==> l in mid && after[l] == mid[l] + if l == to then Chunks(delta) else []
    ensures SentFor(before, after, dues + ReplyDues(p, to, delta), p)
  {
    hide Hit, Flatten, Chunks, SentOn, Owed;
    forall l | l in after
      ensures l in before && SentOn(before[l], after[l], dues + ReplyDues(p, to, delta), Outgoing(l, p))
    {
      forall id
        ensures Owed(ReplyDues(p, to, delta), Outgoing(l, p), id) == if l == to then multiset(delta)[id] else 0
      {
        ReplyHits(p, to, delta, l, id);
      }
      if l == to {
        BatchSentOn(before[l], mid[l], dues, ReplyDues(p, to, delta), Outgoing(l, p), delta);
      } else {
        assert after[l] == mid[l];
        NotSentOn(before[l], mid[l], dues, ReplyDues(p, to, delta), Outgoing(l, p));
      }
    }
  }

  // ---------------- posting the batches ----------------

  /** The dues the batches of the links in `done` stand for. */
  ghost predicate Stands(dues: multiset<Packet>, p: NodeId, toRelay: Batches, toReply: Batches) {
    forall x :: dues[x] ==
      match x
      case RelayDue(q, except, id) => if q == p && except.Some? then multiset(Batch(toRelay, except.value))[id] else 0
      case ReplyDue(q, to, id) => if q == p then multiset(Batch(toReply, to))[id] else 0
      case _ => 0
  }

  lemma StandsRelay(dues: multiset<Packet>, p: NodeId, toRelay: Batches, toReply: Batches, from: Link,
                    delta: seq<ChannelIdentity>)
    requires Stands(dues, p, toRelay, toReply) && from !in toRelay
    ensures Stands(dues + RelayDues(p, from, delta), p, toRelay[from := delta], toReply)
  {
    forall x { DuesCount(p, from, delta, x); }
  }

  lemma StandsReply(dues: multiset<Packet>, p: NodeId, toRelay: Batches, toReply: Batches, to: Link,
                    delta: seq<ChannelIdentity>)
    requires Stands(dues, p, toRelay, toReply) && to !in toReply
    ensures Stands(dues + ReplyDues(p, to, delta), p, toRelay, toReply[to := delta])
  {
    forall x { DuesCount(p, to, delta, x); }
  }

  lemma NothingSent(peers: Peers, p: NodeId)
    ensures SentFor(peers, peers, multiset{}, p) && Stands(multiset{}, p, map[], map[])
  {
    forall l | l in peers ensures SentOn(peers[l], peers[l], multiset{}, Outgoing(l, p)) {
      assert peers[l][|peers[l]|..] == [];
    }
  }

  /** The part of a map over some of its keys. */
  function Part(batches: Batches, keys: set<Link>): Batches {
    map l | l in batches && l in keys :: batches[l]
  }

  lemma OneMorePart(batches: Batches, keys: set<Link>, l: Link)
    requires l in batches && l !in keys
    ensures Part(batches, keys + {l}) == Part(batches, keys)[l := batches[l]] && l !in Part(batches, keys)
    ensures Part(batches, {}) == map[] && Part(batches, batches.Keys) == batches
  {
  }

  lemma WholePart(batches: Batches)
    ensures Part(batches, {}) == map[] && Part(batches, batches.Keys) == batches
  {
  }

  /** Relays every batch, link by link in any order; a link whose write fails drops out. */
  method RelayBatches(d: Dissemination, ghost p: NodeId, toRelay: Batches, fails: map<Link, seq<set<Link>>>)
    returns (ghost dues: multiset<Packet>)
    requires forall l :: l in d.peers ==> p == l.a || p == l.b
    modifies d
    ensures Stands(dues, p, toRelay, map[]) && SentFor(old(d.peers), d.peers, dues, p)
    ensures d.peers.Keys <= old(d.peers).Keys
  {
    hide SentFor, Stands, Part, Chunks, RelayDues;
    ghost var before := d.peers;
    NothingSent(before, p);
    WholePart(toRelay);
    dues := multiset{};
    var done: set<Link> := {};
    while done != toRelay.Keys
      invariant done <= toRelay.Keys && d.peers.Keys <= before.Keys
      invariant Stands(dues, p, Part(toRelay, done), map[]) && SentFor(before, d.peers, dues, p)
      decreases |toRelay.Keys - done|
    {
      var from :| from in toRelay.Keys - done;
      ghost var mid := d.peers;
      d.Relay(from, toRelay[from], if from in fails then fails[from] else []);
      OneMorePart(toRelay, done, from);
      StandsRelay(dues, p, Part(toRelay, done), map[], from, toRelay[from]);
      RelaySent(before, mid, d.peers, dues, p, from, toRelay[from]);
      dues := dues + RelayDues(p, from, toRelay[from]);
      assert toRelay.Keys - (done + {from}) < toRelay.Keys - done;
      done := done + {from};
    }
  }

  /** Relays every batch, then replies to every sender that is behind. Whatever fails, the links that
      are left have been sent exactly what the batches' dues put on them. */
  method PostBatches(d: Dissemination, ghost p: NodeId, toRelay: Batches, toReply: Batches,
                     relayFails: map<Link, seq<set<Link>>>, replyFails: map<Link, seq<set<Link>>>)
    returns (ghost dues: multiset<Packet>)
    requires forall l :: l in d.peers ==> p == l.a || p == l.b
    modifies d
    ensures Stands(dues, p, toRelay, toReply) && SentFor(old(d.peers), d.peers, dues, p)
    ensures d.peers.Keys <= old(d.peers).Keys
  {
    hide SentFor, Stands, Part, Chunks, ReplyDues;
    ghost var before := d.peers;
    dues := RelayBatches(d, p, toRelay, relayFails);
    WholePart(toReply);
    var done: set<Link> := {};
    while done != toReply.Keys
      invariant done <= toReply.Keys && d.peers.Keys <= before.Keys
      invariant Stands(dues, p, toRelay, Part(toReply, done)) && SentFor(before, d.peers, dues, p)
      decreases |toReply.Keys - done|
    {
      var to :| to in toReply.Keys - done;
      ghost var mid := d.peers;
      d.Reply(to, toReply[to], if to in replyFails then replyFails[to] else []);
      OneMorePart(toReply, done, to);
      StandsReply(dues, p, toRelay, Part(toReply, done), to, toReply[to]);
      RepliedOn(mid, d.peers, to, toReply[to]);
      ReplySent(before, mid, d.peers, dues, p, to, toReply[to]);
      dues := dues + ReplyDues(p, to, toReply[to]);
      assert toReply.Keys - (done + {to}) < toReply.Keys - done;
      done := done + {to};
    }
  }

  lemma RepliedOn(mid: Peers, after: Peers, to: Link, delta: seq<ChannelIdentity>)
    requires || (after == mid && to !in mid)
             || (to in mid && to in after && after[to] == mid[to] + Chunks(delta) && after - {to} == mid - {to})
             || after == mid - {to}
    ensures forall l :: l in after ==> l in mid && after[l] == mid[l] + if l == to then Chunks(delta) else []
  {
    forall l | l in after ensures l in mid && after[l] == mid[l] + if l == to then Chunks(delta) else [] {
      if l != to && to in after { assert l in after - {to}; assert (after - {to})[l] == (mid - {to})[l]; }
    }
  }

  // ---------------- the whole pump ----------------

  /** The dues of an inbox are those its batches stand for. */
  lemma InboxDues(reg: Registry, p: NodeId, arrivals: seq<Arrival>, toRelay: Batches, toReply: Batches,
                  dues: multiset<Packet>)
    requires RelayReady(toRelay, reg, arrivals) && ReplyReady(toReply, reg, arrivals)
             && Stands(dues, p, toRelay, toReply)
    ensures dues == DueOf(reg, p, arrivals) && AllDue(dues)
  {
    hide DueOf, RelayOf, ReplyOf, Batch;
    forall x ensures dues[x] == DueOf(reg, p, arrivals)[x] {
      match x
      case RelayDue(q, except, id) =>
        if q == p && except.Some? { RelaysAreTheDues(reg, p, arrivals, except.value, id); }
        else if x in DueOf(reg, p, arrivals) { NothingElseIsDue(reg, p, arrivals, x); }
      case ReplyDue(q, to, id) =>
        if q == p { RepliesAreTheDues(reg, p, arrivals, to, id); }
        else if x in DueOf(reg, p, arrivals) { NothingElseIsDue(reg, p, arrivals, x); }
      case _ => if x in DueOf(reg, p, arrivals) { NothingElseIsDue(reg, p, arrivals, x); }
    }
  }

  /** What a turn of the pump at `p` makes of the network: the arrivals are merged and gone from the
      inbox, the links whose writes failed are down, and each link left carries what its new frames hold. */
  ghost predicate PumpedInto(s: Net, p: NodeId, arrivals: seq<Arrival>, before: Peers, after: Peers, end: Net)
    requires p in s.reg
  {
    && Inv(end) && end.reg == s.reg[p := AfterArrivals(s.reg[p], arrivals)]
    && (forall h :: h in end.up <==> h in s.up && h.link !in before.Keys - after.Keys)
    && (forall y: Packet :: !y.OnWire? ==> end.packets[y] + Boxes(p, arrivals)[y] == s.packets[y])
    && (forall l :: l in after ==> l in before && before[l] <= after[l])
    && (forall l, id :: l in after && Outgoing(l, p) in s.up ==>
          end.packets[OnWire(Outgoing(l, p), id)]
          == s.packets[OnWire(Outgoing(l, p), id)] + multiset(Flatten(after[l][|before[l]|..]))[id])
  }

  /** One turn of the pump is a run of the protocol: every arrival merged on its own, everything due
      posted on its own, the links whose writes failed dropped; and each link left carries exactly
      what its frames hold. */
  lemma PumpIsARun(s: Net, p: NodeId, arrivals: seq<Arrival>, toRelay: Batches, toReply: Batches,
                   dues: multiset<Packet>,
                   before: Peers, after: Peers) returns (states: seq<Net>, steps: seq<Step>)
    requires Inv(s) && p in s.reg && Boxes(p, arrivals) <= s.packets
    requires RelayReady(toRelay, s.reg[p], arrivals) && ReplyReady(toReply, s.reg[p], arrivals)
    requires Stands(dues, p, toRelay, toReply) && SentFor(before, after, dues, p)
    ensures Run(states, steps) && |states| == |steps| + 1 && states[0] == s
    ensures PumpedInto(s, p, arrivals, before, after, states[|steps|])
  {
    hide Apply, WellFormed, Gossip.Inv, Run, Enabled, DueOf, Stands, RelayReady, ReplyReady, Pumped, PostedFrom,
         Without, SentFor;
    InboxDues(s.reg[p], p, arrivals, toRelay, toReply, dues);
    var pumped := PumpIsManyDeliveries(s, p, arrivals);
    var mid := Pumped(s, p, arrivals);
    assert dues <= mid.packets by { DuesArePumped(s, p, arrivals); }
    var posted, posts := PostAll(mid, dues);
    var dropped, drops := DropAll(posted[|posts|], before.Keys - after.Keys);
    RunsJoin(posted, posts, dropped, drops);
    RunsJoin(pumped, Handles(p, arrivals), posted + dropped[1..], posts + drops);
    states, steps := pumped + (posted + dropped[1..])[1..], Handles(p, arrivals) + (posts + drops);
    assert |states| == |steps| + 1;
    PumpedCounts(s, p, arrivals, dues, before, after, posted[|posts|], states[|steps|]);
  }

  /** One turn of the pump: the inbox is merged into the node's own registry, the batches are posted, and
      the network has made a run of the protocol. The names found retired are handed back. */
  method Pump(store: Store, d: Dissemination, ghost p: NodeId, arrivals: seq<Arrival>,
              relayFails: map<Link, seq<set<Link>>>, replyFails: map<Link, seq<set<Link>>>, ghost s: Net)
    returns (retired: seq<Text>, ghost states: seq<Net>, ghost steps: seq<Step>)
    requires store.Valid() && Inv(s) && p in s.reg && store.Map() == s.reg[p] && Boxes(p, arrivals) <= s.packets
    requires forall l :: l in d.peers ==> p == l.a || p == l.b
    modifies store, d
    ensures store.Valid() && retired == RetiredOf(s.reg[p], arrivals)
    ensures Run(states, steps) && |states| == |steps| + 1 && states[0] == s
    ensures PumpedInto(s, p, arrivals, old(d.peers), d.peers, states[|steps|])
    ensures store.Map() == states[|steps|].reg[p]
  {
    hide Gossip.Inv, Run, Boxes, Stands, SentFor, RelayReady, ReplyReady;
    ghost var before := d.peers;
    var toRelay, toReply;
    toRelay, toReply, retired := MergeInbox(store, arrivals);
    ghost var dues := PostBatches(d, p, toRelay, toReply, relayFails, replyFails);
    states, steps := PumpIsARun(s, p, arrivals, toRelay, toReply, dues, before, d.peers);
  }

  lemma DuesArePumped(s: Net, p: NodeId, arrivals: seq<Arrival>)
    requires p in s.reg
    ensures DueOf(s.reg[p], p, arrivals) <= Pumped(s, p, arrivals).packets
  {
    hide DueOf, Boxes;
  }

  /** The packet counts at the end of the pump. */
  lemma PumpedCounts(s: Net, p: NodeId, arrivals: seq<Arrival>, dues: multiset<Packet>, before: Peers, after: Peers,
                     posted: Net, end: Net)
    requires p in s.reg && Boxes(p, arrivals) <= s.packets && dues == DueOf(s.reg[p], p, arrivals)
    requires SentFor(before, after, dues, p) && AllDue(dues)
    requires PostedFrom(Pumped(s, p, arrivals), dues, posted) && Without(posted, before.Keys - after.Keys, end)
    ensures end.reg == s.reg[p := AfterArrivals(s.reg[p], arrivals)]
    ensures forall h :: h in end.up <==> h in s.up && h.link !in before.Keys - after.Keys
    ensures forall y: Packet :: !y.OnWire? ==> end.packets[y] + Boxes(p, arrivals)[y] == s.packets[y]
    ensures forall l :: l in after ==> l in before && before[l] <= after[l]
    ensures forall l, id :: l in after && Outgoing(l, p) in s.up ==>
              end.packets[OnWire(Outgoing(l, p), id)]
              == s.packets[OnWire(Outgoing(l, p), id)] + multiset(Flatten(after[l][|before[l]|..]))[id]
  {
    hide DueOf, Boxes, Owed, Flatten, AfterArrivals;
    BoxesAreBoxes(p, arrivals);
    forall l, id | l in after && Outgoing(l, p) in s.up
      ensures end.packets[OnWire(Outgoing(l, p), id)]
              == s.packets[OnWire(Outgoing(l, p), id)] + multiset(Flatten(after[l][|before[l]|..]))[id]
    {
      var y := OnWire(Outgoing(l, p), id);
      assert posted.packets[y] == s.packets[y] + Owed(dues, Outgoing(l, p), id);
      assert SentOn(before[l], after[l], dues, Outgoing(l, p));
    }
  }

  lemma {:induction false} BoxesAreBoxes(p: NodeId, arrivals: seq<Arrival>)
    ensures forall y :: y in Boxes(p, arrivals) ==> y.InBox?
  {
    if arrivals != [] { BoxesAreBoxes(p, arrivals[..|arrivals| - 1]); }
  }
}
