/** Collapsing duplicate links. Both ends of a pair may have dialled; each end decides alone which
    link to keep, from names for links that both compute alike (xchannel-net/src/broadcast.rs). */
module Links {
  import opened Identity

  type Addr = nat
  type PeerId = nat

  /** The two endpoint addresses of a connection, in order. */
  datatype LinkKey = LinkKey(low: Addr, high: Addr)

  function KeyFor(local: Addr, peer: Addr): LinkKey {
    if local <= peer then LinkKey(local, peer) else LinkKey(peer, local)
  }

  /** A link as one end holds it: its own number for it, its name, and whether it dialled. */
  datatype Peer = Peer(id: PeerId, key: LinkKey, outbound: bool)

  /** What a heartbeat on a link said: who is there, and at which control address. */
  datatype Claim = Claim(node: NodeId, control: Addr)

  type Claims = map<PeerId, Claim>

  function Initiator(p: Peer, peerNode: NodeId, self: NodeId): NodeId {
    if p.outbound then self else peerNode
  }

  /** What links to one node compete by. */
  datatype Rank = Rank(initiator: NodeId, key: LinkKey)

  function RankOf(p: Peer, peerNode: NodeId, self: NodeId): Rank {
    Rank(Initiator(p, peerNode, self), p.key)
  }

  predicate Beats(x: Rank, y: Rank) {
    if x.initiator != y.initiator then x.initiator < y.initiator
    else if x.key.low != y.key.low then x.key.low < y.key.low
    else x.key.high < y.key.high
  }

  /** Both ends of a connection give it the same rank, whatever they number it. */
  lemma BothEndsRankAlike(dialler: NodeId, other: NodeId, near: Addr, far: Addr, i: PeerId, j: PeerId)
    ensures RankOf(Peer(i, KeyFor(near, far), true), other, dialler)
         == RankOf(Peer(j, KeyFor(far, near), false), dialler, other)
  {
  }

  // ---------------- what one end keeps ----------------

  /** Ids claimed at two control addresses: two machines, not two links. */
  ghost predicate Conflicting(peers: seq<Peer>, ids: Claims, n: NodeId) {
    exists p, q :: p in peers && q in peers && p.id in ids && q.id in ids
                   && ids[p.id].node == n && ids[q.id].node == n && ids[p.id].control != ids[q.id].control
  }

  /** A link whose far end is known and not disputed. */
  predicate Settled(p: Peer, ids: Claims, conflicted: set<NodeId>) {
    p.id in ids && ids[p.id].node !in conflicted
  }

  ghost predicate Keeps(peers: seq<Peer>, ids: Claims, conflicted: set<NodeId>, self: NodeId, p: Peer) {
    Settled(p, ids, conflicted) ==>
      forall q :: q in peers && Settled(q, ids, conflicted) && ids[q.id].node == ids[p.id].node ==>
        !Beats(RankOf(q, ids[q.id].node, self), RankOf(p, ids[p.id].node, self))
  }

  /** The best rank seen so far for every settled node. */
  ghost predicate Best(winner: map<NodeId, Rank>, peers: seq<Peer>, ids: Claims, conflicted: set<NodeId>,
                       self: NodeId) {
    && (forall q :: q in peers && Settled(q, ids, conflicted) ==>
          ids[q.id].node in winner && !Beats(RankOf(q, ids[q.id].node, self), winner[ids[q.id].node]))
    && (forall n :: n in winner ==>
          exists q :: q in peers && Settled(q, ids, conflicted) && ids[q.id].node == n
              && RankOf(q, n, self) == winner[n])
  }

  lemma BestGrows(winner: map<NodeId, Rank>, peers: seq<Peer>, p: Peer, ids: Claims, conflicted: set<NodeId>,
                  self: NodeId)
    requires Best(winner, peers, ids, conflicted, self)
    ensures Settled(p, ids, conflicted) ==>
              var n, r := ids[p.id].node, RankOf(p, ids[p.id].node, self);
              Best(winner[n := if n in winner && !Beats(r, winner[n]) then winner[n] else r], peers + [p], ids,
                  conflicted, self)
    ensures !Settled(p, ids, conflicted) ==> Best(winner, peers + [p], ids, conflicted, self)
  {
  }

  /** A settled link has its node's best rank exactly if no other settled link of that node beats it. */
  lemma BestIsKept(winner: map<NodeId, Rank>, peers: seq<Peer>, ids: Claims, conflicted: set<NodeId>, self: NodeId,
                   p: Peer)
    requires Best(winner, peers, ids, conflicted, self) && p in peers && Settled(p, ids, conflicted)
    ensures ids[p.id].node in winner
    ensures winner[ids[p.id].node] == RankOf(p, ids[p.id].node, self) <==> Keeps(peers, ids, conflicted, self, p)
  {
  }

  lemma RanksAreTotal(x: Rank, y: Rank)
    ensures Beats(x, y) || x == y || Beats(y, x)
    ensures !(Beats(x, y) && Beats(y, x))
  {
  }

  class Broadcast {
    const self: NodeId
    var peers: seq<Peer>

    constructor (node: NodeId, links: seq<Peer>)
      ensures self == node && peers == links
    {
      self, peers := node, links;
    }

    /** The control addresses each node was claimed at. */
    method Addresses(ids: Claims) returns (addrs: map<NodeId, set<Addr>>)
      ensures forall p :: p in peers && p.id in ids ==>
              ids[p.id].node in addrs && ids[p.id].control in addrs[ids[p.id].node]
      ensures forall n, a :: n in addrs && a in addrs[n] ==>
              exists p :: p in peers && p.id in ids && ids[p.id] == Claim(n, a)
    {
      addrs := map[];
      for k := 0 to |peers|
        invariant forall p :: p in peers[..k] && p.id in ids ==>
                  ids[p.id].node in addrs && ids[p.id].control in addrs[ids[p.id].node]
        invariant forall n, a :: n in addrs && a in addrs[n] ==>
                  exists p :: p in peers[..k] && p.id in ids && ids[p.id] == Claim(n, a)
      {
        assert peers[..k + 1] == peers[..k] + [peers[k]];
        if peers[k].id in ids {
          var n, a := ids[peers[k].id].node, ids[peers[k].id].control;
          ghost var before := addrs;
          addrs := addrs[n := (if n in addrs then addrs[n] else {}) + {a}];
          forall m, b | m in addrs && b in addrs[m]
            ensures exists p :: p in peers[..k + 1] && p.id in ids && ids[p.id] == Claim(m, b)
          {
            if m == n && b == a {
              assert peers[k] in peers[..k + 1];
            } else {
              assert m in before && b in before[m];
              var p :| p in peers[..k] && p.id in ids && ids[p.id] == Claim(m, b);
              assert p in peers[..k + 1];
            }
          }
        }
      }
      assert peers[..|peers|] == peers;
    }

    /** Keeps every link not identified yet, every link of a disputed id, and the best link of
        every other node; reports the disputed ids. */
    method DedupLinks(ids: Claims, reported: set<NodeId>) returns (conflicted: set<NodeId>)
      modifies this
      ensures forall n :: n in conflicted <==> n in reported || Conflicting(old(peers), ids, n)
      ensures forall p :: p in peers <==> p in old(peers) && Keeps(old(peers), ids, conflicted, self, p)
    {
      var addrs := Addresses(ids);
      conflicted := (set n | n in addrs && |addrs[n]| > 1) + reported;
      forall n ensures n in conflicted <==> n in reported || Conflicting(peers, ids, n) {
        Disputed(peers, ids, addrs, n);
      }
      var winner := Winners(ids, conflicted);
      hide Best, Keeps, RankOf, Conflicting;
      var keep: seq<Peer> := [];
      for k := 0 to |peers|
        invariant peers == old(peers)
        invariant forall p :: p in keep <==> p in peers[..k] && Keeps(peers, ids, conflicted, self, p)
      {
        var p := peers[k];
        assert peers[..k + 1] == peers[..k] + [p] && p in peers;
        if Settled(p, ids, conflicted) {
          BestIsKept(winner, peers, ids, conflicted, self, p);
          if winner[ids[p.id].node] == RankOf(p, ids[p.id].node, self) { keep := keep + [p]; }
        } else {
          UnsettledIsKept(peers, ids, conflicted, self, p);
          keep := keep + [p];
        }
      }
      assert peers[..|peers|] == peers;
      peers := keep;
    }

    /** The best rank per settled node. */
    method Winners(ids: Claims, conflicted: set<NodeId>) returns (winner: map<NodeId, Rank>)
      ensures Best(winner, peers, ids, conflicted, self)
    {
      winner := map[];
      for k := 0 to |peers|
        invariant Best(winner, peers[..k], ids, conflicted, self)
      {
        hide Best, RankOf, Beats;
        BestGrows(winner, peers[..k], peers[k], ids, conflicted, self);
        assert peers[..k + 1] == peers[..k] + [peers[k]];
        if Settled(peers[k], ids, conflicted) {
          var n := ids[peers[k].id].node;
          var r := RankOf(peers[k], n, self);
          winner := winner[n := if n in winner && !Beats(r, winner[n]) then winner[n] else r];
        }
      }
      assert peers[..|peers|] == peers;
    }
  }

  lemma UnsettledIsKept(peers: seq<Peer>, ids: Claims, conflicted: set<NodeId>, self: NodeId, p: Peer)
    requires !Settled(p, ids, conflicted)
    ensures Keeps(peers, ids, conflicted, self, p)
  {
  }

  lemma Disputed(peers: seq<Peer>, ids: Claims, addrs: map<NodeId, set<Addr>>, n: NodeId)
    requires forall p :: p in peers && p.id in ids ==>
             ids[p.id].node in addrs && ids[p.id].control in addrs[ids[p.id].node]
    requires forall m, a :: m in addrs && a in addrs[m] ==>
             exists p :: p in peers && p.id in ids && ids[p.id] == Claim(m, a)
    ensures (n in addrs && |addrs[n]| > 1) <==> Conflicting(peers, ids, n)
  {
    if Conflicting(peers, ids, n) {
      var p, q :| p in peers && q in peers && p.id in ids && q.id in ids
                  && ids[p.id].node == n && ids[q.id].node == n && ids[p.id].control != ids[q.id].control;
      assert {ids[p.id].control, ids[q.id].control} <= addrs[n];
      TwoOfThem(addrs[n], ids[p.id].control, ids[q.id].control);
    }
    if n in addrs && |addrs[n]| > 1 {
      var a :| a in addrs[n];
      assert |addrs[n] - {a}| == |addrs[n]| - 1;
      var b :| b in addrs[n] - {a};
      var p :| p in peers && p.id in ids && ids[p.id] == Claim(n, a);
      var q :| q in peers && q.id in ids && ids[q.id] == Claim(n, b);
    }
  }

  lemma TwoOfThem(s: set<Addr>, a: Addr, b: Addr)
    requires a in s && b in s && a != b
    ensures |s| > 1
  {
    assert |s - {a}| == |s| - 1 && b in s - {a};
  }

  // ---------------- both ends ----------------

  /** A pair of nodes and the links each holds to the other, by rank; those made but not adopted yet by
      that end; which of them each has identified. A link is known under one rank at both ends. */
  datatype Pair = Pair(atA: set<Rank>, atB: set<Rank>, comingA: set<Rank>, comingB: set<Rank>,
                       knownA: set<Rank>, knownB: set<Rank>)

  /** One end decides at a time; what it adopts, learns or notices may be several links. */
  datatype Move =
    | Dialled(link: Rank)                                  // one more link, adopted by neither yet
    | AdoptA(links: set<Rank>) | AdoptB(links: set<Rank>)
    | LearnA(links: set<Rank>) | LearnB(links: set<Rank>)
    | DedupA | DedupB
    | NoticeA(link: Rank) | NoticeB(link: Rank)            // the other end shut it
    | Cut(link: Rank)                                      // the network takes one away

  function EndA(s: Pair): set<Rank> { s.atA + s.comingA }

  function EndB(s: Pair): set<Rank> { s.atB + s.comingB }

  /** What dedup leaves of the links to one undisputed node. */
  ghost function Deduped(held: set<Rank>, known: set<Rank>): set<Rank> {
    set r | r in held && (r in known ==> forall q :: q in held && q in known ==> !Beats(q, r))
  }

  ghost predicate CanMove(s: Pair, m: Move) {
    match m
    case AdoptA(links) => links <= s.comingA
    case AdoptB(links) => links <= s.comingB
    case NoticeA(r) => r in s.atA && r !in EndB(s)
    case NoticeB(r) => r in s.atB && r !in EndA(s)
    case _ => true
  }

  ghost function After(s: Pair, m: Move): Pair
    requires CanMove(s, m)
  {
    match m
    case Dialled(r) => s.(comingA := s.comingA + {r}, comingB := s.comingB + {r})
    case AdoptA(links) => s.(atA := s.atA + links, comingA := s.comingA - links)
    case AdoptB(links) => s.(atB := s.atB + links, comingB := s.comingB - links)
    case LearnA(links) => s.(knownA := s.knownA + links)
    case LearnB(links) => s.(knownB := s.knownB + links)
    case DedupA => s.(atA := Deduped(s.atA, s.knownA))
    case DedupB => s.(atB := Deduped(s.atB, s.knownB))
    case NoticeA(r) => s.(atA := s.atA - {r})
    case NoticeB(r) => s.(atB := s.atB - {r})
    case Cut(r) => s.(atA := s.atA - {r}, comingA := s.comingA - {r}, atB := s.atB - {r}, comingB := s.comingB - {r})
  }

  /** Both ends have `least`, and no link either of them has beats it. */
  ghost predicate Least(s: Pair, least: Rank) {
    && least in EndA(s) && least in EndB(s)
    && (forall r :: r in EndA(s) ==> !Beats(r, least))
    && (forall r :: r in EndB(s) ==> !Beats(r, least))
  }

  /** The network never takes the least of the links. */
  ghost predicate Path(states: seq<Pair>, moves: seq<Move>) {
    && |states| == |moves| + 1
    && forall k :: 0 <= k < |moves| ==>
         && CanMove(states[k], moves[k]) && states[k + 1] == After(states[k], moves[k])
         && (moves[k].Cut? ==> !Least(states[k], moves[k].link))
  }

  /** Starts from links both ends have. */
  ghost predicate Run(states: seq<Pair>, moves: seq<Move>) {
    Path(states, moves) && exists least :: Least(states[0], least)
  }

  /** One end's dedup of its links to `other`, read off by rank, is `Deduped`, whatever other links it
      has and whichever other ids are disputed. */
  lemma DedupByRank(peers: seq<Peer>, kept: seq<Peer>, ids: Claims, conflicted: set<NodeId>, self: NodeId,
                    other: NodeId, mine: set<Peer>, known: set<Rank>)
    requires other !in conflicted && forall p :: p in mine ==> p in peers
    requires forall p, q :: p in mine && q in mine && RankOf(p, other, self) == RankOf(q, other, self) ==> p == q
    requires forall p :: p in mine ==> (p.id in ids <==> RankOf(p, other, self) in known)
    requires forall p :: p in peers && p.id in ids ==> (ids[p.id].node == other <==> p in mine)
    requires forall p :: p in kept <==> p in peers && Keeps(peers, ids, conflicted, self, p)
    ensures (set p | p in mine && p in kept :: RankOf(p, other, self))
         == Deduped(set p | p in mine :: RankOf(p, other, self), known)
  {
    var held := set p | p in mine :: RankOf(p, other, self);
    forall p | p in mine ensures p in kept <==> RankOf(p, other, self) in Deduped(held, known) {
      if RankOf(p, other, self) in Deduped(held, known) && p.id in ids {
        forall q | q in peers && Settled(q, ids, conflicted) && ids[q.id].node == other
          ensures !Beats(RankOf(q, other, self), RankOf(p, other, self))
        {
          assert q in mine && RankOf(q, other, self) in held;
        }
      }
      if p in kept && p.id in ids {
        forall r | r in held && r in known ensures !Beats(r, RankOf(p, other, self)) {
          var q :| q in mine && RankOf(q, other, self) == r;
          assert Settled(q, ids, conflicted);
        }
      }
    }
  }

  /** A new link may take over as the least; nothing either end decides takes it away. */
  lemma MoveKeepsALeast(s: Pair, m: Move, least: Rank)
    requires CanMove(s, m) && Least(s, least) && (m.Cut? ==> !Least(s, m.link))
    ensures Least(After(s, m), if m.Dialled? && Beats(m.link, least) then m.link else least)
  {
    if m.Dialled? {
      forall r ensures !Beats(r, least) && Beats(m.link, least) ==> !Beats(r, m.link) {
        RanksAreTransitive(r, m.link, least);
      }
      RanksAreTotal(m.link, m.link);
    }
  }

  lemma RanksAreTransitive(x: Rank, y: Rank, z: Rank)
    ensures Beats(x, y) && Beats(y, z) ==> Beats(x, z)
  {
  }

  /** Whatever either end knows, whenever it adopts and decides, whichever links are dialled meanwhile:
      both ends always have the least link either of them has, so a pair never disconnects itself. */
  lemma {:induction false} LeastLinkSurvives(states: seq<Pair>, moves: seq<Move>, k: nat) returns (least: Rank)
    requires Run(states, moves) && k < |states|
    ensures Least(states[k], least)
  {
    if k == 0 {
      least :| Least(states[0], least);
    } else {
      least := LeastLinkSurvives(states, moves, k - 1);
      MoveKeepsALeast(states[k - 1], moves[k - 1], least);
      if moves[k - 1].Dialled? && Beats(moves[k - 1].link, least) { least := moves[k - 1].link; }
    }
  }

  /** Once both have adopted and identified every link they have and decided, exactly that one is left. */
  lemma BothSettleOnTheLeast(states: seq<Pair>, moves: seq<Move>, k: nat) returns (least: Rank)
    requires Run(states, moves) && k < |states|
    requires EndA(states[k]) == states[k].atA <= states[k].knownA
    requires EndB(states[k]) == states[k].atB <= states[k].knownB
    ensures Least(states[k], least)
    ensures Deduped(states[k].atA, states[k].knownA) == {least}
    ensures Deduped(states[k].atB, states[k].knownB) == {least}
  {
    least := LeastLinkSurvives(states, moves, k);
    forall r ensures r != least && !Beats(r, least) ==> Beats(least, r) {
      RanksAreTotal(r, least);
    }
  }

  /** The pair can come to have no link at both ends. */
  ghost predicate MayPart(s: Pair) {
    exists states, moves :: Path(states, moves) && states[0] == s && EndA(states[|moves|]) !! EndB(states[|moves|])
  }

  /** Both ends adopt and learn all there is and decide: what they share then is a least link now. */
  lemma DecidedAtOnce(s: Pair) returns (states: seq<Pair>, moves: seq<Move>)
    ensures Path(states, moves) && |states| == |moves| + 1 && states[0] == s
    ensures forall r :: r in EndA(states[|moves|]) && r in EndB(states[|moves|]) ==> Least(s, r)
  {
    var adopted := s.(atA := EndA(s), atB := EndB(s), comingA := {}, comingB := {});
    var learnt := adopted.(knownA := s.knownA + EndA(s), knownB := s.knownB + EndB(s));
    states := [s, s.(atA := EndA(s), comingA := {}), adopted, adopted.(knownA := learnt.knownA), learnt,
               learnt.(atA := Deduped(learnt.atA, learnt.knownA)),
               learnt.(atA := Deduped(learnt.atA, learnt.knownA), atB := Deduped(learnt.atB, learnt.knownB))];
    moves := [AdoptA(s.comingA), AdoptB(s.comingB), LearnA(EndA(s)), LearnB(EndB(s)), DedupA, DedupB];
    assert s.comingA - s.comingA == {} && s.comingB - s.comingB == {};
  }

  /** Exactly the pairs without a least link can part: one end still counts on a link the other has shut
      already, and both may decide for different ones. That is how a cut of the least link can end. */
  lemma PairMayPartIffNoLeast(s: Pair)
    ensures MayPart(s) <==> !exists least :: Least(s, least)
  {
    if exists least :: Least(s, least) {
      forall states, moves | Path(states, moves) && states[0] == s
        ensures !(EndA(states[|moves|]) !! EndB(states[|moves|]))
      {
        var least := LeastLinkSurvives(states, moves, |moves|);
      }
    } else {
      var states, moves := DecidedAtOnce(s);
    }
  }

  /** A run to such a cut: the least of three links goes when one end has dropped the second for it and
      the other still counts on that one. */
  lemma CutCanPart(x: Rank, y: Rank, z: Rank) returns (states: seq<Pair>, moves: seq<Move>)
    requires Beats(x, y) && Beats(y, z)
    ensures Path(states, moves) && |states| == |moves| + 1 && states[0] == Pair({}, {}, {}, {}, {}, {})
    ensures Least(states[|moves|], x) && MayPart(After(states[|moves|], Cut(x)))
  {
    RanksAreTransitive(x, y, z);
    RanksAreTotal(x, y);
    RanksAreTotal(y, z);
    RanksAreTotal(x, z);
    assert !Beats(x, x) && !Beats(z, z);
    hide Beats;
    var all := {x, y, z};
    var made := Pair({}, {}, all, all, {}, {});
    states := [Pair({}, {}, {}, {}, {}, {}), Pair({}, {}, {x}, {x}, {}, {}), Pair({}, {}, {x, y}, {x, y}, {}, {}),
               made, made.(atA := all, comingA := {}), Pair(all, all, {}, {}, {}, {}), Pair(all, all, {}, {}, {}, {x, y}),
               Pair(all, {x, z}, {}, {}, {}, {x, y})];
    moves := [Dialled(x), Dialled(y), Dialled(z), AdoptA(all), AdoptB(all), LearnB({x, y}), DedupB];
    assert Deduped(all, {x, y}) == {x, z};
    var s := After(states[|moves|], Cut(x));
    assert EndA(s) == {y, z} && EndB(s) == {z};
    PairMayPartIffNoLeast(s);
  }

  /** A disputed id is left alone: none of its links is dropped, known or not. */
  lemma DisputedLinksStay(peers: seq<Peer>, ids: Claims, conflicted: set<NodeId>, self: NodeId, p: Peer)
    requires p in peers && p.id in ids && Conflicting(peers, ids, ids[p.id].node)
    requires forall n :: Conflicting(peers, ids, n) ==> n in conflicted
    ensures Keeps(peers, ids, conflicted, self, p)
  {
  }
}
