/** A whole inbox is merged first and answered afterwards, one batch per source link. Nothing
    about the outcome depends on that: it is the single deliveries, one after the other
    (xchannel-net/src/node.rs, xchannel-net/src/broadcast.rs). */
module GossipPump {
  import opened Bytes
  import opened Identity
  import opened RegistryMap
  import opened RegistryStore
  import opened Gossip
  import opened GossipProofs

  datatype Arrival = Arrival(from: Link, id: ChannelIdentity)

  // ---------------- what the arrivals come to ----------------

  function AfterArrivals(reg: Registry, arrivals: seq<Arrival>): Registry {
    if arrivals == [] then reg
    else Merge(AfterArrivals(reg, arrivals[..|arrivals| - 1]), arrivals[|arrivals| - 1].id)
  }

  /** What an arrival over `from` gives to pass on: the winner, if the registry moved. */
  function News(reg: Registry, a: Arrival, from: Link): seq<ChannelIdentity> {
    if a.from == from && Merge(reg, a.id) != reg then [Winner(reg, a.id)] else []
  }

  /** What it gives to send back: the winner, if the registry stayed and the sender is behind. */
  function Correction(reg: Registry, a: Arrival, from: Link): seq<ChannelIdentity> {
    if a.from == from && Merge(reg, a.id) == reg && LostTo(a.id, Winner(reg, a.id)) then [Winner(reg, a.id)] else []
  }

  /** The winners to pass on that came in over `from`, in arrival order. */
  function RelayOf(reg: Registry, arrivals: seq<Arrival>, from: Link): seq<ChannelIdentity> {
    if arrivals == [] then []
    else
      var before := arrivals[..|arrivals| - 1];
      RelayOf(reg, before, from) + News(AfterArrivals(reg, before), arrivals[|arrivals| - 1], from)
  }

  /** The winners to send back over `from`, whose sender is behind. */
  function ReplyOf(reg: Registry, arrivals: seq<Arrival>, from: Link): seq<ChannelIdentity> {
    if arrivals == [] then []
    else
      var before := arrivals[..|arrivals| - 1];
      ReplyOf(reg, before, from) + Correction(AfterArrivals(reg, before), arrivals[|arrivals| - 1], from)
  }

  /** The names whose winner is a tombstone after their arrival. */
  function RetiredOf(reg: Registry, arrivals: seq<Arrival>): seq<Text> {
    if arrivals == [] then []
    else
      var before, last := arrivals[..|arrivals| - 1], arrivals[|arrivals| - 1];
      RetiredOf(reg, before)
      + if Winner(AfterArrivals(reg, before), last.id).deleted then [last.id.name] else []
  }

  type Batches = map<Link, seq<ChannelIdentity>>

  function Batch(batches: Batches, link: Link): seq<ChannelIdentity> {
    if link in batches then batches[link] else []
  }

  function Push(batches: Batches, link: Link, id: ChannelIdentity): Batches {
    batches[link := Batch(batches, link) + [id]]
  }

  /** The batches built so far are those the arrivals so far call for. */
  ghost predicate RelayReady(toRelay: Batches, reg: Registry, arrivals: seq<Arrival>) {
    forall from :: Batch(toRelay, from) == RelayOf(reg, arrivals, from) && (from in toRelay ==> toRelay[from] != [])
  }

  ghost predicate ReplyReady(toReply: Batches, reg: Registry, arrivals: seq<Arrival>) {
    forall from :: Batch(toReply, from) == ReplyOf(reg, arrivals, from) && (from in toReply ==> toReply[from] != [])
  }

  lemma RelayOne(toRelay: Batches, reg: Registry, arrivals: seq<Arrival>, a: Arrival)
    requires RelayReady(toRelay, reg, arrivals)
    ensures var now := AfterArrivals(reg, arrivals);
            RelayReady(if Merge(now, a.id) != now then Push(toRelay, a.from, Winner(now, a.id)) else toRelay,
                       reg, arrivals + [a])
  {
  }

  lemma ReplyOne(toReply: Batches, reg: Registry, arrivals: seq<Arrival>, a: Arrival)
    requires ReplyReady(toReply, reg, arrivals)
    ensures var now := AfterArrivals(reg, arrivals);
            ReplyReady(if Merge(now, a.id) == now && LostTo(a.id, Winner(now, a.id))
                       then Push(toReply, a.from, Winner(now, a.id)) else toReply,
                       reg, arrivals + [a])
  {
  }

  method MergeInbox(store: Store, arrivals: seq<Arrival>)
    returns (toRelay: Batches, toReply: Batches, retired: seq<Text>)
    requires store.Valid()
    modifies store
    ensures store.Valid() && store.Map() == AfterArrivals(old(store.Map()), arrivals)
    ensures RelayReady(toRelay, old(store.Map()), arrivals) && ReplyReady(toReply, old(store.Map()), arrivals)
    ensures retired == RetiredOf(old(store.Map()), arrivals)
  {
    hide MapOf, Ordered, Distinct, Merge, Winner, LostTo, RelayReady, ReplyReady, Push;
    ghost var reg := store.Map();
    toRelay, toReply, retired := map[], map[], [];
    NothingReady(reg);
    for k := 0 to |arrivals|
      invariant store.Valid() && store.Map() == AfterArrivals(reg, arrivals[..k])
      invariant RelayReady(toRelay, reg, arrivals[..k]) && ReplyReady(toReply, reg, arrivals[..k])
      invariant retired == RetiredOf(reg, arrivals[..k])
    {
      RelayOne(toRelay, reg, arrivals[..k], arrivals[k]);
      ReplyOne(toReply, reg, arrivals[..k], arrivals[k]);
      assert arrivals[..k + 1] == arrivals[..k] + [arrivals[k]];
      assert arrivals[..k + 1][..k] == arrivals[..k];
      var from, id := arrivals[k].from, arrivals[k].id;
      var winner, changed := store.MergeTracked(id);
      if changed {
        toRelay := Push(toRelay, from, winner);
      } else if LostTo(id, winner) {
        toReply := Push(toReply, from, winner);
      }
      if winner.deleted { retired := retired + [id.name]; }
    }
    assert arrivals[..|arrivals|] == arrivals;
  }

  lemma NothingReady(reg: Registry)
    ensures RelayReady(map[], reg, []) && ReplyReady(map[], reg, [])
  {
  }

  // ---------------- the same, delivery by delivery ----------------

  /** What the arrivals make due, one at a time. */
  function DueOf(reg: Registry, p: NodeId, arrivals: seq<Arrival>): multiset<Packet> {
    if arrivals == [] then multiset{}
    else
      var before, last := arrivals[..|arrivals| - 1], arrivals[|arrivals| - 1];
      DueOf(reg, p, before) + Response(AfterArrivals(reg, before), p, last.from, last.id)
  }

  /** The batches hold exactly what the single deliveries make due, no more and no less. */
  lemma {:induction false} RelaysAreTheDues(reg: Registry, p: NodeId, arrivals: seq<Arrival>, from: Link,
                                            id: ChannelIdentity)
    ensures DueOf(reg, p, arrivals)[RelayDue(p, Some(from), id)] == multiset(RelayOf(reg, arrivals, from))[id]
  {
    hide Response, News, Correction, AfterArrivals;
    if arrivals != [] {
      var before, last := arrivals[..|arrivals| - 1], arrivals[|arrivals| - 1];
      RelaysAreTheDues(reg, p, before, from, id);
      ResponseCounts(AfterArrivals(reg, before), p, last, from, id);
    }
  }

  lemma ResponseCounts(reg: Registry, p: NodeId, a: Arrival, link: Link, id: ChannelIdentity)
    ensures Response(reg, p, a.from, a.id)[RelayDue(p, Some(link), id)] == multiset(News(reg, a, link))[id]
    ensures Response(reg, p, a.from, a.id)[ReplyDue(p, link, id)] == multiset(Correction(reg, a, link))[id]
  {
  }

  lemma {:induction false} RepliesAreTheDues(reg: Registry, p: NodeId, arrivals: seq<Arrival>, to: Link,
                                             id: ChannelIdentity)
    ensures DueOf(reg, p, arrivals)[ReplyDue(p, to, id)] == multiset(ReplyOf(reg, arrivals, to))[id]
  {
    hide Response, News, Correction, AfterArrivals;
    if arrivals != [] {
      var before, last := arrivals[..|arrivals| - 1], arrivals[|arrivals| - 1];
      RepliesAreTheDues(reg, p, before, to, id);
      ResponseCounts(AfterArrivals(reg, before), p, last, to, id);
    }
  }

  lemma {:induction false} NothingElseIsDue(reg: Registry, p: NodeId, arrivals: seq<Arrival>, x: Packet)
    requires x in DueOf(reg, p, arrivals)
    ensures (x.RelayDue? && x.except.Some? && x.node == p) || (x.ReplyDue? && x.node == p)
  {
    hide Merge, Winner, LostTo;
    if x in DueOf(reg, p, arrivals[..|arrivals| - 1]) {
      NothingElseIsDue(reg, p, arrivals[..|arrivals| - 1], x);
    }
  }

  function Boxes(p: NodeId, arrivals: seq<Arrival>): multiset<Packet> {
    if arrivals == [] then multiset{}
    else
      var last := arrivals[|arrivals| - 1];
      Boxes(p, arrivals[..|arrivals| - 1]) + multiset{InBox(p, last.from, last.id)}
  }

  function Handles(p: NodeId, arrivals: seq<Arrival>): (steps: seq<Step>)
    ensures |steps| == |arrivals|
  {
    seq(|arrivals|, k requires 0 <= k < |arrivals| => Handle(p, arrivals[k].from, arrivals[k].id))
  }

  /** Where a node's inbox leaves the network. */
  ghost function Pumped(s: Net, p: NodeId, arrivals: seq<Arrival>): Net
    requires p in s.reg
  {
    Net(s.reg[p := AfterArrivals(s.reg[p], arrivals)], s.up,
        s.packets - Boxes(p, arrivals) + DueOf(s.reg[p], p, arrivals))
  }

  /** Merging a whole inbox before anything is answered is a run of single deliveries, in arrival order,
      that leaves due exactly what each of them makes due. */
  lemma {:induction false} PumpIsManyDeliveries(s: Net, p: NodeId, arrivals: seq<Arrival>) returns (states: seq<Net>)
    requires Inv(s) && p in s.reg && Boxes(p, arrivals) <= s.packets
    ensures Run(states, Handles(p, arrivals)) && |states| == |arrivals| + 1 && states[0] == s
    ensures states[|arrivals|] == Pumped(s, p, arrivals) && Inv(states[|arrivals|])
  {
    hide Merge, Response, Gossip.Inv, Apply, Enabled, WellFormed, Pumped, DueOf, AfterArrivals, Run, Boxes;
    if arrivals == [] {
      states := [s];
      RunStarts(s);
      assert Pumped(s, p, arrivals) == s by { NothingPumped(s, p); }
    } else {
      var n := |arrivals| - 1;
      var before, last := arrivals[..n], arrivals[n];
      LastArrival(s.reg[p], p, arrivals);
      var prior := PumpIsManyDeliveries(s, p, before);
      var t, step := prior[n], Handle(p, last.from, last.id);
      InvIsWellFormed(t);
      OneMoreDelivery(s, p, arrivals);
      states := prior + [Apply(t, step)];
      StepKeepsInv(t, step);
      assert Handles(p, arrivals) == Handles(p, before) + [step];
      RunExtends(prior, Handles(p, before), step);
    }
  }

  lemma RunStarts(s: Net)
    ensures Run([s], [])
  {
  }

  lemma RunPrepends(s: Net, step: Step, later: seq<Net>, more: seq<Step>)
    requires WellFormed(s) && Enabled(s, step) && Run(later, more) && later[0] == Apply(s, step)
    ensures Run([s] + later, [step] + more)
  {
  }

  lemma RunExtends(states: seq<Net>, steps: seq<Step>, step: Step)
    requires Run(states, steps)
    requires var last := states[|steps|]; WellFormed(last) && Enabled(last, step)
    ensures Run(states + [Apply(states[|steps|], step)], steps + [step])
  {
    hide Apply, Enabled, WellFormed;
  }

  lemma InvIsWellFormed(s: Net)
    requires Inv(s)
    ensures WellFormed(s)
  {
  }

  lemma OneMoreDelivery(s: Net, p: NodeId, arrivals: seq<Arrival>)
    requires p in s.reg && arrivals != [] && Boxes(p, arrivals) <= s.packets
    requires WellFormed(Pumped(s, p, arrivals[..|arrivals| - 1]))
    ensures var t, last := Pumped(s, p, arrivals[..|arrivals| - 1]), arrivals[|arrivals| - 1];
            Enabled(t, Handle(p, last.from, last.id))
            && Apply(t, Handle(p, last.from, last.id)) == Pumped(s, p, arrivals)
  {
    hide Merge, Response, WellFormed, DueOf, Boxes, AfterArrivals;
    var before, last := arrivals[..|arrivals| - 1], arrivals[|arrivals| - 1];
    var now := AfterArrivals(s.reg[p], before);
    LastArrival(s.reg[p], p, arrivals);
    MoveOne(s.packets, Boxes(p, before), InBox(p, last.from, last.id), DueOf(s.reg[p], p, before),
            Response(now, p, last.from, last.id));
    UpdateTwice(s.reg, p, now, Merge(now, last.id));
  }

  lemma LastArrival(reg: Registry, p: NodeId, arrivals: seq<Arrival>)
    requires arrivals != []
    ensures var before, last := arrivals[..|arrivals| - 1], arrivals[|arrivals| - 1];
            && AfterArrivals(reg, arrivals) == Merge(AfterArrivals(reg, before), last.id)
            && Boxes(p, arrivals) == Boxes(p, before) + multiset{InBox(p, last.from, last.id)}
            && DueOf(reg, p, arrivals)
                == DueOf(reg, p, before) + Response(AfterArrivals(reg, before), p, last.from, last.id)
  {
  }

  lemma UpdateTwice<K, V>(m: map<K, V>, k: K, v: V, w: V)
    ensures m[k := v][k := w] == m[k := w]
  {
  }

  lemma MoveOne<T>(all: multiset<T>, taken: multiset<T>, x: T, made: multiset<T>, more: multiset<T>)
    requires taken + multiset{x} <= all
    ensures x in all - taken + made
    ensures all - taken + made - multiset{x} + more == all - (taken + multiset{x}) + (made + more)
  {
  }

  lemma NothingPumped(s: Net, p: NodeId)
    requires p in s.reg
    ensures Pumped(s, p, []) == s
  {
  }

  // ---------------- sending in chunks ----------------

  const MAX_IDENTITIES_PER_FRAME: nat := 256

  type Frame = seq<ChannelIdentity>

  function Chunks(delta: seq<ChannelIdentity>): seq<Frame> {
    if delta == [] then []
    else if |delta| <= MAX_IDENTITIES_PER_FRAME then [delta]
    else [delta[..MAX_IDENTITIES_PER_FRAME]] + Chunks(delta[MAX_IDENTITIES_PER_FRAME..])
  }

  function Flatten(frames: seq<Frame>): seq<ChannelIdentity> {
    if frames == [] then [] else frames[0] + Flatten(frames[1..])
  }

  /** Chunking loses, repeats and reorders nothing, and no frame is empty or too long. */
  lemma {:induction false} ChunksFlattenBack(delta: seq<ChannelIdentity>)
    ensures Flatten(Chunks(delta)) == delta
    ensures forall k :: 0 <= k < |Chunks(delta)| ==> 0 < |Chunks(delta)[k]| <= MAX_IDENTITIES_PER_FRAME
  {
    if |delta| > MAX_IDENTITIES_PER_FRAME {
      ChunksFlattenBack(delta[MAX_IDENTITIES_PER_FRAME..]);
      assert delta == delta[..MAX_IDENTITIES_PER_FRAME] + delta[MAX_IDENTITIES_PER_FRAME..];
    } else if delta != [] {
      assert Flatten([delta]) == delta + Flatten([]);
    }
  }

  lemma {:induction false} ChunksFromHere(delta: seq<ChannelIdentity>, i: nat)
    requires i < |delta|
    ensures var next := if i + MAX_IDENTITIES_PER_FRAME < |delta| then i + MAX_IDENTITIES_PER_FRAME else |delta|;
            Chunks(delta[i..]) == [delta[i..next]] + Chunks(delta[next..])
  {
    if i + MAX_IDENTITIES_PER_FRAME < |delta| {
      assert delta[i..][MAX_IDENTITIES_PER_FRAME..] == delta[i + MAX_IDENTITIES_PER_FRAME..];
      assert delta[i..][..MAX_IDENTITIES_PER_FRAME] == delta[i..i + MAX_IDENTITIES_PER_FRAME];
    } else {
      assert delta[i..|delta|] == delta[i..] && delta[|delta|..] == [];
    }
  }

  /** Which links outlive a batch, when `failing[k]` are those whose `k`-th write fails. */
  ghost predicate Survives(link: Link, failing: seq<set<Link>>, n: nat) {
    n == 0 || (Survives(link, failing, n - 1) && !(n <= |failing| && link in failing[n - 1]))
  }

  lemma {:induction false} FailedOnceIsGone(link: Link, failing: seq<set<Link>>, k: nat, n: nat)
    requires k < n && k < |failing| && link in failing[k]
    ensures !Survives(link, failing, n)
  {
    if k < n - 1 { FailedOnceIsGone(link, failing, k, n - 1); }
  }

  /** The links a node sends on, with the frames each has been sent. */
  class Dissemination {
    var peers: map<Link, seq<Frame>>

    constructor ()
      ensures peers == map[]
    {
      peers := map[];
    }

    /** One frame to every link but one; a link whose write fails is dropped. */
    method SendExcept(except: Option<Link>, frame: Frame, failing: set<Link>)
      modifies this
      ensures forall l :: l in peers <==> l in old(peers) && (except == Some(l) || l !in failing)
      ensures forall l :: l in peers ==> peers[l] == old(peers)[l] + if except == Some(l) then [] else [frame]
    {
      peers := map l | l in peers && (except == Some(l) || l !in failing) ::
        if except == Some(l) then peers[l] else peers[l] + [frame];
    }

    /** Every link that is still up afterwards has been sent the whole delta in order, the one
        it came from none of it; a link is given up only for a failed write. */
    method Relay(from: Link, delta: seq<ChannelIdentity>, failing: seq<set<Link>>)
      modifies this
      ensures forall l :: l in peers <==> l in old(peers) && (l == from || Survives(l, failing, |Chunks(delta)|))
      ensures forall l :: l in peers ==>
                peers[l] == old(peers)[l] + if l == from then [] else Chunks(delta)
    {
      var i, k := 0, 0;
      ghost var sent: seq<Frame> := [];
      assert delta[0..] == delta;
      hide Chunks;
      while i < |delta|
        invariant 0 <= i <= |delta|
        invariant |sent| == k && sent + Chunks(delta[i..]) == Chunks(delta)
        invariant forall l :: l in peers <==> l in old(peers) && (l == from || Survives(l, failing, k))
        invariant forall l :: l in peers ==> peers[l] == old(peers)[l] + if l == from then [] else sent
      {
        var next := if i + MAX_IDENTITIES_PER_FRAME < |delta| then i + MAX_IDENTITIES_PER_FRAME else |delta|;
        ChunksFromHere(delta, i);
        SendExcept(Some(from), delta[i..next], if k < |failing| then failing[k] else {});
        sent := sent + [delta[i..next]];
        i, k := next, k + 1;
      }
    }

    /** A reply goes to one link only, whole or up to the write that failed and ended the link. */
    method Reply(to: Link, delta: seq<ChannelIdentity>, failing: seq<set<Link>>)
      modifies this
      ensures to !in old(peers) ==> peers == old(peers)
      ensures to in old(peers) && Survives(to, failing, |Chunks(delta)|) ==>
                to in peers && peers[to] == old(peers)[to] + Chunks(delta) && peers - {to} == old(peers) - {to}
      ensures to in old(peers) && !Survives(to, failing, |Chunks(delta)|) ==> peers == old(peers) - {to}
    {
      var i, k := 0, 0;
      ghost var sent: seq<Frame> := [];
      assert delta[0..] == delta;
      while i < |delta|
        invariant 0 <= i <= |delta|
        invariant |sent| == k && sent + Chunks(delta[i..]) == Chunks(delta)
        invariant to !in old(peers) ==> k == 0 && peers == old(peers)
        invariant peers - {to} == old(peers) - {to}
        invariant to in old(peers) ==>
            Survives(to, failing, k) && to in peers && peers[to] == old(peers)[to] + sent
      {
        var next := if i + MAX_IDENTITIES_PER_FRAME < |delta| then i + MAX_IDENTITIES_PER_FRAME else |delta|;
        ChunksFromHere(delta, i);
        if to !in peers { return; }
        if k < |failing| && to in failing[k] {
          FailedOnceIsGone(to, failing, k, |Chunks(delta)|);
          peers := peers - {to};
          return;
        }
        peers := peers[to := peers[to] + [delta[i..next]]];
        sent := sent + [delta[i..next]];
        i, k := next, k + 1;
      }
    }
  }
}
