/** The registry as a value: a map from names to the entries that currently win them, and
    what any history of merges, deregistrations, reaps and claims leaves of it
    (xchannel-net/src/registry.rs). */
module RegistryMap {
  import opened Bytes
  import opened Identity

  type Registry = map<Text, ChannelIdentity>

  /** Every entry sits under its own name. */
  ghost predicate WellNamed(reg: Registry) {
    forall n :: n in reg ==> reg[n].name == n
  }

  function Winner(reg: Registry, incoming: ChannelIdentity): ChannelIdentity {
    if incoming.name in reg then ResolveCollision(reg[incoming.name], incoming) else incoming
  }

  function Merge(reg: Registry, incoming: ChannelIdentity): Registry {
    var w := Winner(reg, incoming);
    reg[w.name := w]
  }

  /** `reg` holds an entry for the name that `id` cannot beat. */
  predicate Holds(reg: Registry, id: ChannelIdentity) {
    id.name in reg && AtMost(KeyOf(id), KeyOf(reg[id.name]))
  }

  lemma MergeHolds(reg: Registry, incoming: ChannelIdentity)
    requires WellNamed(reg)
    ensures WellNamed(Merge(reg, incoming)) && Holds(Merge(reg, incoming), incoming)
    ensures forall id :: Holds(reg, id) ==> Holds(Merge(reg, incoming), id)
    ensures forall n :: n != incoming.name ==>
              (n in Merge(reg, incoming) <==> n in reg) && (n in reg ==> Merge(reg, incoming)[n] == reg[n])
    ensures Merge(reg, incoming) != reg <==>
            incoming.name !in reg || Below(KeyOf(reg[incoming.name]), KeyOf(incoming))
    ensures Merge(reg, incoming) != reg ==>
              Winner(reg, incoming) == incoming && Merge(reg, incoming)[incoming.name] == incoming
  {
  }

  // ---------------- any order, any repetition ----------------

  function Fold(reg: Registry, ids: seq<ChannelIdentity>): Registry {
    if ids == [] then reg else Merge(Fold(reg, ids[..|ids| - 1]), ids[|ids| - 1])
  }

  /** Two identities with one name and one key are one identity. */
  ghost predicate KeyDeterminesPayload(ids: set<ChannelIdentity>) {
    forall a, b :: a in ids && b in ids && a.name == b.name && KeyOf(a) == KeyOf(b) ==> a == b
  }

  function Elements(ids: seq<ChannelIdentity>): set<ChannelIdentity> {
    set id | id in ids
  }

  /** After any deliveries, a name is held by one of the identities delivered for it, and none
      of the others could take it. */
  lemma {:induction false} FoldHoldsTheHighest(ids: seq<ChannelIdentity>)
    ensures WellNamed(Fold(map[], ids))
    ensures forall id :: id in ids ==> Holds(Fold(map[], ids), id)
    ensures forall n :: n in Fold(map[], ids) ==> Fold(map[], ids)[n] in ids
  {
    if ids != [] {
      var before, last := ids[..|ids| - 1], ids[|ids| - 1];
      FoldHoldsTheHighest(before);
      MergeHolds(Fold(map[], before), last);
      forall n | n in Fold(map[], ids) ensures Fold(map[], ids)[n] in ids {
        if n in Fold(map[], before) && Fold(map[], ids)[n] == Fold(map[], before)[n] {
          assert Fold(map[], before)[n] in before;
        }
      }
    }
  }

  /** Registry folds are order- and duplication-free: two histories that delivered the same
      identities end with the same map. */
  lemma DeliveryOrderDoesNotMatter(xs: seq<ChannelIdentity>, ys: seq<ChannelIdentity>)
    requires Elements(xs) == Elements(ys) && KeyDeterminesPayload(Elements(xs))
    ensures Fold(map[], xs) == Fold(map[], ys)
  {
    FoldHoldsTheHighest(xs);
    FoldHoldsTheHighest(ys);
    var f, g := Fold(map[], xs), Fold(map[], ys);
    forall n ensures (n in f <==> n in g) && (n in f ==> f[n] == g[n]) {
      if n in f { SameWinner(xs, ys, n); }
      if n in g { SameWinner(ys, xs, n); }
    }
  }

  lemma SameWinner(xs: seq<ChannelIdentity>, ys: seq<ChannelIdentity>, n: Text)
    requires Elements(xs) == Elements(ys) && KeyDeterminesPayload(Elements(xs))
    requires n in Fold(map[], xs)
    ensures n in Fold(map[], ys) && Fold(map[], ys)[n] == Fold(map[], xs)[n]
  {
    FoldHoldsTheHighest(xs);
    FoldHoldsTheHighest(ys);
    var a := Fold(map[], xs)[n];
    assert a in Elements(xs) && a.name == n && a in ys;
    var b := Fold(map[], ys)[n];
    assert b in Elements(ys) && b.name == n && b in xs;
    KeysAreTotallyOrdered(KeyOf(a), KeyOf(b), KeyOf(a));
  }

  /** Without the assumption the winners still agree on everything the order looks at. */
  lemma DeliveryOrderDoesNotMatterForKeys(xs: seq<ChannelIdentity>, ys: seq<ChannelIdentity>, n: Text)
    requires Elements(xs) == Elements(ys)
    ensures n in Fold(map[], xs) <==> n in Fold(map[], ys)
    ensures n in Fold(map[], xs) ==> KeyOf(Fold(map[], xs)[n]) == KeyOf(Fold(map[], ys)[n])
  {
    FoldHoldsTheHighest(xs);
    FoldHoldsTheHighest(ys);
    if n in Fold(map[], xs) {
      assert Fold(map[], xs)[n] in Elements(xs);
    }
    if n in Fold(map[], ys) {
      assert Fold(map[], ys)[n] in Elements(ys);
    }
    if n in Fold(map[], xs) {
      KeysAreTotallyOrdered(KeyOf(Fold(map[], xs)[n]), KeyOf(Fold(map[], ys)[n]), KeyOf(Fold(map[], xs)[n]));
    }
  }

  // ---------------- tombstones ----------------

  /** Everything that can happen to a node's registry. */
  datatype Event =
    | Merged(id: ChannelIdentity)
    | Deregistered(name: Text, owner: NodeId)
    | Reaped(name: Text)
    | Claimed(name: Text, owner: NodeId, regionSize: u32, mtu: u32, now: nat, memberOf: Option<Text>)

  /** The epoch a fresh local registration uses: a new generation only over a tombstone. */
  function ClaimEpoch(reg: Registry, name: Text): nat {
    if name !in reg then 0 else if reg[name].deleted then reg[name].epoch + 1 else reg[name].epoch
  }

  function Tombstone(id: ChannelIdentity): ChannelIdentity {
    id.(deleted := true)
  }

  function After(reg: Registry, e: Event): Registry {
    match e
    case Merged(id) => Merge(reg, id)
    case Deregistered(name, owner) =>
      if name in reg && !reg[name].deleted && reg[name].owner == owner then Merge(reg, Tombstone(reg[name])) else reg
    case Reaped(name) =>
      if name in reg && !reg[name].deleted then Merge(reg, Tombstone(reg[name])) else reg
    case Claimed(name, owner, regionSize, mtu, now, memberOf) =>
      Merge(reg, ChannelIdentity(name, owner, regionSize, mtu, 0, now, ClaimEpoch(reg, name), false, memberOf))
  }

  function AfterAll(reg: Registry, events: seq<Event>): Registry {
    if events == [] then reg else After(AfterAll(reg, events[..|events| - 1]), events[|events| - 1])
  }

  /** A generation of a name that has been tombstoned. */
  predicate Dead(reg: Registry, name: Text, epoch: nat) {
    name in reg && (reg[name].epoch > epoch || (reg[name].epoch == epoch && reg[name].deleted))
  }

  lemma EventKeepsTheDead(reg: Registry, e: Event, name: Text, epoch: nat)
    requires WellNamed(reg) && Dead(reg, name, epoch)
    ensures WellNamed(After(reg, e)) && Dead(After(reg, e), name, epoch)
  {
  }

  /** Once a generation is tombstoned it is never live again, whatever is merged late,
      deregistered, reaped or claimed afterwards. */
  lemma {:induction false} TombstonedGenerationStaysDead(reg: Registry, events: seq<Event>, name: Text, epoch: nat)
    requires WellNamed(reg) && Dead(reg, name, epoch)
    ensures WellNamed(AfterAll(reg, events)) && Dead(AfterAll(reg, events), name, epoch)
  {
    if events != [] {
      TombstonedGenerationStaysDead(reg, events[..|events| - 1], name, epoch);
      EventKeepsTheDead(AfterAll(reg, events[..|events| - 1]), events[|events| - 1], name, epoch);
    }
  }

  /** Only the owner may deregister, reaping needs no owner; either way the name reads as
      absent afterwards and the next claim opens a new generation. */
  lemma ReclaimOpensANewGeneration(reg: Registry, name: Text, owner: NodeId)
    requires WellNamed(reg) && name in reg && !reg[name].deleted
    ensures var r := After(reg, Reaped(name));
            name in r && r[name].deleted && r[name].epoch == reg[name].epoch
            && ClaimEpoch(r, name) == reg[name].epoch + 1
    ensures After(reg, Deregistered(name, owner)) == if owner == reg[name].owner then After(reg, Reaped(name)) else reg
  {
  }
}
