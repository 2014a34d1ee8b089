/** Channel identities and the order that decides which one occupies a name
    (xchannel-net-core/src/identity.rs). */
module Identity {
  import opened Bytes

  datatype Option<+T> = None | Some(value: T)

  type NodeId = nat

  datatype ChannelIdentity = ChannelIdentity(
    name: Text, owner: NodeId, regionSize: u32, mtu: u32, earliestIndex: nat,
    registeredAt: nat, epoch: nat, deleted: bool, memberOf: Option<Text>)

  /** Which of two entries for one name wins: the later generation; within one, a tombstone;
      then the earlier registration; then the lower owner; on a full tie the first. */
  function ResolveCollision(a: ChannelIdentity, b: ChannelIdentity): ChannelIdentity {
    if a.epoch > b.epoch then a
    else if a.epoch < b.epoch then b
    else if a.deleted && !b.deleted then a
    else if !a.deleted && b.deleted then b
    else if a.registeredAt < b.registeredAt then a
    else if a.registeredAt > b.registeredAt then b
    else if a.owner <= b.owner then a
    else b
  }

  /** The fields the order looks at; it never looks at the others. */
  datatype Key = Key(epoch: nat, deleted: bool, registeredAt: nat, owner: NodeId)

  function KeyOf(id: ChannelIdentity): Key {
    Key(id.epoch, id.deleted, id.registeredAt, id.owner)
  }

  /** `k` loses to `l`. */
  predicate Below(k: Key, l: Key) {
    if k.epoch != l.epoch then k.epoch < l.epoch
    else if k.deleted != l.deleted then l.deleted
    else if k.registeredAt != l.registeredAt then k.registeredAt > l.registeredAt
    else k.owner > l.owner
  }

  predicate AtMost(k: Key, l: Key) {
    k == l || Below(k, l)
  }

  /** The keys are totally ordered. */
  lemma KeysAreTotallyOrdered(k: Key, l: Key, m: Key)
    ensures !Below(k, k)
    ensures Below(k, l) && Below(l, m) ==> Below(k, m)
    ensures Below(k, l) || k == l || Below(l, k)
    ensures !(Below(k, l) && Below(l, k))
  {
  }

  /** Whoever registered, in whatever order the two are compared, the higher key wins; the
      first argument stays unless the second is strictly higher. */
  lemma ResolveTakesTheHigher(a: ChannelIdentity, b: ChannelIdentity)
    ensures ResolveCollision(a, b) == if Below(KeyOf(a), KeyOf(b)) then b else a
    ensures KeyOf(ResolveCollision(a, b)) == KeyOf(ResolveCollision(b, a))
    ensures KeyOf(a) != KeyOf(b) ==> ResolveCollision(a, b) == ResolveCollision(b, a)
  {
  }

  /** Merging is associative. */
  lemma ResolveIsAssociative(a: ChannelIdentity, b: ChannelIdentity, c: ChannelIdentity)
    ensures ResolveCollision(ResolveCollision(a, b), c) == ResolveCollision(a, ResolveCollision(b, c))
  {
  }
}
