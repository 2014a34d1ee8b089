/** Byte-wise order on names, and how a prefix sits in it. */
module NameOrder {
  import opened Bytes

  predicate Less(a: Text, b: Text) {
    if b == [] then false
    else if a == [] then true
    else if a[0] != b[0] then a[0] < b[0]
    else Less(a[1..], b[1..])
  }

  lemma {:induction false} LessIsTotal(a: Text, b: Text)
    ensures Less(a, b) || a == b || Less(b, a)
    ensures !(Less(a, b) && Less(b, a)) && !Less(a, a)
  {
    if a != [] && b != [] && a[0] == b[0] {
      LessIsTotal(a[1..], b[1..]);
      assert a == [a[0]] + a[1..] && b == [b[0]] + b[1..];
    }
    if a != [] { LessIsTotal(a[1..], a[1..]); }
  }

  lemma {:induction false} LessIsTransitive(a: Text, b: Text, c: Text)
    requires Less(a, b) && Less(b, c)
    ensures Less(a, c)
  {
    if a != [] && a[0] == b[0] && b[0] == c[0] {
      LessIsTransitive(a[1..], b[1..], c[1..]);
    }
  }

  /** Names with a prefix come no earlier than the prefix itself. */
  lemma {:induction false} ExtensionsComeAfter(prefix: Text, name: Text)
    requires prefix <= name
    ensures !Less(name, prefix)
  {
    if prefix != [] {
      assert prefix[1..] <= name[1..];
      ExtensionsComeAfter(prefix[1..], name[1..]);
    }
  }

  /** ... and they sit together: past the prefix, the first name without it ends the block. */
  lemma {:induction false} NoExtensionAfterTheBlock(prefix: Text, name: Text, later: Text)
    requires !Less(name, prefix) && !(prefix <= name) && Less(name, later)
    ensures !(prefix <= later)
  {
    if prefix <= later && prefix[0] == name[0] == later[0] {
      assert prefix == [prefix[0]] + prefix[1..] && name == [name[0]] + name[1..];
      assert prefix[1..] <= later[1..];
      NoExtensionAfterTheBlock(prefix[1..], name[1..], later[1..]);
    }
  }
}

/** The registry as its owner keeps it: entries in name order, updated in place
    (xchannel-net/src/registry.rs). */
module RegistryStore {
  import opened Bytes
  import opened Identity
  import opened RegistryMap
  import opened NameOrder

  /** Names strictly ascend. */
  ghost predicate Ordered(entries: seq<ChannelIdentity>) {
    forall i, j :: 0 <= i < j < |entries| ==> Less(entries[i].name, entries[j].name)
  }

  ghost predicate Distinct(entries: seq<ChannelIdentity>) {
    forall i, j :: 0 <= i < j < |entries| ==> entries[i].name != entries[j].name
  }

  ghost function MapOf(entries: seq<ChannelIdentity>): Registry
    requires Distinct(entries)
  {
    map id | id in entries :: id.name := id
  }

  /** Everything before `i` is below `name`, nothing from `i` on is. */
  ghost predicate Splits(entries: seq<ChannelIdentity>, i: nat, name: Text) {
    && i <= |entries|
    && (forall j :: 0 <= j < i ==> Less(entries[j].name, name))
    && (forall j :: i <= j < |entries| ==> !Less(entries[j].name, name))
  }

  function Put(entries: seq<ChannelIdentity>, i: nat, id: ChannelIdentity): seq<ChannelIdentity>
    requires i <= |entries|
  {
    if i < |entries| && entries[i].name == id.name then entries[i := id]
    else entries[..i] + [id] + entries[i..]
  }

  lemma OrderedAt(entries: seq<ChannelIdentity>, i: nat, j: nat)
    requires Ordered(entries) && j < |entries|
    ensures i < j ==> Less(entries[i].name, entries[j].name)
  {
  }

  /** At a split point the name is either right there or nowhere. */
  lemma FoundOrAbsent(entries: seq<ChannelIdentity>, i: nat, name: Text)
    requires Ordered(entries) && Distinct(entries) && Splits(entries, i, name)
    ensures name in MapOf(entries) <==> i < |entries| && entries[i].name == name
    ensures i < |entries| && entries[i].name == name ==> MapOf(entries)[name] == entries[i]
  {
    LessIsTotal(name, name);
    if name in MapOf(entries) {
      var j :| 0 <= j < |entries| && entries[j].name == name;
      OrderedAt(entries, i, j);
    }
    if i < |entries| && entries[i].name == name {
      assert entries[i] in entries;
    }
  }

  lemma PutKeepsOrder(entries: seq<ChannelIdentity>, i: nat, id: ChannelIdentity)
    requires Ordered(entries) && Splits(entries, i, id.name)
    ensures Ordered(Put(entries, i, id)) && Distinct(Put(entries, i, id))
  {
    var after := Put(entries, i, id);
    if i < |entries| { LessIsTotal(entries[i].name, id.name); }
    forall j | i < j < |entries| ensures Less(id.name, entries[j].name) {
      if entries[i].name != id.name { LessIsTransitive(id.name, entries[i].name, entries[j].name); }
    }
    forall a, b | 0 <= a < b < |after|
      ensures Less(after[a].name, after[b].name) && after[a].name != after[b].name
    {
      LessIsTotal(after[a].name, after[b].name);
    }
  }

  /** Writing at the split point is writing the map at that name. */
  lemma PutIsUpdate(entries: seq<ChannelIdentity>, i: nat, id: ChannelIdentity)
    requires Ordered(entries) && Distinct(entries) && Splits(entries, i, id.name)
    ensures Distinct(Put(entries, i, id))
    ensures MapOf(Put(entries, i, id)) == MapOf(entries)[id.name := id]
  {
    hide Less, Ordered;
    PutKeepsOrder(entries, i, id);
    PutMembers(entries, i, id);
  }

  lemma PutMembers(entries: seq<ChannelIdentity>, i: nat, id: ChannelIdentity)
    requires Ordered(entries) && Distinct(entries) && Splits(entries, i, id.name)
    ensures forall x :: x in Put(entries, i, id) <==> x == id || (x in entries && x.name != id.name)
  {
    hide Less;
    var after := Put(entries, i, id);
    FoundOrAbsent(entries, i, id.name);
    assert after[i] == id;
    forall x | x in entries && x.name != id.name ensures x in after {
      var j :| 0 <= j < |entries| && entries[j] == x;
      assert after[j] == x || (j + 1 < |after| && after[j + 1] == x);
    }
    forall x | x in after && x != id ensures x in entries && x.name != id.name {
      var j :| 0 <= j < |after| && after[j] == x;
      assert x in entries;
    }
  }

  // ---------------- listing by prefix ----------------

  /** The live entries with the prefix, found by looking at every entry. */
  function Listing(entries: seq<ChannelIdentity>, prefix: Text): seq<ChannelIdentity> {
    if entries == [] then []
    else
      var last := entries[|entries| - 1];
      Listing(entries[..|entries| - 1], prefix) + (if prefix <= last.name && !last.deleted then [last] else [])
  }

  /** A listing is in name order and has exactly the live names with the prefix. */
  lemma {:induction false} ListingIsExact(entries: seq<ChannelIdentity>, prefix: Text)
    requires Ordered(entries)
    ensures Ordered(Listing(entries, prefix))
    ensures forall id :: id in Listing(entries, prefix) <==> id in entries && prefix <= id.name && !id.deleted
  {
    hide Less;
    if entries != [] {
      var before, last := entries[..|entries| - 1], entries[|entries| - 1];
      ListingIsExact(before, prefix);
      assert entries == before + [last];
      var shorter := Listing(before, prefix);
      forall i | 0 <= i < |shorter| ensures Less(shorter[i].name, last.name) {
        assert shorter[i] in before;
      }
    }
  }

  lemma ListingIsOfTheMap(entries: seq<ChannelIdentity>, prefix: Text)
    requires Ordered(entries) && Distinct(entries)
    ensures Ordered(Listing(entries, prefix))
    ensures forall id :: id in Listing(entries, prefix) <==>
              id.name in MapOf(entries) && MapOf(entries)[id.name] == id && prefix <= id.name && !id.deleted
  {
    hide Less, Listing, Ordered;
    ListingIsExact(entries, prefix);
    forall id ensures id in entries <==> id.name in MapOf(entries) && MapOf(entries)[id.name] == id { }
  }

  lemma ListingGrows(entries: seq<ChannelIdentity>, i: nat, prefix: Text)
    requires i < |entries| && prefix <= entries[i].name
    ensures Listing(entries[..i + 1], prefix)
         == Listing(entries[..i], prefix) + if entries[i].deleted then [] else [entries[i]]
  {
    assert entries[..i + 1][..i] == entries[..i];
  }

  /** Entries without the prefix add nothing. */
  lemma {:induction false} ListingSkips(entries: seq<ChannelIdentity>, k: nat, prefix: Text)
    requires k <= |entries| && forall j :: k <= j < |entries| ==> !(prefix <= entries[j].name)
    ensures Listing(entries, prefix) == Listing(entries[..k], prefix)
    decreases |entries|
  {
    if k < |entries| {
      assert entries[..|entries| - 1][..k] == entries[..k];
      ListingSkips(entries[..|entries| - 1], k, prefix);
    } else {
      assert entries[..k] == entries;
    }
  }

  lemma {:induction false} NothingBeforeThePrefix(entries: seq<ChannelIdentity>, prefix: Text)
    requires forall j :: 0 <= j < |entries| ==> Less(entries[j].name, prefix)
    ensures Listing(entries, prefix) == []
  {
    if entries != [] {
      var last := entries[|entries| - 1];
      assert Less(last.name, prefix);
      if prefix <= last.name { ExtensionsComeAfter(prefix, last.name); }
      NothingBeforeThePrefix(entries[..|entries| - 1], prefix);
    }
  }

  /** The first entry past the prefix without it ends the block of those with it. */
  lemma NothingAfterTheBlock(entries: seq<ChannelIdentity>, k: nat, prefix: Text)
    requires Ordered(entries) && k < |entries|
    requires !Less(entries[k].name, prefix) && !(prefix <= entries[k].name)
    ensures Listing(entries, prefix) == Listing(entries[..k], prefix)
  {
    forall j | k <= j < |entries| ensures !(prefix <= entries[j].name) {
      if j > k { NoExtensionAfterTheBlock(prefix, entries[k].name, entries[j].name); }
    }
    ListingSkips(entries, k, prefix);
  }

  class Store {
    var channels: seq<ChannelIdentity>

    ghost predicate Valid()
      reads this
    {
      Ordered(channels) && Distinct(channels)
    }

    ghost function Map(): Registry
      requires Valid()
      reads this
    {
      MapOf(channels)
    }

    constructor ()
      ensures Valid() && Map() == map[]
    {
      channels := [];
    }

    /** Where the entries at or above `name` begin. */
    method Seek(name: Text) returns (i: nat)
      requires Valid()
      ensures Splits(channels, i, name)
    {
      i := 0;
      while i < |channels| && Less(channels[i].name, name)
        invariant i <= |channels| && forall j :: 0 <= j < i ==> Less(channels[j].name, name)
      {
        i := i + 1;
      }
      forall j | i < j < |channels| ensures !Less(channels[j].name, name) {
        if Less(channels[j].name, name) {
          LessIsTransitive(channels[i].name, channels[j].name, name);
        }
      }
    }

    method GetRaw(name: Text) returns (entry: Option<ChannelIdentity>)
      requires Valid()
      ensures entry == if name in Map() then Some(Map()[name]) else None
    {
      var i := Seek(name);
      FoundOrAbsent(channels, i, name);
      entry := if i < |channels| && channels[i].name == name then Some(channels[i]) else None;
    }

    /** A deregistered name reads as absent. */
    method Get(name: Text) returns (entry: Option<ChannelIdentity>)
      requires Valid()
      ensures entry == if name in Map() && !Map()[name].deleted then Some(Map()[name]) else None
    {
      entry := GetRaw(name);
      if entry.Some? && entry.value.deleted { entry := None; }
    }

    method ClaimEpoch(name: Text) returns (epoch: nat)
      requires Valid()
      ensures epoch == RegistryMap.ClaimEpoch(Map(), name)
      ensures forall dead: nat :: Dead(Map(), name, dead) ==> epoch > dead
    {
      var entry := GetRaw(name);
      epoch := if entry.None? then 0 else if entry.value.deleted then entry.value.epoch + 1 else entry.value.epoch;
    }

    /** `changed` says whether the map moved. */
    method MergeTracked(incoming: ChannelIdentity) returns (winner: ChannelIdentity, changed: bool)
      requires Valid()
      modifies this
      ensures Valid() && Map() == Merge(old(Map()), incoming)
      ensures winner == Winner(old(Map()), incoming)
      ensures changed <==> Map() != old(Map())
    {
      var i := Seek(incoming.name);
      FoundOrAbsent(channels, i, incoming.name);
      var present := i < |channels| && channels[i].name == incoming.name;
      winner := if present then ResolveCollision(channels[i], incoming) else incoming;
      changed := !(present && channels[i] == winner);
      PutKeepsOrder(channels, i, winner);
      PutIsUpdate(channels, i, winner);
      channels := Put(channels, i, winner);
    }

    /** Only the owner of a live name may retire it; the tombstone is what to spread. */
    method Deregister(name: Text, owner: NodeId) returns (tombstone: Option<ChannelIdentity>)
      requires Valid()
      modifies this
      ensures Valid() && Map() == After(old(Map()), Deregistered(name, owner))
      ensures tombstone.Some? <==> name in old(Map()) && !old(Map())[name].deleted && old(Map())[name].owner == owner
      ensures tombstone.Some? <==> Map() != old(Map())
      ensures tombstone.Some? ==> name in Map() && Map()[name] == tombstone.value && tombstone.value.deleted
    {
      var current := GetRaw(name);
      if current.None? || current.value.deleted || current.value.owner != owner { return None; }
      var winner, _ := MergeTracked(Tombstone(current.value));
      tombstone := Some(winner);
    }

    /** Retires a live name whoever owns it. */
    method Reap(name: Text) returns (tombstone: Option<ChannelIdentity>)
      requires Valid()
      modifies this
      ensures Valid() && Map() == After(old(Map()), Reaped(name))
      ensures tombstone.Some? <==> name in old(Map()) && !old(Map())[name].deleted
      ensures tombstone.Some? <==> Map() != old(Map())
      ensures tombstone.Some? ==> name in Map() && Map()[name] == tombstone.value && tombstone.value.deleted
    {
      var current := GetRaw(name);
      if current.None? || current.value.deleted { return None; }
      var winner, _ := MergeTracked(Tombstone(current.value));
      tombstone := Some(winner);
    }

    /** The ordered range scan with early stop is the listing found by looking everywhere. */
    method WithPrefix(prefix: Text) returns (found: seq<ChannelIdentity>)
      requires Valid()
      ensures found == Listing(channels, prefix) && Ordered(found)
      ensures forall id :: id in found <==>
                id.name in Map() && Map()[id.name] == id && prefix <= id.name && !id.deleted
    {
      hide MapOf, Less, Ordered, Distinct, Listing;
      var i := Seek(prefix);
      NothingBeforeThePrefix(channels[..i], prefix);
      found := [];
      ListingIsOfTheMap(channels, prefix);
      while i < |channels| && prefix <= channels[i].name
        invariant i <= |channels| && found == Listing(channels[..i], prefix)
        invariant forall j :: i <= j < |channels| ==> !Less(channels[j].name, prefix)
      {
        ListingGrows(channels, i, prefix);
        if !channels[i].deleted { found := found + [channels[i]]; }
        i := i + 1;
      }
      if i < |channels| { NothingAfterTheBlock(channels, i, prefix); } else { assert channels[..i] == channels; }
    }
  }
}
