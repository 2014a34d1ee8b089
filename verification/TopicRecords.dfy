/** What a mux writes into a topic channel, and what the topic's own log says about how
    far each member has been merged (xchannel-net-core/src/mux.rs). */
module TopicRecords {
  import opened Bytes

  /** Bytes of the provenance prefix on every merged record. */
  const PROVENANCE_LEN := 18

  /** Message types from here up belong to the mux's own control records. */
  const RESERVED_MSG_TYPE_MIN := 0xFFF0

  predicate IsControl(msgType: u16) {
    msgType >= RESERVED_MSG_TYPE_MIN
  }

  /** A member is a channel name together with its registry generation. */
  datatype MemberId = MemberId(name: Text, epoch: nat)

  /** A record as the member channel holds it. */
  datatype MemberRecord = MemberRecord(msgType: u16, meta: nat, body: seq<byte>)

  /** Whether the mux may ever merge a record into a topic whose mtu is `mtu` (0 = no limit). */
  predicate Acceptable(r: MemberRecord, mtu: nat) {
    !IsControl(r.msgType) && (mtu == 0 || PROVENANCE_LEN + |r.body| <= mtu)
  }

  /** One slot-table line: which member a ref denotes and the next index to merge from it. */
  datatype SlotEntry = SlotEntry(memberRef: nat, id: MemberId, cursor: nat)

  datatype TopicRecord =
    | Data(memberRef: nat, memberIndex: nat, record: MemberRecord)
    | SlotTable(entries: seq<SlotEntry>)
    | TopicGap(memberRef: nat, from: nat, resumedAt: nat)
    | MemberRegressed(memberRef: nat, expected: nat, head: nat)
    | MemberClosed(memberRef: nat, finalIndex: nat)
    | Terminal

  // ---------------- scanning a topic ----------------

  /** The two maps recovery keeps while it reads a topic: the ref meanings in force at the
      scan position, and the highest merged index per member. */
  datatype ScanState = ScanState(active: map<nat, MemberId>, out: map<MemberId, nat>)

  const NOTHING_SCANNED := ScanState(map[], map[])

  /** The next index recovery would ask a member for. */
  function Next(out: map<MemberId, nat>, id: MemberId): nat {
    if id in out then out[id] + 1 else 0
  }

  /** The ref meanings a slot table puts in force; a repeated ref keeps its last line. */
  function RefsOf(entries: seq<SlotEntry>): map<nat, MemberId> {
    if entries == [] then map[]
    else var last := entries[|entries| - 1];
         RefsOf(entries[..|entries| - 1])[last.memberRef := last.id]
  }

  /** A slot table's cursors overwrite what the scan has accumulated, one line after the
      other; cursor 0 means "nothing merged", which is absence. */
  function Overwrite(out: map<MemberId, nat>, entries: seq<SlotEntry>): map<MemberId, nat> {
    if entries == [] then out
    else var last := entries[|entries| - 1];
         var before := Overwrite(out, entries[..|entries| - 1]);
         if last.cursor > 0 then before[last.id := last.cursor - 1] else before - {last.id}
  }

  function ScanStep(s: ScanState, r: TopicRecord): ScanState {
    match r
    case SlotTable(entries) => ScanState(RefsOf(entries), Overwrite(s.out, entries))
    case Data(ref, index, _) =>
      if ref in s.active then
        var id := s.active[ref];
        var sofar := if id in s.out then s.out[id] else 0;
        s.(out := s.out[id := if sofar < index then index else sofar])
      else s
    case _ => s
  }

  function Scan(log: seq<TopicRecord>): ScanState {
    if log == [] then NOTHING_SCANNED
    else ScanStep(Scan(log[..|log| - 1]), log[|log| - 1])
  }

  /** Whether a record carries a ref that means member `id` at this point of the log. */
  predicate Denotes(log: seq<TopicRecord>, ref: nat, id: MemberId) {
    var active := Scan(log).active;
    ref in active && active[ref] == id
  }

  /** The merged records the slot tables attribute to `id`, each with its member index. */
  function Attributed(log: seq<TopicRecord>, id: MemberId): seq<(nat, MemberRecord)> {
    if log == [] then []
    else
      var before, r := log[..|log| - 1], log[|log| - 1];
      Attributed(before, id)
      + if r.Data? && Denotes(before, r.memberRef, id) then [(r.memberIndex, r.record)] else []
  }

  /** Some slot table in `log` has a line for `id`. */
  ghost predicate Named(log: seq<TopicRecord>, id: MemberId) {
    exists t :: t in log && t.SlotTable? && Lists(t.entries, id)
  }

  ghost predicate Lists(entries: seq<SlotEntry>, id: MemberId) {
    exists e :: e in entries && e.id == id
  }

  // ---------------- small facts about the scan ----------------

  lemma ScanAppend(log: seq<TopicRecord>, r: TopicRecord)
    ensures Scan(log + [r]) == ScanStep(Scan(log), r)
    ensures forall id :: Attributed(log + [r], id) ==
                         Attributed(log, id)
                         + if r.Data? && Denotes(log, r.memberRef, id) then [(r.memberIndex, r.record)] else []
  {
  }

  lemma NamedAppend(log: seq<TopicRecord>, r: TopicRecord, id: MemberId)
    ensures Named(log + [r], id) <==> Named(log, id) || (r.SlotTable? && Lists(r.entries, id))
  {
  }

  ghost predicate DistinctRefs(entries: seq<SlotEntry>) {
    forall i, j :: 0 <= i < j < |entries| ==> entries[i].memberRef != entries[j].memberRef
  }

  ghost predicate DistinctIds(entries: seq<SlotEntry>) {
    forall i, j :: 0 <= i < j < |entries| ==> entries[i].id != entries[j].id
  }

  lemma {:induction false} RefsOfLine(entries: seq<SlotEntry>, k: nat)
    requires DistinctRefs(entries) && k < |entries|
    ensures entries[k].memberRef in RefsOf(entries)
    ensures RefsOf(entries)[entries[k].memberRef] == entries[k].id
  {
    var n := |entries| - 1;
    if k < n {
      assert DistinctRefs(entries[..n]);
      RefsOfLine(entries[..n], k);
      assert entries[k].memberRef != entries[n].memberRef;
    }
  }

  /** Every meaning a table puts in force comes from one of its lines. */
  lemma {:induction false} RefsOfComesFromALine(entries: seq<SlotEntry>, ref: nat)
    requires ref in RefsOf(entries)
    ensures Lists(entries, RefsOf(entries)[ref])
  {
    var n := |entries| - 1;
    assert entries[n] in entries;
    if ref != entries[n].memberRef {
      RefsOfComesFromALine(entries[..n], ref);
      var e :| e in entries[..n] && e.id == RefsOf(entries)[ref];
      assert e in entries;
    }
  }

  /** After a table, a listed member resumes exactly at the cursor the table carries. */
  lemma {:induction false} OverwriteLine(out: map<MemberId, nat>, entries: seq<SlotEntry>, k: nat)
    requires DistinctIds(entries) && k < |entries|
    ensures Next(Overwrite(out, entries), entries[k].id) == entries[k].cursor
  {
    var n := |entries| - 1;
    if k < n {
      assert DistinctIds(entries[..n]);
      OverwriteLine(out, entries[..n], k);
      assert entries[k].id != entries[n].id;
    }
  }

  /** Whatever a table lists, its effect on those members forgets what was known before;
      members it does not list are untouched. */
  lemma {:induction false} OverwriteAgrees(out: map<MemberId, nat>, out': map<MemberId, nat>,
                                           entries: seq<SlotEntry>, id: MemberId)
    ensures Lists(entries, id) ==>
              (id in Overwrite(out, entries) <==> id in Overwrite(out', entries)) &&
              Next(Overwrite(out, entries), id) == Next(Overwrite(out', entries), id)
    ensures !Lists(entries, id) ==>
              (id in Overwrite(out, entries) <==> id in out) &&
              Next(Overwrite(out, entries), id) == Next(out, id)
  {
    if entries == [] {
    } else {
      var n := |entries| - 1;
      OverwriteAgrees(out, out', entries[..n], id);
      assert entries[n] in entries;
      if Lists(entries[..n], id) {
        var e :| e in entries[..n] && e.id == id;
        assert e in entries;
      }
      if Lists(entries, id) && entries[n].id != id {
        var e :| e in entries && e.id == id;
        assert e in entries[..n];
      }
    }
  }
}
