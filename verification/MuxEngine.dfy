/** The mux itself: an object that owns the topic's writer and moves its slots, one public
    call at a time. Every call is shown to be a sequence of the machine's steps, so what
    holds of the machine holds of the object, also if the process dies inside a call. */
module MuxEngine {
  import opened ChannelLog
  import opened TopicRecords
  import opened MuxMachine
  import opened MuxInvariant
  import opened MuxSteps

  /** The mux re-emits its table at least once per this many merged records. */
  const SLOT_TABLE_REFRESH := 4096

  /** What a record costs a segment besides its payload. */
  const RECORD_OVERHEAD := 16

  datatype Geometry = Geometry(mtu: nat, fileRollSize: nat, keepFiles: nat)

  function TableLen(entries: seq<SlotEntry>): nat {
    if entries == [] then 23
    else TableLen(entries[..|entries| - 1]) + 20 + |entries[|entries| - 1].id.name|
  }

  function PayloadLen(r: TopicRecord): nat {
    match r
    case Data(_, _, record) => PROVENANCE_LEN + |record.body|
    case SlotTable(entries) => TableLen(entries)
    case TopicGap(_, _, _) => 18
    case MemberRegressed(_, _, _) => 18
    case MemberClosed(_, _) => 10
    case Terminal => 0
  }

  /** What a record adds to the estimate of its segment's size: records are 8-aligned. */
  function SegmentCost(r: TopicRecord): nat {
    RECORD_OVERHEAD + (PayloadLen(r) + 7) / 8 * 8
  }

  // ---------------- a call as a sequence of steps ----------------

  /** The process may die after any number of a call's steps; what it leaves behind is a
      state of the machine all the same. */
  lemma {:induction false} AnyPrefixIsSafe(c: Config, a: System, steps: seq<Step>, b: System, k: nat)
    requires Leads(c, a, steps, b) && Inv(c, a) && k <= |steps|
    ensures exists mid :: Leads(c, a, steps[..k], mid) && Inv(c, mid)
    decreases |steps|
  {
    hide Apply, Enabled, Settled, SessionOK, SegmentsOpenWell;
    if k == 0 {
      assert Leads(c, a, steps[..0], a);
    } else {
      var next := Apply(c, a, steps[0]);
      StepKeepsInv(c, a, steps[0]);
      AnyPrefixIsSafe(c, next, steps[1..], b, k - 1);
      var mid :| Leads(c, next, steps[1..][..k - 1], mid) && Inv(c, mid);
      assert steps[..k][1..] == steps[1..][..k - 1];
      assert Leads(c, a, steps[..k], mid);
    }
  }

  /** One step more, at the end of the steps taken so far. */
  lemma LeadsFurther(c: Config, a: System, steps: seq<Step>, b: System, step: Step)
    requires Leads(c, a, steps, b) && Inv(c, b) && Enabled(c, b, step)
    ensures Leads(c, a, steps + [step], Apply(c, b, step)) && Inv(c, Apply(c, b, step))
  {
    hide Leads, Apply, Enabled, Settled, SessionOK, SegmentsOpenWell;
    LeadsByOne(c, b, step);
    LeadsOn(c, a, steps, b, [step], Apply(c, b, step));
    StepKeepsInv(c, b, step);
  }

  /** Rolling and opening the new segment with the slots' table. */
  ghost function Rolled(c: Config, s: System): System
    requires Shape(s) && s.host.Up?
  {
    s.(topic := Append(Roll(s.topic, c.keepFiles), SlotTable(EntriesOf(s.host.session.slots))))
  }

  lemma RollingLeads(c: Config, s: System)
    requires Inv(c, s) && Enabled(c, s, RollTopic)
    ensures Leads(c, s, [RollTopic, RollTable], Rolled(c, s)) && Inv(c, Rolled(c, s))
  {
    hide Leads, Settled, SessionOK, SegmentsOpenWell, Scan, Named;
    var mid := Apply(c, s, RollTopic);
    LeadsByOne(c, s, RollTopic);
    StepKeepsInv(c, s, RollTopic);
    assert [RollTopic] + [RollTable] == [RollTopic, RollTable];
    LeadsFurther(c, s, [RollTopic], mid, RollTable);
    assert Apply(c, mid, RollTable) == Rolled(c, s);
  }

  lemma InvShape(c: Config, s: System)
    requires Inv(c, s)
    ensures Shape(s) && ChannelLog.Valid(s.topic)
    ensures s.host.Up? ==> s.host.session.nextRef <= 0xFFFF
    ensures Inventory(s.members)
    ensures forall id :: id in s.members ==> 0 < |s.members[id].history|
  {
  }

  function WithMark(topic: Channel<TopicRecord>, ref: nat, resume: Resume): Channel<TopicRecord>
    requires ChannelLog.Valid(topic)
  {
    match resume
    case Clean(_) => topic
    case Hole(from, start) => Append(topic, TopicGap(ref, from, start))
    case Back(expected, start) => Append(topic, MemberRegressed(ref, expected, start))
  }

  /** Where attaching `id` takes the mux, marker included. */
  ghost function AttachedState(s: System, id: MemberId): System
    requires Shape(s) && s.host.Up? && id in s.members
  {
    var ses, m := s.host.session, s.members[id];
    var resume := ResumeAt(Next(ses.recovered, id), m.earliest, |Current(m)|);
    var slots := ses.slots + [Slot(ses.nextRef, id, resume.start, resume.start, 0)];
    System(WithMark(Append(s.topic, SlotTable(EntriesOf(slots))), ses.nextRef, resume), s.members,
           Up(ses.(slots := slots, nextRef := ses.nextRef + 1, phase := Idle)),
           if Recalled(s.topic, ses, id) then s.broken else s.broken + {id})
  }

  /** The marker an attach leaves when it could not resume at `want`. */
  ghost predicate IsMarkFor(r: TopicRecord, ref: nat, want: nat, start: nat) {
    r == if want < start then TopicGap(ref, want, start) else MemberRegressed(ref, want, start)
  }

  /** From `s` to `t` one slot was added, for `id`: it stands inside the member's log, and if
      that is not where `recovered` asked to resume, the topic's last record says so. */
  ghost predicate AttachedAs(s: System, t: System, id: MemberId) {
    && Shape(s) && s.host.Up? && t.host.Up? && id in s.members && 0 < |t.topic.records|
    && var before, after := s.host.session, t.host.session;
    && |after.slots| == |before.slots| + 1 && after.slots[..|before.slots|] == before.slots
    && var slot, want := after.slots[|before.slots|], Next(before.recovered, id);
    && slot.id == id && slot.memberRef == before.nextRef && slot.source == slot.cursor
    && s.members[id].earliest <= slot.cursor <= |Current(s.members[id])|
    && (slot.cursor != want ==>
          IsMarkFor(t.topic.records[|t.topic.records| - 1], slot.memberRef, want, slot.cursor))
  }

  lemma AttachedStateFits(s: System, id: MemberId)
    requires Shape(s) && s.host.Up? && id in s.members
    ensures AttachedAs(s, AttachedState(s, id), id)
  {
  }

  lemma AttachingLeads(c: Config, s: System, id: MemberId) returns (steps: seq<Step>)
    requires Inv(c, s) && Enabled(c, s, Attach(id))
    ensures Leads(c, s, steps, AttachedState(s, id)) && Inv(c, AttachedState(s, id))
    ensures steps == [Attach(id)] || steps == [Attach(id), Mark]
  {
    hide Leads, Settled, SessionOK, SegmentsOpenWell, Scan, Named;
    var tabled := Apply(c, s, Attach(id));
    LeadsByOne(c, s, Attach(id));
    StepKeepsInv(c, s, Attach(id));
    steps := [Attach(id)];
    if tabled.host.session.phase.MarkDue? {
      LeadsFurther(c, s, steps, tabled, Mark);
      steps := steps + [Mark];
      assert Apply(c, tabled, Mark) == AttachedState(s, id);
    } else {
      assert tabled == AttachedState(s, id);
    }
  }

  /** Where closing slot `i` takes the mux. */
  ghost function ClosedState(s: System, i: nat): System
    requires Shape(s) && s.host.Up? && i < |s.host.session.slots|
  {
    var ses := s.host.session;
    var rest := ses.slots[..i] + ses.slots[i + 1..];
    var topic := Append(s.topic, MemberClosed(ses.slots[i].memberRef, ses.slots[i].cursor));
    s.(topic := Append(topic, SlotTable(EntriesOf(rest))),
       host := Up(ses.(slots := rest, removed := ses.removed + {ses.slots[i].id})))
  }

  lemma ClosingLeads(c: Config, s: System, i: nat)
    requires Inv(c, s) && Enabled(c, s, Close(i))
    ensures Leads(c, s, [Close(i), CloseTable], ClosedState(s, i)) && Inv(c, ClosedState(s, i))
  {
    hide Leads, Settled, SessionOK, SegmentsOpenWell, Scan, Named;
    var closed := Apply(c, s, Close(i));
    LeadsByOne(c, s, Close(i));
    StepKeepsInv(c, s, Close(i));
    LeadsFurther(c, s, [Close(i)], closed, CloseTable);
    assert [Close(i)] + [CloseTable] == [Close(i), CloseTable];
    assert Apply(c, closed, CloseTable) == ClosedState(s, i);
  }

  lemma RetiringLeads(c: Config, s: System)
    requires Inv(c, s) && Enabled(c, s, Retire)
    ensures var t := Commit(s, Terminal, s.host.session.(finished := true));
            Leads(c, s, [Retire], t) && Inv(c, t)
  {
    hide Leads, Settled, SessionOK, SegmentsOpenWell, Scan, Named;
    LeadsByOne(c, s, Retire);
    StepKeepsInv(c, s, Retire);
  }

  /** Every slot's member exists, and no two slots share a ref or a member. */
  lemma SlotsKnown(c: Config, s: System)
    requires Inv(c, s) && s.host.Up?
    ensures DistinctSlots(s.host.session.slots) && Inventory(s.members)
    ensures forall k :: 0 <= k < |s.host.session.slots| ==> s.host.session.slots[k].id in s.members
  {
    SlotsStand(s);
  }

  /** Slot `i` has `frame` to give, and the mux is between calls. */
  ghost predicate Offers(s: System, i: nat, frame: MemberRecord) {
    && Shape(s) && s.host.Up? && !s.host.session.finished && s.host.session.phase.Idle?
    && i < |s.host.session.slots|
    && var slot := s.host.session.slots[i];
    && slot.id in s.members && slot.source < |Current(s.members[slot.id])|
    && Current(s.members[slot.id])[slot.source] == frame
  }

  lemma LeadsThroughMerge(c: Config, a: System, steps: seq<Step>, s: System, i: nat, frame: MemberRecord)
    requires Leads(c, a, steps, s) && Inv(c, s) && Offers(s, i, frame) && Acceptable(frame, c.mtu)
    ensures var ses := s.host.session;
            var t := Commit(s, Data(ses.slots[i].memberRef, ses.slots[i].source, frame),
                            ses.(slots := SlotAdvanced(ses.slots, i, 0)));
            Leads(c, a, steps + [Merge(i)], t) && Inv(c, t)
  {
    hide Leads, Settled, SessionOK, SegmentsOpenWell, Scan, Named;
    LeadsFurther(c, a, steps, s, Merge(i));
  }

  lemma LeadsThroughReject(c: Config, a: System, steps: seq<Step>, s: System, i: nat, frame: MemberRecord)
    requires Leads(c, a, steps, s) && Inv(c, s) && Offers(s, i, frame) && !Acceptable(frame, c.mtu)
    ensures var ses := s.host.session;
            var t := s.(host := Up(ses.(slots := SlotAdvanced(ses.slots, i, 1))));
            Leads(c, a, steps + [Reject(i)], t) && Inv(c, t)
  {
    hide Leads, Settled, SessionOK, SegmentsOpenWell, Scan, Named;
    LeadsFurther(c, a, steps, s, Reject(i));
  }

  lemma LeadsThroughRefresh(c: Config, a: System, steps: seq<Step>, s: System)
    requires Leads(c, a, steps, s) && Inv(c, s)
    requires s.host.Up? && !s.host.session.finished && s.host.session.phase.Idle? && s.host.session.slots != []
    ensures var t := Commit(s, SlotTable(EntriesOf(s.host.session.slots)), s.host.session);
            Leads(c, a, steps + [Refresh], t) && Inv(c, t)
  {
    hide Leads, Settled, SessionOK, SegmentsOpenWell, Scan, Named;
    LeadsFurther(c, a, steps, s, Refresh);
  }

  // ---------------- what a call wrote ----------------

  /** The merged records carrying `ref`, in order. */
  function DataOf(records: seq<TopicRecord>, ref: nat): seq<TopicRecord> {
    if records == [] then []
    else
      var last := records[|records| - 1];
      DataOf(records[..|records| - 1], ref) + if last.Data? && last.memberRef == ref then [last] else []
  }

  function DataCount(records: seq<TopicRecord>): nat {
    if records == [] then 0
    else DataCount(records[..|records| - 1]) + if records[|records| - 1].Data? then 1 else 0
  }

  /** `after` is `before` plus the merged record `r` and possibly some tables. */
  ghost predicate Gained(before: seq<TopicRecord>, after: seq<TopicRecord>, r: TopicRecord) {
    && r.Data? && before <= after && DataCount(after) == DataCount(before) + 1
    && forall ref :: DataOf(after, ref) == DataOf(before, ref) + if ref == r.memberRef then [r] else []
  }

  ghost predicate MaybeTable(before: seq<TopicRecord>, after: seq<TopicRecord>) {
    after == before || (exists t: TopicRecord :: t.SlotTable? && after == before + [t])
  }

  lemma GainedAmongTables(before: seq<TopicRecord>, rolled: seq<TopicRecord>, r: TopicRecord, after: seq<TopicRecord>)
    requires r.Data? && MaybeTable(before, rolled) && MaybeTable(rolled + [r], after)
    ensures Gained(before, after, r)
  {
    hide DataOf, DataCount;
    if rolled != before {
      var t: TopicRecord :| t.SlotTable? && rolled == before + [t];
      DataAfter(before, t);
    }
    DataAfter(rolled, r);
    if after != rolled + [r] {
      var t: TopicRecord :| t.SlotTable? && after == rolled + [r] + [t];
      DataAfter(rolled + [r], t);
    }
    assert before <= rolled <= rolled + [r] <= after;
  }

  lemma DataAfter(records: seq<TopicRecord>, r: TopicRecord)
    ensures DataCount(records + [r]) == DataCount(records) + if r.Data? then 1 else 0
    ensures forall ref ::
              DataOf(records + [r], ref) == DataOf(records, ref) + if r.Data? && r.memberRef == ref then [r] else []
  {
    assert (records + [r])[..|records|] == records;
  }

  /** `n` more records carrying `ref` were merged, and nothing else was. */
  ghost predicate GainedOf(before: seq<TopicRecord>, after: seq<TopicRecord>, ref: nat, n: nat) {
    && before <= after && DataCount(after) == DataCount(before) + n
    && |DataOf(after, ref)| == |DataOf(before, ref)| + n
    && forall other :: other != ref ==> DataOf(after, other) == DataOf(before, other)
  }

  lemma GainedOneMore(a: seq<TopicRecord>, b: seq<TopicRecord>, d: seq<TopicRecord>, n: nat, r: TopicRecord)
    requires r.Data? && GainedOf(a, b, r.memberRef, n) && Gained(b, d, r)
    ensures GainedOf(a, d, r.memberRef, n + 1)
  {
  }

  /** A slot's turn in one poll: at most `maxBatch` records, and fewer only if that drained it. */
  ghost predicate FairShare(before: seq<TopicRecord>, after: seq<TopicRecord>, slot: Slot, head: nat, maxBatch: nat) {
    var n := |DataOf(after, slot.memberRef)| - |DataOf(before, slot.memberRef)|;
    0 <= n <= maxBatch && (n < maxBatch ==> slot.cursor == head)
  }

  lemma GainedNone(records: seq<TopicRecord>, ref: nat)
    ensures GainedOf(records, records, ref, 0)
  {
  }

  /** Slot `i` moved from `a` to its new cursor and merged exactly one record: the first it
      may merge. */
  ghost predicate MergedNext(log: seq<MemberRecord>, mtu: nat, a: nat, cursor: nat) {
    && a < cursor <= |log| && Acceptable(log[cursor - 1], mtu)
    && forall j :: a <= j < cursor - 1 ==> !Acceptable(log[j], mtu)
  }

  /** Nothing from `a` on may be merged. */
  ghost predicate Exhausted(log: seq<MemberRecord>, mtu: nat, a: nat) {
    a <= |log| && forall j :: a <= j < |log| ==> !Acceptable(log[j], mtu)
  }

  /** The same slots but for the progress of slot `i`. */
  ghost predicate OnlyMoved(before: seq<Slot>, after: seq<Slot>, i: nat) {
    && |after| == |before| && i < |before|
    && after[i].memberRef == before[i].memberRef && after[i].id == before[i].id
    && forall k :: 0 <= k < |before| && k != i ==> after[k] == before[k]
  }

  // ---------------- recovery ----------------

  /** Read a topic from the start of what it retains, keeping the two maps recovery needs. */
  method RecoverCursors(records: seq<TopicRecord>) returns (out: map<MemberId, nat>)
    ensures out == Scan(records).out
  {
    var active: map<nat, MemberId> := map[];
    out := map[];
    for i := 0 to |records|
      invariant ScanState(active, out) == Scan(records[..i])
    {
      var r := records[i];
      assert records[..i + 1][..i] == records[..i];
      if r.SlotTable? {
        active := map[];
        ghost var before := out;
        for j := 0 to |r.entries|
          invariant active == RefsOf(r.entries[..j])
          invariant out == Overwrite(before, r.entries[..j])
        {
          var e := r.entries[j];
          assert r.entries[..j + 1][..j] == r.entries[..j];
          active := active[e.memberRef := e.id];
          if e.cursor > 0 {
            out := out[e.id := e.cursor - 1];
          } else {
            out := out - {e.id};
          }
        }
        assert r.entries[..|r.entries|] == r.entries;
      } else if r.Data? && r.memberRef in active {
        var id := active[r.memberRef];
        var sofar := if id in out then out[id] else 0;
        out := out[id := if sofar < r.memberIndex then r.memberIndex else sofar];
      }
    }
    assert records[..|records|] == records;
  }

  /** Slot `pos` was `id`'s and is gone; `records` grew past `from`, and ends with the
      member's closing marker, at the head it was drained to, and the table of the slots
      that stay. */
  ghost predicate ClosedAt(before: seq<Slot>, after: seq<Slot>, from: nat, records: seq<TopicRecord>,
                           members: map<MemberId, Member>, id: MemberId, pos: nat) {
    && pos < |before| && before[pos].id == id && id in members && 0 < |members[id].history|
    && after == before[..pos] + before[pos + 1..] && from + 2 <= |records|
    && records[|records| - 2] == MemberClosed(before[pos].memberRef, |Current(members[id])|)
    && records[|records| - 1] == SlotTable(EntriesOf(after))
  }

  lemma ClosedAfterDrain(before: seq<Slot>, moved: seq<Slot>, from: nat, drained: seq<TopicRecord>,
                         members: map<MemberId, Member>, pos: nat)
    requires OnlyMoved(before, moved, pos) && from <= |drained|
    requires moved[pos].id in members && 0 < |members[moved[pos].id].history|
    requires moved[pos].cursor == |Current(members[moved[pos].id])|
    ensures var rest := moved[..pos] + moved[pos + 1..];
            ClosedAt(before, rest, from, drained + [MemberClosed(moved[pos].memberRef, moved[pos].cursor)]
                                         + [SlotTable(EntriesOf(rest))], members, before[pos].id, pos)
  {
  }

  /** Somewhere in what `after` adds to `before`, the member behind `ref` is closed at `head`. */
  ghost predicate ClosedSince(before: seq<TopicRecord>, after: seq<TopicRecord>, ref: nat, head: nat) {
    before <= after && exists j :: |before| <= j < |after| && after[j] == MemberClosed(ref, head)
  }

  /** Removing the first of the remaining slots leaves the others and closes that one. */
  lemma FirstSlotClosed(all: seq<Slot>, k: nat, rest: seq<Slot>, before: seq<TopicRecord>, after: seq<TopicRecord>,
                        members: map<MemberId, Member>)
    requires DistinctSlots(all) && k < |all| && before <= after
    requires exists pos: nat :: ClosedAt(all[k..], rest, |before|, after, members, all[k].id, pos)
    ensures rest == all[k + 1..] && all[k].id in members && 0 < |members[all[k].id].history|
    ensures ClosedSince(before, after, all[k].memberRef, |Current(members[all[k].id])|)
  {
  }

  lemma ClosedSinceKeeps(start: seq<TopicRecord>, before: seq<TopicRecord>, after: seq<TopicRecord>, ref: nat,
                         head: nat)
    requires start <= before <= after
    ensures ClosedSince(start, before, ref, head) ==> ClosedSince(start, after, ref, head)
    ensures ClosedSince(before, after, ref, head) ==> ClosedSince(start, after, ref, head)
  {
  }

  lemma FinishedHasNoSlots(c: Config, s: System)
    requires Inv(c, s) && s.host.Up? && s.host.session.finished
    ensures s.host.session.slots == []
  {
  }

  datatype AttachResult = Done | Retired | RefsExhausted | NoSuchChannel

  /** The single writer of one topic. `members` stands for the member channels on disk as
      they are while a call runs. */
  class Mux {
    const geometry: Geometry
    const maxBatch: nat
    var topic: Channel<TopicRecord>
    var slots: seq<Slot>
    var nextRef: nat
    var recovered: map<MemberId, nat>
    var gapsEmitted: nat
    var slotTableVersion: nat
    var sinceSlotTable: nat
    var bytesInSegment: nat
    var finished: bool
    ghost var removed: set<MemberId>
    ghost var openFrom: nat
    ghost var openLen: nat
    ghost var broken: set<MemberId>

    ghost function Cfg(): Config {
      Config(geometry.mtu, geometry.keepFiles)
    }

    /** The machine state this object is in between two calls. */
    ghost function View(members: map<MemberId, Member>): System
      reads this
    {
      System(topic, members,
             Up(Session(slots, nextRef, recovered, finished, Idle, removed, openFrom, openLen)), broken)
    }

    ghost predicate Valid(members: map<MemberId, Member>)
      reads this
    {
      0 < maxBatch && Inv(Cfg(), View(members))
    }

    /** Open the mux over whatever the topic holds; `broken` is what earlier sessions left. */
    constructor (disk: Channel<TopicRecord>, geometry: Geometry, maxBatch: nat,
                 members: map<MemberId, Member>, ghost broken: set<MemberId>)
      requires Inv(Config(geometry.mtu, geometry.keepFiles), System(disk, members, Down, broken))
      ensures Valid(members)
      ensures View(members) == Apply(Cfg(), System(disk, members, Down, broken), Open)
    {
      this.geometry := geometry;
      this.maxBatch := if maxBatch == 0 then 1 else maxBatch;
      topic := disk;
      slots := [];
      nextRef := 0;
      gapsEmitted, slotTableVersion, sinceSlotTable, bytesInSegment := 0, 0, 0, 0;
      finished := false;
      removed, openFrom, openLen := {}, Earliest(disk), |disk.records|;
      this.broken := broken;
      var out := RecoverCursors(Retained(disk));
      recovered := out;
      new;
      OpenStep(Cfg(), System(disk, members, Down, broken));
    }

    /** The one place a record enters the topic, so that nothing escapes the byte count. */
    method CommitRecord(r: TopicRecord)
      requires ChannelLog.Valid(topic)
      modifies this`topic, this`bytesInSegment
      ensures topic == Append(old(topic), r)
      ensures bytesInSegment == old(bytesInSegment) + SegmentCost(r)
    {
      topic := Append(topic, r);
      bytesInSegment := bytesInSegment + SegmentCost(r);
    }

    method EmitSlotTable()
      requires ChannelLog.Valid(topic)
      modifies this`topic, this`bytesInSegment, this`slotTableVersion, this`sinceSlotTable
      ensures topic == Append(old(topic), SlotTable(EntriesOf(slots)))
      ensures slotTableVersion == old(slotTableVersion) + 1 && sinceSlotTable == 0
    {
      hide SegmentCost, EntriesOf, Append, ChannelLog.Valid;
      var table := SlotTable(EntriesOf(slots));
      CommitRecord(table);
      slotTableVersion := slotTableVersion + 1;
      sinceSlotTable := 0;
    }

    /** Start a new segment if the current one is full, and open it with a table. Called only
        in front of a data record. */
    method RollIfFull(members: map<MemberId, Member>) returns (ghost steps: seq<Step>)
      requires Valid(members) && !finished && slots != []
      modifies this`topic, this`bytesInSegment, this`slotTableVersion, this`sinceSlotTable
      ensures Valid(members) && Leads(Cfg(), old(View(members)), steps, View(members))
      ensures if geometry.fileRollSize == 0 || old(bytesInSegment) < geometry.fileRollSize
              then topic == old(topic)
              else topic == Append(Roll(old(topic), geometry.keepFiles), SlotTable(EntriesOf(slots)))
    {
      hide Leads, Settled, SessionOK, SegmentsOpenWell, Scan;
      steps := [];
      if geometry.fileRollSize == 0 || bytesInSegment < geometry.fileRollSize {
        assert Leads(Cfg(), View(members), [], View(members)) by { LeadsNowhere(Cfg(), View(members)); }
        return;
      }
      ghost var start := View(members);
      RollingLeads(Cfg(), start);
      topic := Roll(topic, geometry.keepFiles);
      bytesInSegment := 0;
      EmitSlotTable();
      steps := [RollTopic, RollTable];
      assert View(members) == Rolled(Cfg(), start);
    }

    /** Re-emit the table once enough records have gone by since the last one. */
    method RefreshIfStale(members: map<MemberId, Member>) returns (ghost steps: seq<Step>)
      requires Valid(members) && !finished && slots != []
      modifies this`topic, this`bytesInSegment, this`slotTableVersion, this`sinceSlotTable
      ensures Valid(members) && Leads(Cfg(), old(View(members)), steps, View(members))
      ensures topic == if old(sinceSlotTable) < SLOT_TABLE_REFRESH then old(topic)
                       else Append(old(topic), SlotTable(EntriesOf(slots)))
    {
      hide Leads, Inv, Shape, EntriesOf, ChannelLog.Valid;
      ghost var start := View(members);
      InvShape(Cfg(), start);
      LeadsNowhere(Cfg(), start);
      steps := [];
      if sinceSlotTable >= SLOT_TABLE_REFRESH {
        LeadsThroughRefresh(Cfg(), start, steps, start);
        steps := steps + [Refresh];
        EmitSlotTable();
      }
    }

    /** Put an acceptable record of slot `i` into the topic: roll first if the segment is full,
        advance only once the record is in, refresh a table that has grown stale. */
    method CommitFrame(i: nat, frame: MemberRecord, members: map<MemberId, Member>)
      returns (ghost steps: seq<Step>)
      requires Valid(members) && !finished && i < |slots|
      requires slots[i].id in members && slots[i].source < |Current(members[slots[i].id])|
      requires frame == Current(members[slots[i].id])[slots[i].source] && Acceptable(frame, geometry.mtu)
      modifies this`topic, this`slots, this`bytesInSegment, this`slotTableVersion, this`sinceSlotTable
      ensures Valid(members) && Leads(Cfg(), old(View(members)), steps, View(members))
      ensures slots == SlotAdvanced(old(slots), i, 0)
      ensures Gained(old(topic.records), topic.records, Data(old(slots)[i].memberRef, old(slots)[i].source, frame))
    {
      hide Leads, Inv, Shape, DataOf, EntriesOf, ChannelLog.Valid, Gained;
      ghost var start := View(members);
      InvShape(Cfg(), start);
      steps := RollIfFull(members);
      InvShape(Cfg(), View(members));
      ghost var rolled := topic.records;
      var r := Data(slots[i].memberRef, slots[i].source, frame);
      LeadsThroughMerge(Cfg(), start, steps, View(members), i, frame);
      steps := steps + [Merge(i)];
      CommitRecord(r);
      slots := SlotAdvanced(slots, i, 0);
      sinceSlotTable := sinceSlotTable + 1;
      ghost var mid := View(members);
      ghost var more := RefreshIfStale(members);
      LeadsOn(Cfg(), start, steps, mid, more, View(members));
      steps := steps + more;
      GainedAmongTables(old(topic.records), rolled, r, topic.records);
    }

    /** Merge the next record slot `i` has ready. Records that can never be merged are
        dropped on the way, counted, and passed by the cursor; `false` means the member is
        caught up. */
    method MergeOne(i: nat, members: map<MemberId, Member>) returns (merged: bool, ghost steps: seq<Step>)
      requires Valid(members) && !finished && i < |slots|
      modifies this`topic, this`slots, this`bytesInSegment, this`slotTableVersion, this`sinceSlotTable
      ensures Valid(members) && Leads(Cfg(), old(View(members)), steps, View(members))
      ensures OnlyMoved(old(slots), slots, i) && slots[i].id in members
      ensures merged ==> MergedNext(Current(members[slots[i].id]), geometry.mtu, old(slots)[i].cursor, slots[i].cursor)
      ensures !merged ==>
                && Exhausted(Current(members[slots[i].id]), geometry.mtu, old(slots)[i].cursor)
                && slots[i].cursor == |Current(members[slots[i].id])| && topic == old(topic)
      ensures merged ==>
                Gained(old(topic.records), topic.records,
                       Data(slots[i].memberRef, slots[i].cursor - 1,
                           Current(members[slots[i].id])[slots[i].cursor - 1]))
    {
      hide Leads, Settled, SegmentsOpenWell, Scan, Named, DataOf, Gained;
      ghost var start := View(members);
      LeadsNowhere(Cfg(), start);
      steps := [];
      assert SlotOK(start, start.host.session, i);
      var log := Current(members[slots[i].id]);
      while slots[i].source < |log|
        invariant Valid(members) && Leads(Cfg(), start, steps, View(members))
        invariant OnlyMoved(old(slots), slots, i) && topic == old(topic)
        invariant old(slots)[i].cursor <= slots[i].cursor == slots[i].source <= |log|
        invariant forall j :: old(slots)[i].cursor <= j < slots[i].cursor ==> !Acceptable(log[j], geometry.mtu)
      {
        var frame := log[slots[i].source];
        if IsControl(frame.msgType) {
          LeadsThroughReject(Cfg(), start, steps, View(members), i, frame);
          slots := SlotAdvanced(slots, i, 1);
          steps := steps + [Reject(i)];
          continue;
        }
        if geometry.mtu > 0 && PROVENANCE_LEN + |frame.body| > geometry.mtu {
          LeadsThroughReject(Cfg(), start, steps, View(members), i, frame);
          slots := SlotAdvanced(slots, i, 1);
          steps := steps + [Reject(i)];
          continue;
        }
        ghost var mid := View(members);
        ghost var more := CommitFrame(i, frame, members);
        LeadsOn(Cfg(), start, steps, mid, more, View(members));
        steps := steps + more;
        return true, steps;
      }
      return false, steps;
    }

    /** Attach a member channel, resuming from the cursor read when the mux opened. A resume
        that cannot be contiguous is recorded in the topic before anything is merged. */
    method AddMember(id: MemberId, members: map<MemberId, Member>) returns (r: AttachResult, ghost steps: seq<Step>)
      requires Valid(members)
      modifies this
      ensures Valid(members) && Leads(Cfg(), old(View(members)), steps, View(members))
      ensures r == if old(finished) then Retired
                   else if Attached(old(slots), id) then Done
                   else if old(nextRef) == 0xFFFF then RefsExhausted
                   else if id !in members then NoSuchChannel
                   else Done
      ensures r == Done && !Attached(old(slots), id) ==> AttachedAs(old(View(members)), View(members), id)
      ensures r != Done || Attached(old(slots), id) ==>
                topic == old(topic) && slots == old(slots) && finished == old(finished)
    {
      hide Leads, Inv, Shape, Scan, AttachedAs;
      ghost var start := View(members);
      InvShape(Cfg(), start);
      LeadsNowhere(Cfg(), start);
      steps := [];
      if finished {
        return Retired, steps;
      }
      if Attached(slots, id) {
        return Done, steps;
      }
      if nextRef == 0xFFFF {
        return RefsExhausted, steps;
      }
      if id !in members {
        LeadsFurther(Cfg(), start, steps, start, AttachFails);
        steps := steps + [AttachFails];
        nextRef := nextRef + 1;
        return NoSuchChannel, steps;
      }
      steps := AttachNew(id, members);
      r := Done;
    }

    method AttachNew(id: MemberId, members: map<MemberId, Member>) returns (ghost steps: seq<Step>)
      requires Valid(members) && !finished && !Attached(slots, id) && nextRef < 0xFFFF && id in members
      modifies this
      ensures Valid(members) && Leads(Cfg(), old(View(members)), steps, View(members))
      ensures AttachedAs(old(View(members)), View(members), id)
    {
      hide Leads, Inv, Scan, Recalled, ChannelLog.Valid, Inventory, AttachedAs, EntriesOf;
      ghost var start := View(members);
      InvShape(Cfg(), start);
      steps := AttachingLeads(Cfg(), start, id);
      ghost var faithful := Recalled(topic, start.host.session, id);
      var ref := nextRef;
      nextRef := nextRef + 1;
      var resume := ResumeAt(Next(recovered, id), members[id].earliest, |Current(members[id])|);
      slots := slots + [Slot(ref, id, resume.start, resume.start, 0)];
      EmitSlotTable();
      EmitMark(ref, resume);
      broken := if faithful then broken else broken + {id};
      AttachedStateFits(start, id);
    }

    method EmitMark(ref: nat, resume: Resume)
      requires ChannelLog.Valid(topic)
      modifies this`topic, this`bytesInSegment, this`gapsEmitted
      ensures topic == WithMark(old(topic), ref, resume)
      ensures gapsEmitted == old(gapsEmitted) + if resume.Hole? then 1 else 0
    {
      match resume {
        case Clean(_) =>
        case Hole(from, start) =>
          CommitRecord(TopicGap(ref, from, start));
          gapsEmitted := gapsEmitted + 1;
        case Back(expected, start) =>
          CommitRecord(MemberRegressed(ref, expected, start));
      }
    }

    /** Merge up to `maxBatch` records of slot `i`. */
    method MergeBatch(i: nat, members: map<MemberId, Member>) returns (n: nat, ghost steps: seq<Step>)
      requires Valid(members) && !finished && i < |slots|
      modifies this`topic, this`slots, this`bytesInSegment, this`slotTableVersion, this`sinceSlotTable
      ensures Valid(members) && Leads(Cfg(), old(View(members)), steps, View(members))
      ensures OnlyMoved(old(slots), slots, i) && slots[i].id in members && n <= maxBatch
      ensures GainedOf(old(topic.records), topic.records, slots[i].memberRef, n)
      ensures n < maxBatch ==> slots[i].cursor == |Current(members[slots[i].id])|
    {
      hide Leads, Inv, Shape, GainedOf, Gained, Exhausted;
      ghost var start := View(members);
      SlotsKnown(Cfg(), start);
      LeadsNowhere(Cfg(), start);
      GainedNone(topic.records, slots[i].memberRef);
      steps, n := [], 0;
      var more := true;
      while n < maxBatch && more
        invariant Valid(members) && Leads(Cfg(), start, steps, View(members))
        invariant OnlyMoved(old(slots), slots, i) && n <= maxBatch
        invariant GainedOf(old(topic.records), topic.records, slots[i].memberRef, n)
        invariant slots[i].id in members && 0 < |members[slots[i].id].history|
        invariant !more ==> slots[i].cursor == |Current(members[slots[i].id])|
        decreases maxBatch - n, more
      {
        ghost var mid, before := View(members), topic.records;
        ghost var taken;
        more, taken := MergeOne(i, members);
        LeadsOn(Cfg(), start, steps, mid, taken, View(members));
        steps := steps + taken;
        if more {
          ghost var log := Current(members[slots[i].id]);
          GainedOneMore(old(topic.records), before, topic.records, n,
                        Data(slots[i].memberRef, slots[i].cursor - 1, log[slots[i].cursor - 1]));
          n := n + 1;
        }
      }
    }

    /** One round over the members, each bounded to its batch so that a busy one cannot
        monopolise the topic. A retired mux merges nothing. */
    method Poll(members: map<MemberId, Member>) returns (merged: nat, ghost steps: seq<Step>)
      requires Valid(members)
      modifies this`topic, this`slots, this`bytesInSegment, this`slotTableVersion, this`sinceSlotTable
      ensures Valid(members) && Leads(Cfg(), old(View(members)), steps, View(members))
      ensures finished ==> merged == 0 && topic == old(topic) && slots == old(slots)
      ensures SameSlots(old(slots), slots) && old(topic.records) <= topic.records
      ensures DataCount(topic.records) == DataCount(old(topic.records)) + merged
      ensures !finished ==>
                forall k :: 0 <= k < |slots| ==>
                  && slots[k].id in members && 0 < |members[slots[k].id].history|
                  && FairShare(old(topic.records), topic.records, slots[k], |Current(members[slots[k].id])|, maxBatch)
    {
      hide Leads, Inv, Shape, DataOf, DataCount;
      ghost var start := View(members);
      SlotsKnown(Cfg(), start);
      LeadsNowhere(Cfg(), start);
      steps, merged := [], 0;
      if finished {
        return;
      }
      for i := 0 to |slots|
        invariant Valid(members) && Leads(Cfg(), start, steps, View(members))
        invariant SameSlots(old(slots), slots) && old(topic.records) <= topic.records
        invariant DataCount(topic.records) == DataCount(old(topic.records)) + merged
        invariant forall k :: 0 <= k < i ==>
                    FairShare(old(topic.records), topic.records, slots[k], |Current(members[slots[k].id])|, maxBatch)
        invariant forall k :: i <= k < |slots| ==>
                    DataOf(topic.records, slots[k].memberRef) == DataOf(old(topic.records), slots[k].memberRef)
      {
        ghost var mid := View(members);
        var n;
        ghost var taken;
        n, taken := MergeBatch(i, members);
        merged := merged + n;
        LeadsOn(Cfg(), start, steps, mid, taken, View(members));
        steps := steps + taken;
      }
    }

    /** Clean leave: drain the member to its head, mark it closed there, drop its slot. */
    method RemoveMember(id: MemberId, members: map<MemberId, Member>) returns (found: bool, ghost steps: seq<Step>)
      requires Valid(members)
      modifies this`topic, this`slots, this`bytesInSegment, this`slotTableVersion, this`sinceSlotTable, this`removed
      ensures Valid(members) && Leads(Cfg(), old(View(members)), steps, View(members))
      ensures found == Attached(old(slots), id) && old(topic.records) <= topic.records
      ensures !found ==> View(members) == old(View(members))
      ensures found ==>
                exists pos: nat :: ClosedAt(old(slots), slots, |old(topic.records)|, topic.records, members, id, pos)
    {
      hide Leads, Inv, Shape, ClosedAt, EntriesOf;
      ghost var start := View(members);
      SlotsKnown(Cfg(), start);
      LeadsNowhere(Cfg(), start);
      steps := [];
      var pos := 0;
      while pos < |slots| && slots[pos].id != id
        invariant pos <= |slots| && forall k :: 0 <= k < pos ==> slots[k].id != id
      {
        pos := pos + 1;
      }
      if pos == |slots| {
        return false, steps;
      }
      assert Attached(old(slots), id);
      if finished { FinishedHasNoSlots(Cfg(), start); }
      steps := Drain(pos, members);
      ghost var mid, drained, moved := View(members), topic.records, slots;
      CloseSlot(pos, members);
      LeadsOn(Cfg(), start, steps, mid, [Close(pos), CloseTable], View(members));
      steps := steps + [Close(pos), CloseTable];
      ClosedAfterDrain(old(slots), moved, |old(topic.records)|, drained, members, pos);
      found := true;
    }

    /** Mark slot `pos` closed where it stands and drop it. */
    method CloseSlot(pos: nat, members: map<MemberId, Member>)
      requires Valid(members) && !finished && pos < |slots|
      modifies this`topic, this`slots, this`bytesInSegment, this`slotTableVersion, this`sinceSlotTable, this`removed
      ensures Valid(members) && Leads(Cfg(), old(View(members)), [Close(pos), CloseTable], View(members))
      ensures slots == old(slots)[..pos] + old(slots)[pos + 1..]
      ensures topic.records == old(topic.records) + [MemberClosed(old(slots)[pos].memberRef, old(slots)[pos].cursor)]
                               + [SlotTable(EntriesOf(slots))]
    {
      hide Leads, Inv, EntriesOf, ChannelLog.Valid, Inventory;
      ghost var start := View(members);
      InvShape(Cfg(), start);
      ClosingLeads(Cfg(), start, pos);
      CommitRecord(MemberClosed(slots[pos].memberRef, slots[pos].cursor));
      removed := removed + {slots[pos].id};
      slots := slots[..pos] + slots[pos + 1..];
      EmitSlotTable();
      assert View(members) == ClosedState(start, pos);
    }

    /** Merge everything slot `pos` has. */
    method Drain(pos: nat, members: map<MemberId, Member>) returns (ghost steps: seq<Step>)
      requires Valid(members) && !finished && pos < |slots|
      modifies this`topic, this`slots, this`bytesInSegment, this`slotTableVersion, this`sinceSlotTable
      ensures Valid(members) && Leads(Cfg(), old(View(members)), steps, View(members))
      ensures OnlyMoved(old(slots), slots, pos) && old(topic.records) <= topic.records
      ensures slots[pos].id in members && 0 < |members[slots[pos].id].history|
      ensures slots[pos].cursor == |Current(members[slots[pos].id])|
    {
      hide Leads, Inv, Shape, DataOf, DataCount, Exhausted;
      ghost var start := View(members);
      SlotsKnown(Cfg(), start);
      LeadsNowhere(Cfg(), start);
      steps := [];
      var more := true;
      while more
        invariant Valid(members) && Leads(Cfg(), start, steps, View(members))
        invariant OnlyMoved(old(slots), slots, pos) && old(topic.records) <= topic.records
        invariant slots[pos].id in members && 0 < |members[slots[pos].id].history|
        invariant !more ==> slots[pos].cursor == |Current(members[slots[pos].id])|
        decreases more, |Current(members[slots[pos].id])| - slots[pos].cursor
      {
        ghost var mid := View(members);
        ghost var taken;
        more, taken := MergeOne(pos, members);
        LeadsOn(Cfg(), start, steps, mid, taken, View(members));
        steps := steps + taken;
      }
    }

    method EmitTerminal(members: map<MemberId, Member>)
      requires Valid(members) && !finished && slots == []
      modifies this`topic, this`bytesInSegment, this`finished
      ensures Valid(members) && Leads(Cfg(), old(View(members)), [Retire], View(members))
      ensures finished && topic.records == old(topic.records) + [Terminal]
    {
      hide Leads, Inv, ChannelLog.Valid, Inventory;
      InvShape(Cfg(), View(members));
      RetiringLeads(Cfg(), View(members));
      CommitRecord(Terminal);
      finished := true;
    }

    /** Retire the topic: every member drained and closed, then the terminal marker. */
    method Finish(members: map<MemberId, Member>) returns (ghost steps: seq<Step>)
      requires Valid(members)
      modifies this`topic, this`slots, this`bytesInSegment, this`slotTableVersion, this`sinceSlotTable, this`removed,
               this`finished
      ensures Valid(members) && Leads(Cfg(), old(View(members)), steps, View(members))
      ensures finished
      ensures old(finished) ==> View(members) == old(View(members))
      ensures !old(finished) ==>
                && slots == [] && old(topic.records) < topic.records
                && topic.records[|topic.records| - 1] == Terminal
                && forall k :: 0 <= k < |old(slots)| ==>
                     && old(slots)[k].id in members && 0 < |members[old(slots)[k].id].history|
                     && ClosedSince(old(topic.records), topic.records,
                                    old(slots)[k].memberRef, |Current(members[old(slots)[k].id])|)
    {
      hide Leads, Inv, Shape, ClosedAt, ClosedSince, EntriesOf, ChannelLog.Valid, Inventory;
      ghost var start := View(members);
      SlotsKnown(Cfg(), start);
      LeadsNowhere(Cfg(), start);
      steps := [];
      if finished {
        return;
      }
      ghost var all := slots;
      for k := 0 to |slots|
        invariant Valid(members) && Leads(Cfg(), start, steps, View(members)) && !finished
        invariant slots == all[k..] && old(topic.records) <= topic.records
        invariant forall j :: 0 <= j < k ==>
                    ClosedSince(old(topic.records), topic.records, all[j].memberRef, |Current(members[all[j].id])|)
      {
        ghost var mid, before := View(members), topic.records;
        var found;
        ghost var taken;
        found, taken := RemoveMember(slots[0].id, members);
        LeadsOn(Cfg(), start, steps, mid, taken, View(members));
        steps := steps + taken;
        FirstSlotClosed(all, k, slots, before, topic.records, members);
        forall j | 0 <= j <= k
          ensures ClosedSince(old(topic.records), topic.records, all[j].memberRef, |Current(members[all[j].id])|)
        {
          ClosedSinceKeeps(old(topic.records), before, topic.records, all[j].memberRef, |Current(members[all[j].id])|);
        }
      }
      ghost var mid, before := View(members), topic.records;
      EmitTerminal(members);
      LeadsOn(Cfg(), start, steps, mid, [Retire], View(members));
      steps := steps + [Retire];
      forall j | 0 <= j < |all|
        ensures ClosedSince(old(topic.records), topic.records, all[j].memberRef, |Current(members[all[j].id])|)
      {
        ClosedSinceKeeps(old(topic.records), before, topic.records, all[j].memberRef, |Current(members[all[j].id])|);
      }
    }
  }
}
