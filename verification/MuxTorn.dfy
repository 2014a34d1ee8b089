/** A crash inside an attach, between its table and the marker it owes: when it matters. */
module MuxTorn {
  import opened ChannelLog
  import opened TopicRecords
  import opened MuxMachine
  import opened MuxTrail
  import opened MuxInvariant
  import opened MuxSteps
  import opened MuxTheorems
  import opened MuxPitfalls

  /** Where an attach of `id` resumes. */
  function ResumePoint(s: System, id: MemberId): nat
    requires s.host.Up? && id in s.members && 0 < |s.members[id].history|
  {
    ResumeAt(SessionNext(s, id), s.members[id].earliest, |Current(s.members[id])|).start
  }

  /** A crash right after an attach's table: the retained topic names the member, at the resume
      point, whether or not a marker was owed. */
  lemma TornSessionRemembers(c: Config, s: System, id: MemberId)
    requires Inv(c, s) && id !in s.broken && Enabled(c, s, Attach(id)) && Recalled(s.topic, s.host.session, id)
    ensures var torn := Apply(c, s, Attach(id));
            && Shape(torn) && torn.host.Up? && Shape(Apply(c, torn, Crash)) && Apply(c, torn, Crash).host.Down?
            && var up := Apply(c, Apply(c, torn, Crash), Open);
            && Structure(up) && Shape(up) && up.host.Up? && up.host.session.slots == []
            && Enabled(c, up, Attach(id)) && SessionNext(up, id) == ResumePoint(s, id)
            && up.members == s.members
            && up.topic.records == s.topic.records + [SlotTable(EntriesOf(torn.host.session.slots))]
            && DistinctSlots(torn.host.session.slots)
  {
    hide Trail, Unmarked, Scan;
    var torn := Apply(c, s, Attach(id));
    var ses, slots := torn.host.session, torn.host.session.slots;
    var k := |s.host.session.slots|;
    assert slots[k].id == id;
    AttachStep(c, s, id);
    CrashStep(c, torn);
    OpenStep(c, Apply(c, torn, Crash));
    AttachTables(c, s, id);
    TableEffect(WorldOf(c, s), s.topic.records, slots, id);
    assert SlotOK(torn, ses, k);
    NamedFurtherBack(torn.topic.records, Earliest(torn.topic), TableHome(torn.topic, ses.phase), id);
    WindowRecallsExactlyTheNamed(torn.topic, id);
  }

  /** The slot an attach in a fresh session opens. */
  function FirstSlot(up: System, id: MemberId, start: nat): Slot
    requires up.host.Up?
  {
    Slot(up.host.session.nextRef, id, start, start, 0)
  }

  /** An attach that finds what it wants writes its table and owes nothing. */
  lemma CleanAttach(c: Config, up: System, id: MemberId) returns (attached: System)
    requires Structure(up) && Enabled(c, up, Attach(id)) && up.host.session.slots == []
    requires up.members[id].earliest <= SessionNext(up, id) <= |Current(up.members[id])|
    ensures attached == Apply(c, up, Attach(id)) && Shape(attached) && attached.members == up.members
    ensures attached.host.Up? && attached.host.session.phase.Idle? && !attached.host.session.finished
    ensures attached.host.session.slots == [FirstSlot(up, id, SessionNext(up, id))]
    ensures attached.topic.records == up.topic.records + [SlotTable(EntriesOf(attached.host.session.slots))]
  {
    hide Scan, Named;
    attached := Apply(c, up, Attach(id));
    AttachTables(c, up, id);
  }

  /** The member writes a record, the mux merges the one it stands at. */
  lemma AppendThenMerge(c: Config, s: System, id: MemberId, record: MemberRecord) returns (after: System)
    requires Shape(s) && s.host.Up? && s.host.session.phase.Idle? && !s.host.session.finished
    requires |s.host.session.slots| == 1 && s.host.session.slots[0].id == id && id in s.members
    requires var at, log := s.host.session.slots[0].source, Current(s.members[id]) + [record];
             at < |log| && Acceptable(log[at], c.mtu)
    ensures Leads(c, s, [MemberAppend(id, record), Merge(0)], after)
    ensures var slot := s.host.session.slots[0];
            after.topic.records == s.topic.records
                                   + [Data(slot.memberRef, slot.source,
                                       (Current(s.members[id]) + [record])[slot.source])]
    ensures after.members == Apply(c, s, MemberAppend(id, record)).members
  {
    hide Scan, Named, Leads;
    var grown := Apply(c, s, MemberAppend(id, record));
    assert Current(grown.members[id]) == Current(s.members[id]) + [record] && Shape(grown);
    after := Apply(c, grown, Merge(0));
    LeadsByOne(c, s, MemberAppend(id, record));
    LeadsByOne(c, grown, Merge(0));
    LeadsOn(c, s, [MemberAppend(id, record)], grown, [Merge(0)], after);
    assert [MemberAppend(id, record)] + [Merge(0)] == [MemberAppend(id, record), Merge(0)];
  }

  /** A later record of the current log excuses no index before it. */
  lemma AppendExcusesNothing(c: Config, s: System, id: MemberId, record: MemberRecord, j: nat)
    requires Shape(s) && id in s.members && j < |Current(s.members[id])|
    ensures RejectedAt(WorldOf(c, Apply(c, s, MemberAppend(id, record))), id, j) <==> RejectedAt(WorldOf(c, s), id, j)
  {
    var h := s.members[id].history;
    var last := |h| - 1;
    var h' := h[last := h[last] + [record]];
    assert Apply(c, s, MemberAppend(id, record)).members[id].history == h';
    if RejectedAt(WorldOf(c, s), id, j) {
      var k :| 0 <= k < |h| && j < |h[k]| && !Acceptable(h[k][j], c.mtu);
      assert h'[k][j] == h[k][j];
    }
    if RejectedAt(WorldOf(c, Apply(c, s, MemberAppend(id, record))), id, j) {
      var k :| 0 <= k < |h'| && j < |h'[k]| && !Acceptable(h'[k][j], c.mtu);
      assert h[k][j] == h'[k][j];
    }
  }

  /** Whether the trail stays honest when the record at `start` comes next without a marker. */
  lemma UnmarkedResume(w: World, log: seq<TopicRecord>, slot: Slot, start: nat, record: MemberRecord)
    requires Trail(w, log, slot.id) && slot.id in w.members && Genuine(w, slot.id, start, record)
    ensures var after := log + [SlotTable(EntriesOf([slot]))] + [Data(slot.memberRef, start, record)];
            Trail(w, after, slot.id) <==>
            TrailNext(log, slot.id) <= start && AllRejected(w, slot.id, TrailNext(log, slot.id), start)
  {
    hide Scan, Trail, TrailNext, Genuine, AllRejected;
    TableEffect(w, log, [slot], slot.id);
    assert [slot][0] == slot;
    TrailAppend(w, log + [SlotTable(EntriesOf([slot]))], Data(slot.memberRef, start, record), slot.id);
  }

  lemma TornLeads(c: Config, s: System, id: MemberId, record: MemberRecord, after: System)
    requires Shape(s) && Enabled(c, s, Attach(id))
    requires var torn := Apply(c, s, Attach(id));
             && Shape(torn) && torn.host.Up? && Shape(Apply(c, torn, Crash))
             && var up := Apply(c, Apply(c, torn, Crash), Open);
             && Shape(up) && Enabled(c, up, Attach(id))
             && Leads(c, Apply(c, up, Attach(id)), [MemberAppend(id, record), Merge(0)], after)
    ensures Leads(c, s, [Attach(id), Crash, Open, Attach(id), MemberAppend(id, record), Merge(0)], after)
  {
    hide Leads, Apply;
    var torn := Apply(c, s, Attach(id));
    var down := Apply(c, torn, Crash);
    assert down.host.Down? by { CrashEnds(c, torn); }
    var up := Apply(c, down, Open);
    var tail := [MemberAppend(id, record), Merge(0)];
    LeadsByOne(c, up, Attach(id));
    LeadsOn(c, up, [Attach(id)], Apply(c, up, Attach(id)), tail, after);
    LeadsByOne(c, down, Open);
    LeadsOn(c, down, [Open], up, [Attach(id)] + tail, after);
    LeadsByOne(c, torn, Crash);
    LeadsOn(c, torn, [Crash], down, [Open] + ([Attach(id)] + tail), after);
    LeadsByOne(c, s, Attach(id));
    LeadsOn(c, s, [Attach(id)], torn, [Crash] + ([Open] + ([Attach(id)] + tail)), after);
    assert [Attach(id)] + ([Crash] + ([Open] + ([Attach(id)] + tail)))
        == [Attach(id), Crash, Open, Attach(id), MemberAppend(id, record), Merge(0)];
  }

  lemma CrashEnds(c: Config, s: System)
    requires Shape(s) && s.host.Up?
    ensures Apply(c, s, Crash).host.Down?
  {
  }

  /** The member's trail after those steps, with the table of the torn attach in between. */
  lemma TornTrail(c: Config, s: System, id: MemberId, record: MemberRecord, slots: seq<Slot>, slot: Slot, w': World)
    requires Shape(s) && id in s.members && Trail(WorldOf(c, s), s.topic.records, id)
    requires DistinctSlots(slots) && slot.id == id && slot.source <= |Current(s.members[id])|
    requires Acceptable((Current(s.members[id]) + [record])[slot.source], c.mtu)
    requires w' == WorldOf(c, Apply(c, s, MemberAppend(id, record)))
    ensures var next, start := TrailNext(s.topic.records, id), slot.source;
            Trail(w', s.topic.records + [SlotTable(EntriesOf(slots))] + [SlotTable(EntriesOf([slot]))]
                      + [Data(slot.memberRef, start, (Current(s.members[id]) + [record])[start])], id)
            <==> next <= start && AllRejected(WorldOf(c, s), id, next, start)
  {
    hide Trail, TrailNext, Scan;
    var w, log, start := WorldOf(c, s), s.topic.records, slot.source;
    var h' := w'.members[id].history;
    assert h'[|h'| - 1] == Current(s.members[id]) + [record];
    assert Grows(w, w');
    TrailGrows(w, w', log, id);
    TableEffect(w', log, slots, id);
    UnmarkedResume(w', log + [SlotTable(EntriesOf(slots))], slot, start, h'[|h'| - 1][start]);
    forall j | j < start ensures RejectedAt(w', id, j) <==> RejectedAt(w, id, j) {
      AppendExcusesNothing(c, s, id, record, j);
    }
  }

  /** What those steps write: the table of the torn attach, the table of the next one, the record. */
  lemma TornRun(c: Config, s: System, id: MemberId, record: MemberRecord)
    returns (after: System, slots: seq<Slot>, slot: Slot)
    requires Inv(c, s) && id !in s.broken && Enabled(c, s, Attach(id)) && Recalled(s.topic, s.host.session, id)
    requires Acceptable((Current(s.members[id]) + [record])[ResumePoint(s, id)], c.mtu)
    ensures Leads(c, s, [Attach(id), Crash, Open, Attach(id), MemberAppend(id, record), Merge(0)], after)
    ensures DistinctSlots(slots) && slot.id == id && slot.source == ResumePoint(s, id)
    ensures after.topic.records
            == s.topic.records + [SlotTable(EntriesOf(slots))] + [SlotTable(EntriesOf([slot]))]
               + [Data(slot.memberRef, slot.source, (Current(s.members[id]) + [record])[slot.source])]
    ensures WorldOf(c, after) == WorldOf(c, Apply(c, s, MemberAppend(id, record)))
  {
    hide Trail, TrailNext, Scan, Named, Leads, AllRejected, Recalled, Apply, Inv, Structure;
    InvHasShape(c, s);
    TornSessionRemembers(c, s, id);
    var torn := Apply(c, s, Attach(id));
    var up := Apply(c, Apply(c, torn, Crash), Open);
    var attached := CleanAttach(c, up, id);
    after := AppendThenMerge(c, attached, id, record);
    slots, slot := torn.host.session.slots, attached.host.session.slots[0];
    TornLeads(c, s, id, record, after);
    SameAppend(c, attached, s, id, record);
  }

  lemma SameAppend(c: Config, a: System, b: System, id: MemberId, record: MemberRecord)
    requires Shape(a) && Shape(b) && a.members == b.members && id in a.members
    ensures Apply(c, a, MemberAppend(id, record)).members == Apply(c, b, MemberAppend(id, record)).members
  {
  }

  /** Before the attach the trail stands at or below what the session will ask for, short of it by
      rejected records only. */
  lemma TrailBeforeAttach(c: Config, s: System, id: MemberId)
    requires Inv(c, s) && id !in s.broken && Enabled(c, s, Attach(id)) && Recalled(s.topic, s.host.session, id)
    ensures Trail(WorldOf(c, s), s.topic.records, id)
    ensures TrailNext(s.topic.records, id) <= SessionNext(s, id)
    ensures forall to: nat :: to <= SessionNext(s, id) ==>
            AllRejected(WorldOf(c, s), id, TrailNext(s.topic.records, id), to)
  {
    hide Trail, TrailNext, Scan, Recalled;
    assert Settled(c, s, id);
  }

  /** A crash between an attach's table and its marker, the next session, and the record it merges
      first. The member's trail is honest afterwards if and only if everything from where the trail
      stood to the resume point was rejected anyway: for a gap, that the hole held nothing else; for
      a regression, that the trail had not passed the member's new head. */
  lemma TornAttachMatters(c: Config, s: System, id: MemberId, record: MemberRecord) returns (after: System)
    requires Inv(c, s) && id !in s.broken && Enabled(c, s, Attach(id)) && Recalled(s.topic, s.host.session, id)
    requires Acceptable((Current(s.members[id]) + [record])[ResumePoint(s, id)], c.mtu)
    ensures Leads(c, s, [Attach(id), Crash, Open, Attach(id), MemberAppend(id, record), Merge(0)], after)
    ensures var next := TrailNext(s.topic.records, id);
            && (Trail(WorldOf(c, after), after.topic.records, id) <==>
                next <= ResumePoint(s, id) && AllRejected(WorldOf(c, s), id, next, ResumePoint(s, id)))
            && (SessionNext(s, id) < s.members[id].earliest ==>
                  (Trail(WorldOf(c, after), after.topic.records, id) <==>
                   AllRejected(WorldOf(c, s), id, next, s.members[id].earliest)))
            && (SessionNext(s, id) > |Current(s.members[id])| ==>
                  (Trail(WorldOf(c, after), after.topic.records, id) <==> next <= |Current(s.members[id])|))
  {
    hide Trail, TrailNext, Scan, Named, Leads, AllRejected, Recalled, Apply, Inv;
    var slots, slot;
    after, slots, slot := TornRun(c, s, id, record);
    assert Shape(s) by { InvHasShape(c, s); }
    TrailBeforeAttach(c, s, id);
    TornTrail(c, s, id, record, slots, slot, WorldOf(c, after));
  }

  lemma InvHasShape(c: Config, s: System)
    requires Inv(c, s)
    ensures Shape(s)
  {
  }
}
