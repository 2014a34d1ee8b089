/** Each kind of step preserves the multiplexer's invariant. */
module MuxSteps {
  import opened ChannelLog
  import opened TopicRecords
  import opened MuxMachine
  import opened MuxTrail
  import opened MuxInvariant
  import opened MuxRecovery

  // ---------------- effects of single records on the scan ----------------

  lemma EntriesDistinct(slots: seq<Slot>)
    requires DistinctSlots(slots)
    ensures DistinctRefs(EntriesOf(slots)) && DistinctIds(EntriesOf(slots))
  {
  }

  lemma EntriesList(slots: seq<Slot>, id: MemberId)
    ensures Lists(EntriesOf(slots), id) <==> Attached(slots, id)
  {
  }

  /** A committed table puts the slots' refs and cursors in force and leaves every other
      member, and every trail, alone. */
  lemma TableEffect(w: World, log: seq<TopicRecord>, slots: seq<Slot>, id: MemberId)
    requires DistinctSlots(slots)
    ensures var log' := log + [SlotTable(EntriesOf(slots))];
            && (forall k :: 0 <= k < |slots| ==> Denotes(log', slots[k].memberRef, slots[k].id))
            && (forall k :: 0 <= k < |slots| && slots[k].id == id ==>
                              Next(Scan(log').out, id) == slots[k].cursor)
            && (!Attached(slots, id) ==> Next(Scan(log').out, id) == Next(Scan(log).out, id))
            && TrailNext(log', id) == TrailNext(log, id)
            && (Trail(w, log', id) <==> Trail(w, log, id))
            && (Unmarked(log', id) <==> Unmarked(log, id))
  {
    var entries := EntriesOf(slots);
    EntriesDistinct(slots);
    EntriesList(slots, id);
    ScanAppend(log, SlotTable(entries));
    TrailAppend(w, log, SlotTable(entries), id);
    OverwriteAgrees(Scan(log).out, Scan(log).out, entries, id);
    forall k | 0 <= k < |slots|
      ensures Denotes(log + [SlotTable(entries)], slots[k].memberRef, slots[k].id)
      ensures slots[k].id == id ==>
                Next(Scan(log + [SlotTable(entries)]).out, id) == slots[k].cursor
    {
      RefsOfLine(entries, k);
      OverwriteLine(Scan(log).out, entries, k);
    }
  }

  /** A committed record that is no table leaves the refs in force as they are. */
  lemma RecordEffect(log: seq<TopicRecord>, r: TopicRecord, id: MemberId)
    requires !r.SlotTable?
    ensures forall ref, m :: Denotes(log + [r], ref, m) <==> Denotes(log, ref, m)
    ensures !(r.Data? && Denotes(log, r.memberRef, id)) ==>
              Next(Scan(log + [r]).out, id) == Next(Scan(log).out, id)
    ensures r.Data? && Denotes(log, r.memberRef, id) && Next(Scan(log).out, id) <= r.memberIndex ==>
              Next(Scan(log + [r]).out, id) == r.memberIndex + 1
  {
  }

  // ---------------- segments ----------------

  lemma SegmentsAppend(t: Channel<TopicRecord>, r: TopicRecord)
    requires Valid(t) && t.base == 0 && SegmentsOpenWell(t)
    requires NeedsTable(r) ==>
               exists i :: t.starts[|t.starts| - 1] <= i < |t.records| && t.records[i].SlotTable?
    ensures SegmentsOpenWell(Append(t, r))
  {
    var d := Append(t, r);
    var last := t.starts[|t.starts| - 1];
    forall k | 0 <= k < |d.starts|
      ensures Covered(d.records, d.starts[k])
      ensures d.starts[k] < |d.records| ==> !NeedsTable(d.records[d.starts[k]])
    {
      assert Covered(t.records, t.starts[k]);
      assert t.starts[k] <= last;
      forall j | d.starts[k] <= j < |d.records| && NeedsTable(d.records[j])
        ensures exists i :: d.starts[k] <= i < j && d.records[i].SlotTable?
      {
        if j < |t.records| {
          assert t.records[j] == d.records[j];
          var i :| t.starts[k] <= i < j && t.records[i].SlotTable?;
          assert d.records[i].SlotTable?;
        } else {
          var i :| last <= i < |t.records| && t.records[i].SlotTable?;
          assert d.records[i].SlotTable?;
        }
      }
    }
  }

  lemma SegmentsRoll(t: Channel<TopicRecord>, keep: nat)
    requires Valid(t) && t.base == 0 && SegmentsOpenWell(t)
    ensures SegmentsOpenWell(Roll(t, keep))
  {
  }

  /** A slot whose table sits in the segment being written gives that segment a table. */
  lemma NamedHasTable(t: Channel<TopicRecord>, from: nat, id: MemberId)
    requires from <= |t.records| && Named(t.records[from..], id)
    ensures exists i :: from <= i < |t.records| && t.records[i].SlotTable?
  {
  }

  lemma NamedSuffixGrows(log: seq<TopicRecord>, r: TopicRecord, from: nat, id: MemberId)
    requires from <= |log|
    ensures (log + [r])[from..] == log[from..] + [r]
    ensures Named(log[from..], id) ==> Named((log + [r])[from..], id)
    ensures r.SlotTable? && Lists(r.entries, id) ==> Named((log + [r])[from..], id)
  {
  }

  // ---------------- the members' own writers ----------------

  /** What a member's writer may do to it between two mux steps: append, prune, or start
      over with another log. */
  ghost predicate MemberMoves(m: Member, m': Member) {
    && 0 < |m.history| <= |m'.history| && m'.earliest <= |Current(m')|
    && (forall k :: 0 <= k < |m.history| ==> m.history[k] <= m'.history[k])
    && (|m'.history| == 1 && m'.earliest == 0 ==> m.earliest == 0)
  }

  ghost predicate MembersMoved(s: System, s': System) {
    && Shape(s) && Shape(s')
    && s' == s.(members := s'.members) && s'.members.Keys == s.members.Keys
    && forall id :: id in s.members ==>
         && MemberMoves(s.members[id], s'.members[id])
         && (s.host.Up? && Attached(s.host.session.slots, id) ==>
               |Current(s.members[id])| <= |Current(s'.members[id])|)
  }

  lemma MembersMoveByOne(s: System, id: MemberId, m: Member)
    requires Shape(s) && id in s.members && MemberMoves(s.members[id], m)
    requires s.host.Up? && Attached(s.host.session.slots, id) ==> |Current(s.members[id])| <= |Current(m)|
    ensures MembersMoved(s, s.(members := s.members[id := m]))
  {
  }

  lemma MembersStepMoves(c: Config, s: System, step: Step)
    requires Shape(s) && Enabled(c, s, step)
    requires step.MemberAppend? || step.MemberPrune? || step.MemberReset?
    ensures MembersMoved(s, Apply(c, s, step))
  {
    hide Scan, Named, MembersMoved;
    MembersMoveByOne(s, step.id, Apply(c, s, step).members[step.id]);
  }

  lemma MovingGrows(c: Config, s: System, s': System)
    requires MembersMoved(s, s')
    ensures Grows(WorldOf(c, s), WorldOf(c, s'))
  {
  }

  lemma SettledAsMembersMove(c: Config, s: System, s': System, id: MemberId)
    requires MembersMoved(s, s') && Settled(c, s, id)
    ensures Settled(c, s', id)
  {
    hide Scan, Named, Valid;
    var w, w', log := WorldOf(c, s), WorldOf(c, s'), s.topic.records;
    MovingGrows(c, s, s');
    TrailGrows(w, w', log, id);
    if Owing(s, id) {
      FitsGrows(w, w', id, TrailNext(log, id), s.host.session.phase.mark);
    } else {
      RejectedGrows(w, w', id, TrailNext(log, id), LogNext(s, id));
    }
    if s.host.Up? {
      var ses := s.host.session;
      forall k | 0 <= k < |ses.slots| && ses.slots[k].id == id
        ensures AllRejected(w', id, LogNext(s', id), ses.slots[k].cursor)
      {
        RejectedGrows(w, w', id, LogNext(s, id), ses.slots[k].cursor);
      }
    }
  }

  lemma MembersStep(c: Config, s: System, step: Step)
    requires Inv(c, s) && Enabled(c, s, step)
    requires step.MemberAppend? || step.MemberPrune? || step.MemberReset?
    ensures Inv(c, Apply(c, s, step))
  {
    hide Scan, Named, Settled, SegmentsOpenWell, SessionOK, MemberMoves;
    var s' := Apply(c, s, step);
    MembersStepMoves(c, s, step);
    if s.host.Up? {
      SessionAsMembersMove(s, s');
    }
    forall id | id !in s'.broken ensures Settled(c, s', id) {
      SettledAsMembersMove(c, s, s', id);
    }
  }

  lemma SessionAsMembersMove(s: System, s': System)
    requires MembersMoved(s, s') && s.host.Up? && SessionOK(s, s.host.session)
    ensures SessionOK(s', s.host.session)
  {
    hide Scan, Named, Valid, MemberMoves;
    var ses := s.host.session;
    forall k | 0 <= k < |ses.slots| ensures SlotOK(s', ses, k) {
      assert SlotOK(s, ses, k);
      assert Attached(ses.slots, ses.slots[k].id);
    }
  }

  // ---------------- opening and crashing ----------------

  lemma OpenStep(c: Config, s: System)
    requires Inv(c, s) && Enabled(c, s, Open)
    ensures Inv(c, Apply(c, s, Open))
  {
    hide Scan, MuxTrail.Trail, MuxTrail.TrailNext, MuxTrail.Unmarked;
    var s' := Apply(c, s, Open);
    var log, ses := s.topic.records, s'.host.session;
    ScanOfSuffix(log, Earliest(s.topic));
    assert log[ses.openFrom..ses.openLen] == Retained(s.topic);
    assert log[..ses.openLen] == log;
    forall id | id !in s'.broken ensures Settled(c, s', id) {
      assert Settled(c, s, id);
      assert SeesMember(Retained(s.topic), log, id);
      if !Named(log, id) {
        UnnamedIsUnknown(log, id);
        assert !Named(Retained(s.topic), id);
      }
    }
  }

  lemma CrashStep(c: Config, s: System)
    requires Inv(c, s) && Enabled(c, s, Crash)
    ensures Inv(c, Apply(c, s, Crash))
  {
  }

  // ---------------- steps that write nothing ----------------

  /** The same members in the same slots, whatever their cursors. */
  ghost predicate SameSlots(slots: seq<Slot>, slots': seq<Slot>) {
    && |slots'| == |slots|
    && forall k :: 0 <= k < |slots| ==>
         slots'[k].memberRef == slots[k].memberRef && slots'[k].id == slots[k].id
  }

  lemma SameAttached(slots: seq<Slot>, slots': seq<Slot>, id: MemberId)
    requires SameSlots(slots, slots')
    ensures Attached(slots', id) <==> Attached(slots, id)
  {
  }

  lemma AttachFailsStep(c: Config, s: System)
    requires Inv(c, s) && Enabled(c, s, AttachFails)
    ensures Inv(c, Apply(c, s, AttachFails))
  {
    hide Scan, Named, MuxTrail.Trail, MuxTrail.TrailNext, MuxTrail.Unmarked;
    var s' := Apply(c, s, AttachFails);
    forall k | 0 <= k < |s'.host.session.slots| ensures SlotOK(s', s'.host.session, k) {
      assert SlotOK(s, s.host.session, k);
    }
    forall id | id !in s'.broken ensures Settled(c, s', id) {
      assert Settled(c, s, id);
    }
  }

  lemma RejectStep(c: Config, s: System, i: nat)
    requires Inv(c, s) && Enabled(c, s, Reject(i))
    ensures Inv(c, Apply(c, s, Reject(i)))
  {
    hide Scan, Named, MuxTrail.Trail, MuxTrail.TrailNext, MuxTrail.Unmarked;
    var s' := Apply(c, s, Reject(i));
    var ses, ses' := s.host.session, s'.host.session;
    var slot := ses.slots[i];
    assert SlotOK(s, ses, i);
    forall k | 0 <= k < |ses'.slots| ensures SlotOK(s', ses', k) {
      assert SlotOK(s, ses, k);
    }
    forall id | id !in s'.broken ensures Settled(c, s', id) {
      assert Settled(c, s, id);
      SameAttached(ses.slots, ses'.slots, id);
      forall k | 0 <= k < |ses'.slots| && ses'.slots[k].id == id
        ensures LogNext(s', id) <= ses'.slots[k].cursor
        ensures AllRejected(WorldOf(c, s'), id, LogNext(s', id), ses'.slots[k].cursor)
      {
        assert ses.slots[k].id == id;
        if k == i {
          var m := s.members[id];
          assert !Acceptable(m.history[|m.history| - 1][slot.source], c.mtu);
          assert RejectedAt(WorldOf(c, s), id, slot.source);
        }
      }
    }
  }

  lemma RollStep(c: Config, s: System)
    requires Inv(c, s) && Enabled(c, s, RollTopic)
    ensures Inv(c, Apply(c, s, RollTopic))
  {
    hide Scan, Named, MuxTrail.Trail, MuxTrail.TrailNext, MuxTrail.Unmarked;
    var s' := Apply(c, s, RollTopic);
    SegmentsRoll(s.topic, c.keepFiles);
    forall k | 0 <= k < |s'.host.session.slots| ensures SlotOK(s', s'.host.session, k) {
      assert SlotOK(s, s.host.session, k);
    }
    forall id | id !in s'.broken ensures Settled(c, s', id) {
      assert Settled(c, s, id);
    }
  }

  // ---------------- records that are no tables ----------------

  lemma RecalledAppend(t: Channel<TopicRecord>, r: TopicRecord, ses: Session, ses': Session, id: MemberId)
    requires Valid(t) && ses.openFrom <= ses.openLen <= |t.records|
    requires ses'.openFrom == ses.openFrom && ses'.openLen == ses.openLen && ses.removed <= ses'.removed
    requires Recalled(Append(t, r), ses', id)
    ensures Recalled(t, ses, id)
  {
    var log, d := t.records, Append(t, r).records;
    assert d[ses.openFrom..ses.openLen] == log[ses.openFrom..ses.openLen];
    assert d[..ses.openLen] == log[..ses.openLen];
  }

  /** One record, no table, went in; the slots are the same ones. */
  ghost predicate Wrote(s: System, s': System, r: TopicRecord) {
    && Shape(s) && Shape(s') && s.host.Up? && s'.host.Up?
    && s'.topic == Append(s.topic, r) && s'.members == s.members && !r.SlotTable?
    && var ses, ses' := s.host.session, s'.host.session;
    && SameSlots(ses.slots, ses'.slots) && ses'.nextRef == ses.nextRef
    && ses'.recovered == ses.recovered && ses'.removed == ses.removed
    && ses'.openFrom == ses.openFrom && ses'.openLen == ses.openLen
    && !ses.phase.TableDue? && !ses'.phase.TableDue? && !ses'.phase.MarkDue?
  }

  /** A record about somebody else leaves a member settled. */
  lemma SettledUntouched(c: Config, s: System, s': System, r: TopicRecord, id: MemberId)
    requires Wrote(s, s', r) && Settled(c, s, id) && !Owing(s, id)
    requires !((r.Data? || IsMark(r)) && Denotes(s.topic.records, r.memberRef, id))
    requires forall k :: 0 <= k < |s.host.session.slots| && s.host.session.slots[k].id == id ==>
                           s'.host.session.slots[k] == s.host.session.slots[k]
    ensures Settled(c, s', id)
  {
    hide Scan, Named, MuxTrail.Trail, MuxTrail.TrailNext, MuxTrail.Unmarked;
    RecordEffect(s.topic.records, r, id);
    TrailAppend(WorldOf(c, s), s.topic.records, r, id);
    SameAttached(s.host.session.slots, s'.host.session.slots, id);
    if Recalled(s'.topic, s'.host.session, id) {
      RecalledAppend(s.topic, r, s.host.session, s'.host.session, id);
    }
  }

  /** Session and segments survive the commit of a record that is no table. */
  lemma StructureAfterRecord(s: System, s': System, r: TopicRecord)
    requires Structure(s) && Wrote(s, s', r)
    requires s.host.session.slots != [] || !NeedsTable(r)
    requires var ses' := s'.host.session;
             && (ses'.finished ==> ses'.phase.Idle? && ses'.slots == [])
             && forall k :: 0 <= k < |ses'.slots| ==>
                  && ses'.slots[k].id in s.members
                  && ses'.slots[k].source == ses'.slots[k].cursor <= |Current(s.members[ses'.slots[k].id])|
    ensures Structure(s')
  {
    var ses, ses', log := s.host.session, s'.host.session, s.topic.records;
    assert s'.topic.records == log + [r];
    if ses.slots != [] {
      assert SlotOK(s, ses, 0);
      NamedHasTable(s.topic, TableHome(s.topic, ses.phase), ses.slots[0].id);
    }
    SegmentsAppend(s.topic, r);
    forall k | 0 <= k < |ses'.slots| ensures SlotOK(s', ses', k) {
      assert SlotOK(s, ses, k);
      SlotAfterRecord(s, s', r, k);
    }
  }

  lemma SlotAfterRecord(s: System, s': System, r: TopicRecord, k: nat)
    requires Wrote(s, s', r) && k < |s.host.session.slots| && SlotOK(s, s.host.session, k)
    requires var slot := s'.host.session.slots[k];
             slot.source == slot.cursor <= |Current(s.members[slot.id])|
    ensures SlotOK(s', s'.host.session, k)
  {
  }

  lemma SlotsStand(s: System)
    requires Shape(s) && s.host.Up? && SessionOK(s, s.host.session)
    ensures var slots := s.host.session.slots;
            forall k :: 0 <= k < |slots| ==>
              && slots[k].id in s.members
              && slots[k].source == slots[k].cursor <= |Current(s.members[slots[k].id])|
              && Denotes(s.topic.records, slots[k].memberRef, slots[k].id)
              && slots[k].memberRef < s.host.session.nextRef
  {
    var slots := s.host.session.slots;
    forall k | 0 <= k < |slots|
      ensures slots[k].id in s.members
      ensures slots[k].source == slots[k].cursor <= |Current(s.members[slots[k].id])|
      ensures Denotes(s.topic.records, slots[k].memberRef, slots[k].id)
      ensures slots[k].memberRef < s.host.session.nextRef
    {
      assert SlotOK(s, s.host.session, k);
    }
  }

  lemma MarkStep(c: Config, s: System)
    requires Inv(c, s) && Enabled(c, s, Mark)
    ensures Inv(c, Apply(c, s, Mark))
  {
    hide Scan, Named, MuxTrail.Trail, MuxTrail.TrailNext, MuxTrail.Unmarked;
    var s', mark := Apply(c, s, Mark), s.host.session.phase.mark;
    SlotsStand(s);
    StructureAfterRecord(s, s', mark);
    forall id | id !in s'.broken ensures Settled(c, s', id) {
      assert Settled(c, s, id);
      if id == s.host.session.phase.id {
        SettledByItsMark(c, s, s', mark, id);
      } else {
        SettledUntouched(c, s, s', mark, id);
      }
    }
  }

  /** The owed marker settles the member it speaks of. */
  lemma SettledByItsMark(c: Config, s: System, s': System, mark: TopicRecord, id: MemberId)
    requires Wrote(s, s', mark) && IsMark(mark) && Denotes(s.topic.records, mark.memberRef, id)
    requires s.host.session.phase == MarkDue(mark, id) && s'.host.session.slots == s.host.session.slots
    requires Settled(c, s, id) && Attached(s.host.session.slots, id)
    ensures Settled(c, s', id)
  {
  }

  lemma MergeStep(c: Config, s: System, i: nat)
    requires Inv(c, s) && Enabled(c, s, Merge(i))
    ensures Inv(c, Apply(c, s, Merge(i)))
  {
    hide Scan, Named, MuxTrail.Trail, MuxTrail.TrailNext, MuxTrail.Unmarked;
    var s' := Apply(c, s, Merge(i));
    var slot := s.host.session.slots[i];
    var r := Data(slot.memberRef, slot.source, RecordAt(s, i));
    SlotsStand(s);
    StructureAfterRecord(s, s', r);
    MergedRecordIsGenuine(c, s, i);
    forall id | id !in s'.broken ensures Settled(c, s', id) {
      assert Settled(c, s, id);
      if id == slot.id {
        SettledByItsMerge(c, s, s', i, r);
      } else {
        SettledUntouched(c, s, s', r, id);
      }
    }
  }

  lemma MergedRecordIsGenuine(c: Config, s: System, i: nat)
    requires Shape(s) && Enabled(c, s, Merge(i))
    ensures var slot := s.host.session.slots[i];
            Genuine(WorldOf(c, s), slot.id, slot.source, RecordAt(s, i))
  {
  }

  /** After its record is merged, a member's trail, the log's cursor for it and its live
      cursor all stand right behind that record. */
  lemma SettledByItsMerge(c: Config, s: System, s': System, i: nat, r: TopicRecord)
    requires Wrote(s, s', r) && r.Data? && i < |s.host.session.slots|
    requires var slot, slot' := s.host.session.slots[i], s'.host.session.slots[i];
             && r.memberRef == slot.memberRef && r.memberIndex == slot.cursor
             && slot'.cursor == slot.cursor + 1
             && Denotes(s.topic.records, slot.memberRef, slot.id)
             && Genuine(WorldOf(c, s), slot.id, r.memberIndex, r.record)
             && slot.cursor < |Current(s.members[slot.id])|
    requires DistinctSlots(s.host.session.slots)
    requires Settled(c, s, s.host.session.slots[i].id) && !Owing(s, s.host.session.slots[i].id)
    ensures Settled(c, s', s.host.session.slots[i].id)
  {
  }

  /** Whatever index a closing record states: nothing reads it. */
  lemma CloseAtKeepsInv(c: Config, s: System, i: nat, index: nat)
    requires Inv(c, s) && Enabled(c, s, Close(i))
    ensures var ses := s.host.session;
            Inv(c, Commit(s, MemberClosed(ses.slots[i].memberRef, index), ses.(phase := Closing(i))))
  {
    hide Scan, Named, MuxTrail.Trail, MuxTrail.TrailNext, MuxTrail.Unmarked;
    var ses := s.host.session;
    var r := MemberClosed(ses.slots[i].memberRef, index);
    var s' := Commit(s, r, ses.(phase := Closing(i)));
    SlotsStand(s);
    StructureAfterRecord(s, s', r);
    forall id | id !in s'.broken ensures Settled(c, s', id) {
      assert Settled(c, s, id);
      SettledUntouched(c, s, s', r, id);
    }
  }

  lemma CloseStep(c: Config, s: System, i: nat)
    requires Inv(c, s) && Enabled(c, s, Close(i))
    ensures Inv(c, Apply(c, s, Close(i)))
  {
    hide Inv, Scan, Named;
    CloseAtKeepsInv(c, s, i, s.host.session.slots[i].cursor);
  }

  lemma RetireStep(c: Config, s: System)
    requires Inv(c, s) && Enabled(c, s, Retire)
    ensures Inv(c, Apply(c, s, Retire))
  {
    hide Scan, Named, MuxTrail.Trail, MuxTrail.TrailNext, MuxTrail.Unmarked;
    var s' := Apply(c, s, Retire);
    StructureAfterRecord(s, s', Terminal);
    forall id | id !in s'.broken ensures Settled(c, s', id) {
      assert Settled(c, s, id);
      SettledUntouched(c, s, s', Terminal, id);
    }
  }

  // ---------------- slot tables ----------------

  /** A table listing the new slots went in. */
  ghost predicate Tabled(s: System, s': System) {
    && Shape(s) && Shape(s') && s.host.Up? && s'.host.Up?
    && var ses, ses' := s.host.session, s'.host.session;
    && s'.topic == Append(s.topic, SlotTable(EntriesOf(ses'.slots))) && s'.members == s.members
    && DistinctSlots(ses'.slots) && !ses'.phase.TableDue? && !ses'.finished
    && ses'.recovered == ses.recovered && ses.removed <= ses'.removed
    && ses'.openFrom == ses.openFrom && ses'.openLen == ses.openLen
    && ses.nextRef <= ses'.nextRef <= 0xFFFF
    && forall k :: 0 <= k < |ses'.slots| ==>
         && ses'.slots[k].memberRef < ses'.nextRef && ses'.slots[k].id in s.members
         && ses'.slots[k].source == ses'.slots[k].cursor <= |Current(s.members[ses'.slots[k].id])|
  }

  lemma SlotAfterTable(s: System, s': System, k: nat)
    requires Tabled(s, s') && k < |s'.host.session.slots|
    ensures SlotOK(s', s'.host.session, k)
  {
    var slots, log := s'.host.session.slots, s.topic.records;
    var r := SlotTable(EntriesOf(slots));
    assert s'.topic.records == log + [r];
    TableEffect(World(s.members, 0), log, slots, slots[k].id);
    assert Attached(slots, slots[k].id);
    EntriesList(slots, slots[k].id);
    NamedSuffixGrows(log, r, TableHome(s'.topic, s'.host.session.phase), slots[k].id);
  }

  lemma StructureAfterTable(s: System, s': System)
    requires SegmentsOpenWell(s.topic) && Tabled(s, s')
    requires var ses' := s'.host.session;
             ses'.phase.MarkDue? ==>
               && IsMark(ses'.phase.mark)
               && exists k :: 0 <= k < |ses'.slots| && ses'.slots[k].id == ses'.phase.id
                              && ses'.slots[k].memberRef == ses'.phase.mark.memberRef
    ensures Structure(s')
  {
    SegmentsAppend(s.topic, SlotTable(EntriesOf(s'.host.session.slots)));
    var ses' := s'.host.session;
    forall k | 0 <= k < |ses'.slots| ensures SlotOK(s', ses', k) {
      SlotAfterTable(s, s', k);
    }
    if ses'.phase.MarkDue? {
      var k :| 0 <= k < |ses'.slots| && ses'.slots[k].id == ses'.phase.id
               && ses'.slots[k].memberRef == ses'.phase.mark.memberRef;
      assert SlotOK(s', ses', k);
    }
  }

  /** A member the table does not list. */
  lemma SettledUnlisted(c: Config, s: System, s': System, id: MemberId)
    requires Tabled(s, s') && Settled(c, s, id) && !Owing(s, id) && !Owing(s', id)
    requires !Attached(s'.host.session.slots, id)
    requires Attached(s.host.session.slots, id) ==> id in s'.host.session.removed
    ensures Settled(c, s', id)
  {
    var ses, ses' := s.host.session, s'.host.session;
    var r := SlotTable(EntriesOf(ses'.slots));
    assert s'.topic.records == s.topic.records + [r];
    TableEffect(WorldOf(c, s), s.topic.records, ses'.slots, id);
    if Recalled(s'.topic, ses', id) {
      RecalledAppend(s.topic, r, ses, ses', id);
    }
  }

  /** A member the table lists at the cursor it already had. */
  lemma SettledListed(c: Config, s: System, s': System, id: MemberId, j: nat, k: nat)
    requires Tabled(s, s') && Settled(c, s, id) && !Owing(s, id) && !Owing(s', id)
    requires j < |s.host.session.slots| && k < |s'.host.session.slots|
    requires s'.host.session.slots[k] == s.host.session.slots[j] && s.host.session.slots[j].id == id
    ensures Settled(c, s', id)
  {
    var slots' := s'.host.session.slots;
    assert s'.topic.records == s.topic.records + [SlotTable(EntriesOf(slots'))];
    TableEffect(WorldOf(c, s), s.topic.records, slots', id);
    RejectedChain(WorldOf(c, s), id, TrailNext(s.topic.records, id), LogNext(s, id), slots'[k].cursor);
    SettledPastRejected(c, s', id, k);
  }

  lemma RejectedChain(w: World, id: MemberId, a: nat, b: nat, d: nat)
    requires AllRejected(w, id, a, b) && AllRejected(w, id, b, d)
    ensures AllRejected(w, id, a, d)
  {
  }

  /** Log and slot agree on where the member stands; its trail lags by rejected records. */
  lemma SettledPastRejected(c: Config, s: System, id: MemberId, k: nat)
    requires Shape(s) && s.host.Up? && k < |s.host.session.slots| && s.host.session.slots[k].id == id
    requires DistinctSlots(s.host.session.slots) && !Owing(s, id)
    requires Trail(WorldOf(c, s), s.topic.records, id)
    requires TrailNext(s.topic.records, id) <= LogNext(s, id) == s.host.session.slots[k].cursor
    requires AllRejected(WorldOf(c, s), id, TrailNext(s.topic.records, id), LogNext(s, id))
    requires id in s.members && LogNext(s, id) <= |Current(s.members[id])|
    requires Undisturbed(s, id) ==> Unmarked(s.topic.records, id)
    ensures Settled(c, s, id)
  {
  }

  /** A member the table lists for the first time in this session, resuming where the log
      says it stands. */
  lemma SettledAttached(c: Config, s: System, s': System, id: MemberId, resume: Resume)
    requires Tabled(s, s') && Settled(c, s, id) && !Owing(s, id)
    requires !Attached(s.host.session.slots, id) && Recalled(s.topic, s.host.session, id)
    requires id in s.members
    requires resume == ResumeAt(Next(s.host.session.recovered, id), s.members[id].earliest, |Current(s.members[id])|)
    requires var ses, ses' := s.host.session, s'.host.session;
             && ses'.slots == ses.slots + [Slot(ses.nextRef, id, resume.start, resume.start, 0)]
             && ses'.phase == PhaseAfterAttach(ses.nextRef, id, resume)
    ensures Settled(c, s', id)
  {
    var ses, ses' := s.host.session, s'.host.session;
    var k := |ses.slots|;
    assert s'.topic.records == s.topic.records + [SlotTable(EntriesOf(ses'.slots))];
    TableEffect(WorldOf(c, s), s.topic.records, ses'.slots, id);
    assert ses'.slots[k].id == id && Attached(ses'.slots, id);
    assert Next(ses.recovered, id) == LogNext(s, id);
    assert LogNext(s', id) == resume.start;
  }

  lemma AttachStep(c: Config, s: System, id: MemberId)
    requires Inv(c, s) && Enabled(c, s, Attach(id))
    ensures Inv(c, Apply(c, s, Attach(id)))
  {
    hide Scan, Named, MuxTrail.Trail, MuxTrail.TrailNext, MuxTrail.Unmarked;
    var s' := Apply(c, s, Attach(id));
    var ses, ses', m := s.host.session, s'.host.session, s.members[id];
    var resume := ResumeAt(Next(ses.recovered, id), m.earliest, |Current(m)|);
    SlotsStand(s);
    AttachTables(c, s, id);
    assert ses'.slots[|ses.slots|].id == id;
    StructureAfterTable(s, s');
    forall other | other !in s'.broken ensures Settled(c, s', other) {
      assert Settled(c, s, other);
      if other == id {
        SettledAttached(c, s, s', id, resume);
      } else if Attached(ses.slots, other) {
        var j :| 0 <= j < |ses.slots| && ses.slots[j].id == other;
        SettledListed(c, s, s', other, j, j);
      } else {
        assert !Attached(ses'.slots, other);
        SettledUnlisted(c, s, s', other);
      }
    }
  }

  lemma AttachTables(c: Config, s: System, id: MemberId)
    requires Structure(s) && Enabled(c, s, Attach(id))
    ensures Tabled(s, Apply(c, s, Attach(id)))
  {
    hide Scan, Named, MuxTrail.Trail, MuxTrail.TrailNext, MuxTrail.Unmarked;
    SlotsStand(s);
    forall k | 0 <= k < |s.host.session.slots| ensures s.host.session.slots[k].id != id {
    }
  }

  lemma ReemitTables(c: Config, s: System, step: Step)
    requires Structure(s) && Enabled(c, s, step) && (step.RollTable? || step.Refresh?)
    ensures Tabled(s, Apply(c, s, step))
  {
    hide Scan, Named, SegmentsOpenWell, SlotOK, Tabled;
    var ses := s.host.session;
    assert Apply(c, s, step) == Commit(s, SlotTable(EntriesOf(ses.slots)), ses.(phase := Idle));
    TabledAsTheyStand(s);
  }

  lemma TabledAsTheyStand(s: System)
    requires Shape(s) && s.host.Up? && SessionOK(s, s.host.session) && !s.host.session.finished
    ensures var ses := s.host.session;
            Tabled(s, Commit(s, SlotTable(EntriesOf(ses.slots)), ses.(phase := Idle)))
  {
    hide Scan, Named, SlotOK;
    SlotsStand(s);
  }

  lemma SettledReemitted(c: Config, s: System, s': System, id: MemberId)
    requires Tabled(s, s') && Settled(c, s, id) && !Owing(s, id) && !Owing(s', id)
    requires s'.host.session.slots == s.host.session.slots
    ensures Settled(c, s', id)
  {
    hide Scan, Named, MuxTrail.Trail, MuxTrail.TrailNext, MuxTrail.Unmarked, Settled;
    var slots := s.host.session.slots;
    if Attached(slots, id) {
      var j :| 0 <= j < |slots| && slots[j].id == id;
      SettledListed(c, s, s', id, j, j);
    } else {
      SettledUnlisted(c, s, s', id);
    }
  }

  /** Emitting the slots as they stand, in a new segment or a stale one. */
  lemma ReemitStep(c: Config, s: System, step: Step)
    requires Inv(c, s) && Enabled(c, s, step) && (step.RollTable? || step.Refresh?)
    ensures Inv(c, Apply(c, s, step))
  {
    hide Scan, Named, Settled, SessionOK, SegmentsOpenWell, Tabled;
    var s' := Apply(c, s, step);
    ReemitTables(c, s, step);
    StructureAfterTable(s, s');
    forall id | id !in s'.broken ensures Settled(c, s', id) {
      SettledReemitted(c, s, s', id);
    }
  }

  lemma CloseTableStep(c: Config, s: System)
    requires Inv(c, s) && Enabled(c, s, CloseTable)
    ensures Inv(c, Apply(c, s, CloseTable))
  {
    hide Scan, Named, MuxTrail.Trail, MuxTrail.TrailNext, MuxTrail.Unmarked;
    var s' := Apply(c, s, CloseTable);
    CloseTables(c, s);
    StructureAfterTable(s, s');
    forall id | id !in s'.broken ensures Settled(c, s', id) {
      assert Settled(c, s, id);
      SettledAfterClose(c, s, s', id);
    }
  }

  lemma SettledAfterClose(c: Config, s: System, s': System, id: MemberId)
    requires Tabled(s, s') && Settled(c, s, id) && s.host.session.phase.Closing? && s'.host.session.phase.Idle?
    requires var ses, ses', i := s.host.session, s'.host.session, s.host.session.phase.slot;
             && ses'.slots == ses.slots[..i] + ses.slots[i + 1..]
             && ses.slots[i].id in ses'.removed
    ensures Settled(c, s', id)
  {
    var slots, slots', i := s.host.session.slots, s'.host.session.slots, s.host.session.phase.slot;
    if Attached(slots', id) {
      var k :| 0 <= k < |slots'| && slots'[k].id == id;
      SettledListed(c, s, s', id, if k < i then k else k + 1, k);
    } else {
      OtherSlotsStay(slots, i, id);
      SettledUnlisted(c, s, s', id);
    }
  }

  lemma OtherSlotsStay(slots: seq<Slot>, i: nat, id: MemberId)
    requires i < |slots|
    ensures Attached(slots, id) && id != slots[i].id ==> Attached(slots[..i] + slots[i + 1..], id)
  {
    var rest := slots[..i] + slots[i + 1..];
    if Attached(slots, id) && id != slots[i].id {
      var j :| 0 <= j < |slots| && slots[j].id == id;
      assert rest[if j < i then j else j - 1].id == id;
    }
  }

  lemma CloseTables(c: Config, s: System)
    requires Structure(s) && Enabled(c, s, CloseTable)
    ensures Tabled(s, Apply(c, s, CloseTable))
  {
    hide Scan, Named, MuxTrail.Trail, MuxTrail.TrailNext, MuxTrail.Unmarked;
    var slots, i := s.host.session.slots, s.host.session.phase.slot;
    var rest := slots[..i] + slots[i + 1..];
    SlotsStand(s);
    assert forall k :: 0 <= k < |rest| ==> rest[k] == slots[if k < i then k else k + 1];
  }

  /** Every step of the machine keeps the invariant. */
  lemma StepKeepsInv(c: Config, s: System, step: Step)
    requires Inv(c, s) && Enabled(c, s, step)
    ensures Inv(c, Apply(c, s, step))
  {
    hide Apply, ApplyCall, Enabled, Settled, SessionOK, SegmentsOpenWell;
    match step
    case Open => OpenStep(c, s);
    case Crash => CrashStep(c, s);
    case Attach(id) => AttachStep(c, s, id);
    case AttachFails => AttachFailsStep(c, s);
    case Mark => MarkStep(c, s);
    case Reject(i) => RejectStep(c, s, i);
    case Merge(i) => MergeStep(c, s, i);
    case RollTopic => RollStep(c, s);
    case RollTable => ReemitStep(c, s, step);
    case Refresh => ReemitStep(c, s, step);
    case Close(i) => CloseStep(c, s, i);
    case CloseTable => CloseTableStep(c, s);
    case Retire => RetireStep(c, s);
    case MemberAppend(_, _) => MembersStep(c, s, step);
    case MemberPrune(_, _) => MembersStep(c, s, step);
    case MemberReset(_, _, _) => MembersStep(c, s, step);
  }

  /** Every state of every run satisfies the invariant. */
  lemma {:induction false} RunKeepsInv(c: Config, states: seq<System>, steps: seq<Step>, k: nat)
    requires Run(c, states, steps) && Initial(states[0]) && k < |states|
    ensures Inv(c, states[k])
  {
    if k == 0 {
      InitialEstablishesInv(c, states[0]);
    } else {
      RunKeepsInv(c, states, steps, k - 1);
      StepKeepsInv(c, states[k - 1], steps[k - 1]);
    }
  }

  /** What a sequence of steps starts from with the invariant, it ends in with it. */
  lemma {:induction false} LeadsKeepsInv(c: Config, a: System, steps: seq<Step>, b: System)
    requires Leads(c, a, steps, b) && Inv(c, a)
    ensures Inv(c, b)
    decreases |steps|
  {
    hide Apply, Enabled, Settled, SessionOK, SegmentsOpenWell;
    if steps != [] {
      StepKeepsInv(c, a, steps[0]);
      LeadsKeepsInv(c, Apply(c, a, steps[0]), steps[1..], b);
    }
  }
}
