/** Where the multiplexer's promises stop, as facts about all states: a cursor read at open that
    is no longer the topic's own repeats records. */
module MuxPitfalls {
  import opened TopicRecords
  import opened MuxMachine
  import opened MuxTrail
  import opened MuxInvariant
  import opened MuxSteps
  import opened MuxTheorems

  /** The cursor an attach would resume from: `recovered`, read once when the mux opened. */
  function SessionNext(s: System, id: MemberId): nat
    requires s.host.Up?
  {
    Next(s.host.session.recovered, id)
  }

  lemma {:induction false} AcceptedHolds(log: seq<MemberRecord>, n: nat, mtu: nat, j: nat)
    requires j < n <= |log| && Acceptable(log[j], mtu)
    ensures (j, log[j]) in Accepted(log, n, mtu)
  {
    if j < n - 1 {
      AcceptedHolds(log, n - 1, mtu, j);
    }
  }

  /** Attach an undisturbed member and merge its next record, in any state. */
  ghost function AttachAndMerge(c: Config, s: System, id: MemberId): System
    requires Shape(s) && Enabled(c, s, Attach(id)) && Undisturbed(s, id)
    requires SessionNext(s, id) < |Current(s.members[id])|
    requires Acceptable(Current(s.members[id])[SessionNext(s, id)], c.mtu)
  {
    var attached := Apply(c, s, Attach(id));
    Apply(c, attached, Merge(|s.host.session.slots|))
  }

  lemma AttachAndMergeWrites(c: Config, s: System, id: MemberId)
    requires Inv(c, s) && Enabled(c, s, Attach(id)) && Undisturbed(s, id)
    requires SessionNext(s, id) < |Current(s.members[id])|
    requires Acceptable(Current(s.members[id])[SessionNext(s, id)], c.mtu)
    ensures var want := SessionNext(s, id);
            Attributed(AttachAndMerge(c, s, id).topic.records, id)
            == Attributed(s.topic.records, id) + [(want, Current(s.members[id])[want])]
  {
    hide Settled, SegmentsOpenWell, Named, Scan, Attributed;
    var want, ses := SessionNext(s, id), s.host.session;
    var a := Apply(c, s, Attach(id));
    var slots, k := a.host.session.slots, |ses.slots|;
    AttachTables(c, s, id);
    assert a.topic.records == s.topic.records + [SlotTable(EntriesOf(slots))];
    assert AttachAndMerge(c, s, id).topic.records
        == a.topic.records + [Data(slots[k].memberRef, want, Current(s.members[id])[want])];
    TableThenData(s.topic.records, slots, k, want, Current(s.members[id])[want]);
  }

  lemma TableThenData(log: seq<TopicRecord>, slots: seq<Slot>, k: nat, index: nat, record: MemberRecord)
    requires DistinctSlots(slots) && k < |slots|
    ensures Attributed(log + [SlotTable(EntriesOf(slots))] + [Data(slots[k].memberRef, index, record)], slots[k].id)
            == Attributed(log, slots[k].id) + [(index, record)]
  {
    var table := SlotTable(EntriesOf(slots));
    TableEffect(World(map[], 0), log, slots, slots[k].id);
    ScanAppend(log, table);
    ScanAppend(log + [table], Data(slots[k].memberRef, index, record));
  }

  /** Attaching continues the member's stream exactly once if and only if the cursor read at
      open is still the topic's own. A record merged since then comes again when it is not:
      after a removal in the same session, or when the retained topic no longer named the
      member when the mux opened. */
  lemma StaleCursorRepeatsRecords(c: Config, s: System, id: MemberId)
    requires Inv(c, s) && id !in s.broken && Enabled(c, s, Attach(id)) && Undisturbed(s, id)
    requires SessionNext(s, id) <= LogNext(s, id) && SessionNext(s, id) < |Current(s.members[id])|
    requires Acceptable(Current(s.members[id])[SessionNext(s, id)], c.mtu)
    ensures var log, want := Current(s.members[id]), SessionNext(s, id);
            && (Attributed(AttachAndMerge(c, s, id).topic.records, id) == Accepted(log, want + 1, c.mtu)
                <==> SessionNext(s, id) == LogNext(s, id))
            && (SessionNext(s, id) < LogNext(s, id) ==>
                  && (want, log[want]) in Attributed(s.topic.records, id)
                  && Attributed(AttachAndMerge(c, s, id).topic.records, id)
                     == Attributed(s.topic.records, id) + [(want, log[want])])
  {
    hide Apply, Scan, Named, Settled, SessionOK, SegmentsOpenWell, AttachAndMerge, Attributed, Accepted;
    MergedExactlyOnce(c, s, id);
    AttachAndMergeWrites(c, s, id);
    ContinueOrRepeat(Current(s.members[id]), SessionNext(s, id), LogNext(s, id), c.mtu);
  }

  lemma ContinueOrRepeat(log: seq<MemberRecord>, want: nat, next: nat, mtu: nat)
    requires want <= next <= |log| && want < |log| && Acceptable(log[want], mtu)
    ensures Accepted(log, next, mtu) + [(want, log[want])] == Accepted(log, want + 1, mtu) <==> want == next
    ensures want < next ==> (want, log[want]) in Accepted(log, next, mtu)
  {
    if want < next {
      AcceptedHolds(log, next, mtu, want);
      AcceptedGrows(log, want + 1, next, mtu);
    }
  }

  /** Removing a member leaves the session with the cursor it read at open, while the topic's
      own has moved on with everything merged since. */
  lemma RemovalLeavesTheCursorStale(c: Config, s: System, i: nat)
    requires Inv(c, s) && Enabled(c, s, Close(i))
    ensures var closed := Apply(c, s, Close(i));
            && Shape(closed) && Enabled(c, closed, CloseTable)
            && var removed := Apply(c, closed, CloseTable);
               var slot := s.host.session.slots[i];
               && removed.host.Up? && SessionNext(removed, slot.id) == SessionNext(s, slot.id)
               && (slot.id !in s.broken ==>
                     && LogNext(s, slot.id) <= LogNext(removed, slot.id) <= slot.cursor
                     && AllRejected(WorldOf(c, s), slot.id, LogNext(removed, slot.id), slot.cursor))
  {
    var closed := Apply(c, s, Close(i));
    CloseStep(c, s, i);
    ClosingKeepsTheCursor(c, s, i);
  }

  lemma ClosingKeepsTheCursor(c: Config, s: System, i: nat)
    requires Inv(c, s) && Enabled(c, s, Close(i))
    requires Inv(c, Apply(c, s, Close(i)))
    ensures LogNext(Apply(c, Apply(c, s, Close(i)), CloseTable), s.host.session.slots[i].id)
            == LogNext(s, s.host.session.slots[i].id)
    ensures s.host.session.slots[i].id !in s.broken ==> Settled(c, s, s.host.session.slots[i].id)
  {
    hide SegmentsOpenWell, Named, Trail, Unmarked, Scan;
    var slot, closed := s.host.session.slots[i], Apply(c, s, Close(i));
    var removed := Apply(c, closed, CloseTable);
    var r := MemberClosed(slot.memberRef, slot.cursor);
    assert closed.topic.records == s.topic.records + [r];
    RecordEffect(s.topic.records, r, slot.id);
    CloseTables(c, closed);
    var rest := removed.host.session.slots;
    assert removed.topic.records == closed.topic.records + [SlotTable(EntriesOf(rest))];
    assert !Attached(rest, slot.id);
    TableEffect(WorldOf(c, s), closed.topic.records, rest, slot.id);
  }

  /** A topic that keeps one segment and dies between rolling and writing the new segment's
      table has forgotten every member. */
  lemma SingleSegmentRollForgetsEveryone(c: Config, s: System)
    requires Inv(c, s) && Enabled(c, s, RollTopic) && c.keepFiles == 1
    ensures var rolled := Apply(c, s, RollTopic);
            && Shape(rolled)
            && var up := Apply(c, Apply(c, rolled, Crash), Open);
               up.host.session.recovered == map[]
  {
  }

  lemma {:induction false} AcceptedGrows(log: seq<MemberRecord>, a: nat, b: nat, mtu: nat)
    requires a <= b <= |log|
    ensures |Accepted(log, a, mtu)| <= |Accepted(log, b, mtu)|
  {
    if a < b {
      AcceptedGrows(log, a, b - 1, mtu);
    }
  }

  // ---------------- a removal, seen over its session ----------------

  /** A step inside a session keeps the cursors read at open, and an undisturbed member's log only
      grows. */
  lemma InsideASession(c: Config, s: System, step: Step, id: MemberId)
    requires Shape(s) && Enabled(c, s, step) && s.host.Up? && !step.Crash? && Undisturbed(Apply(c, s, step), id)
    ensures var s' := Apply(c, s, step);
            && s'.host.Up? && s'.host.session.recovered == s.host.session.recovered && s.broken <= s'.broken
            && Undisturbed(s, id) && Current(s.members[id]) <= Current(s'.members[id])
  {
    hide Scan, Named;
    UndisturbedBefore(c, s, step, id);
  }

  lemma {:induction false} OverASession(c: Config, states: seq<System>, steps: seq<Step>, a: nat, b: nat, id: MemberId)
    requires Run(c, states, steps) && a <= b < |states| && states[a].host.Up? && Undisturbed(states[b], id)
    requires forall k :: a <= k < b ==> !steps[k].Crash?
    ensures states[b].host.Up? && states[b].host.session.recovered == states[a].host.session.recovered
    ensures states[a].broken <= states[b].broken
    ensures Undisturbed(states[a], id) && Current(states[a].members[id]) <= Current(states[b].members[id])
    decreases b - a
  {
    hide Apply;
    if a < b {
      StaysUp(c, states[a], steps[a]);
      OverASession(c, states, steps, a + 1, b, id);
      InsideASession(c, states[a], steps[a], id);
    }
  }

  lemma StaysUp(c: Config, s: System, step: Step)
    requires Shape(s) && Enabled(c, s, step) && s.host.Up? && !step.Crash?
    ensures Apply(c, s, step).host.Up?
  {
    hide Scan, Named;
  }

  lemma {:induction false} AcceptedOfLonger(log: seq<MemberRecord>, longer: seq<MemberRecord>, n: nat, mtu: nat)
    requires n <= |log| && log <= longer
    ensures Accepted(longer, n, mtu) == Accepted(log, n, mtu)
  {
    if n > 0 { AcceptedOfLonger(log, longer, n - 1, mtu); }
  }

  /** Whatever was merged of a member since the session could have recalled it: once it is removed, the
      session's cursor for it lies strictly behind the topic's own, so attaching it again repeats
      records. */
  lemma RemovalAfterAMergeIsStale(c: Config, states: seq<System>, steps: seq<Step>, a: nat, b: nat, i: nat)
    requires Run(c, states, steps) && Initial(states[0]) && a <= b < |states| && states[a].host.Up?
    requires forall k :: a <= k < b ==> !steps[k].Crash?
    requires Shape(states[b]) && Enabled(c, states[b], Close(i)) && Shape(states[a])
    requires var id := states[b].host.session.slots[i].id;
             && Undisturbed(states[b], id) && id !in states[b].broken
             && !Attached(states[a].host.session.slots, id) && Recalled(states[a].topic, states[a].host.session, id)
             && |Attributed(states[a].topic.records, id)| < |Attributed(states[b].topic.records, id)|
    ensures var id, closed := states[b].host.session.slots[i].id, Apply(c, states[b], Close(i));
            && Shape(closed) && Enabled(c, closed, CloseTable)
            && var removed := Apply(c, closed, CloseTable);
            removed.host.Up? && SessionNext(removed, id) < LogNext(removed, id)
  {
    hide Apply, Scan, Named, Settled, SegmentsOpenWell, Attributed, Accepted, Recalled, SlotOK;
    var id := states[b].host.session.slots[i].id;
    RunKeepsInv(c, states, steps, a);
    RunKeepsInv(c, states, steps, b);
    OverASession(c, states, steps, a, b, id);
    RemovalLeavesTheCursorStale(c, states[b], i);
    MergedExactlyOnce(c, states[a], id);
    MergedExactlyOnce(c, states[b], id);
    assert SessionNext(states[a], id) == LogNext(states[a], id) by { RecalledIsTheLogs(c, states[a], id); }
    var before, now := Current(states[a].members[id]), Current(states[b].members[id]);
    AcceptedOfLonger(before, now, LogNext(states[a], id), c.mtu);
    if LogNext(states[b], id) <= LogNext(states[a], id) {
      AcceptedGrows(now, LogNext(states[b], id), LogNext(states[a], id), c.mtu);
    }
  }

  lemma RecalledIsTheLogs(c: Config, s: System, id: MemberId)
    requires Inv(c, s) && s.host.Up? && id !in s.broken && !Attached(s.host.session.slots, id)
    requires Recalled(s.topic, s.host.session, id)
    ensures SessionNext(s, id) == LogNext(s, id)
  {
    hide Scan, Named, MuxTrail.Trail, MuxTrail.TrailNext;
    assert Settled(c, s, id);
  }

  // ---------------- a member reset in place ----------------

  /** A member whose log was replaced under the same name and epoch is noticed at its next attach if
      and only if the wanted index is above the new log's head or below its floor; otherwise the new
      log is read on from there, without a marker. */
  lemma ResetIsNoticed(c: Config, s: System, id: MemberId, log: seq<MemberRecord>, floor: nat)
    requires Shape(s) && s.host.Up? && Enabled(c, s, Attach(id)) && Enabled(c, s, MemberReset(id, log, floor))
    ensures var reset := Apply(c, s, MemberReset(id, log, floor));
            && Shape(reset) && Enabled(c, reset, Attach(id))
            && var ses := Apply(c, reset, Attach(id)).host.session;
            && (ses.phase.MarkDue? <==> |log| < SessionNext(s, id) || SessionNext(s, id) < floor)
            && (!ses.phase.MarkDue? ==>
                  ses.phase.Idle? && ses.slots[|ses.slots| - 1]
                      == Slot(s.host.session.nextRef, id, SessionNext(s, id), SessionNext(s, id), 0))
  {
    hide Scan, Named;
  }
}
