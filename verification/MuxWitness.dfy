/** The states behind the multiplexer's pitfalls are not hypothetical: runs from an empty topic to
    each of them. */
module MuxWitness {
  import opened ChannelLog
  import opened TopicRecords
  import opened MuxMachine
  import opened MuxTrail
  import opened MuxInvariant
  import opened MuxTheorems
  import opened MuxEngine
  import opened MuxPitfalls
  import opened MuxTorn
  import opened MuxFailedCommit

  /** An empty topic and one member, its log there already. */
  ghost function Start(id: MemberId, log: seq<MemberRecord>, earliest: nat): System {
    System(Fresh(0, 0), map[id := Member([log], earliest)], Down, {})
  }

  /** The member attached in a first session, from its first record on. */
  lemma FirstAttach(c: Config, id: MemberId, log: seq<MemberRecord>) returns (s: System)
    ensures Initial(Start(id, log, 0)) && Leads(c, Start(id, log, 0), [Open, Attach(id)], s) && Inv(c, s)
    ensures s.host.Up? && s.host.session.slots == [Slot(0, id, 0, 0, 0)] && s.host.session.recovered == map[]
    ensures s.host.session.phase.Idle? && !s.host.session.finished && s.host.session.nextRef == 1
    ensures s.members == Start(id, log, 0).members && s.broken == {}
    ensures s.topic.records == [SlotTable(EntriesOf([Slot(0, id, 0, 0, 0)]))] && !(id in s.host.session.removed)
  {
    hide Leads;
    var s0 := Start(id, log, 0);
    InitialEstablishesInv(c, s0);
    LeadsNowhere(c, s0);
    LeadsFurther(c, s0, [], s0, Open);
    var up := Apply(c, s0, Open);
    assert up.host.session == NewSession(s0.topic) && up.host.session.recovered == map[];
    LeadsFurther(c, s0, [] + [Open], up, Attach(id));
    s := Apply(c, up, Attach(id));
    assert [] + [Open] + [Attach(id)] == [Open, Attach(id)];
    assert Recalled(up.topic, up.host.session, id);
  }

  /** ... and its first record merged. */
  lemma FirstMerge(c: Config, id: MemberId, r: MemberRecord, more: seq<MemberRecord>) returns (s: System)
    requires Acceptable(r, c.mtu)
    ensures Leads(c, Start(id, [r] + more, 0), [Open, Attach(id), Merge(0)], s) && Inv(c, s)
    ensures s.host.Up? && s.host.session.slots == [Slot(0, id, 1, 1, 0)] && s.host.session.recovered == map[]
    ensures s.host.session.phase.Idle? && !s.host.session.finished && s.host.session.nextRef == 1
    ensures s.members == Start(id, [r] + more, 0).members && s.broken == {}
    ensures TrailNext(s.topic.records, id) == 1
  {
    hide Leads, Scan, Named;
    var a := FirstAttach(c, id, [r] + more);
    LeadsFurther(c, Start(id, [r] + more, 0), [Open, Attach(id)], a, Merge(0));
    s := Apply(c, a, Merge(0));
    assert [Open, Attach(id)] + [Merge(0)] == [Open, Attach(id), Merge(0)];
    assert SlotOK(a, a.host.session, 0);
    TrailAppend(WorldOf(c, a), a.topic.records, Data(0, 0, r), id);
    assert s.topic.records == a.topic.records + [Data(0, 0, r)];
  }

  /** A member merged, removed and about to be attached again in the same session. */
  lemma StaleCursorIsReachable(c: Config, id: MemberId, r: MemberRecord) returns (states: seq<System>, steps: seq<Step>)
    requires Acceptable(r, c.mtu)
    ensures Run(c, states, steps) && Initial(states[0])
    ensures var s := states[|steps|];
            && Inv(c, s) && id !in s.broken && Enabled(c, s, Attach(id)) && Undisturbed(s, id)
            && SessionNext(s, id) < LogNext(s, id) && SessionNext(s, id) < |Current(s.members[id])|
            && Acceptable(Current(s.members[id])[SessionNext(s, id)], c.mtu)
  {
    hide Leads, Scan, Named, Run, Apply, Enabled, Inv, Initial;
    var s0, s := MergedAndRemoved(c, id, r);
    steps := [Open, Attach(id), Merge(0), Close(0), CloseTable];
    states := LeadsIsARun(c, s0, steps, s);
    RunIsLong(c, states, steps);
  }

  lemma MergedAndRemoved(c: Config, id: MemberId, r: MemberRecord) returns (s0: System, s: System)
    requires Acceptable(r, c.mtu)
    ensures Initial(s0) && Leads(c, s0, [Open, Attach(id), Merge(0), Close(0), CloseTable], s)
    ensures Inv(c, s) && id !in s.broken && Enabled(c, s, Attach(id)) && Undisturbed(s, id)
    ensures SessionNext(s, id) == 0 < LogNext(s, id) && Current(s.members[id]) == [r]
  {
    hide Leads, Scan, Named, Settled, SegmentsOpenWell, SlotOK, Inv, TrailNext;
    s0 := Start(id, [r] + [], 0);
    var m := FirstMerge(c, id, r, []);
    MergedIsLogged(c, m, id);
    s := OnlySlotRemoved(c, m);
    LeadsOn(c, s0, [Open, Attach(id), Merge(0)], m, [Close(0), CloseTable], s);
    assert [Open, Attach(id), Merge(0)] + [Close(0), CloseTable] == [Open, Attach(id), Merge(0), Close(0), CloseTable];
  }

  /** Closing the only slot of a session leaves everything else as it was. */
  lemma OnlySlotRemoved(c: Config, m: System) returns (s: System)
    requires Inv(c, m) && m.host.Up? && |m.host.session.slots| == 1 && m.host.session.phase.Idle?
    requires !m.host.session.finished && m.host.session.slots[0].id !in m.broken
    ensures Leads(c, m, [Close(0), CloseTable], s) && Inv(c, s) && s.members == m.members && s.broken == m.broken
    ensures s.host.Up? && s.host.session.slots == [] && s.host.session.phase.Idle? && !s.host.session.finished
    ensures s.host.session.recovered == m.host.session.recovered && s.host.session.nextRef == m.host.session.nextRef
    ensures LogNext(m, m.host.session.slots[0].id) <= LogNext(s, m.host.session.slots[0].id)
  {
    hide Leads, Scan, Named, Settled, SegmentsOpenWell, SlotOK, TrailNext;
    var closed := Apply(c, m, Close(0));
    LeadsNowhere(c, m);
    LeadsFurther(c, m, [], m, Close(0));
    LeadsFurther(c, m, [] + [Close(0)], closed, CloseTable);
    s := Apply(c, closed, CloseTable);
    assert [] + [Close(0)] + [CloseTable] == [Close(0), CloseTable];
    RemovalLeavesTheCursorStale(c, m, 0);
  }

  lemma MergedIsLogged(c: Config, m: System, id: MemberId)
    requires Inv(c, m) && id !in m.broken && m.host.Up? && m.host.session.phase.Idle?
    ensures TrailNext(m.topic.records, id) <= LogNext(m, id)
  {
    hide Trail, TrailNext, Scan, Named;
    assert Settled(c, m, id);
  }

  lemma RunIsLong(c: Config, states: seq<System>, steps: seq<Step>)
    requires Run(c, states, steps)
    ensures |states| == |steps| + 1
  {
  }

  /** A member whose first record is pruned before its first attach. */
  lemma TornGapIsReachable(c: Config, id: MemberId, r: MemberRecord) returns (states: seq<System>, steps: seq<Step>)
    requires Acceptable(r, c.mtu)
    ensures Run(c, states, steps) && Initial(states[0])
    ensures var s := states[|steps|];
            && Inv(c, s) && id !in s.broken && Enabled(c, s, Attach(id)) && Recalled(s.topic, s.host.session, id)
            && SessionNext(s, id) < s.members[id].earliest
            && Acceptable((Current(s.members[id]) + [r])[ResumePoint(s, id)], c.mtu)
            && !AllRejected(WorldOf(c, s), id, TrailNext(s.topic.records, id), s.members[id].earliest)
  {
    hide Leads, Run;
    var s0 := Start(id, [r], 1);
    InitialEstablishesInv(c, s0);
    LeadsNowhere(c, s0);
    LeadsFurther(c, s0, [], s0, Open);
    var s := Apply(c, s0, Open);
    steps := [] + [Open];
    assert s.host.session.recovered == map[];
    assert !RejectedAt(WorldOf(c, s), id, 0);
    states := LeadsIsARun(c, s0, steps, s);
    RunIsLong(c, states, steps);
  }

  /** A member reset to an empty log after a record of it was merged. */
  lemma TornRegressionIsReachable(c: Config, id: MemberId, r: MemberRecord)
    returns (states: seq<System>, steps: seq<Step>)
    requires Acceptable(r, c.mtu)
    ensures Run(c, states, steps) && Initial(states[0])
    ensures var s := states[|steps|];
            && Inv(c, s) && id !in s.broken && Enabled(c, s, Attach(id)) && Recalled(s.topic, s.host.session, id)
            && |Current(s.members[id])| < SessionNext(s, id)
            && Acceptable((Current(s.members[id]) + [r])[ResumePoint(s, id)], c.mtu)
            && |Current(s.members[id])| < TrailNext(s.topic.records, id)
  {
    hide Leads, Run, Scan, Apply, Enabled, Inv, Initial, Recalled;
    var s0, s := MergedAndReset(c, id, r);
    steps := [Open, Attach(id), Merge(0), Crash, MemberReset(id, [], 0), Open];
    states := LeadsIsARun(c, s0, steps, s);
    RunIsLong(c, states, steps);
  }

  lemma MergedAndReset(c: Config, id: MemberId, r: MemberRecord) returns (s0: System, s: System)
    requires Acceptable(r, c.mtu)
    ensures Initial(s0) && Leads(c, s0, [Open, Attach(id), Merge(0), Crash, MemberReset(id, [], 0), Open], s)
    ensures Inv(c, s) && id !in s.broken && Enabled(c, s, Attach(id)) && Recalled(s.topic, s.host.session, id)
    ensures Current(s.members[id]) == [] && s.members[id].earliest == 0
    ensures TrailNext(s.topic.records, id) == 1 <= SessionNext(s, id)
  {
    hide Leads, Scan, Named, Settled, SegmentsOpenWell, SlotOK, TrailNext, Recalled;
    s0 := Start(id, [r] + [], 0);
    var first := [Open, Attach(id), Merge(0)];
    var m := FirstMerge(c, id, r, []);
    LeadsFurther(c, s0, first, m, Crash);
    var down := Apply(c, m, Crash);
    LeadsFurther(c, s0, first + [Crash], down, MemberReset(id, [], 0));
    var reset := Apply(c, down, MemberReset(id, [], 0));
    LeadsFurther(c, s0, first + [Crash] + [MemberReset(id, [], 0)], reset, Open);
    s := Apply(c, reset, Open);
    assert first + [Crash] + [MemberReset(id, [], 0)] + [Open]
        == [Open, Attach(id), Merge(0), Crash, MemberReset(id, [], 0), Open];
    assert m.host.session.slots[0].id == id;
    RecalledAtOpen(c, m, s, id);
  }

  /** A member attached when its session died is recalled by the next one, where its trail stands or
      beyond. */
  lemma RecalledAtOpen(c: Config, m: System, s: System, id: MemberId)
    requires Inv(c, m) && m.host.Up? && Attached(m.host.session.slots, id) && !m.host.session.phase.TableDue?
    requires Inv(c, s) && s.topic == m.topic && s.host == Up(NewSession(s.topic)) && id !in s.broken
    ensures Recalled(s.topic, s.host.session, id) && TrailNext(s.topic.records, id) <= SessionNext(s, id)
  {
    hide Trail, TrailNext, Scan;
    var k :| 0 <= k < |m.host.session.slots| && m.host.session.slots[k].id == id;
    assert SlotOK(m, m.host.session, k);
    NamedFurtherBack(m.topic.records, Earliest(m.topic), TableHome(m.topic, m.host.session.phase), id);
    assert s.topic.records[s.host.session.openFrom..s.host.session.openLen] == m.topic.records[Earliest(m.topic)..];
    assert Settled(c, s, id);
  }

  /** A member with two records, the commit of the first about to fail. */
  lemma FailedCommitIsReachable(c: Config, id: MemberId, r: MemberRecord)
    returns (states: seq<System>, steps: seq<Step>)
    requires Acceptable(r, c.mtu)
    ensures Run(c, states, steps) && Initial(states[0])
    ensures var s := states[|steps|];
            && Shape(s) && Enabled(c, s, Merge(0))
            && var f := CommitFailed(s, 0); Skipping(c, f, s, 0, id, 0) && Shape(f) && Enabled(c, f, Merge(0))
  {
    hide Leads, Run, Scan, Named;
    var s0 := Start(id, [r, r], 0);
    var s := FirstAttach(c, id, [r, r]);
    steps := [Open, Attach(id)];
    FailureDrifts(c, s, 0);
    states := LeadsIsARun(c, s0, steps, s);
    RunIsLong(c, states, steps);
  }
}
