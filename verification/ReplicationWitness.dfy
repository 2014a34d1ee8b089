/** The states outside the guards are not hypothetical: runs from a channel just registered to each
    of them, and to a replica that is stuck. */
module ReplicationWitness {
  import opened Identity
  import opened ChannelLog
  import opened TopicRecords
  import opened Replication
  import opened ReplicationMachine
  import opened ReplicationMirror
  import opened ReplicationProgress

  ghost function Start(): (s: System) {
    System(map[0 := Fresh(0, 0)], 0, None, Idle)
  }

  lemma StartIsInitial(c: Config)
    ensures Initial(c, Start()) && MirrorInv(c, Start()) && Sound(Start()) && Leads(c, Start(), [], Start())
  {
  }

  /** One more orderly step. */
  lemma Go(c: Config, steps: seq<Step>, s: System, step: Step) returns (s': System)
    requires MirrorInv(c, s) && Leads(c, Start(), steps, s) && Enabled(s, step) && Orderly(c, s, step)
    ensures s' == Apply(c, s, step) && MirrorInv(c, s') && Sound(s') && Leads(c, Start(), steps + [step], s')
  {
    hide MirrorInv, Leads, Apply, Enabled, StreamOK, Orderly;
    MirrorHasInv(c, s);
    s' := Apply(c, s, step);
    StepKeepsMirror(c, s, step);
    MirrorHasInv(c, s');
    assert [step] + [] == [step];
    LeadsNowhere(c, s');
    LeadsByOne(c, s, step, [], s');
    LeadsOn(c, Start(), steps, s, [step] + [], s');
  }

  /** The log of the first incarnation after one record, rolled or not. */
  function One(r: MemberRecord, starts: seq<nat>, first: nat): Log {
    Channel(0, 0, [r], starts, first)
  }

  lemma Rewritten(a: Log, b: Log)
    ensures map[0 := a][0 := b] == map[0 := b]
  {
  }

  /** One record at the origin, and an accepted subscription from scratch. */
  lemma OneRecordServed(c: Config, r: MemberRecord) returns (steps: seq<Step>, s: System)
    ensures Leads(c, Start(), steps, s) && MirrorInv(c, s) && Sound(s)
    ensures s == System(map[0 := One(r, [0], 0)], 0, None, Streaming(0, 0, false, Cursor(0, 0), [], false))
  {
    hide MirrorInv, Leads;
    StartIsInitial(c);
    s := Go(c, [], Start(), Write(0, r));
    Rewritten(Fresh(0, 0), One(r, [0], 0));
    assert Append(Fresh(0, 0), r) == One(r, [0], 0);
    assert s == System(map[0 := One(r, [0], 0)], 0, None, Idle);
    s := Go(c, [] + [Write(0, r)], s, Ask(true));
    s := Go(c, [] + [Write(0, r)] + [Ask(true)], s, Serve);
    steps := [] + [Write(0, r)] + [Ask(true)] + [Serve];
  }

  lemma OneRecordSent(c: Config, r: MemberRecord) returns (steps: seq<Step>, s: System)
    ensures Leads(c, Start(), steps, s) && MirrorInv(c, s) && Sound(s)
    ensures s == System(map[0 := One(r, [0], 0)], 0, Some(Replica(c.name, Fresh(0, 0))),
                        Streaming(0, 0, false, Cursor(1, 0), [Frame(0, false, r)], true))
  {
    hide MirrorInv, Leads;
    steps, s := OneRecordServed(c, r);
    s := Go(c, steps, s, Open);
    assert s.disk == Some(Replica(c.name, Fresh(0, 0))) && s.conn == Streaming(0, 0, false, Cursor(0, 0), [], true);
    s := Go(c, steps + [Open], s, Send);
    assert s.conn.wire == [Frame(0, false, r)];
    steps := steps + [Open] + [Send];
  }

  /** The record replicated; the stream is still open. */
  lemma OneRecordReplicated(c: Config, r: MemberRecord) returns (steps: seq<Step>, s: System)
    ensures Leads(c, Start(), steps, s) && MirrorInv(c, s) && Sound(s)
    ensures s == System(map[0 := One(r, [0], 0)], 0, Some(Replica(c.name, One(r, [0], 0))),
                        Streaming(0, 0, false, Cursor(1, 0), [], true))
  {
    hide MirrorInv, Leads;
    steps, s := OneRecordSent(c, r);
    assert Extended(Fresh(0, 0), Frame(0, false, r), c.keep) == One(r, [0], 0);
    s := Go(c, steps, s, Deliver(false));
    steps := steps + [Deliver(false)];
  }

  /** The origin rolls and prunes while the subscriber is away. */
  lemma RolledWhileAway(c: Config, r: MemberRecord) returns (steps: seq<Step>, s: System)
    ensures Leads(c, Start(), steps, s) && MirrorInv(c, s) && Sound(s)
    ensures s == System(map[0 := One(r, [0, 1], 1)], 0, Some(Replica(c.name, One(r, [0], 0))), Idle)
  {
    hide MirrorInv, Leads;
    steps, s := OneRecordReplicated(c, r);
    s := Go(c, steps, s, Drop);
    s := Go(c, steps + [Drop], s, RollOrigin(0, 1));
    Rewritten(One(r, [0], 0), One(r, [0, 1], 1));
    assert Roll(One(r, [0], 0), 1) == One(r, [0, 1], 1);
    steps := steps + [Drop] + [RollOrigin(0, 1)];
  }

  /** Outside the guard of resumes: the subscriber asks for the record behind that roll. */
  lemma BlindResumeIsReachable(c: Config, r: MemberRecord) returns (states: seq<System>, steps: seq<Step>)
    ensures Run(c, states, steps) && Initial(c, states[0])
    ensures var s := states[|steps|]; MirrorInv(c, s) && s.conn.Asked? && !ResumesWell(c, s)
  {
    hide MirrorInv, Leads, Run, Initial;
    var s;
    steps, s := RolledWhileAway(c, r);
    s := Go(c, steps, s, Ask(true));
    assert Served(s.logs[0], 1, 0) == Streaming(0, 1, false, Cursor(1, 1), [], false);
    steps := steps + [Ask(true)];
    StartIsInitial(c);
    states := LeadsIsARun(c, Start(), steps, s);
    RunHasStates(c, states, steps);
  }

  /** Outside the guard of empty polls: the origin rolls and the source polls before it writes. */
  lemma EmptyPollIsReachable(c: Config, r: MemberRecord) returns (states: seq<System>, steps: seq<Step>)
    ensures Run(c, states, steps) && Initial(c, states[0])
    ensures var s := states[|steps|];
            && MirrorInv(c, s) && Enabled(s, Peek) && !PollsWell(c, s)
            && s.conn.open && s.conn.wire == [] && Head(s.disk.value.log) == s.conn.reader.next
  {
    hide MirrorInv, Leads;
    var s;
    steps, s := OneRecordReplicated(c, r);
    s := Go(c, steps, s, RollOrigin(0, 0));
    assert s.logs[0] == One(r, [0, 1], 0);
    steps := steps + [RollOrigin(0, 0)];
    StartIsInitial(c);
    states := LeadsIsARun(c, Start(), steps, s);
  }

  /** A replica created before there is a record. */
  lemma EmptyReplicaCreated(c: Config) returns (steps: seq<Step>, s: System)
    ensures Leads(c, Start(), steps, s) && MirrorInv(c, s) && Sound(s)
    ensures s == System(map[0 := Fresh(0, 0)], 0, Some(Replica(c.name, Fresh(0, 0))), Idle)
  {
    hide MirrorInv, Leads;
    StartIsInitial(c);
    s := Go(c, [], Start(), Ask(true));
    s := Go(c, [] + [Ask(true)], s, Serve);
    assert s.conn == Streaming(0, 0, false, Cursor(0, 0), [], false);
    s := Go(c, [] + [Ask(true)] + [Serve], s, Open);
    steps := [] + [Ask(true)] + [Serve] + [Open];
    s := Go(c, steps, s, Drop);
    steps := steps + [Drop];
  }

  /** ... whose origin prunes its first record before the subscriber is back. */
  lemma FirstRecordPruned(c: Config, r: MemberRecord) returns (steps: seq<Step>, s: System)
    ensures Leads(c, Start(), steps, s) && MirrorInv(c, s) && Sound(s)
    ensures s == System(map[0 := One(r, [0, 1], 1)], 0, Some(Replica(c.name, Fresh(0, 0))), Idle)
  {
    hide MirrorInv, Leads;
    steps, s := EmptyReplicaCreated(c);
    s := Go(c, steps, s, Write(0, r));
    Rewritten(Fresh(0, 0), One(r, [0], 0));
    assert Append(Fresh(0, 0), r) == One(r, [0], 0);
    assert s == System(map[0 := One(r, [0], 0)], 0, Some(Replica(c.name, Fresh(0, 0))), Idle);
    s := Go(c, steps + [Write(0, r)], s, RollOrigin(0, 1));
    Rewritten(One(r, [0], 0), One(r, [0, 1], 1));
    assert Roll(One(r, [0], 0), 1) == One(r, [0, 1], 1);
    steps := steps + [Write(0, r)] + [RollOrigin(0, 1)];
  }

  /** ... or whose name is reclaimed first; the new incarnation has all its records. */
  lemma NameReclaimed(c: Config) returns (steps: seq<Step>, s: System)
    ensures Leads(c, Start(), steps, s) && MirrorInv(c, s) && Sound(s)
    ensures s.current == 1 && 1 in s.logs && s.logs[1] == Fresh(1, 0)
    ensures s.disk == Some(Replica(c.name, Fresh(0, 0))) && s.conn.Idle?
  {
    hide MirrorInv, Leads;
    steps, s := EmptyReplicaCreated(c);
    s := Go(c, steps, s, Reclaim(1));
    steps := steps + [Reclaim(1)];
  }

  /** Either way the replica is stuck. */
  lemma StuckIsReachable(c: Config, r: MemberRecord, reclaimed: bool)
    returns (states: seq<System>, steps: seq<Step>)
    ensures Run(c, states, steps) && Initial(c, states[0]) && Stuck(c, states[|steps|])
    ensures var s := states[|steps|]; reclaimed <==> Earliest(s.logs[s.current]) == 0
  {
    hide MirrorInv, Leads, Run, Initial, Inv;
    var s;
    if reclaimed { steps, s := NameReclaimed(c); } else { steps, s := FirstRecordPruned(c, r); }
    MirrorHasInv(c, s);
    assert !Promising(c, s);
    StartIsInitial(c);
    states := LeadsIsARun(c, Start(), steps, s);
    assert |states| == |steps| + 1 by { RunHasStates(c, states, steps); }
  }

  lemma RunHasStates(c: Config, states: seq<System>, steps: seq<Step>)
    requires Run(c, states, steps)
    ensures |states| == |steps| + 1
  {
  }
}
