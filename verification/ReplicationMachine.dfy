/** One subscription over its whole life: the origin appends, rolls, prunes and is reclaimed;
    the subscriber asks, opens, applies, loses its connection, crashes and rebuilds. */
module ReplicationMachine {
  import opened Bytes
  import opened Identity
  import opened ChannelLog
  import opened TopicRecords
  import opened Replication

  /** The channel subscribed to and the retention the origin advertises. */
  datatype Config = Config(name: Text, keep: nat)

  /** The subscriber's one connection. `wire` holds frames sent and not yet applied; `seam` says
      the origin's reader stands in front of any roll at `start`, so it will report one. */
  datatype Conn =
    | Idle
    | Asked(from: nat, generation: nat)
    | Refused
    | Streaming(generation: nat, start: nat, seam: bool, reader: Cursor, wire: seq<Frame>, open: bool)

  /** Every incarnation the name ever had, by generation; the replica's files; the connection. */
  datatype System = System(logs: map<nat, Log>, current: nat, disk: Option<Replica>, conn: Conn)

  datatype Step =
    | Write(generation: nat, record: MemberRecord)
    | RollOrigin(generation: nat, keep: nat)
    | Reclaim(generation: nat)
    | Ask(visible: bool)     // `visible`: the replica's position could be read
    | Serve
    | Send
    | Peek                   // an empty poll follows a roll into a still empty segment
    | Open
    | Deliver(rolls: bool)   // `rolls`: the replica's own size limit rolls it first
    | TornDeliver            // the subscriber dies between the roll and the record
    | Rebuild
    | Drop

  function Position(disk: Option<Replica>, visible: bool): Conn {
    if disk.Some? && visible then Asked(Head(disk.value.log), disk.value.log.generation) else Asked(0, 0)
  }

  ghost predicate LogsOK(s: System) {
    && s.current in s.logs
    && forall g :: g in s.logs ==> Valid(s.logs[g]) && s.logs[g].generation == g
  }

  ghost predicate Sound(s: System) {
    && LogsOK(s)
    && (s.disk.Some? ==> Valid(s.disk.value.log))
    && (s.conn.Streaming? ==> s.conn.generation in s.logs && (s.conn.open ==> s.disk.Some?))
  }

  ghost predicate Enabled(s: System, step: Step)
    requires Sound(s)
  {
    match step
    case Write(g, _) => g in s.logs
    case RollOrigin(g, _) => g in s.logs
    case Reclaim(g) => g !in s.logs
    case Ask(_) => s.conn.Idle?
    case Serve => s.conn.Asked?
    case Send => s.conn.Streaming? && Readable(s.logs[s.conn.generation], s.conn.reader)
    case Peek => s.conn.Streaming? && s.conn.reader.next == Head(s.logs[s.conn.generation])
    case Open => s.conn.Streaming? && !s.conn.open
    case Deliver(_) => s.conn.Streaming? && s.conn.open && |s.conn.wire| > 0
    case TornDeliver =>
      && s.conn.Streaming? && s.conn.open && |s.conn.wire| > 0
      && s.conn.wire[0].index == Head(s.disk.value.log) && s.conn.wire[0].startsSegment
    case Rebuild => s.conn.Refused?
    case Drop => true
  }

  function Served(log: Log, from: nat, generation: nat): Conn
    requires Valid(log)
  {
    match Answer(log, from, generation)
    case Accepted(start, _, g, reader) =>
      Streaming(g, start, start > Earliest(log) || SegmentOf(log.starts, start) != log.first, reader, [], false)
    case Gapped(_) => Refused
    case Diverged(_, _) => Refused
  }

  /** A poll that finds no record but may follow a roll: the reader ends in the newest segment,
      and a roll at `start` that it crossed this way is behind it for good. */
  function Peeked(conn: Conn, log: Log): Conn
    requires conn.Streaming? && Valid(log)
  {
    var last := |log.starts| - 1;
    conn.(reader := conn.reader.(segment := last),
          seam := conn.seam && (conn.reader.next != conn.start || conn.reader.segment == last))
  }

  function Delivered(c: Config, s: System, rolls: bool): System
    requires s.conn.Streaming? && |s.conn.wire| > 0 && s.disk.Some?
    requires Valid(s.disk.value.log)
  {
    var frame, log := s.conn.wire[0], s.disk.value.log;
    if frame.index != Head(log) then s.(conn := Idle)
    else
      var ready := if rolls then Roll(log, c.keep) else log;
      s.(disk := Some(s.disk.value.(log := Extended(ready, frame, c.keep))), conn := s.conn.(wire := s.conn.wire[1..]))
  }

  ghost function Apply(c: Config, s: System, step: Step): System
    requires Sound(s) && Enabled(s, step)
  {
    match step
    case Write(g, r) => s.(logs := s.logs[g := Append(s.logs[g], r)])
    case RollOrigin(g, keep) => s.(logs := s.logs[g := Roll(s.logs[g], keep)])
    case Reclaim(g) => s.(logs := s.logs[g := Fresh(g, 0)], current := g)
    case Ask(visible) => s.(conn := Position(s.disk, visible))
    case Serve => s.(conn := Served(s.logs[s.current], s.conn.from, s.conn.generation))
    case Send =>
      var log := s.logs[s.conn.generation];
      s.(conn := s.conn.(reader := Read(log, s.conn.reader), wire := s.conn.wire + [FrameAt(log, s.conn.reader)]))
    case Peek => s.(conn := Peeked(s.conn, s.logs[s.conn.generation]))
    case Open =>
      var after := Opened(s.disk, c.name, s.conn.generation, s.conn.start);
      var fits := Extendable(after, c.name, s.conn.generation);
      s.(disk := Some(after), conn := if fits then s.conn.(open := true) else Idle)
    case Deliver(rolls) => Delivered(c, s, rolls)
    case TornDeliver => s.(disk := Some(s.disk.value.(log := Roll(s.disk.value.log, c.keep))), conn := Idle)
    case Rebuild => s.(disk := None, conn := Idle)
    case Drop => s.(conn := Idle)
  }

  /** A channel just registered; the replica directory is empty or holds another channel. */
  ghost predicate Initial(c: Config, s: System) {
    && s.logs == map[s.current := Fresh(s.current, 0)]
    && (s.disk.Some? ==> Valid(s.disk.value.log) && s.disk.value.name != c.name)
    && s.conn.Idle?
  }

  ghost predicate Run(c: Config, states: seq<System>, steps: seq<Step>) {
    && |states| == |steps| + 1
    && forall k :: 0 <= k < |steps| ==>
         Sound(states[k]) && Enabled(states[k], steps[k]) && states[k + 1] == Apply(c, states[k], steps[k])
  }

  /** Taking `steps` from `s` is possible and ends in `end`. */
  ghost predicate Leads(c: Config, s: System, steps: seq<Step>, end: System)
    decreases |steps|
  {
    if steps == [] then s == end
    else Sound(s) && Enabled(s, steps[0]) && Leads(c, Apply(c, s, steps[0]), steps[1..], end)
  }

  lemma LeadsNowhere(c: Config, s: System)
    ensures Leads(c, s, [], s)
  {
  }

  lemma {:induction false} LeadsOn(c: Config, s: System, steps: seq<Step>, mid: System, more: seq<Step>, end: System)
    requires Leads(c, s, steps, mid) && Leads(c, mid, more, end)
    ensures Leads(c, s, steps + more, end)
    decreases |steps|
  {
    hide Apply, Enabled, Sound;
    if steps == [] {
      assert steps + more == more;
    } else {
      LeadsOn(c, Apply(c, s, steps[0]), steps[1..], mid, more, end);
      assert (steps + more)[1..] == steps[1..] + more;
    }
  }

  lemma LeadsByOne(c: Config, s: System, step: Step, rest: seq<Step>, end: System)
    requires Sound(s) && Enabled(s, step) && Leads(c, Apply(c, s, step), rest, end)
    ensures Leads(c, s, [step] + rest, end)
  {
    assert ([step] + rest)[1..] == rest;
  }

  /** Steps that lead from a first state are a run from it. */
  lemma {:induction false} LeadsIsARun(c: Config, s: System, steps: seq<Step>, end: System)
    returns (states: seq<System>)
    requires Leads(c, s, steps, end)
    ensures Run(c, states, steps) && states[0] == s && states[|steps|] == end
    decreases |steps|
  {
    hide Apply, Enabled, Sound;
    if steps == [] {
      states := [s];
    } else {
      var rest := LeadsIsARun(c, Apply(c, s, steps[0]), steps[1..], end);
      states := [s] + rest;
      forall k | 0 <= k < |steps|
        ensures Sound(states[k]) && Enabled(states[k], steps[k]) && states[k + 1] == Apply(c, states[k], steps[k])
      {
        if k > 0 { assert states[k] == rest[k - 1] && steps[k] == steps[1..][k - 1]; }
      }
    }
  }

  // ---------------- what every step keeps ----------------

  /** `r` agrees with `log` wherever it has anything. */
  ghost predicate Agrees(r: Log, log: Log) {
    && log.base <= r.base && Head(r) <= Head(log)
    && forall i :: r.base <= i < Head(r) ==> At(r, i) == At(log, i)
  }

  ghost predicate DiskOK(c: Config, s: System) {
    s.disk.Some? && s.disk.value.name == c.name ==>
      var r := s.disk.value.log; r.generation in s.logs && Agrees(r, s.logs[r.generation])
  }

  /** The frames in flight are the log's records, in order, up to the reader. */
  ghost predicate WireOK(conn: Conn, log: Log)
    requires conn.Streaming?
  {
    && log.base <= conn.start && conn.start + |conn.wire| <= conn.reader.next <= Head(log)
    && forall k :: 0 <= k < |conn.wire| ==>
         var i := conn.reader.next - |conn.wire| + k;
         conn.wire[k].index == i && conn.wire[k].record == At(log, i)
  }

  ghost predicate ConnOK(c: Config, s: System)
    requires Sound(s)
  {
    s.conn.Streaming? ==>
      && WireOK(s.conn, s.logs[s.conn.generation])
      && (s.conn.open ==> Extendable(s.disk.value, c.name, s.conn.generation))
  }

  ghost predicate Inv(c: Config, s: System) {
    Sound(s) && DiskOK(c, s) && ConnOK(c, s)
  }

  /** A log that only gained records still agrees with everything it agreed with. */
  ghost predicate Extends(log: Log, later: Log) {
    && later.generation == log.generation && later.base == log.base && Valid(later)
    && log.records <= later.records
  }

  lemma GrownOriginKeepsInv(c: Config, s: System, g: nat, later: Log)
    requires Inv(c, s) && g in s.logs && Extends(s.logs[g], later)
    ensures Inv(c, s.(logs := s.logs[g := later]))
  {
    hide Agrees, WireOK, Valid;
    var s' := s.(logs := s.logs[g := later]);
    if s.disk.Some? && s.disk.value.name == c.name {
      AgreesWithMore(s.disk.value.log, s.logs[s.disk.value.log.generation], s'.logs[s.disk.value.log.generation]);
    }
    if s.conn.Streaming? {
      WireWithMore(s.conn, s.logs[s.conn.generation], s'.logs[s.conn.generation]);
    }
  }

  lemma WireWithMore(conn: Conn, log: Log, later: Log)
    requires conn.Streaming? && WireOK(conn, log) && (later == log || Extends(log, later))
    ensures WireOK(conn, later)
  {
  }

  lemma AgreesWithMore(r: Log, log: Log, later: Log)
    requires Agrees(r, log) && (later == log || Extends(log, later))
    ensures Agrees(r, later)
  {
  }

  lemma ServeKeepsInv(c: Config, s: System)
    requires Inv(c, s) && Enabled(s, Serve)
    ensures Inv(c, Apply(c, s, Serve))
  {
  }

  lemma SendKeepsInv(c: Config, s: System)
    requires Inv(c, s) && Enabled(s, Send)
    ensures Inv(c, Apply(c, s, Send))
  {
  }

  lemma ExtendedAgrees(r: Log, log: Log, frame: Frame, keep: nat)
    requires Valid(r) && Agrees(r, log) && frame.index == Head(r) < Head(log) && frame.record == At(log, frame.index)
    ensures Agrees(Extended(r, frame, keep), log) && Head(Extended(r, frame, keep)) == Head(r) + 1
    ensures Extended(r, frame, keep).generation == r.generation && Extended(r, frame, keep).base == r.base
    ensures Valid(Extended(r, frame, keep))
  {
  }

  lemma DeliverKeepsInv(c: Config, s: System, rolls: bool)
    requires Inv(c, s) && Enabled(s, Deliver(rolls))
    ensures Inv(c, Apply(c, s, Deliver(rolls)))
  {
    hide Extended, Roll;
    var s', r, frame := Apply(c, s, Deliver(rolls)), s.disk.value.log, s.conn.wire[0];
    if frame.index == Head(r) {
      var log := s.logs[s.conn.generation];
      var ready := if rolls then Roll(r, c.keep) else r;
      assert Agrees(ready, log) && Head(ready) == Head(r) && ready.generation == r.generation by {
        RollAgrees(r, log, c.keep);
      }
      ExtendedAgrees(ready, log, frame, c.keep);
      forall k | 0 <= k < |s'.conn.wire|
        ensures var i := s'.conn.reader.next - |s'.conn.wire| + k;
                s'.conn.wire[k].index == i && s'.conn.wire[k].record == At(log, i)
      {
        assert s'.conn.wire[k] == s.conn.wire[k + 1];
      }
    }
  }

  lemma RollAgrees(r: Log, log: Log, keep: nat)
    requires Valid(r) && Agrees(r, log)
    ensures Agrees(Roll(r, keep), log) && Head(Roll(r, keep)) == Head(r) && Roll(r, keep).generation == r.generation
  {
  }

  lemma TornDeliverKeepsInv(c: Config, s: System)
    requires Inv(c, s) && Enabled(s, TornDeliver)
    ensures Inv(c, Apply(c, s, TornDeliver))
  {
  }

  lemma OpenKeepsInv(c: Config, s: System)
    requires Inv(c, s) && Enabled(s, Open)
    ensures Inv(c, Apply(c, s, Open))
  {
  }

  lemma PeekKeepsInv(c: Config, s: System)
    requires Inv(c, s) && Enabled(s, Peek)
    ensures Inv(c, Apply(c, s, Peek))
  {
  }

  lemma StepKeepsInv(c: Config, s: System, step: Step)
    requires Inv(c, s) && Enabled(s, step)
    ensures Inv(c, Apply(c, s, step))
  {
    hide Agrees, WireOK;
    match step
    case Write(g, r) => GrownOriginKeepsInv(c, s, g, Append(s.logs[g], r));
    case RollOrigin(g, keep) => GrownOriginKeepsInv(c, s, g, Roll(s.logs[g], keep));
    case Reclaim(g) =>
    case Ask(_) =>
    case Serve => ServeKeepsInv(c, s);
    case Send => SendKeepsInv(c, s);
    case Peek => PeekKeepsInv(c, s);
    case Open => OpenKeepsInv(c, s);
    case Deliver(rolls) => DeliverKeepsInv(c, s, rolls);
    case TornDeliver => TornDeliverKeepsInv(c, s);
    case Rebuild =>
    case Drop =>
  }

  lemma {:induction false} RunKeepsInv(c: Config, states: seq<System>, steps: seq<Step>, k: nat)
    requires Run(c, states, steps) && Initial(c, states[0]) && k < |states|
    ensures Inv(c, states[k])
  {
    if k > 0 {
      RunKeepsInv(c, states, steps, k - 1);
      StepKeepsInv(c, states[k - 1], steps[k - 1]);
    }
  }

  /** A replica never splices: in every reachable state it is one contiguous slice, from its
      own base on, of the single incarnation whose generation it carries. */
  lemma ReplicaNeverSplices(c: Config, states: seq<System>, steps: seq<Step>, k: nat)
    requires Run(c, states, steps) && Initial(c, states[0]) && k < |states|
    requires states[k].disk.Some? && states[k].disk.value.name == c.name
    ensures var r := states[k].disk.value.log;
            && r.generation in states[k].logs
            && var log := states[k].logs[r.generation];
            && log.base <= r.base && Head(r) <= Head(log)
            && r.records == log.records[r.base - log.base..Head(r) - log.base]
  {
    RunKeepsInv(c, states, steps, k);
    var r := states[k].disk.value.log;
    var log := states[k].logs[r.generation];
    forall j | 0 <= j < |r.records| ensures r.records[j] == log.records[r.base - log.base + j] {
      assert At(r, r.base + j) == At(log, r.base + j);
    }
  }

  /** No step rewrites a replica: it keeps its records, gains exactly the next record of its own
      incarnation, or is discarded after a refusal. Another channel's replica is never touched
      otherwise. */
  lemma ReplicaOnlyGrowsOrIsDiscarded(c: Config, s: System, step: Step)
    requires Inv(c, s) && Enabled(s, step) && s.disk.Some?
    ensures var s', r := Apply(c, s, step), s.disk.value;
            || (s'.disk.None? && step.Rebuild?)
            || (s'.disk.Some? && s'.disk.value.name == r.name
                && var d := s'.disk.value.log;
                && d.base == r.log.base && d.generation == r.log.generation
                && (|| d.records == r.log.records
                    || (&& r.name == c.name && d.generation in s.logs && Head(r.log) < Head(s.logs[d.generation])
                        && d.records == r.log.records + [At(s.logs[d.generation], Head(r.log))])))
  {
  }

  // ---------------- streams that cannot touch the replica ----------------

  /** The stream is not for this replica, or its next frame is not the replica's next record. */
  ghost predicate Futile(c: Config, s: System) {
    && s.conn.Streaming? && s.disk.Some?
    && (Extendable(s.disk.value, c.name, s.conn.generation) ==>
          Head(s.disk.value.log) + |s.conn.wire| != s.conn.reader.next)
  }

  lemma FutileStep(c: Config, s: System, step: Step)
    requires Inv(c, s) && Futile(c, s) && Enabled(s, step)
    ensures var s' := Apply(c, s, step); s'.disk == s.disk && (s'.conn.Idle? || Futile(c, s'))
  {
    if step.Deliver? || step.TornDeliver? {
      assert WireOK(s.conn, s.logs[s.conn.generation]);
      assert s.conn.wire[0].index == s.conn.reader.next - |s.conn.wire|;
    }
  }

  /** One step more, at the end of the steps taken so far. */
  lemma LeadsFurther(c: Config, s: System, steps: seq<Step>, mid: System, step: Step) returns (end: System)
    requires Leads(c, s, steps, mid) && Inv(c, mid) && Enabled(mid, step)
    ensures end == Apply(c, mid, step) && Leads(c, s, steps + [step], end) && Inv(c, end) && Sound(end)
  {
    hide Leads, Apply, Enabled, Inv;
    InvIsSound(c, mid);
    end := Apply(c, mid, step);
    StepKeepsInv(c, mid, step);
    InvIsSound(c, end);
    LeadsNowhere(c, end);
    LeadsByOne(c, mid, step, [], end);
    assert [step] + [] == [step];
    LeadsOn(c, s, steps, mid, [step], end);
  }

  lemma InvIsSound(c: Config, s: System)
    requires Inv(c, s)
    ensures Sound(s)
  {
  }
}
