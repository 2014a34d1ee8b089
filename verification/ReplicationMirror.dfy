/** Segment boundaries travel with the records: what a replica's segmentation has to do with the
    origin's, whenever the origin rolls and whoever polls in between. */
module ReplicationMirror {
  import opened ChannelLog
  import opened TopicRecords
  import opened Replication
  import opened ReplicationMachine

  /** The reader changes segment exactly at the starts. */
  lemma CrossingIsAStart(log: Log, i: nat)
    requires Valid(log) && log.base < i
    ensures SegmentOf(log.starts, i) != SegmentOf(log.starts, i - 1) <==> i in log.starts
  {
    if i in log.starts {
      var k :| 0 <= k < |log.starts| && log.starts[k] == i;
      assert k <= SegmentOf(log.starts, i) && SegmentOf(log.starts, i - 1) < k;
    }
  }

  // ---------------- the guards ----------------

  /** The replica has every start of the origin's inside it. */
  ghost predicate Covers(r: Log, log: Log) {
    forall x :: r.base < x < Head(r) && x in log.starts ==> x in r.starts
  }

  /** The replica has no start of its own; a roll without its record yet, left by a crash, is at one of
      the origin's too. */
  ghost predicate Echoes(r: Log, log: Log) {
    forall x :: r.base < x <= Head(r) && x in r.starts ==> x in log.starts
  }

  /** A stream that would extend `r` from where it is, and finds something there, reports a roll at
      its start, or the replica has that boundary already. */
  predicate SeamVisible(r: Log, start: nat, seam: bool) {
    Head(r) == start && start > r.base ==> seam || start in r.starts
  }

  /** The stream about to be served will not miss a boundary at its start. */
  predicate ResumesWell(c: Config, s: System)
    requires s.conn.Asked? && s.current in s.logs && Valid(s.logs[s.current])
  {
    var conn := Served(s.logs[s.current], s.conn.from, s.conn.generation);
    conn.Streaming? && s.disk.Some? && Extendable(s.disk.value, c.name, s.current) ==>
      SeamVisible(s.disk.value.log, conn.start, conn.seam)
  }

  /** An empty poll does not follow a roll; or the stream cannot touch the replica; or the poll is at
      the start of a stream whose replica does not need to be told. */
  ghost predicate PollsWell(c: Config, s: System)
    requires s.conn.Streaming? && s.conn.generation in s.logs
  {
    var log := s.logs[s.conn.generation];
    || s.conn.reader.segment == |log.starts| - 1
    || Futile(c, s)
    || (&& s.conn.reader.next == s.conn.start
        && (s.disk.Some? && Extendable(s.disk.value, c.name, s.conn.generation) ==>
              SeamVisible(s.disk.value.log, s.conn.start, false)))
  }

  /** The two guards. */
  ghost predicate Orderly(c: Config, s: System, step: Step)
    requires Sound(s) && Enabled(s, step)
  {
    match step
    case Serve => ResumesWell(c, s)
    case Peek => PollsWell(c, s)
    case _ => true
  }

  // ---------------- what every orderly step keeps ----------------

  /** Where the reader stands decides what its next frame will say. */
  ghost predicate ReaderOK(conn: Conn, log: Log)
    requires conn.Streaming? && Valid(log)
  {
    var next, segment := conn.reader.next, conn.reader.segment;
    && log.base <= conn.start <= next && segment < |log.starts|
    && if next > conn.start then segment == SegmentOf(log.starts, next - 1)
       else if conn.seam then
         || (log.base < next && segment == SegmentOf(log.starts, next - 1))
         || (log.starts[segment] == next && segment < SegmentOf(log.starts, next))
       else log.starts[segment] == next
  }

  /** A flag names a start; a start is flagged, except perhaps the first frame of a blind stream. */
  ghost predicate FlagsOK(conn: Conn, log: Log)
    requires conn.Streaming?
  {
    forall k :: 0 <= k < |conn.wire| ==>
      var f := conn.wire[k];
      && (f.startsSegment ==> f.index in log.starts)
      && (f.index in log.starts && (f.index == conn.start ==> conn.seam) ==> f.startsSegment)
  }

  /** What a stream has to do with the replica it may extend: the seam is visible, and past it the
      replica ends in a record, not in a roll. */
  predicate Fits(conn: Conn, r: Log)
    requires conn.Streaming?
  {
    && r.base <= conn.start && SeamVisible(r, conn.start, conn.seam)
    && (conn.open && Head(r) > conn.start ==> Head(r) !in r.starts)
  }

  ghost predicate StreamOK(c: Config, s: System)
    requires Inv(c, s) && s.conn.Streaming?
  {
    var conn, log := s.conn, s.logs[s.conn.generation];
    && ReaderOK(conn, log) && FlagsOK(conn, log)
    && (!conn.open ==> conn.reader.next == conn.start + |conn.wire|)
    && (s.disk.None? ==> conn.start in log.starts && conn.start <= Earliest(log))
    && (s.disk.Some? && Extendable(s.disk.value, c.name, conn.generation) ==> Fits(conn, s.disk.value.log))
  }

  ghost predicate DiskCovers(c: Config, s: System)
    requires Inv(c, s)
  {
    s.disk.Some? && s.disk.value.name == c.name ==>
      Covers(s.disk.value.log, s.logs[s.disk.value.log.generation])
  }

  /** A replica begins where the origin's retained log once began. */
  ghost predicate BaseRetained(c: Config, s: System)
    requires Inv(c, s)
  {
    s.disk.Some? && s.disk.value.name == c.name ==>
      var log := s.logs[s.disk.value.log.generation];
      s.disk.value.log.base in log.starts && s.disk.value.log.base <= Earliest(log)
  }

  ghost predicate MirrorInv(c: Config, s: System) {
    && Inv(c, s)
    && (s.conn.Asked? && s.disk.None? ==> s.conn.from == 0)
    && (s.conn.Streaming? && !Futile(c, s) ==> StreamOK(c, s))
    && BaseRetained(c, s) && DiskCovers(c, s)
  }

  lemma MirrorHasInv(c: Config, s: System)
    requires MirrorInv(c, s)
    ensures Inv(c, s) && BaseRetained(c, s) && (s.conn.Asked? && s.disk.None? ==> s.conn.from == 0)
    ensures s.conn.Streaming? && !Futile(c, s) ==> StreamOK(c, s)
  {
  }

  // ---------------- the origin moves on ----------------

  /** Later states of a log: more records, perhaps more segments above what was there. */
  ghost predicate Outgrows(log: Log, later: Log) {
    && Valid(log) && Extends(log, later) && log.starts <= later.starts && Earliest(log) <= Earliest(later)
    && forall k :: |log.starts| <= k < |later.starts| ==> Head(log) <= later.starts[k]
  }

  lemma AppendOutgrows(log: Log, r: MemberRecord)
    requires Valid(log)
    ensures Outgrows(log, Append(log, r))
  {
  }

  lemma RollOutgrows(log: Log, keep: nat)
    requires Valid(log)
    ensures Outgrows(log, Roll(log, keep))
  {
  }

  lemma SegmentsBelowStay(log: Log, later: Log, i: nat)
    requires Outgrows(log, later) && log.base <= i < Head(log)
    ensures SegmentOf(later.starts, i) == SegmentOf(log.starts, i)
  {
    var k, m := SegmentOf(log.starts, i), SegmentOf(later.starts, i);
    assert later.starts[k] == log.starts[k];
    assert m < |log.starts| ==> later.starts[m] == log.starts[m];
  }

  lemma StartsBelowStay(log: Log, later: Log, x: nat)
    requires Outgrows(log, later)
    ensures x in log.starts ==> x in later.starts
    ensures x < Head(log) && x in later.starts ==> x in log.starts
  {
    if x in log.starts {
      var k :| 0 <= k < |log.starts| && log.starts[k] == x;
      assert later.starts[k] == x;
    }
    if x < Head(log) && x in later.starts {
      var k :| 0 <= k < |later.starts| && later.starts[k] == x;
      assert log.starts[k] == x;
    }
  }

  lemma StillCovers(r: Log, log: Log, later: Log)
    requires Valid(r) && Covers(r, log) && Agrees(r, log) && (later == log || Outgrows(log, later))
    ensures Covers(r, later)
  {
    if later != log {
      forall x | r.base < x < Head(r) && x in later.starts ensures x in r.starts {
        StartsBelowStay(log, later, x);
      }
    }
  }

  lemma ReaderStillOK(conn: Conn, log: Log, later: Log)
    requires conn.Streaming? && Valid(log) && WireOK(conn, log) && ReaderOK(conn, log) && Outgrows(log, later)
    ensures ReaderOK(conn, later)
  {
    var next, segment := conn.reader.next, conn.reader.segment;
    assert later.starts[segment] == log.starts[segment];
    if next > log.base { SegmentsBelowStay(log, later, next - 1); }
    if segment < SegmentOf(log.starts, next) {
      assert later.starts[SegmentOf(log.starts, next)] <= next;
    }
  }

  lemma FlagsStillOK(conn: Conn, log: Log, later: Log)
    requires conn.Streaming? && WireOK(conn, log) && FlagsOK(conn, log) && Outgrows(log, later)
    ensures FlagsOK(conn, later)
  {
    forall k | 0 <= k < |conn.wire| ensures conn.wire[k].index in later.starts <==> conn.wire[k].index in log.starts {
      StartsBelowStay(log, later, conn.wire[k].index);
    }
  }

  lemma OutgrowsParts(log: Log, later: Log)
    requires Outgrows(log, later)
    ensures Valid(log) && Extends(log, later) && log.first < |log.starts| && later.first < |later.starts|
    ensures Earliest(log) <= Earliest(later)
  {
  }

  lemma GrowthKeepsMirror(c: Config, s: System, g: nat, later: Log)
    requires MirrorInv(c, s) && g in s.logs && Outgrows(s.logs[g], later)
    ensures MirrorInv(c, s.(logs := s.logs[g := later]))
  {
    hide Agrees, WireOK, Covers, ReaderOK, FlagsOK, Fits, Valid;
    var s' := s.(logs := s.logs[g := later]);
    OutgrowsParts(s.logs[g], later);
    GrownOriginKeepsInv(c, s, g, later);
    if s.conn.Streaming? && !Futile(c, s) && s.conn.generation == g {
      ReaderStillOK(s.conn, s.logs[g], later);
      FlagsStillOK(s.conn, s.logs[g], later);
      StartsBelowStay(s.logs[g], later, s.conn.start);
    }
    if s.disk.Some? && s.disk.value.name == c.name {
      StillCovers(s.disk.value.log, s.logs[s.disk.value.log.generation], s'.logs[s.disk.value.log.generation]);
      if s.disk.value.log.generation == g { StartsBelowStay(s.logs[g], later, s.disk.value.log.base); }
    }
  }

  // ---------------- the stream moves on ----------------

  lemma ServeKeepsMirror(c: Config, s: System)
    requires MirrorInv(c, s) && Enabled(s, Serve) && ResumesWell(c, s)
    ensures MirrorInv(c, Apply(c, s, Serve))
  {
    hide Agrees, Covers, WireOK, ReaderOK, SegmentOf;
    ServeKeepsInv(c, s);
    ServedWell(s.logs[s.current], s.conn.from, s.conn.generation);
  }

  lemma ServedWell(log: Log, from: nat, generation: nat)
    requires Valid(log)
    ensures var conn := Served(log, from, generation);
            conn.Streaming? ==>
              && ReaderOK(conn, log) && conn.reader.next == conn.start && Earliest(log) <= conn.start
              && (from == 0 ==> conn.start == Earliest(log) && conn.start in log.starts)
  {
    assert log.starts[log.first] in log.starts;
  }

  function Sent(conn: Conn, log: Log): Conn
    requires conn.Streaming? && Readable(log, conn.reader)
  {
    conn.(reader := Read(log, conn.reader), wire := conn.wire + [FrameAt(log, conn.reader)])
  }

  lemma SentFlags(conn: Conn, log: Log)
    requires conn.Streaming? && Readable(log, conn.reader) && FlagsOK(conn, log) && ReaderOK(conn, log)
    ensures FlagsOK(Sent(conn, log), log) && ReaderOK(Sent(conn, log), log)
  {
    var next := conn.reader.next;
    if next > log.base { CrossingIsAStart(log, next); }
    var sent := Sent(conn, log);
    assert log.starts[conn.reader.segment] in log.starts;
    assert forall k :: 0 <= k < |conn.wire| ==> sent.wire[k] == conn.wire[k];
  }

  lemma SendKeepsMirror(c: Config, s: System)
    requires MirrorInv(c, s) && Enabled(s, Send)
    ensures MirrorInv(c, Apply(c, s, Send))
  {
    hide Agrees, Covers, WireOK, FlagsOK, ReaderOK;
    SendKeepsInv(c, s);
    if Futile(c, s) { FutileStep(c, s, Send); } else { SentFlags(s.conn, s.logs[s.conn.generation]); }
  }

  lemma PeekedReaderOK(conn: Conn, log: Log)
    requires conn.Streaming? && Valid(log) && WireOK(conn, log) && ReaderOK(conn, log) && conn.reader.next == Head(log)
    requires conn.reader.segment == |log.starts| - 1 || conn.reader.next == conn.start
    ensures ReaderOK(Peeked(conn, log), log)
  {
  }

  lemma PeekKeepsMirror(c: Config, s: System)
    requires MirrorInv(c, s) && Enabled(s, Peek) && PollsWell(c, s)
    ensures MirrorInv(c, Apply(c, s, Peek))
  {
    hide Agrees, Covers, ReaderOK;
    PeekKeepsInv(c, s);
    if !Futile(c, s) { PeekedReaderOK(s.conn, s.logs[s.conn.generation]); }
  }

  lemma OpenKeepsMirror(c: Config, s: System)
    requires MirrorInv(c, s) && Enabled(s, Open)
    ensures MirrorInv(c, Apply(c, s, Open))
  {
    hide Agrees, WireOK, ReaderOK;
    OpenKeepsInv(c, s);
    var s' := Apply(c, s, Open);
    if s'.conn.Streaming? && !Futile(c, s) { SameReader(s.conn, s'.conn, s.logs[s.conn.generation]); }
  }

  /** The replica with the next record, rolled first if the flag says so. */
  lemma ExtendedCovers(r: Log, log: Log, frame: Frame, keep: nat)
    requires Valid(r) && Covers(r, log)
    requires Head(r) > r.base && Head(r) in log.starts ==> frame.startsSegment || Head(r) in r.starts
    ensures Covers(Extended(r, frame, keep), log) && Head(r) + 1 !in Extended(r, frame, keep).starts
  {
    var d := Extended(r, frame, keep);
    assert forall x :: x in d.starts <==> x in r.starts || (frame.startsSegment && x == Head(r));
    assert forall x :: x in r.starts ==> x <= Head(r);
  }

  lemma RolledCovers(r: Log, log: Log, keep: nat)
    requires Valid(r) && Covers(r, log)
    ensures Covers(Roll(r, keep), log)
  {
    assert forall x :: x in r.starts ==> x in Roll(r, keep).starts;
  }

  /** Whatever frame comes next for this replica tells of a boundary it lacks. */
  lemma NextFrameTells(conn: Conn, r: Log, log: Log)
    requires conn.Streaming? && |conn.wire| > 0 && conn.wire[0].index == Head(r)
    requires FlagsOK(conn, log) && SeamVisible(r, conn.start, conn.seam)
    ensures Head(r) > r.base && Head(r) in log.starts ==> conn.wire[0].startsSegment || Head(r) in r.starts
  {
  }

  lemma DeliverKeepsMirror(c: Config, s: System, rolls: bool)
    requires MirrorInv(c, s) && Enabled(s, Deliver(rolls))
    ensures MirrorInv(c, Apply(c, s, Deliver(rolls)))
  {
    hide Agrees, Covers, Extended, ReaderOK, ChannelLog.Roll;
    DeliverKeepsInv(c, s, rolls);
    var s', r, frame := Apply(c, s, Deliver(rolls)), s.disk.value.log, s.conn.wire[0];
    if frame.index == Head(r) {
      var log := s.logs[s.conn.generation];
      var ready := if rolls then Roll(r, c.keep) else r;
      RolledLike(r, c.keep);
      NextFrameTells(s.conn, r, log);
      RolledCovers(r, log, c.keep);
      ExtendedCovers(ready, log, frame, c.keep);
      ExtendedByOne(ready, frame, c.keep);
      SameReader(s.conn, s'.conn, log);
      LaterFlags(s.conn, log);
      hide FlagsOK, Valid;
    }
  }

  lemma LaterFlags(conn: Conn, log: Log)
    requires conn.Streaming? && |conn.wire| > 0 && FlagsOK(conn, log)
    ensures FlagsOK(conn.(wire := conn.wire[1..]), log)
  {
    assert forall k :: 0 <= k < |conn.wire[1..]| ==> conn.wire[1..][k] == conn.wire[k + 1];
  }

  lemma ExtendedByOne(r: Log, frame: Frame, keep: nat)
    requires Valid(r)
    ensures var d := Extended(r, frame, keep);
            Head(d) == Head(r) + 1 && d.base == r.base && d.generation == r.generation
  {
  }

  lemma RolledLike(r: Log, keep: nat)
    requires Valid(r)
    ensures var d := Roll(r, keep);
            Valid(d) && Head(d) == Head(r) && d.base == r.base && d.generation == r.generation && Head(r) in d.starts
  {
    assert Roll(r, keep).starts[|r.starts|] == Head(r);
  }

  lemma SameReader(conn: Conn, conn': Conn, log: Log)
    requires conn.Streaming? && Valid(log) && ReaderOK(conn, log)
    requires conn'.Streaming? && conn' == conn.(wire := conn'.wire, open := conn'.open)
    ensures ReaderOK(conn', log)
  {
  }

  lemma TornDeliverKeepsMirror(c: Config, s: System)
    requires MirrorInv(c, s) && Enabled(s, TornDeliver)
    ensures MirrorInv(c, Apply(c, s, TornDeliver))
  {
    hide Agrees, ReaderOK, WireOK;
    TornDeliverKeepsInv(c, s);
    RolledCovers(s.disk.value.log, s.logs[s.conn.generation], c.keep);
  }

  lemma ReclaimKeepsMirror(c: Config, s: System, g: nat)
    requires MirrorInv(c, s) && Enabled(s, Reclaim(g))
    ensures MirrorInv(c, Apply(c, s, Reclaim(g)))
  {
    hide Agrees, WireOK, Covers, ReaderOK, FlagsOK;
    StepKeepsInv(c, s, Reclaim(g));
  }

  lemma StepKeepsMirror(c: Config, s: System, step: Step)
    requires MirrorInv(c, s) && Enabled(s, step) && Orderly(c, s, step)
    ensures MirrorInv(c, Apply(c, s, step))
  {
    hide Agrees, WireOK, Covers, ReaderOK, FlagsOK, Fits;
    match step
    case Write(g, r) => AppendOutgrows(s.logs[g], r); GrowthKeepsMirror(c, s, g, Append(s.logs[g], r));
    case RollOrigin(g, keep) => RollOutgrows(s.logs[g], keep); GrowthKeepsMirror(c, s, g, Roll(s.logs[g], keep));
    case Reclaim(g) => ReclaimKeepsMirror(c, s, g);
    case Ask(_) => StepKeepsInv(c, s, step);
    case Serve => ServeKeepsMirror(c, s);
    case Send => SendKeepsMirror(c, s);
    case Peek => PeekKeepsMirror(c, s);
    case Open => OpenKeepsMirror(c, s);
    case Deliver(rolls) => DeliverKeepsMirror(c, s, rolls);
    case TornDeliver => TornDeliverKeepsMirror(c, s);
    case Rebuild => StepKeepsInv(c, s, step);
    case Drop => StepKeepsInv(c, s, step);
  }

  ghost predicate OrderlyRun(c: Config, states: seq<System>, steps: seq<Step>) {
    && Run(c, states, steps) && Initial(c, states[0])
    && forall k :: 0 <= k < |steps| ==> Orderly(c, states[k], steps[k])
  }

  lemma {:induction false} OrderlyRunKeepsMirror(c: Config, states: seq<System>, steps: seq<Step>, k: nat)
    requires OrderlyRun(c, states, steps) && k < |states|
    ensures MirrorInv(c, states[k])
  {
    if k == 0 {
      InitialMirrors(c, states[0]);
    } else {
      hide MirrorInv, Apply, Enabled, Orderly, Sound;
      OrderlyRunKeepsMirror(c, states, steps, k - 1);
      StepKeepsMirror(c, states[k - 1], steps[k - 1]);
    }
  }

  lemma InitialMirrors(c: Config, s: System)
    requires Initial(c, s)
    ensures MirrorInv(c, s)
  {
  }

  // ---------------- no boundary of the replica's own ----------------

  ghost predicate DiskEchoes(c: Config, s: System)
    requires Inv(c, s)
  {
    s.disk.Some? && s.disk.value.name == c.name ==>
      Echoes(s.disk.value.log, s.logs[s.disk.value.log.generation])
  }

  lemma StillEchoes(r: Log, log: Log, later: Log)
    requires Echoes(r, log) && Outgrows(log, later)
    ensures Echoes(r, later)
  {
    forall x | r.base < x <= Head(r) && x in r.starts ensures x in later.starts {
      StartsBelowStay(log, later, x);
    }
  }

  lemma GrowthKeepsEchoes(c: Config, s: System, g: nat, later: Log)
    requires Inv(c, s) && DiskEchoes(c, s) && g in s.logs && Outgrows(s.logs[g], later)
    requires Inv(c, s.(logs := s.logs[g := later]))
    ensures DiskEchoes(c, s.(logs := s.logs[g := later]))
  {
    hide Agrees, WireOK, Echoes, Outgrows;
    if s.disk.Some? && s.disk.value.name == c.name && s.disk.value.log.generation == g {
      StillEchoes(s.disk.value.log, s.logs[g], later);
    }
  }

  lemma FlaggedEchoes(r: Log, log: Log, frame: Frame, keep: nat)
    requires Valid(r) && Echoes(r, log) && (frame.startsSegment ==> Head(r) in log.starts)
    ensures Echoes(Extended(r, frame, keep), log)
    ensures frame.startsSegment ==> Echoes(Roll(r, keep), log)
  {
    var d := Extended(r, frame, keep);
    assert forall x :: x in d.starts <==> x in r.starts || (frame.startsSegment && x == Head(r));
    assert forall x :: x in Roll(r, keep).starts <==> x in r.starts || x == Head(r);
    assert forall x :: x in r.starts ==> x <= Head(r);
  }

  /** The frame a replica can take names a start, if it names one at all. */
  lemma FlagIsAStart(c: Config, s: System)
    requires MirrorInv(c, s) && s.conn.Streaming? && s.conn.open && |s.conn.wire| > 0
    requires s.conn.wire[0].index == Head(s.disk.value.log)
    ensures s.conn.wire[0].startsSegment ==> Head(s.disk.value.log) in s.logs[s.conn.generation].starts
  {
    hide Agrees, Covers, ReaderOK, BaseRetained;
    assert WireOK(s.conn, s.logs[s.conn.generation]) && s.conn.wire[0].index == s.conn.reader.next - |s.conn.wire|;
  }

  lemma FrameKeepsEchoes(c: Config, s: System, step: Step)
    requires MirrorInv(c, s) && DiskEchoes(c, s) && Enabled(s, step) && (step == Deliver(false) || step.TornDeliver?)
    requires Inv(c, Apply(c, s, step))
    ensures DiskEchoes(c, Apply(c, s, step))
  {
    MirrorHasInv(c, s);
    hide MirrorInv, StreamOK, BaseRetained, Agrees, WireOK, Echoes, Extended, ChannelLog.Roll;
    var r, frame := s.disk.value.log, s.conn.wire[0];
    if frame.index == Head(r) {
      FlagIsAStart(c, s);
      FlaggedEchoes(r, s.logs[s.conn.generation], frame, c.keep);
      ExtendedByOne(r, frame, c.keep);
      RolledLike(r, c.keep);
    }
  }

  /** A replica without a size limit of its own gets no other starts than the origin's. */
  lemma StepKeepsEchoes(c: Config, s: System, step: Step)
    requires MirrorInv(c, s) && DiskEchoes(c, s) && Enabled(s, step) && step != Deliver(true)
    ensures Inv(c, Apply(c, s, step)) && DiskEchoes(c, Apply(c, s, step))
  {
    MirrorHasInv(c, s);
    InvIsSound(c, s);
    StepKeepsInv(c, s, step);
    hide MirrorInv, StreamOK, BaseRetained, Agrees, WireOK, Echoes, Extended, ChannelLog.Roll, Append, Outgrows;
    match step
    case Write(g, record) =>
      AppendOutgrows(s.logs[g], record);
      GrowthKeepsEchoes(c, s, g, Append(s.logs[g], record));
    case RollOrigin(g, keep) =>
      RollOutgrows(s.logs[g], keep);
      GrowthKeepsEchoes(c, s, g, Roll(s.logs[g], keep));
    case Deliver(_) => FrameKeepsEchoes(c, s, step);
    case TornDeliver => FrameKeepsEchoes(c, s, step);
    case Open => FreshEchoes(s.conn.generation, s.conn.start, s.logs[s.conn.generation]);
    case _ =>
  }

  lemma FreshEchoes(g: nat, base: nat, log: Log)
    ensures Echoes(Fresh(g, base), log)
  {
  }

  lemma {:induction false} RunKeepsEchoes(c: Config, states: seq<System>, steps: seq<Step>, k: nat)
    requires OrderlyRun(c, states, steps) && k < |states| && forall i :: 0 <= i < k ==> steps[i] != Deliver(true)
    ensures MirrorInv(c, states[k]) && DiskEchoes(c, states[k])
  {
    OrderlyRunKeepsMirror(c, states, steps, k);
    if k > 0 {
      hide MirrorInv, Apply, Enabled, Orderly, Sound, Echoes;
      RunKeepsEchoes(c, states, steps, k - 1);
      StepKeepsEchoes(c, states[k - 1], steps[k - 1]);
    }
  }

  /** Segment mirroring: however the origin rolls, writes and prunes, whatever the disconnects,
      crashes and resumes, inside the replica no segment start of the origin's is missing; and none is
      added, unless the replica's own size limit rolled it. */
  lemma SegmentsAreMirrored(c: Config, states: seq<System>, steps: seq<Step>, k: nat, x: nat)
    requires OrderlyRun(c, states, steps) && k < |states|
    requires states[k].disk.Some? && states[k].disk.value.name == c.name
    requires var r := states[k].disk.value.log; r.base < x < Head(r)
    ensures var r := states[k].disk.value.log;
            && r.generation in states[k].logs
            && (x in states[k].logs[r.generation].starts ==> x in r.starts)
            && ((forall i :: 0 <= i < k ==> steps[i] != Deliver(true)) ==>
                  (x in r.starts ==> x in states[k].logs[r.generation].starts))
  {
    OrderlyRunKeepsMirror(c, states, steps, k);
    if forall i :: 0 <= i < k ==> steps[i] != Deliver(true) { RunKeepsEchoes(c, states, steps, k); }
  }

  // ---------------- the guards are exact ----------------

  lemma MissingStart(r: Log, log: Log, x: nat)
    requires r.base < x < Head(r) && x in log.starts && x !in r.starts
    ensures !Covers(r, log)
  {
  }

  /** An aligned stream that has nothing in flight and whose next frame hides the boundary in front
      of it: sending and applying that frame leaves the replica without it. */
  lemma HiddenBoundaryIsLost(c: Config, s: System) returns (lost: System)
    requires Inv(c, s) && s.conn.Streaming? && s.conn.open && s.conn.wire == []
    requires var log, r := s.logs[s.conn.generation], s.disk.value.log;
             && Readable(log, s.conn.reader) && Head(r) == s.conn.reader.next > r.base
             && !FrameAt(log, s.conn.reader).startsSegment && Head(r) in log.starts && Head(r) !in r.starts
    ensures Leads(c, s, [Send, Deliver(false)], lost) && Inv(c, lost) && !DiskCovers(c, lost)
  {
    hide Agrees, WireOK, Covers;
    var log, r := s.logs[s.conn.generation], s.disk.value.log;
    StepKeepsInv(c, s, Send);
    var s1 := Apply(c, s, Send);
    assert s1.conn.wire == [FrameAt(log, s.conn.reader)];
    StepKeepsInv(c, s1, Deliver(false));
    lost := Apply(c, s1, Deliver(false));
    assert lost.disk.value.log == r.(records := r.records + [At(log, Head(r))]);
    MissingStart(lost.disk.value.log, log, Head(r));
    LeadsByOne(c, s1, Deliver(false), [], lost);
    LeadsByOne(c, s, Send, [Deliver(false)], lost);
  }

  lemma LeadsThrice(c: Config, s: System, a: Step, b: Step, d: Step)
    requires Sound(s) && Enabled(s, a)
    requires var s1 := Apply(c, s, a);
             && Sound(s1) && Enabled(s1, b)
             && var s2 := Apply(c, s1, b); Sound(s2) && Enabled(s2, d)
    ensures Leads(c, s, [a, b, d], Apply(c, Apply(c, Apply(c, s, a), b), d))
  {
    hide Apply, Enabled, Sound, Leads;
    var s1 := Apply(c, s, a);
    var s2 := Apply(c, s1, b);
    var end := Apply(c, s2, d);
    LeadsNowhere(c, end);
    LeadsByOne(c, s2, d, [], end);
    LeadsByOne(c, s1, b, [d] + [], end);
    LeadsByOne(c, s, a, [b] + ([d] + []), end);
    assert [a] + ([b] + ([d] + [])) == [a, b, d];
  }

  /** The state a blind resume reaches before its first frame. */
  lemma BlindlyOpened(c: Config, s: System, record: MemberRecord) returns (entered: System)
    requires MirrorInv(c, s) && s.conn.Asked? && !ResumesWell(c, s)
    ensures Leads(c, s, [Serve, Open, Write(s.current, record)], entered) && Inv(c, entered)
    ensures var conn, log, r := entered.conn, s.logs[s.current], s.disk.value.log;
            && entered.logs == s.logs[s.current := Append(log, record)] && entered.disk == s.disk
            && conn == Streaming(s.current, Earliest(log), false, OpenCursor(log), [], true)
            && SegmentOf(log.starts, Earliest(log)) == log.first && s.disk.value.name == c.name
            && Head(r) == Earliest(log) > r.base && Head(r) !in r.starts
  {
    assert Inv(c, s);
    hide Agrees, WireOK, Covers, MirrorInv, Leads, Inv, SegmentOf;
    var write, s1 := Write(s.current, record), Apply(c, s, Serve);
    StepKeepsInv(c, s, Serve);
    InvIsSound(c, s1);
    var s2 := Apply(c, s1, Open);
    StepKeepsInv(c, s1, Open);
    InvIsSound(c, s2);
    entered := Apply(c, s2, write);
    StepKeepsInv(c, s2, write);
    LeadsThrice(c, s, Serve, Open, write);
  }

  /** A resume outside its guard enters the log blind, at a boundary the replica does not have yet,
      and loses it with its first record. */
  lemma BlindResumeLosesTheBoundary(c: Config, s: System, record: MemberRecord) returns (lost: System)
    requires MirrorInv(c, s) && s.conn.Asked? && !ResumesWell(c, s)
    ensures Leads(c, s, [Serve, Open, Write(s.current, record), Send, Deliver(false)], lost)
    ensures Inv(c, lost) && !DiskCovers(c, lost)
  {
    var entered := BlindlyOpened(c, s, record);
    hide Leads, MirrorInv, ResumesWell, DiskCovers, Apply;
    var log := s.logs[s.current];
    assert log.starts[log.first] in log.starts;
    lost := HiddenBoundaryIsLost(c, entered);
    LeadsOn(c, s, [Serve, Open, Write(s.current, record)], entered, [Send, Deliver(false)], lost);
    assert [Serve, Open, Write(s.current, record)] + [Send, Deliver(false)]
        == [Serve, Open, Write(s.current, record), Send, Deliver(false)];
  }

  /** The state an empty poll and the next record reach before that record is sent. */
  lemma PolledThenWritten(c: Config, s: System, record: MemberRecord) returns (written: System)
    requires Inv(c, s) && Enabled(s, Peek) && s.conn.open
    ensures Leads(c, s, [Peek, Write(s.conn.generation, record)], written) && Inv(c, written)
    ensures var log := s.logs[s.conn.generation];
            && written.logs == s.logs[s.conn.generation := Append(log, record)] && written.disk == s.disk
            && written.conn == Peeked(s.conn, log)
  {
    hide Agrees, WireOK, Leads, Inv;
    InvIsSound(c, s);
    var write, s1 := Write(s.conn.generation, record), Apply(c, s, Peek);
    StepKeepsInv(c, s, Peek);
    InvIsSound(c, s1);
    written := Apply(c, s1, write);
    StepKeepsInv(c, s1, write);
    LeadsNowhere(c, written);
    LeadsByOne(c, s1, write, [], written);
    LeadsByOne(c, s, Peek, [write] + [], written);
    assert [Peek] + ([write] + []) == [Peek, write];
  }

  /** Outside the guard of empty polls, a caught-up replica lacks the boundary in front of it. */
  lemma UntoldBoundary(c: Config, s: System)
    requires MirrorInv(c, s) && Enabled(s, Peek) && !PollsWell(c, s)
    requires s.conn.open && s.conn.wire == []
    ensures var r := s.disk.value.log;
            && Head(r) == s.conn.reader.next &&
            Head(r) in s.logs[s.conn.generation].starts && Head(r) !in r.starts && r.base < Head(r)
  {
    hide Agrees, Covers, FlagsOK, ReaderOK, BaseRetained;
    FollowedRoll(s.conn, s.logs[s.conn.generation]);
  }

  lemma RecordBehindTheRoll(log: Log, record: MemberRecord)
    requires Valid(log)
    ensures SegmentOf(Append(log, record).starts, Head(log)) == |log.starts| - 1
  {
  }

  /** A caught-up reader that is not in the newest segment yet has a roll right in front of it. */
  lemma FollowedRoll(conn: Conn, log: Log)
    requires conn.Streaming? && Valid(log) && ReaderOK(conn, log)
    requires conn.reader.next == Head(log) && conn.reader.segment != |log.starts| - 1
    ensures log.starts[|log.starts| - 1] == Head(log) && Head(log) in log.starts
  {
  }

  /** With nothing in flight, the first record behind the roll arrives without it. */
  lemma PolledAtTheHead(c: Config, s: System, record: MemberRecord) returns (steps: seq<Step>, lost: System)
    requires MirrorInv(c, s) && Enabled(s, Peek) && !PollsWell(c, s) && s.conn.open && s.conn.wire == []
    ensures Leads(c, s, [Peek] + steps, lost) && Inv(c, lost) && !DiskCovers(c, lost)
  {
    hide Leads, MirrorInv, PollsWell, DiskCovers, Apply, SegmentOf, Agrees, WireOK, StreamOK;
    MirrorHasInv(c, s);
    UntoldBoundary(c, s);
    var write := Write(s.conn.generation, record);
    var written := PolledThenWritten(c, s, record);
    RecordBehindTheRoll(s.logs[s.conn.generation], record);
    lost := HiddenBoundaryIsLost(c, written);
    LeadsOn(c, s, [Peek, write], written, [Send, Deliver(false)], lost);
    steps := [write, Send, Deliver(false)];
    assert [Peek, write] + [Send, Deliver(false)] == [Peek] + steps;
  }

  /** The step that takes a stream nearer to its head: the replica opened, or a frame in flight applied. */
  function Nearer(conn: Conn): Step
    requires conn.Streaming?
  {
    if conn.open then Deliver(false) else Open
  }

  /** That step and an empty poll commute, and the poll stays outside its guard. */
  lemma PolledOnTheWay(c: Config, s: System)
    requires MirrorInv(c, s) && Enabled(s, Peek) && !PollsWell(c, s) && (s.conn.open ==> s.conn.wire != [])
    ensures var step, polled := Nearer(s.conn), Apply(c, s, Peek);
            && Enabled(s, step) && Sound(polled) && Enabled(polled, step)
            && var s' := Apply(c, s, step);
            && MirrorInv(c, s') && Sound(s') && s'.conn.Streaming? && s'.conn.open
            && s'.conn.wire == (if s.conn.open then s.conn.wire[1..] else s.conn.wire)
            && Enabled(s', Peek) && !PollsWell(c, s') && Apply(c, polled, step) == Apply(c, s', Peek)
  {
    hide Agrees, Covers, FlagsOK, ReaderOK, BaseRetained, Extended;
    StepKeepsMirror(c, s, Nearer(s.conn));
    PeekKeepsInv(c, s);
    if s.conn.open {
      var r, frame := s.disk.value.log, s.conn.wire[0];
      assert WireOK(s.conn, s.logs[s.conn.generation]) && frame.index == Head(r);
      ExtendedByOne(r, frame, c.keep);
    }
  }

  /** An empty poll outside its guard follows a roll the replica has not been told of. Whatever is in
      flight, once that is applied the first record behind the roll arrives without it. */
  lemma {:induction false} EmptyPollLosesTheBoundary(c: Config, s: System, record: MemberRecord)
    returns (steps: seq<Step>, lost: System)
    requires MirrorInv(c, s) && Enabled(s, Peek) && !PollsWell(c, s)
    ensures Leads(c, s, [Peek] + steps, lost) && Inv(c, lost) && !DiskCovers(c, lost)
    decreases |s.conn.wire| + if s.conn.open then 0 else 1
  {
    if s.conn.open && s.conn.wire == [] {
      steps, lost := PolledAtTheHead(c, s, record);
    } else {
      PolledOnTheWay(c, s);
      hide MirrorInv, Inv, PollsWell, DiskCovers, Apply, Enabled;
      var step := Nearer(s.conn);
      var rest;
      rest, lost := EmptyPollLosesTheBoundary(c, Apply(c, s, step), record);
      assert ([Peek] + rest)[1..] == rest;
      steps := [step] + rest;
      assert ([Peek] + steps)[1..] == steps && steps[1..] == rest;
    }
  }
}
