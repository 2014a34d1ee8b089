/** Equal retention settings mean equal retained windows: when a replica that has caught up holds
    exactly the records its origin still holds. */
module ReplicationWindow {
  import opened Identity
  import opened ChannelLog
  import opened Replication
  import opened ReplicationMachine
  import opened ReplicationMirror

  ghost predicate Ascending(starts: seq<nat>) {
    forall i, j :: 0 <= i < j < |starts| ==> starts[i] < starts[j]
  }

  ghost predicate Sorted(starts: seq<nat>) {
    forall i, j :: 0 <= i < j < |starts| ==> starts[i] <= starts[j]
  }

  /** How many of `n` segments retention drops. */
  function Floor(n: nat, keep: nat): nat {
    if keep > 0 && n > keep then n - keep else 0
  }

  /** Retention has been `keep` all along. */
  predicate KeptTo(log: Log, keep: nat) {
    log.first == Floor(|log.starts|, keep)
  }

  /** The segment being written has a record, or is a channel's very first. */
  predicate LastInUse(log: Log)
    requires |log.starts| > 0
  {
    |log.starts| == 1 || log.starts[|log.starts| - 1] < Head(log)
  }

  /** One retention setting; the origin rolls only a segment that has a record, and the replica only when
      told to. */
  ghost predicate Steady(c: Config, s: System, step: Step)
    requires Sound(s) && Enabled(s, step)
  {
    match step
    case Deliver(rolls) => !rolls
    case RollOrigin(g, keep) => keep == c.keep && s.logs[g].starts[|s.logs[g].starts| - 1] < Head(s.logs[g])
    case _ => true
  }

  ghost predicate SteadyRun(c: Config, states: seq<System>, steps: seq<Step>) {
    OrderlyRun(c, states, steps) && forall k :: 0 <= k < |steps| ==> Steady(c, states[k], steps[k])
  }

  /** The starts strictly inside the replica are the origin's. */
  ghost predicate Mirrors(r: Log, log: Log) {
    Covers(r, log) && Echoes(r, log)
  }

  // ---------------- what every steady step keeps ----------------

  /** Behind its first segment a replica's segments start above its base; a torn roll at its head
      still has records to come from the origin. */
  ghost predicate Placed(r: Log, log: Log, keep: nat) {
    && KeptTo(r, keep)
    && (forall k :: 1 <= k < |r.starts| ==> r.base < r.starts[k])
    && (r.base < Head(r) && Head(r) in r.starts ==> Head(r) < Head(log))
  }

  /** A flag on the first frame means the reader saw a roll there, so the replica has records
      in front of it. */
  ghost predicate Told(conn: Conn, disk: Option<Replica>)
    requires conn.Streaming?
  {
    && (disk.None? ==> !conn.seam)
    && (disk.Some? && conn.seam && disk.value.log.generation == conn.generation ==> disk.value.log.base < conn.start)
    && forall k :: 0 <= k < |conn.wire| ==> conn.wire[k].startsSegment && conn.wire[k].index == conn.start ==> conn.seam
  }

  ghost predicate LogsSteady(c: Config, logs: map<nat, Log>) {
    forall g :: g in logs ==> Ascending(logs[g].starts) && KeptTo(logs[g], c.keep)
  }

  ghost predicate StreamTold(c: Config, s: System) {
    s.conn.Streaming? && !Futile(c, s) && (s.disk.Some? ==> s.disk.value.name == c.name) ==> Told(s.conn, s.disk)
  }

  ghost predicate WindowInv(c: Config, s: System) {
    && MirrorInv(c, s) && DiskEchoes(c, s) && LogsSteady(c, s.logs) && StreamTold(c, s)
    && (s.disk.Some? && s.disk.value.name == c.name ==>
          Placed(s.disk.value.log, s.logs[s.disk.value.log.generation], c.keep))
  }

  lemma StartIsItsSegment(starts: seq<nat>, k: nat)
    requires Ascending(starts) && k < |starts|
    ensures SegmentOf(starts, starts[k]) == k
  {
  }

  lemma PlacedStays(r: Log, log: Log, later: Log, keep: nat)
    requires Placed(r, log, keep) && Extends(log, later)
    ensures Placed(r, later, keep)
  {
  }

  lemma GrowthKeepsWindow(c: Config, s: System, g: nat, later: Log)
    requires WindowInv(c, s) && g in s.logs && Outgrows(s.logs[g], later)
    requires Ascending(later.starts) && KeptTo(later, c.keep)
    ensures WindowInv(c, s.(logs := s.logs[g := later]))
  {
    hide MirrorInv, DiskEchoes, KeptTo, Told, Ascending, StreamOK, BaseRetained, Placed, Outgrows, Agrees, WireOK,
         Valid;
    GrowthKeepsMirror(c, s, g, later);
    MirrorHasInv(c, s);
    MirrorHasInv(c, s.(logs := s.logs[g := later]));
    GrowthKeepsEchoes(c, s, g, later);
    OutgrowsParts(s.logs[g], later);
    if s.disk.Some? && s.disk.value.name == c.name && s.disk.value.log.generation == g {
      PlacedStays(s.disk.value.log, s.logs[g], later, c.keep);
    }
  }

  lemma OriginKeepsWindow(c: Config, s: System, step: Step)
    requires WindowInv(c, s) && Enabled(s, step) && Steady(c, s, step) && (step.Write? || step.RollOrigin?)
    ensures WindowInv(c, Apply(c, s, step))
  {
    MirrorHasInv(c, s);
    var log := s.logs[step.generation];
    var later := if step.Write? then Append(log, step.record) else Roll(log, step.keep);
    assert Outgrows(log, later) && Ascending(later.starts) && KeptTo(later, c.keep) by {
      OriginGrows(log, later, c.keep);
    }
    hide WindowInv, Outgrows, Ascending, KeptTo;
    GrowthKeepsWindow(c, s, step.generation, later);
  }

  lemma OriginGrows(log: Log, later: Log, keep: nat)
    requires Valid(log) && Ascending(log.starts) && KeptTo(log, keep)
    requires (exists r :: later == Append(log, r))
             || (later == Roll(log, keep) && log.starts[|log.starts| - 1] < Head(log))
    ensures Outgrows(log, later) && Ascending(later.starts) && KeptTo(later, keep)
  {
  }

  lemma ServeKeepsWindow(c: Config, s: System)
    requires WindowInv(c, s) && Enabled(s, Serve) && ResumesWell(c, s)
    ensures WindowInv(c, Apply(c, s, Serve))
  {
    ServeKeepsMirror(c, s);
    StepKeepsEchoes(c, s, Serve);
    MirrorHasInv(c, s);
    var log := s.logs[s.current];
    StartIsItsSegment(log.starts, log.first);
    ServedWell(log, s.conn.from, s.conn.generation);
    hide MirrorInv, DiskEchoes, Inv, KeptTo, Ascending, Placed, SegmentOf, ReaderOK;
  }

  /** A replica just created is one empty segment, and one already there stays as it is. */
  lemma OpenedIsPlaced(c: Config, s: System)
    requires WindowInv(c, s) && Enabled(s, Open)
    ensures var s' := Apply(c, s, Open);
            s'.disk.value.name == c.name && s'.disk.value.log.generation in s.logs ==>
              Placed(s'.disk.value.log, s.logs[s'.disk.value.log.generation], c.keep)
  {
    hide MirrorInv, DiskEchoes, Ascending;
    if s.disk.Some? { hide Placed; }
  }

  lemma OpenKeepsWindow(c: Config, s: System)
    requires WindowInv(c, s) && Enabled(s, Open)
    ensures WindowInv(c, Apply(c, s, Open))
  {
    OpenKeepsMirror(c, s);
    StepKeepsEchoes(c, s, Open);
    MirrorHasInv(c, s);
    OpenedIsPlaced(c, s);
    MirrorHasInv(c, Apply(c, s, Open));
    hide MirrorInv, DiskEchoes, Inv, StreamOK, Ascending, Placed, BaseRetained;
  }

  /** With no empty segments a stream that starts blind flags nothing at its start. */
  lemma SentIsTold(conn: Conn, log: Log, disk: Option<Replica>)
    requires conn.Streaming? && Readable(log, conn.reader) && ReaderOK(conn, log) && Ascending(log.starts)
    requires Told(conn, disk)
    ensures Told(Sent(conn, log), disk)
  {
    if conn.reader.next == conn.start && !conn.seam {
      StartIsItsSegment(log.starts, conn.reader.segment);
    }
    var sent := Sent(conn, log);
    assert forall k :: 0 <= k < |conn.wire| ==> sent.wire[k] == conn.wire[k];
  }

  lemma SendKeepsWindow(c: Config, s: System)
    requires WindowInv(c, s) && Enabled(s, Send)
    ensures WindowInv(c, Apply(c, s, Send))
  {
    SendKeepsMirror(c, s);
    StepKeepsEchoes(c, s, Send);
    MirrorHasInv(c, s);
    hide MirrorInv, DiskEchoes, Ascending, ReaderOK, FlagsOK, Told, Placed, KeptTo;
    if !Futile(c, s) && (s.disk.Some? ==> s.disk.value.name == c.name) {
      SentIsTold(s.conn, s.logs[s.conn.generation], s.disk);
    }
  }

  lemma PeekKeepsWindow(c: Config, s: System)
    requires WindowInv(c, s) && Enabled(s, Peek) && PollsWell(c, s)
    ensures WindowInv(c, Apply(c, s, Peek))
  {
    PeekKeepsMirror(c, s);
    StepKeepsEchoes(c, s, Peek);
    MirrorHasInv(c, s);
    hide MirrorInv, DiskEchoes, Ascending, ReaderOK, FlagsOK, Placed, KeptTo, Agrees;
  }

  lemma RolledIsPlaced(r: Log, log: Log, keep: nat)
    requires Valid(r) && Placed(r, log, keep) && r.base < Head(r) < Head(log)
    ensures Placed(Roll(r, keep), log, keep)
  {
  }

  lemma ExtendedIsPlaced(r: Log, log: Log, frame: Frame, keep: nat)
    requires Valid(r) && Placed(r, log, keep) && (frame.startsSegment ==> r.base < Head(r))
    ensures Placed(Extended(r, frame, keep), log, keep)
  {
  }

  /** A flagged frame never is the first of an empty replica. */
  lemma FlaggedIsBehind(c: Config, s: System)
    requires WindowInv(c, s) && s.conn.Streaming? && s.conn.open && |s.conn.wire| > 0
    requires s.conn.wire[0].index == Head(s.disk.value.log) && s.conn.wire[0].startsSegment
    ensures s.disk.value.log.base < Head(s.disk.value.log) < Head(s.logs[s.conn.generation])
  {
    MirrorHasInv(c, s);
    hide MirrorInv, DiskEchoes, Ascending, ReaderOK, FlagsOK, Placed, KeptTo, Agrees;
  }

  /** What is told stays told as the frames are applied. */
  lemma DeliveredIsTold(c: Config, s: System)
    requires WindowInv(c, s) && Enabled(s, Deliver(false))
    ensures StreamTold(c, Apply(c, s, Deliver(false)))
  {
    MirrorHasInv(c, s);
    hide MirrorInv, DiskEchoes, ReaderOK, FlagsOK, Agrees, Placed, LogsSteady;
    var s', r, frame := Apply(c, s, Deliver(false)), s.disk.value.log, s.conn.wire[0];
    if frame.index == Head(r) {
      assert s'.disk.value.log.base == r.base && s'.disk.value.log.generation == r.generation;
      assert forall k :: 0 <= k < |s'.conn.wire| ==> s'.conn.wire[k] == s.conn.wire[k + 1];
    }
  }

  lemma DeliverKeepsWindow(c: Config, s: System)
    requires WindowInv(c, s) && Enabled(s, Deliver(false))
    ensures WindowInv(c, Apply(c, s, Deliver(false)))
  {
    DeliverKeepsMirror(c, s, false);
    StepKeepsEchoes(c, s, Deliver(false));
    DeliveredIsTold(c, s);
    MirrorHasInv(c, s);
    hide MirrorInv, DiskEchoes, StreamTold, LogsSteady, Agrees, Extended, Placed;
    var r, frame := s.disk.value.log, s.conn.wire[0];
    if frame.index == Head(r) {
      var log := s.logs[s.conn.generation];
      if frame.startsSegment { FlaggedIsBehind(c, s); }
      ExtendedIsPlaced(r, log, frame, c.keep);
      ExtendedByOne(r, frame, c.keep);
    }
  }

  lemma TornDeliverKeepsWindow(c: Config, s: System)
    requires WindowInv(c, s) && Enabled(s, TornDeliver)
    ensures WindowInv(c, Apply(c, s, TornDeliver))
  {
    TornDeliverKeepsMirror(c, s);
    StepKeepsEchoes(c, s, TornDeliver);
    MirrorHasInv(c, s);
    FlaggedIsBehind(c, s);
    RolledIsPlaced(s.disk.value.log, s.logs[s.conn.generation], c.keep);
    hide MirrorInv, DiskEchoes, Ascending, Placed, KeptTo, Told, Inv;
  }

  lemma ReclaimKeepsWindow(c: Config, s: System, g: nat)
    requires WindowInv(c, s) && Enabled(s, Reclaim(g))
    ensures WindowInv(c, Apply(c, s, Reclaim(g)))
  {
    ReclaimKeepsMirror(c, s, g);
    StepKeepsEchoes(c, s, Reclaim(g));
    MirrorHasInv(c, s);
    hide MirrorInv, DiskEchoes, Placed, Told;
  }

  lemma StepKeepsWindow(c: Config, s: System, step: Step)
    requires WindowInv(c, s) && Enabled(s, step) && Orderly(c, s, step) && Steady(c, s, step)
    ensures WindowInv(c, Apply(c, s, step))
  {
    hide MirrorInv, DiskEchoes, Placed, Told, KeptTo, Ascending, Inv;
    match step
    case Write(_, _) => OriginKeepsWindow(c, s, step);
    case RollOrigin(_, _) => OriginKeepsWindow(c, s, step);
    case Reclaim(g) => ReclaimKeepsWindow(c, s, g);
    case Ask(_) => StepKeepsMirror(c, s, step); StepKeepsEchoes(c, s, step);
    case Serve => ServeKeepsWindow(c, s);
    case Send => SendKeepsWindow(c, s);
    case Peek => PeekKeepsWindow(c, s);
    case Open => OpenKeepsWindow(c, s);
    case Deliver(_) => DeliverKeepsWindow(c, s);
    case TornDeliver => TornDeliverKeepsWindow(c, s);
    case Rebuild => StepKeepsMirror(c, s, step); StepKeepsEchoes(c, s, step);
    case Drop => StepKeepsMirror(c, s, step); StepKeepsEchoes(c, s, step);
  }

  lemma InitialHasWindow(c: Config, s: System)
    requires Initial(c, s)
    ensures WindowInv(c, s)
  {
  }

  lemma {:induction false} RunKeepsWindow(c: Config, states: seq<System>, steps: seq<Step>, k: nat)
    requires SteadyRun(c, states, steps) && k < |states|
    ensures WindowInv(c, states[k])
  {
    if k == 0 {
      InitialHasWindow(c, states[0]);
    } else {
      hide WindowInv, Apply, Enabled, Orderly, Steady, Sound;
      RunKeepsWindow(c, states, steps, k - 1);
      StepKeepsWindow(c, states[k - 1], steps[k - 1]);
    }
  }

  // ---------------- two segmentations of one log ----------------

  /** Starts with repetitions against the same starts without: fewer, unless there are none. */
  lemma {:induction false} WithoutRepeats(a: seq<nat>, b: seq<nat>)
    requires Sorted(a) && Ascending(b) && forall x :: x in a <==> x in b
    ensures |b| <= |a| && (|b| == |a| ==> a == b)
    ensures Ascending(a) ==> a == b
    decreases |a|
  {
    hide Sorted, Ascending;
    assert a != [] ==> a[0] in b;
    assert b != [] ==> b[0] in a;
    if a != [] {
      var m, n := |a| - 1, |b| - 1;
      FrontOf(a);
      FrontOf(b);
      SameLast(a, b);
      if m > 0 && a[m - 1] == a[m] {
        RepeatDropped(a);
        WithoutRepeats(a[..m], b);
      } else {
        LastApart(a);
        LastApart(b);
        forall x ensures x in a[..m] <==> x in b[..n] {
          assert x in a <==> x in b;
        }
        WithoutRepeats(a[..m], b[..n]);
        assert a == a[..m] + [a[m]] && b == b[..n] + [b[n]];
      }
    }
  }

  lemma FrontOf(a: seq<nat>)
    requires |a| > 0
    ensures Ascending(a) ==> Sorted(a) && Ascending(a[..|a| - 1])
    ensures Sorted(a) ==> Sorted(a[..|a| - 1])
    ensures |a| > 1 && Sorted(a) && a[|a| - 2] != a[|a| - 1] ==> a[|a| - 2] < a[|a| - 1]
    ensures |a| > 1 && Ascending(a) ==> a[|a| - 2] < a[|a| - 1]
  {
  }

  lemma SameLast(a: seq<nat>, b: seq<nat>)
    requires Sorted(a) && Sorted(b) && |a| > 0 && |b| > 0 && forall x :: x in a <==> x in b
    ensures a[|a| - 1] == b[|b| - 1]
  {
    assert a[|a| - 1] in b && b[|b| - 1] in a;
  }

  lemma RepeatDropped(a: seq<nat>)
    requires |a| > 1 && a[|a| - 2] == a[|a| - 1]
    ensures forall x :: x in a <==> x in a[..|a| - 1]
  {
    var m := |a| - 1;
    assert a == a[..m] + [a[m]] && a[..m][m - 1] == a[m];
  }

  lemma LastApart(a: seq<nat>)
    requires Sorted(a) && |a| > 0 && (|a| > 1 ==> a[|a| - 2] < a[|a| - 1])
    ensures forall x :: x in a[..|a| - 1] <==> x in a && x < a[|a| - 1]
  {
    var m := |a| - 1;
    forall x | x in a && x < a[m] ensures x in a[..m] {
      var k :| 0 <= k < |a| && a[k] == x;
      assert a[..m][k] == x;
    }
  }

  /** From the value they share on, both hold the same starts. */
  lemma SameTail(a: seq<nat>, b: seq<nat>, f: nat, p: nat)
    requires Sorted(a) && Ascending(b) && (forall x :: x in a <==> x in b)
    requires f < |a| && p < |b| && a[f] == b[p]
    ensures Sorted(a[f..]) && Ascending(b[p..]) && forall x :: x in a[f..] <==> x in b[p..]
  {
    forall x ensures x in a[f..] <==> x in b[p..] {
      if x in a[f..] {
        assert x in a && x >= a[f];
        var k :| 0 <= k < |b| && b[k] == x;
        assert b[p..][k - p] == x;
      }
      if x in b[p..] {
        assert x in b && x >= b[p];
        var k :| 0 <= k < |a| && a[k] == x;
        if k < f { assert x == a[f] && a[f..][0] == x; } else { assert a[f..][k - f] == x; }
      }
    }
  }

  /** Keeping the last `keep` segments cuts both at one index exactly if none of those kept on the
      side with repetitions is empty. */
  lemma CutsAgree(a: seq<nat>, b: seq<nat>, keep: nat)
    requires Sorted(a) && Ascending(b) && (forall x :: x in a <==> x in b)
    requires |a| > 0 && forall k :: 1 <= k < |a| ==> a[0] < a[k]
    ensures Floor(|a|, keep) < |a| && Floor(|b|, keep) < |b|
    ensures a[Floor(|a|, keep)] == b[Floor(|b|, keep)] <==> Floor(|a|, keep) == 0 || Ascending(a[Floor(|a|, keep)..])
  {
    var f := Floor(|a|, keep);
    assert a[f] in b && a[0] in b;
    var p :| 0 <= p < |b| && b[p] == a[f];
    var z :| 0 <= z < |b| && b[z] == a[0];
    assert b[0] in a && z == 0;
    WithoutRepeats(a, b);
    if f > 0 {
      SameTail(a, b, f, p);
      WithoutRepeats(a[f..], b[p..]);
      assert p > 0;
    }
  }

  // ---------------- equal windows ----------------

  /** No segment the replica retains is an empty one left by a torn roll. */
  ghost predicate NoneEmpty(r: Log)
    requires r.first < |r.starts|
  {
    r.first == 0 || Ascending(r.starts[r.first..])
  }

  /** A replica that has everything the origin has is cut where the origin is, from its base on. */
  lemma CaughtUpStarts(r: Log, log: Log, j: nat)
    requires Valid(r) && Valid(log) && Mirrors(r, log) && Ascending(log.starts) && LastInUse(log)
    requires Head(r) == Head(log) && j < |log.starts| && log.starts[j] == r.base
    requires r.base < Head(r) ==> Head(r) !in r.starts
    ensures forall x :: x in r.starts <==> x in log.starts[j..]
  {
    var tail := log.starts[j..];
    forall x ensures x in r.starts <==> x in tail {
      if x in r.starts {
        assert r.base <= x <= Head(r);
        if x > r.base {
          var m :| 0 <= m < |log.starts| && log.starts[m] == x;
          assert tail[m - j] == x;
        } else {
          assert tail[0] == x;
        }
      }
      if x in tail {
        var m :| 0 <= m < |tail| && tail[m] == x;
        assert m == 0 ==> x == r.starts[0];
        assert m > 0 ==> x in log.starts && r.base < x < Head(r);
      }
    }
  }

  lemma WindowsAgree(keep: nat, r: Log, log: Log)
    requires Valid(r) && Valid(log) && Mirrors(r, log) && Agrees(r, log) && Ascending(log.starts) && KeptTo(log, keep)
    requires Placed(r, log, keep) && r.base in log.starts && r.base <= Earliest(log)
    requires Head(r) == Head(log) && LastInUse(log)
    ensures Retained(r) == Retained(log) <==> NoneEmpty(r)
  {
    var j :| 0 <= j < |log.starts| && log.starts[j] == r.base;
    var tail := log.starts[j..];
    CaughtUpStarts(r, log, j);
    CutsAgree(r.starts, tail, keep);
    assert j <= log.first;
    assert Earliest(log) == tail[Floor(|tail|, keep)];
    hide Mirrors, KeptTo, Placed, Agrees, Ascending;
    SameRetained(r, log);
  }

  lemma SameRetained(r: Log, log: Log)
    requires Valid(r) && Valid(log) && Agrees(r, log) && Head(r) == Head(log)
    ensures Retained(r) == Retained(log) <==> Earliest(r) == Earliest(log)
  {
    if Earliest(r) == Earliest(log) {
      forall i | 0 <= i < |Retained(r)| ensures Retained(r)[i] == Retained(log)[i] {
        assert At(r, Earliest(r) + i) == At(log, Earliest(r) + i);
      }
    }
  }

  /** The replica of a state, if it has caught up with the origin's log it belongs to. */
  ghost predicate CaughtUp(c: Config, s: System) {
    && s.disk.Some? && s.disk.value.name == c.name
    && var r := s.disk.value.log;
    && r.generation in s.logs && Valid(r) && Valid(s.logs[r.generation]) && Head(r) == Head(s.logs[r.generation])
  }

  /** Equal `keep_files`, caught up, the origin's newest segment in use: both retain the same window,
      record for record, if and only if no torn roll left an empty segment among those retained. */
  lemma RetentionWindowsAgree(c: Config, states: seq<System>, steps: seq<Step>, k: nat)
    requires SteadyRun(c, states, steps) && k < |states| && CaughtUp(c, states[k])
    requires LastInUse(states[k].logs[states[k].disk.value.log.generation])
    ensures var r := states[k].disk.value.log;
            Retained(r) == Retained(states[k].logs[r.generation]) <==> NoneEmpty(r)
  {
    RunKeepsWindow(c, states, steps, k);
    var r := states[k].disk.value.log;
    WindowsAgree(c.keep, r, states[k].logs[r.generation]);
  }

  // ---------------- without torn rolls ----------------

  /** Every segment of the replica but a last first one has a record. */
  ghost predicate Tight(r: Log)
    requires |r.starts| > 0
  {
    Ascending(r.starts) && LastInUse(r)
  }

  ghost predicate DiskTight(c: Config, s: System)
    requires Sound(s)
  {
    s.disk.Some? && s.disk.value.name == c.name ==> Tight(s.disk.value.log)
  }

  lemma ExtendedIsTight(r: Log, frame: Frame, keep: nat)
    requires Valid(r) && Tight(r) && (frame.startsSegment ==> r.base < Head(r))
    ensures Tight(Extended(r, frame, keep))
  {
  }

  lemma TightStep(c: Config, s: System, step: Step)
    requires WindowInv(c, s) && Enabled(s, step) && Steady(c, s, step) && DiskTight(c, s) && !step.TornDeliver?
    ensures Sound(Apply(c, s, step)) && DiskTight(c, Apply(c, s, step))
  {
    MirrorHasInv(c, s);
    StepKeepsInv(c, s, step);
    if step.Deliver? && s.conn.wire[0].index == Head(s.disk.value.log) {
      if s.conn.wire[0].startsSegment { FlaggedIsBehind(c, s); }
      ExtendedIsTight(s.disk.value.log, s.conn.wire[0], c.keep);
    }
    hide WindowInv, Inv, Tight, Extended;
  }

  lemma {:induction false} UntornRunStaysTight(c: Config, states: seq<System>, steps: seq<Step>, k: nat)
    requires SteadyRun(c, states, steps) && k < |states| && forall i :: 0 <= i < k ==> !steps[i].TornDeliver?
    ensures WindowInv(c, states[k]) && DiskTight(c, states[k])
  {
    RunKeepsWindow(c, states, steps, k);
    if k > 0 {
      UntornRunStaysTight(c, states, steps, k - 1);
      TightStep(c, states[k - 1], steps[k - 1]);
    }
  }

  /** So without a crash between a roll and its record the windows agree while the origin's newest
      segment is in use; between an origin's roll and the record behind it they agree if and only if
      the origin has pruned nothing the replica ever had. */
  lemma UntornWindowsAgree(c: Config, states: seq<System>, steps: seq<Step>, k: nat)
    requires SteadyRun(c, states, steps) && k < |states| && CaughtUp(c, states[k])
    requires forall i :: 0 <= i < k ==> !steps[i].TornDeliver?
    ensures var r := states[k].disk.value.log;
            var log := states[k].logs[r.generation];
            Retained(r) == Retained(log) <==> LastInUse(log) || Earliest(log) == r.base
  {
    UntornRunStaysTight(c, states, steps, k);
    var r := states[k].disk.value.log;
    var log := states[k].logs[r.generation];
    if LastInUse(log) {
      WindowsAgree(c.keep, r, log);
    } else {
      RolledAhead(c.keep, r, log);
    }
  }

  lemma RolledAhead(keep: nat, r: Log, log: Log)
    requires Valid(r) && Valid(log) && Mirrors(r, log) && Agrees(r, log) && Ascending(log.starts) && KeptTo(log, keep)
    requires Placed(r, log, keep) && Tight(r) && r.base in log.starts && r.base <= Earliest(log)
    requires Head(r) == Head(log) && !LastInUse(log)
    ensures Retained(r) == Retained(log) <==> Earliest(log) == r.base
  {
    var n := |log.starts| - 1;
    var j :| 0 <= j < |log.starts| && log.starts[j] == r.base;
    assert log.starts[n] == Head(log) && j <= log.first;
    SameRetained(r, log);
    if j < n {
      StartsBeforeTheRoll(r, log, j);
      hide Ascending, Mirrors, Tight, Agrees;
      CutBeforeTheRoll(keep, r, log, j);
    }
  }

  lemma CutBeforeTheRoll(keep: nat, r: Log, log: Log, j: nat)
    requires Valid(r) && Valid(log) && Ascending(log.starts) && KeptTo(log, keep) && KeptTo(r, keep)
    requires j < |log.starts| - 1 && j <= log.first && r.base == log.starts[j]
    requires r.starts == log.starts[..|log.starts| - 1][j..]
    ensures Earliest(r) == Earliest(log) <==> Earliest(log) == r.base
  {
    hide Ascending;
    var n := |log.starts| - 1;
    LaterCut(n, j, keep);
    var cut := Floor(n - j, keep);
    assert Earliest(r) == log.starts[..n][j..][cut] == log.starts[j + cut];
    Distinct(log.starts, j + cut, Floor(n + 1, keep));
    Distinct(log.starts, j, Floor(n + 1, keep));
  }

  lemma Distinct(starts: seq<nat>, i: nat, j: nat)
    requires Ascending(starts) && i < |starts| && j < |starts|
    ensures starts[i] == starts[j] <==> i == j
  {
  }

  /** A caught-up replica has all the starts but that of the roll ahead of it. */
  lemma StartsBeforeTheRoll(r: Log, log: Log, j: nat)
    requires Valid(r) && Valid(log) && Mirrors(r, log) && Ascending(log.starts) && Tight(r)
    requires Head(r) == Head(log) && j < |log.starts| - 1 && log.starts[j] == r.base
    requires log.starts[|log.starts| - 1] == Head(log)
    ensures r.starts == log.starts[..|log.starts| - 1][j..]
  {
    var n := |log.starts| - 1;
    var before := log.(starts := log.starts[..n], first := 0);
    assert Valid(before) && Ascending(before.starts) && LastInUse(before) && before.starts[j] == r.base;
    assert r.base < Head(r) ==> Head(r) !in r.starts;
    StartsWithoutTheLast(r, log);
    hide Mirrors, Ascending, Valid, Tight;
    assert Mirrors(r, before) by { SameMirror(r, log.(starts := log.starts[..n]), before); }
    CaughtUpStarts(r, before, j);
    assert Sorted(r.starts) && Ascending(r.starts) && Ascending(before.starts[j..]) by {
      TightIsSorted(r);
      TailAscends(before.starts, j);
    }
    WithoutRepeats(r.starts, before.starts[j..]);
  }

  lemma SameMirror(r: Log, log: Log, other: Log)
    requires Mirrors(r, log) && log.starts == other.starts
    ensures Mirrors(r, other)
  {
  }

  lemma TightIsSorted(r: Log)
    requires |r.starts| > 0 && Tight(r)
    ensures Sorted(r.starts) && Ascending(r.starts)
  {
  }

  lemma TailAscends(starts: seq<nat>, j: nat)
    requires Ascending(starts) && j <= |starts|
    ensures Ascending(starts[j..])
  {
  }

  /** One more segment in front of the same starts moves the cut, unless nothing is cut. */
  lemma LaterCut(n: nat, j: nat, keep: nat)
    requires j < n && j <= Floor(n + 1, keep)
    ensures j + Floor(n - j, keep) == Floor(n + 1, keep) <==> Floor(n + 1, keep) == j
    ensures Floor(n - j, keep) < n - j && Floor(n + 1, keep) <= n
  {
  }

  lemma StartsWithoutTheLast(r: Log, log: Log)
    requires Mirrors(r, log) && Ascending(log.starts) && |log.starts| > 0 && log.starts[|log.starts| - 1] == Head(r)
    requires r.base < Head(r) ==> Head(r) !in r.starts
    ensures Mirrors(r, log.(starts := log.starts[..|log.starts| - 1]))
  {
    var n := |log.starts| - 1;
    forall x | x < Head(r) ensures x in log.starts <==> x in log.starts[..n] {
      if x in log.starts {
        var k :| 0 <= k < |log.starts| && log.starts[k] == x;
        assert log.starts[..n][k] == x;
      }
    }
  }
}
