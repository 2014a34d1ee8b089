/** Both ends of a replication stream: a source that tails the origin's log and reports
    segment boundaries, a sink that extends a replica by exactly the next record, and the
    handshake that decides where a stream may start
    (xchannel-net-core/src/replication.rs, xchannel-net-core/src/stream.rs). */
module Replication {
  import opened Bytes
  import opened Identity
  import opened ChannelLog
  import opened TopicRecords

  type Log = Channel<MemberRecord>

  /** One record on the wire. `startsSegment` says the origin rolled just before it. */
  datatype Frame = Frame(index: nat, startsSegment: bool, record: MemberRecord)

  /** A replica's files: the channel they are stamped with and what they hold. */
  datatype Replica = Replica(name: Text, log: Log)

  // ---------------- the origin's reader ----------------

  /** A tailing reader: the next record it returns, and the ordinal of the segment it is in. */
  datatype Cursor = Cursor(next: nat, segment: nat)

  /** The segment a record lives in: the last one starting at or before it. */
  function SegmentOf(starts: seq<nat>, index: nat): (k: nat)
    requires |starts| > 0 && starts[0] <= index
    ensures k < |starts| && starts[k] <= index
    ensures forall j :: k < j < |starts| ==> index < starts[j]
  {
    if starts[|starts| - 1] <= index then |starts| - 1 else SegmentOf(starts[..|starts| - 1], index)
  }

  /** A late joiner starts at the earliest retained record. */
  function OpenCursor(log: Log): Cursor
    requires Valid(log)
  {
    Cursor(Earliest(log), log.first)
  }

  ghost predicate Readable(log: Log, c: Cursor) {
    Valid(log) && log.base <= c.next < Head(log)
  }

  /** Reading the next record crosses every roll in front of it. */
  function Read(log: Log, c: Cursor): Cursor
    requires Readable(log, c)
  {
    Cursor(c.next + 1, SegmentOf(log.starts, c.next))
  }

  function FrameAt(log: Log, c: Cursor): Frame
    requires Readable(log, c)
  {
    Frame(c.next, Read(log, c).segment != c.segment, At(log, c.next))
  }

  /** Where reading forward to `to` leaves the reader. */
  function Skipped(log: Log, c: Cursor, to: nat): Cursor
    requires Valid(log) && log.base <= c.next && to <= Head(log)
  {
    if to <= c.next then c else Cursor(to, SegmentOf(log.starts, to - 1))
  }

  class ReplicationSource {
    var reader: Cursor

    constructor (log: Log)
      requires Valid(log)
      ensures reader == OpenCursor(log) && reader.next == Earliest(log)
    {
      reader := OpenCursor(log);
    }

    /** The next record if there is one; a roll shows as a change of the reader's segment. Whether a
        read that finds nothing follows a roll into a still empty segment is the channel's choice. */
    method TryNextFrame(log: Log, follows: bool) returns (frame: Option<Frame>)
      requires Valid(log) && log.base <= reader.next <= Head(log)
      modifies this
      ensures old(reader).next < Head(log) ==>
                frame == Some(FrameAt(log, old(reader))) && reader == Read(log, old(reader))
      ensures old(reader).next == Head(log) ==>
                && frame == None && reader.next == old(reader).next
                && reader.segment == if follows then |log.starts| - 1 else old(reader).segment
    {
      if reader.next == Head(log) {
        if follows { reader := reader.(segment := |log.starts| - 1); }
        return None;
      }
      var index, segment := reader.next, reader.segment;
      reader := reader.(segment := SegmentOf(log.starts, index));
      frame := Some(Frame(index, reader.segment != segment, At(log, index)));
      reader := reader.(next := index + 1);
    }

    /** Reads forward one record at a time; the crossing of a roll right before `to` is left
        to the first frame. */
    method SkipTo(log: Log, to: nat)
      requires Valid(log) && log.base <= reader.next <= Head(log) && to <= Head(log)
      modifies this
      ensures reader == Skipped(log, old(reader), to)
    {
      while reader.next < to
        invariant old(reader).next <= reader.next <= Head(log)
        invariant reader.next <= to || reader.next == old(reader).next
        invariant reader == Skipped(log, old(reader), reader.next)
      {
        reader := Read(log, reader);
      }
    }
  }

  // ---------------- the handshake ----------------

  datatype Reply =
    | Accepted(start: nat, head: nat, generation: nat, reader: Cursor)
    | Gapped(earliest: nat)
    | Diverged(earliest: nat, head: nat)

  /** How far a reader of the origin's log may be asked to seek, and when it must refuse. */
  function Answer(log: Log, from: nat, generation: nat): (r: Reply)
    requires Valid(log)
    ensures r.Accepted? ==> r.start <= r.head == Head(log) && r.generation == log.generation
    ensures r.Accepted? <==> from == 0 || (generation == log.generation && Earliest(log) <= from <= Head(log))
  {
    if from > 0 && generation != log.generation then Diverged(Earliest(log), Head(log))
    else if from > 0 && from < Earliest(log) then Gapped(Earliest(log))
    else if from > Head(log) then Diverged(Earliest(log), Head(log))
    else
      var start := if from >= Earliest(log) then from else Earliest(log);
      Accepted(start, Head(log), log.generation, Skipped(log, OpenCursor(log), start))
  }

  /** The origin decides before it seeks, so the seek never waits for a record. */
  method AcceptSubscription(log: Log, from: nat, generation: nat)
    returns (reply: Reply, server: Option<ReplicationSource>)
    requires Valid(log)
    ensures reply == Answer(log, from, generation)
    ensures reply.Accepted? <==> server.Some?
    ensures server.Some? ==> fresh(server.value) && server.value.reader == reply.reader
  {
    var source := new ReplicationSource(log);
    var earliest, head := source.reader.next, Head(log);
    if from > 0 && generation != log.generation { return Diverged(earliest, head), None; }
    if from > 0 && from < earliest { return Gapped(earliest), None; }
    if from > head { return Diverged(earliest, head), None; }
    var start := if from >= earliest then from else earliest;
    source.SkipTo(log, start);
    return Accepted(start, head, log.generation, source.reader), Some(source);
  }

  // ---------------- the replica ----------------

  /** What is on disk once a sink has been opened for a stream starting at `start`: an
      existing replica is left alone, a missing one is created there. */
  function Opened(disk: Option<Replica>, name: Text, generation: nat, start: nat): Replica {
    if disk.Some? then disk.value else Replica(name, Fresh(generation, start))
  }

  /** Only a replica of this very channel and incarnation may be extended. */
  predicate Extendable(r: Replica, name: Text, generation: nat) {
    r.log.generation == generation && r.name == name
  }

  /** One record into the replica, after a roll if the origin rolled there. */
  function Extended(log: Log, frame: Frame, keep: nat): Log
    requires Valid(log)
  {
    Append(if frame.startsSegment then Roll(log, keep) else log, frame.record)
  }

  class ReplicationSink {
    var replica: Replica
    var keepFiles: nat
    var expectedIndex: nat

    ghost predicate Valid()
      reads this
    {
      ChannelLog.Valid(replica.log) && expectedIndex == Head(replica.log)
    }

    constructor (r: Replica, keep: nat)
      requires ChannelLog.Valid(r.log)
      ensures Valid() && replica == r && keepFiles == keep
    {
      replica, keepFiles, expectedIndex := r, keep, Head(r.log);
    }

    /** Accepts exactly the next index; anything else leaves the replica as it was. */
    method Apply(frame: Frame) returns (ok: bool)
      requires Valid()
      modifies this
      ensures Valid() && keepFiles == old(keepFiles)
      ensures ok <==> frame.index == old(expectedIndex)
      ensures replica == if ok then old(replica).(log := Extended(old(replica).log, frame, keepFiles)) else old(replica)
      ensures ok ==> expectedIndex == old(expectedIndex) + 1 && At(replica.log, frame.index) == frame.record
    {
      if frame.index != expectedIndex { return false; }
      if frame.startsSegment { replica := replica.(log := Roll(replica.log, keepFiles)); }
      replica := replica.(log := Append(replica.log, frame.record));
      expectedIndex := expectedIndex + 1;
      return true;
    }
  }

  /** Opening creates a missing replica; a foreign one is refused and left untouched. */
  method OpenSink(disk: Option<Replica>, name: Text, keep: nat, start: nat, generation: nat)
    returns (after: Replica, sink: Option<ReplicationSink>)
    requires disk.Some? ==> ChannelLog.Valid(disk.value.log)
    ensures after == Opened(disk, name, generation, start) && ChannelLog.Valid(after.log)
    ensures sink.Some? <==> Extendable(after, name, generation)
    ensures sink.Some? ==> fresh(sink.value) && sink.value.Valid() && sink.value.replica == after
    ensures sink.Some? && disk.None? ==> sink.value.expectedIndex == start
  {
    after := if disk.Some? then disk.value else Replica(name, Fresh(generation, start));
    if after.log.generation != generation { return after, None; }
    if after.name != name { return after, None; }
    var writer := new ReplicationSink(after, keep);
    return after, Some(writer);
  }
}
