/** A subscription on the duty cycle: the origin forwards a bounded batch per poll and stops while
    its peer is behind; the subscriber applies what has arrived
    (xchannel-net-core/src/stream.rs). */
module StreamPoll {
  import opened Bytes
  import opened ChannelLog
  import opened Replication
  import ReplicationMachine
  import Framing
  import opened Fields
  import opened Codec
  import opened StreamCodec

  const MAX_PENDING_OUT: nat := 1024 * 1024

  /** What a record of `n` payload bytes takes in the outbox: length prefix, header, payload. */
  function FramedCost(n: nat): nat {
    4 + 28 + n
  }

  /** `frames` are the log's records from `start` on, in order, none missing. */
  ghost predicate InOrder(frames: seq<Frame>, log: Log, start: nat) {
    && log.base <= start && start + |frames| <= Head(log)
    && forall k :: 0 <= k < |frames| ==> frames[k].index == start + k && frames[k].record == At(log, start + k)
  }

  ghost predicate AllEncoded(queued: seq<Framing.Frame>, frames: seq<Frame>) {
    && |queued| == |frames|
    && forall k :: 0 <= k < |frames| ==> queued[k] == EncodeStream(Record(STREAM_ID, frames[k]))
  }

  ghost predicate BodiesWithin(log: Log, limit: nat) {
    forall i :: 0 <= i < |log.records| ==> |log.records[i].body| <= limit
  }

  datatype PollResult = Polled(count: nat) | PollFailed

  class ServerPollItem {
    const conn: Framing.FramedConn
    const source: ReplicationSource
    const maxPendingOut: nat
    ghost const start: nat          // where the stream began
    ghost var forwarded: seq<Frame> // every frame queued so far

    ghost predicate Valid(log: Log)
      reads this, conn, source
    {
      && conn.Valid() && ChannelLog.Valid(log)
      && InOrder(forwarded, log, start) && source.reader.next == start + |forwarded|
      && AllEncoded(conn.queued, forwarded)
    }

    constructor (s: ReplicationSource, log: Log, cap: nat := MAX_PENDING_OUT)
      requires ChannelLog.Valid(log) && log.base <= s.reader.next <= Head(log)
      ensures Valid(log) && fresh(conn) && source == s && maxPendingOut == cap && start == s.reader.next
      ensures forwarded == [] && conn.PendingOut() == 0
    {
      var c := new Framing.FramedConn();
      conn, source, maxPendingOut := c, s, cap;
      start, forwarded := s.reader.next, [];
    }

    /** Forwards up to `maxBatch` records. `flushing` and `queueing[k]` are what the socket answers
        to the first flush and while the `k`-th record is queued. */
    method Poll(log: Log, maxBatch: nat, flushing: seq<Framing.WriteEvent>,
                queueing: seq<seq<Framing.WriteEvent>>, follows: bool, ghost limit: nat)
      returns (r: PollResult)
      requires Valid(log) && BodiesWithin(log, limit)
      requires conn.PendingOut() < maxPendingOut + FramedCost(limit)
      modifies this, conn, source
      ensures conn.Valid() && conn.PendingOut() < maxPendingOut + FramedCost(limit)
      ensures r.Polled? ==> Valid(log) && r.count <= maxBatch
      ensures r.Polled? ==> |forwarded| == |old(forwarded)| + r.count
      ensures old(forwarded) <= forwarded
      ensures r.Polled? && r.count < maxBatch ==>
                source.reader.next == Head(log) || conn.PendingOut() > 0 || maxPendingOut == 0
      ensures source.reader != old(source.reader) ==> Framing.FramedAll(old(conn.queued)) <= conn.written
    {
      hide Framing.FramedAll, EncodeStream;
      var flushed, used := conn.Flush(flushing);
      if flushed.FlushFailed? { return PollFailed; }
      assert flushed.Drained? ==> conn.outbox[conn.outboxOff..] == [] && conn.written == Framing.FramedAll(conn.queued);
      if flushed.Waiting? || conn.PendingOut() >= maxPendingOut { return Polled(0); }
      var sent := 0;
      while sent < maxBatch
        invariant Valid(log) && sent <= maxBatch
        invariant |forwarded| == |old(forwarded)| + sent && old(forwarded) <= forwarded
        invariant conn.PendingOut() < maxPendingOut + FramedCost(limit)
        invariant sent < maxBatch ==> conn.PendingOut() < maxPendingOut
        invariant Framing.FramedAll(old(conn.queued)) <= conn.written
      {
        var frame := source.TryNextFrame(log, follows);
        if frame.None? { break; }
        var bytes := EncodeStream(Record(STREAM_ID, frame.value));
        RecordLength(frame.value);
        var ok, flush := conn.QueueFrame(bytes, if sent < |queueing| then queueing[sent] else []);
        if !ok || flush.FlushFailed? { return PollFailed; }
        forwarded := forwarded + [frame.value];
        sent := sent + 1;
        if conn.PendingOut() >= maxPendingOut { break; }
      }
      return Polled(sent);
    }
  }

  /** The origin writing, rolling and pruning in between does not disturb a stream. */
  lemma GrowthKeepsTheStream(item: ServerPollItem, log: Log, later: Log)
    requires item.Valid(log) && ReplicationMachine.Extends(log, later)
    ensures item.Valid(later)
  {
  }

  // ---------------- the subscriber's side ----------------

  /** A replica's log after the given frames. */
  function ExtendedAll(log: Log, frames: seq<Frame>, keep: nat): (d: Log)
    requires ChannelLog.Valid(log)
    ensures ChannelLog.Valid(d) && Head(d) == Head(log) + |frames|
  {
    if frames == [] then log
    else
      var before := ExtendedAll(log, frames[..|frames| - 1], keep);
      Extended(before, frames[|frames| - 1], keep)
  }

  /** `bytes` is the record `frame`, on whatever stream. */
  predicate Carries(sx: Syntax, bytes: Text, frame: Frame) {
    var m := DecodeStream(sx, bytes);
    m.Some? && m.value.Record? && m.value.frame == frame
  }

  class ClientPollItem {
    const conn: Framing.FramedConn
    const sink: ReplicationSink

    ghost predicate Valid()
      reads this, conn, sink
    {
      conn.Valid() && sink.Valid()
    }

    constructor (s: ReplicationSink)
      requires s.Valid()
      ensures Valid() && fresh(conn) && sink == s && conn.received == []
    {
      var c := new Framing.FramedConn();
      conn, sink := c, s;
    }

    /** Applies up to `maxBatch` records that have arrived. Whatever the outcome, the replica has
        grown by exactly the records applied, which are the next frames received, in order. */
    method Poll(sx: Syntax, maxBatch: nat, events: seq<Framing.ReadEvent>)
      returns (r: PollResult, ghost applied: seq<Frame>)
      requires Valid() && Framing.Plausible(events)
      modifies conn, sink
      ensures Valid() && |applied| <= maxBatch && sink.keepFiles == old(sink.keepFiles)
      ensures r.Polled? ==> r.count == |applied| && |conn.received| == |old(conn.received)| + r.count
      ensures r.Polled? && r.count < maxBatch ==> !Framing.HasWholeFrame(conn.inbox[conn.inboxOff..])
      ensures old(conn.received) <= conn.received && |old(conn.received)| + |applied| <= |conn.received|
      ensures forall k :: 0 <= k < |applied| ==>
                Carries(sx, conn.received[|old(conn.received)| + k], applied[k])
                && applied[k].index == old(sink.expectedIndex) + k
      ensures sink.replica == old(sink.replica).(log := ExtendedAll(old(sink.replica.log), applied, sink.keepFiles))
    {
      hide DecodeStream, Extended, Framing.FramedAll, Framing.HasWholeFrame, Framing.Announced, Framing.Given;
      var count, pos := 0, 0;
      applied := [];
      while count < maxBatch
        invariant Valid() && |applied| == count <= maxBatch && 0 <= pos <= |events|
                  && sink.keepFiles == old(sink.keepFiles)
        invariant old(conn.received) <= conn.received && |conn.received| == |old(conn.received)| + count
        invariant forall k :: 0 <= k < count ==>
            Carries(sx, conn.received[|old(conn.received)| + k], applied[k])
            && applied[k].index == old(sink.expectedIndex) + k
        invariant sink.replica == old(sink.replica).(log := ExtendedAll(old(sink.replica.log), applied, sink.keepFiles))
      {
        var got, used := conn.TryRecvFrame(events[pos..]);
        pos := pos + used;
        if got.NotYet? { break; }
        if !got.Whole? { return PollFailed, applied; }
        var m := DecodeStream(sx, got.frame);
        if m.None? || !m.value.Record? { return PollFailed, applied; }
        var ok := sink.Apply(m.value.frame);
        if !ok { return PollFailed, applied; }
        applied := applied + [m.value.frame];
        assert applied[..count] == applied[..|applied| - 1];
        count := count + 1;
      }
      return Polled(count), applied;
    }
  }

  /** From one log to the other's sink: whatever the sockets did, the frames the subscriber takes
      off its connection decode to the records the origin forwarded, in order, none missing. */
  lemma ForwardedFramesArrive(sx: Syntax, item: ServerPollItem, log: Log, peer: Framing.FramedConn, k: nat)
    requires item.Valid(log) && peer.Valid() && peer.delivered <= item.conn.written && k < |peer.received|
    requires forall i :: 0 <= i < |item.forwarded| ==>
             Encodable(sx, StreamPacket(Record(STREAM_ID, item.forwarded[i])).body)
    ensures k < |item.forwarded| && Carries(sx, peer.received[k], item.forwarded[k])
    ensures item.forwarded[k].index == item.start + k && item.forwarded[k].record == At(log, item.start + k)
  {
    hide DecodeStream, EncodeStream, Encodable, StreamPacket, Framing.FramedAll;
    Framing.ReceivedIsAPrefixOfQueued(item.conn, peer);
    assert peer.received[k] == item.conn.queued[k];
    StreamRoundTrip(sx, Record(STREAM_ID, item.forwarded[k]));
  }
}
