/** Fixed-width little-endian integers. */
module LittleEndian {
  import opened Bytes

  function Pow256(width: nat): nat {
    if width == 0 then 1 else 256 * Pow256(width - 1)
  }

  function Encode(n: nat, width: nat): (bytes: Text)
    ensures |bytes| == width
  {
    if width == 0 then [] else [n % 256] + Encode(n / 256, width - 1)
  }

  function Decode(bytes: Text): nat {
    if bytes == [] then 0 else bytes[0] + 256 * Decode(bytes[1..])
  }

  lemma {:induction false} DecodeEncode(n: nat, width: nat)
    requires n < Pow256(width)
    ensures Decode(Encode(n, width)) == n
  {
    if width > 0 {
      DecodeEncode(n / 256, width - 1);
      assert Encode(n, width)[1..] == Encode(n / 256, width - 1);
    }
  }

  lemma {:induction false} EncodeDecode(bytes: Text)
    ensures Decode(bytes) < Pow256(|bytes|) && Encode(Decode(bytes), |bytes|) == bytes
  {
    if bytes != [] {
      EncodeDecode(bytes[1..]);
      assert (bytes[0] + 256 * Decode(bytes[1..])) / 256 == Decode(bytes[1..]);
      assert bytes == [bytes[0]] + bytes[1..];
    }
  }

  lemma Widths()
    ensures Pow256(1) == 0x100 && Pow256(2) == 0x1_0000 && Pow256(4) == 0x1_0000_0000
    ensures Pow256(8) == 0x1_0000_0000_0000_0000
  {
  }
}

/** Length-prefixed frames over a socket that takes and gives bytes as it pleases
    (xchannel-net-core/src/transport.rs). */
module Framing {
  import opened Bytes
  import LittleEndian

  const MAX_FRAME_LEN: nat := 64 * 1024 * 1024
  const READ_CHUNK: nat := 64 * 1024
  const COMPACT_AFTER: nat := 256 * 1024

  type Frame = f: Text | |f| <= MAX_FRAME_LEN

  function Prefix(f: Text): Text {
    LittleEndian.Encode(|f|, 4)
  }

  function Framed(f: Text): Text {
    Prefix(f) + f
  }

  function FramedAll(frames: seq<Frame>): Text {
    if frames == [] then [] else FramedAll(frames[..|frames| - 1]) + Framed(frames[|frames| - 1])
  }

  /** What the front of a byte stream announces. */
  function Announced(bytes: Text): nat
    requires |bytes| >= 4
  {
    LittleEndian.Decode(bytes[..4])
  }

  predicate HasWholeFrame(bytes: Text) {
    |bytes| >= 4 && Announced(bytes) <= MAX_FRAME_LEN && 4 + Announced(bytes) <= |bytes|
  }

  lemma AnnouncedOfFramed(f: Frame, rest: Text)
    ensures Announced(Framed(f) + rest) == |f| && HasWholeFrame(Framed(f) + rest)
  {
    LittleEndian.Widths();
    LittleEndian.DecodeEncode(|f|, 4);
    assert (Framed(f) + rest)[..4] == Prefix(f);
  }

  /** A whole frame at the front can be read in one way only. */
  lemma WholeFrameSplits(bytes: Text)
    requires HasWholeFrame(bytes)
    ensures var n := Announced(bytes); bytes == Framed(bytes[4..4 + n]) + bytes[4 + n..]
  {
    var n := Announced(bytes);
    LittleEndian.EncodeDecode(bytes[..4]);
    assert bytes == bytes[..4] + bytes[4..4 + n] + bytes[4 + n..];
  }

  lemma FramedUnique(f: Frame, g: Frame, x: Text, y: Text)
    requires Framed(f) + x == Framed(g) + y
    ensures f == g && x == y
  {
    AnnouncedOfFramed(f, x);
    AnnouncedOfFramed(g, y);
    var all := Framed(f) + x;
    assert f == all[4..4 + |f|] && g == all[4..4 + |g|];
    assert x == all[4 + |f|..] && y == all[4 + |g|..];
  }

  lemma {:induction false} FramedAllFront(frames: seq<Frame>)
    requires frames != []
    ensures FramedAll(frames) == Framed(frames[0]) + FramedAll(frames[1..])
  {
    hide Framed, FramedAll;
    var n := |frames| - 1;
    assert frames == frames[..n] + [frames[n]];
    FramedAllGrows(frames[..n], frames[n]);
    if n == 0 {
      assert frames[..0] == [] && frames[1..] == [];
      FramedNothing();
    } else {
      FramedAllFront(frames[..n]);
      assert frames[1..] == frames[..n][1..] + [frames[n]];
      FramedAllGrows(frames[..n][1..], frames[n]);
    }
  }

  lemma FramedNothing()
    ensures FramedAll([]) == []
  {
  }

  /** Frames read off the front of a stream of frames are a prefix of those frames; what is left
      is the rest of them. */
  lemma {:induction false} OnlyOneReading(sent: seq<Frame>, got: seq<Frame>, left: Text)
    requires FramedAll(got) + left <= FramedAll(sent)
    ensures got <= sent && left <= FramedAll(sent[|got|..])
    decreases |got|
  {
    hide Framed;
    if got == [] {
      assert sent[0..] == sent;
    } else {
      var all, mine := FramedAll(sent), FramedAll(got) + left;
      FramedAllFront(got);
      assert mine == Framed(got[0]) + (FramedAll(got[1..]) + left);
      FramedLength(got[0]);
      assert sent != [];
      FramedAllFront(sent);
      var beyond := all[|mine|..];
      assert all == Framed(got[0]) + (FramedAll(got[1..]) + left + beyond);
      FramedUnique(got[0], sent[0], FramedAll(got[1..]) + left + beyond, FramedAll(sent[1..]));
      OnlyOneReading(sent[1..], got[1..], left);
      assert got == [got[0]] + got[1..] && sent == [sent[0]] + sent[1..];
      assert sent[1..][|got[1..]|..] == sent[|got|..];
    }
  }

  lemma FramedAllGrows(frames: seq<Frame>, f: Frame)
    ensures FramedAll(frames + [f]) == FramedAll(frames) + Framed(f)
  {
    assert (frames + [f])[..|frames|] == frames;
  }

  lemma FramedLength(f: Text)
    ensures |Framed(f)| == 4 + |f|
  {
  }

  // ---------------- the connection ----------------

  /** What one read attempt on the socket comes back with. */
  datatype ReadEvent = Chunk(bytes: Text) | NothingYet | ReadInterrupted | Closed | ReadFailed

  /** What one write attempt comes back with; `Took` is cut to what was offered. */
  datatype WriteEvent = Took(count: nat) | Full | WriteInterrupted | WriteFailed

  datatype Received = Whole(frame: Frame) | NotYet | PeerClosed | TooLong | ReceiveFailed

  datatype Flushed = Drained | Waiting | FlushFailed

  function Given(events: seq<ReadEvent>): Text {
    if events == [] then []
    else
      var last := events[|events| - 1];
      Given(events[..|events| - 1]) + if last.Chunk? then last.bytes else []
  }

  lemma GivenNothing(events: seq<ReadEvent>)
    ensures Given(events[..0]) == []
  {
  }

  lemma GivenGrows(events: seq<ReadEvent>, k: nat)
    requires k < |events|
    ensures Given(events[..k + 1]) == Given(events[..k]) + if events[k].Chunk? then events[k].bytes else []
  {
    assert events[..k + 1][..k] == events[..k];
  }

  ghost predicate Plausible(events: seq<ReadEvent>) {
    forall k :: 0 <= k < |events| && events[k].Chunk? ==> 0 < |events[k].bytes| <= READ_CHUNK
  }

  /** Moving the frame at the front from the pending bytes to the received frames loses nothing. */
  lemma OneFrameMoved(inbox: Text, off: nat, received: seq<Frame>)
    requires off <= |inbox| && HasWholeFrame(inbox[off..])
    ensures var n := Announced(inbox[off..]);
            |inbox[off + 4..off + 4 + n]| <= MAX_FRAME_LEN
            && FramedAll(received) + inbox[off..]
            == FramedAll(received + [inbox[off + 4..off + 4 + n]]) + inbox[off + 4 + n..]
  {
    var pending, n := inbox[off..], Announced(inbox[off..]);
    var frame: Frame := inbox[off + 4..off + 4 + n];
    WholeFrameSplits(pending);
    assert frame == pending[4..4 + n] && inbox[off + 4 + n..] == pending[4 + n..];
    assert (received + [frame])[..|received|] == received;
  }

  class FramedConn {
    var inbox: Text
    var inboxOff: nat
    var outbox: Text
    var outboxOff: nat
    ghost var queued: seq<Frame>     // frames accepted for sending, ever
    ghost var written: Text          // bytes the socket took, ever
    ghost var delivered: Text        // bytes the socket gave, ever
    ghost var received: seq<Frame>   // frames returned, ever

    ghost predicate Valid()
      reads this
    {
      && inboxOff <= |inbox| && outboxOff <= |outbox|
      && FramedAll(queued) == written + outbox[outboxOff..]
      && delivered == FramedAll(received) + inbox[inboxOff..]
    }

    constructor ()
      ensures Valid() && queued == [] && written == [] && delivered == [] && received == []
    {
      inbox, inboxOff, outbox, outboxOff := [], 0, [], 0;
      queued, written, delivered, received := [], [], [], [];
    }

    function PendingOut(): nat
      requires outboxOff <= |outbox|
      reads this
    {
      |outbox| - outboxOff
    }

    /** One whole frame off the front of the inbox, if one is there. */
    method TakeBufferedFrame() returns (r: Received)
      requires Valid()
      modifies this`inbox, this`inboxOff, this`received
      ensures Valid()
      ensures r.Whole? || r.NotYet? || r.TooLong?
      ensures r.Whole? ==> received == old(received) + [r.frame]
      ensures r.Whole? ==> inboxOff < COMPACT_AFTER && (inboxOff == |inbox| ==> inbox == [])
      ensures !r.Whole? ==> inbox == old(inbox) && inboxOff == old(inboxOff) && received == old(received)
      ensures r.Whole? <==> HasWholeFrame(old(inbox[inboxOff..]))
      ensures r.TooLong? <==> |old(inbox[inboxOff..])| >= 4 && Announced(old(inbox[inboxOff..])) > MAX_FRAME_LEN
    {
      hide FramedAll, Framed, LittleEndian.Decode;
      var available := |inbox| - inboxOff;
      if available < 4 { return NotYet; }
      assert inbox[inboxOff..inboxOff + 4] == inbox[inboxOff..][..4];
      var len := LittleEndian.Decode(inbox[inboxOff..inboxOff + 4]);
      if len > MAX_FRAME_LEN { return TooLong; }
      if available < 4 + len { return NotYet; }
      var body := inboxOff + 4;
      var frame: Frame := inbox[body..body + len];
      OneFrameMoved(inbox, inboxOff, received);
      inboxOff := body + len;
      received := received + [frame];
      if inboxOff == |inbox| {
        inbox := [];
        inboxOff := 0;
      } else if inboxOff >= COMPACT_AFTER {
        inbox := inbox[inboxOff..];
        inboxOff := 0;
      }
      return Whole(frame);
    }

    /** The next frame, reading as long as the socket gives bytes. `used` read attempts are made;
        a socket with no more events has nothing to give. */
    method TryRecvFrame(events: seq<ReadEvent>) returns (r: Received, used: nat)
      requires Valid() && Plausible(events)
      modifies this`inbox, this`inboxOff, this`received, this`delivered
      ensures Valid() && used <= |events| && delivered == old(delivered) + Given(events[..used])
      ensures r.Whole? ==> received == old(received) + [r.frame]
      ensures !r.Whole? ==> received == old(received) && !HasWholeFrame(inbox[inboxOff..])
      ensures r.NotYet? ==> (used > 0 && events[used - 1].NothingYet?) || used == |events|
      ensures r.TooLong? ==> |inbox[inboxOff..]| >= 4 && Announced(inbox[inboxOff..]) > MAX_FRAME_LEN
    {
      hide FramedAll, HasWholeFrame, Announced, Given;
      GivenNothing(events);
      used := 0;
      while true
        invariant Valid() && used <= |events| && received == old(received)
        invariant delivered == old(delivered) + Given(events[..used])
        decreases |events| - used
      {
        r := TakeBufferedFrame();
        if !r.NotYet? { return; }
        if used == |events| { return; }
        GivenGrows(events, used);
        ReadOnce(events[used]);
        used := used + 1;
        match events[used - 1] {
          case Closed => return PeerClosed, used;
          case NothingYet => return NotYet, used;
          case ReadFailed => return ReceiveFailed, used;
          case Chunk(_) =>
          case ReadInterrupted =>
        }
      }
    }

    /** One read into the tail of the inbox: grow it, read, cut it back to what was read. */
    method ReadOnce(event: ReadEvent)
      requires Valid() && (event.Chunk? ==> 0 < |event.bytes| <= READ_CHUNK)
      modifies this`inbox, this`delivered
      ensures Valid()
      ensures inbox == if event.Chunk? then old(inbox) + event.bytes else old(inbox)
      ensures delivered == old(delivered) + (if event.Chunk? then event.bytes else [])
    {
      hide FramedAll;
      ghost var whole := inbox;
      var filled := |inbox|;
      inbox := inbox + seq(READ_CHUNK, _ => 0);
      match event {
        case Chunk(bytes) =>
          inbox := inbox[..filled] + bytes + inbox[filled + |bytes|..];
          inbox := inbox[..filled + |bytes|];
          assert inbox == whole + bytes && inbox[inboxOff..] == whole[inboxOff..] + bytes;
          delivered := delivered + bytes;
        case _ =>
          inbox := inbox[..filled];
          assert inbox == whole;
      }
    }

    /** Writes as long as the socket takes bytes. */
    method Flush(events: seq<WriteEvent>) returns (r: Flushed, used: nat)
      requires Valid()
      modifies this`outbox, this`outboxOff, this`written
      ensures Valid() && used <= |events| && PendingOut() <= old(PendingOut()) && old(written) <= written
      ensures r.Drained? ==> outbox == [] && PendingOut() == 0
      ensures r.Waiting? ==> PendingOut() > 0
    {
      hide FramedAll;
      used := 0;
      while outboxOff < |outbox|
        invariant Valid() && used <= |events| && outbox == old(outbox) && old(outboxOff) <= outboxOff
        invariant old(written) <= written
        decreases |events| - used
      {
        if used == |events| { return Waiting, used; }
        used := used + 1;
        match events[used - 1] {
          case Took(count) =>
            var n := if count <= |outbox| - outboxOff then count else |outbox| - outboxOff;
            if n == 0 { return FlushFailed, used; }
            assert outbox[outboxOff..] == outbox[outboxOff..outboxOff + n] + outbox[outboxOff + n..];
            written := written + outbox[outboxOff..outboxOff + n];
            outboxOff := outboxOff + n;
          case Full => return Waiting, used;
          case WriteInterrupted =>
          case WriteFailed => return FlushFailed, used;
        }
      }
      outbox := [];
      outboxOff := 0;
      return Drained, used;
    }

    /** Queues one frame behind what is pending; refuses one that is too long. */
    method QueueFrame(bytes: Text, events: seq<WriteEvent>) returns (ok: bool, r: Flushed)
      requires Valid()
      modifies this`outbox, this`outboxOff, this`written, this`queued
      ensures Valid() && old(written) <= written
      ensures ok <==> |bytes| <= MAX_FRAME_LEN
      ensures ok ==> queued == old(queued) + [bytes] && PendingOut() <= old(PendingOut()) + 4 + |bytes|
      ensures ok && r.Drained? ==> PendingOut() == 0
      ensures !ok ==> queued == old(queued) && PendingOut() == old(PendingOut()) && written == old(written)
    {
      hide FramedAll;
      if |bytes| > MAX_FRAME_LEN { return false, FlushFailed; }
      ghost var before := outbox[outboxOff..];
      outbox := outbox + LittleEndian.Encode(|bytes|, 4);
      outbox := outbox + bytes;
      FramedAllGrows(queued, bytes);
      queued := queued + [bytes];
      assert outbox[outboxOff..] == before + Framed(bytes);
      var used;
      r, used := Flush(events);
      ok := true;
    }
  }

  // ---------------- across the wire ----------------

  /** Framing is independent of chunking: whatever the two connections went through, if the bytes
      one was given are a prefix of the bytes the other's socket took, the frames it returned are a
      prefix of the frames queued. */
  lemma ReceivedIsAPrefixOfQueued(a: FramedConn, b: FramedConn)
    requires a.Valid() && b.Valid() && b.delivered <= a.written
    ensures b.received <= a.queued
    ensures var left := b.inbox[b.inboxOff..]; |left| >= 4 ==> Announced(left) <= MAX_FRAME_LEN
    ensures !HasWholeFrame(b.inbox[b.inboxOff..]) && b.delivered == a.written && a.PendingOut() == 0 ==>
            b.received == a.queued
  {
    var left := b.inbox[b.inboxOff..];
    assert FramedAll(b.received) + left <= a.written <= FramedAll(a.queued);
    OnlyOneReading(a.queued, b.received, left);
    if |left| >= 4 { HonestLength(a.queued[|b.received|..], left); }
    if b.delivered == a.written && a.PendingOut() == 0 && |b.received| < |a.queued| {
      WholeFrameIsLeft(a.queued, b.received, left);
    }
  }

  lemma HonestLength(rest: seq<Frame>, left: Text)
    requires left <= FramedAll(rest) && |left| >= 4
    ensures Announced(left) <= MAX_FRAME_LEN
  {
    assert rest != [];
    FramedAllFront(rest);
    AnnouncedOfFramed(rest[0], FramedAll(rest[1..]));
    assert left[..4] == FramedAll(rest)[..4];
  }

  lemma WholeFrameIsLeft(sent: seq<Frame>, got: seq<Frame>, left: Text)
    requires FramedAll(got) + left == FramedAll(sent) && |got| < |sent|
    ensures HasWholeFrame(left)
  {
    OnlyOneReading(sent, got, left);
    var rest := sent[|got|..];
    assert sent == got + rest;
    FramedAllConcat(got, rest);
    assert left == FramedAll(rest);
    FramedAllFront(rest);
    AnnouncedOfFramed(rest[0], FramedAll(rest[1..]));
  }

  lemma {:induction false} FramedAllConcat(a: seq<Frame>, b: seq<Frame>)
    ensures FramedAll(a + b) == FramedAll(a) + FramedAll(b)
  {
    hide Framed;
    if b == [] {
      assert a + b == a;
    } else {
      var n := |b| - 1;
      FramedAllConcat(a, b[..n]);
      assert (a + b)[..|a| + n] == a + b[..n];
    }
  }
}
