/** Stream-plane frames: the handshake and the record hot path
    (xchannel-net-core/src/codec.rs, xchannel-net-core/src/wire.rs). */
module StreamCodec {
  import opened Bytes
  import opened Identity
  import opened TopicRecords
  import Replication
  import LittleEndian
  import opened Fields
  import opened Codec

  datatype StreamMsg =
    | Subscribe(name: Text, from: nat, generation: nat)
    | SubscribeAck(name: Text, streamId: nat, start: nat, head: nat, regionSize: nat, mtu: nat,
                   fileRollSize: nat, keepFiles: nat, generation: nat)
    | Record(streamId: nat, frame: Replication.Frame)
    | Gap(name: Text, earliest: nat, head: nat)
    | Diverged(name: Text, earliest: nat, head: nat)

  const STREAM_PROTOCOL: Protocol := map[
    0 := Flat([KStr(4), KInt(8), KInt(8)]),
    1 := Flat([KStr(4), KInt(4), KInt(8), KInt(8), KInt(4), KInt(4), KInt(8), KInt(4), KInt(8)]),
    2 := Flat([KInt(4), KInt(8), KInt(2), KInt(8), KFlag, KRaw]),
    3 := Flat([KStr(4), KInt(8), KInt(8)]),
    4 := Flat([KStr(4), KInt(8), KInt(8)])]

  function StreamPacket(m: StreamMsg): Packet {
    match m
    case Subscribe(name, from, g) => Packet(0, Fixed([Str(4, name), Int(8, from), Int(8, g)]))
    case SubscribeAck(name, id, start, head, region, mtu, roll, keep, g) =>
      Packet(1, Fixed([Str(4, name), Int(4, id), Int(8, start), Int(8, head), Int(4, region), Int(4, mtu), Int(8, roll),
                       Int(4, keep), Int(8, g)]))
    case Record(id, f) =>
      Packet(2, Fixed([Int(4, id), Int(8, f.index), Int(2, f.record.msgType), Int(8, f.record.meta),
                       Flag(f.startsSegment), Raw(f.record.body)]))
    case Gap(name, earliest, head) => Packet(3, Fixed([Str(4, name), Int(8, earliest), Int(8, head)]))
    case Diverged(name, earliest, head) => Packet(4, Fixed([Str(4, name), Int(8, earliest), Int(8, head)]))
  }

  function StreamOf(sx: Syntax, p: Packet): StreamMsg
    requires p.tag in STREAM_PROTOCOL && Matches(sx, STREAM_PROTOCOL[p.tag], p.body)
  {
    var f := p.body.fields;
    KindAt(f, STREAM_PROTOCOL[p.tag].kinds);
    FitsIsBounded(sx, f);
    LittleEndian.Widths();
    match p.tag
    case 0 => Subscribe(f[0].text, f[1].value, f[2].value)
    case 1 => SubscribeAck(f[0].text, f[1].value, f[2].value, f[3].value, f[4].value, f[5].value, f[6].value,
                           f[7].value, f[8].value)
    case 2 => Record(f[0].value,
      Replication.Frame(f[1].value, f[4].on, MemberRecord(f[2].value, f[3].value, f[5].bytes)))
    case 3 => Gap(f[0].text, f[1].value, f[2].value)
    case 4 => Diverged(f[0].text, f[1].value, f[2].value)
  }

  function EncodeStream(m: StreamMsg): Text {
    EncodePacket(StreamPacket(m))
  }

  function DecodeStream(sx: Syntax, b: Text): Option<StreamMsg> {
    var p := DecodePacket(sx, STREAM_PROTOCOL, b);
    if p.None? then None else DecodedMatches(sx, STREAM_PROTOCOL, b); Some(StreamOf(sx, p.value))
  }

  lemma StreamPacketBack(sx: Syntax, m: StreamMsg)
    requires Encodable(sx, StreamPacket(m).body)
    ensures var p := StreamPacket(m);
            p.tag in STREAM_PROTOCOL && Matches(sx, STREAM_PROTOCOL[p.tag], p.body) && StreamOf(sx, p) == m
  {
  }

  /** Codec round trip and self-delimitation, stream plane. */
  lemma StreamRoundTrip(sx: Syntax, m: StreamMsg)
    requires Encodable(sx, StreamPacket(m).body)
    ensures DecodeStream(sx, EncodeStream(m)) == Some(m)
    ensures forall n :: 0 <= n < |EncodeStream(m)| ==> DecodeStream(sx, EncodeStream(m)[..n]).None?
    ensures forall x :: x != [] ==> DecodeStream(sx, EncodeStream(m) + x).None?
  {
    hide DecodePacket, EncodePacket, Matches, StreamOf, StreamPacket;
    StreamPacketBack(sx, m);
    var p := StreamPacket(m);
    PacketRoundTrip(sx, STREAM_PROTOCOL, p);
    forall n | 0 <= n < |EncodeStream(m)| ensures DecodeStream(sx, EncodeStream(m)[..n]).None? {
      NoStrictPrefixDecodes(sx, STREAM_PROTOCOL, p, n);
    }
    forall x: Text | x != [] ensures DecodeStream(sx, EncodeStream(m) + x).None? {
      NoExtensionDecodes(sx, STREAM_PROTOCOL, EncodePacket(p), x);
    }
  }

  /** The single stream of a connection. */
  const STREAM_ID: nat := 0

  /** What one record costs on the wire, without the length prefix of the frame. */
  lemma RecordLength(f: Replication.Frame)
    ensures |EncodeStream(Record(STREAM_ID, f))| == 28 + |f.record.body|
  {
    var fields := StreamPacket(Record(STREAM_ID, f)).body.fields;
    assert fields[5..][1..] == [] && |PutAll(fields[5..])| == 4 + |f.record.body|;
    assert fields[3..][1..] == fields[4..] && fields[4..][1..] == fields[5..]
        && |PutAll(fields[3..])| == 9 + |PutAll(fields[5..])|;
    assert fields[1..][1..] == fields[2..] && fields[2..][1..] == fields[3..]
        && |PutAll(fields[1..])| == 10 + |PutAll(fields[3..])|;
  }
}
