/** Frames between a client and its local daemon
    (xchannel-net-core/src/codec.rs, xchannel-net-core/src/wire.rs). */
module ClientCodec {
  import opened Bytes
  import opened Identity
  import opened Fields
  import opened Codec

  datatype ChannelOptions = ChannelOptions(regionSize: nat, mtu: nat, fileRollSize: nat, keepFiles: nat)

  datatype TopicOptions = TopicOptions(channel: ChannelOptions, maxBatchPerMember: nat, memberReapAfterMs: nat)

  datatype ClientRequest =
    | Create(name: Text, options: ChannelOptions)
    | SubscribeTo(name: Text, waitMs: nat)
    | CreateTopic(name: Text, topicOptions: TopicOptions)
    | PublishToTopic(topic: Text, member: Text, options: ChannelOptions)
    | StatusOf(name: Text)
    | DeregisterName(name: Text)
    | ForceDeregister(name: Text)
    | ListChannels(prefix: Text)

  function OptionFields(o: ChannelOptions): seq<Field> {
    [Int(4, o.regionSize), Int(4, o.mtu), Int(8, o.fileRollSize), Int(4, o.keepFiles)]
  }

  function OptionsOf(f: seq<Field>): ChannelOptions
    requires |f| == 4 && forall i :: 0 <= i < 4 ==> f[i].Int?
  {
    ChannelOptions(f[0].value, f[1].value, f[2].value, f[3].value)
  }

  const REQUEST_PROTOCOL: Protocol := map[
    0 := Flat([KStr(4), KInt(4), KInt(4), KInt(8), KInt(4)]),
    1 := Flat([KStr(4), KInt(8)]),
    2 := Flat([KStr(4), KInt(4), KInt(4), KInt(8), KInt(4), KInt(4), KInt(8)]),
    3 := Flat([KStr(4), KStr(4), KInt(4), KInt(4), KInt(8), KInt(4)]),
    4 := Flat([KStr(4)]), 5 := Flat([KStr(4)]), 6 := Flat([KStr(4)]), 7 := Flat([KStr(4)])]

  function RequestPacket(m: ClientRequest): Packet {
    match m
    case Create(name, o) => Packet(0, Fixed([Str(4, name)] + OptionFields(o)))
    case SubscribeTo(name, wait) => Packet(1, Fixed([Str(4, name), Int(8, wait)]))
    case CreateTopic(name, o) =>
      Packet(2, Fixed([Str(4, name)] + OptionFields(o.channel)
          + [Int(4, o.maxBatchPerMember), Int(8, o.memberReapAfterMs)]))
    case PublishToTopic(topic, member, o) => Packet(3, Fixed([Str(4, topic), Str(4, member)] + OptionFields(o)))
    case StatusOf(name) => Packet(4, Fixed([Str(4, name)]))
    case DeregisterName(name) => Packet(5, Fixed([Str(4, name)]))
    case ForceDeregister(name) => Packet(6, Fixed([Str(4, name)]))
    case ListChannels(prefix) => Packet(7, Fixed([Str(4, prefix)]))
  }

  function RequestOf(sx: Syntax, p: Packet): ClientRequest
    requires p.tag in REQUEST_PROTOCOL && Matches(sx, REQUEST_PROTOCOL[p.tag], p.body)
  {
    var f := p.body.fields;
    KindAt(f, REQUEST_PROTOCOL[p.tag].kinds);
    match p.tag
    case 0 => Create(f[0].text, OptionsOf(f[1..5]))
    case 1 => SubscribeTo(f[0].text, f[1].value)
    case 2 => CreateTopic(f[0].text, TopicOptions(OptionsOf(f[1..5]), f[5].value, f[6].value))
    case 3 => PublishToTopic(f[0].text, f[1].text, OptionsOf(f[2..6]))
    case 4 => StatusOf(f[0].text)
    case 5 => DeregisterName(f[0].text)
    case 6 => ForceDeregister(f[0].text)
    case 7 => ListChannels(f[0].text)
  }

  function EncodeRequest(m: ClientRequest): Text {
    EncodePacket(RequestPacket(m))
  }

  function DecodeRequest(sx: Syntax, b: Text): Option<ClientRequest> {
    var p := DecodePacket(sx, REQUEST_PROTOCOL, b);
    if p.None? then None else DecodedMatches(sx, REQUEST_PROTOCOL, b); Some(RequestOf(sx, p.value))
  }

  lemma RequestPacketBack(sx: Syntax, m: ClientRequest)
    requires Encodable(sx, RequestPacket(m).body)
    ensures var p := RequestPacket(m);
            p.tag in REQUEST_PROTOCOL && Matches(sx, REQUEST_PROTOCOL[p.tag], p.body) && RequestOf(sx, p) == m
  {
  }

  lemma RequestRoundTrip(sx: Syntax, m: ClientRequest)
    requires Encodable(sx, RequestPacket(m).body)
    ensures DecodeRequest(sx, EncodeRequest(m)) == Some(m)
    ensures forall n :: 0 <= n < |EncodeRequest(m)| ==> DecodeRequest(sx, EncodeRequest(m)[..n]).None?
    ensures forall x :: x != [] ==> DecodeRequest(sx, EncodeRequest(m) + x).None?
  {
    hide DecodePacket, EncodePacket, Matches, RequestOf, RequestPacket;
    RequestPacketBack(sx, m);
    var p := RequestPacket(m);
    PacketRoundTrip(sx, REQUEST_PROTOCOL, p);
    forall n | 0 <= n < |EncodeRequest(m)| ensures DecodeRequest(sx, EncodeRequest(m)[..n]).None? {
      NoStrictPrefixDecodes(sx, REQUEST_PROTOCOL, p, n);
    }
    forall x: Text | x != [] ensures DecodeRequest(sx, EncodeRequest(m) + x).None? {
      NoExtensionDecodes(sx, REQUEST_PROTOCOL, EncodePacket(p), x);
    }
  }

  // ---------------- replies ----------------

  datatype ChannelInfo = ChannelInfo(name: Text, owner: NodeId, epoch: nat, ownerLive: bool, memberOf: Option<Text>,
                                     regionSize: nat, mtu: nat, earliestIndex: nat)

  datatype SubscriptionStatus = SubscriptionStatus(
    local: bool, active: bool, synced: nat, headAtConnect: nat, owner: NodeId, ownerLive: bool, generation: nat,
    lastRecordAtMs: nat, rebuildsGap: nat, rebuildsDiverged: nat, lastRebuildAtMs: nat)

  datatype DiscoveryCursor = DiscoveryCursor(logPath: Text, generation: nat, from: nat)

  datatype ClientReply =
    | Created(path: Text)
    | Subscribed(replicaPath: Text)
    | Error(message: Text)
    | Status(status: SubscriptionStatus)
    | Deregistered(existed: bool)
    | Channels(channels: seq<ChannelInfo>, cursor: DiscoveryCursor)

  const INFO_KINDS: seq<Kind> := [KStr(4), KInt(8), KInt(8), KFlag, KOpt, KInt(4), KInt(4), KInt(8)]

  function InfoFields(c: ChannelInfo): seq<Field> {
    [Str(4, c.name), Int(8, c.owner), Int(8, c.epoch), Flag(c.ownerLive), Opt(c.memberOf), Int(4, c.regionSize),
     Int(4, c.mtu), Int(8, c.earliestIndex)]
  }

  function InfoOf(f: seq<Field>): ChannelInfo
    requires KindsOf(f) == INFO_KINDS
  {
    KindAt(f, INFO_KINDS);
    ChannelInfo(f[0].text, f[1].value, f[2].value, f[3].on, f[4].optional, f[5].value, f[6].value, f[7].value)
  }

  function InfoRows(channels: seq<ChannelInfo>): seq<seq<Field>> {
    seq(|channels|, i requires 0 <= i < |channels| => InfoFields(channels[i]))
  }

  function InfosOf(sx: Syntax, rows: seq<seq<Field>>): seq<ChannelInfo>
    requires AllRows(sx, INFO_KINDS, rows)
  {
    seq(|rows|, i requires 0 <= i < |rows| => InfoOf(rows[i]))
  }

  lemma InfoRowsBack(sx: Syntax, channels: seq<ChannelInfo>)
    requires forall i :: 0 <= i < |channels| ==> FitsAll(sx, InfoRows(channels)[i])
    ensures AllRows(sx, INFO_KINDS, InfoRows(channels)) && InfosOf(sx, InfoRows(channels)) == channels
  {
  }

  const STATUS_KINDS: seq<Kind> :=
    [KFlag, KFlag, KInt(8), KInt(8), KInt(8), KFlag, KInt(8), KInt(8), KInt(8), KInt(8), KInt(8)]

  function StatusFields(s: SubscriptionStatus): seq<Field> {
    [Flag(s.local), Flag(s.active), Int(8, s.synced), Int(8, s.headAtConnect), Int(8, s.owner), Flag(s.ownerLive),
     Int(8, s.generation), Int(8, s.lastRecordAtMs), Int(8, s.rebuildsGap), Int(8, s.rebuildsDiverged),
     Int(8, s.lastRebuildAtMs)]
  }

  function StatusOfFields(f: seq<Field>): SubscriptionStatus
    requires KindsOf(f) == STATUS_KINDS
  {
    KindAt(f, STATUS_KINDS);
    SubscriptionStatus(f[0].on, f[1].on, f[2].value, f[3].value, f[4].value, f[5].on, f[6].value, f[7].value,
                       f[8].value, f[9].value, f[10].value)
  }

  const REPLY_PROTOCOL: Protocol := map[
    0 := Flat([KStr(4)]), 1 := Flat([KStr(4)]), 2 := Flat([KStr(4)]), 3 := Flat(STATUS_KINDS), 4 := Flat([KFlag]),
    5 := Listing(INFO_KINDS, [KStr(4), KInt(8), KInt(8)])]

  function ReplyPacket(m: ClientReply): Packet {
    match m
    case Created(path) => Packet(0, Fixed([Str(4, path)]))
    case Subscribed(path) => Packet(1, Fixed([Str(4, path)]))
    case Error(message) => Packet(2, Fixed([Str(4, message)]))
    case Status(s) => Packet(3, Fixed(StatusFields(s)))
    case Deregistered(existed) => Packet(4, Fixed([Flag(existed)]))
    case Channels(channels, c) =>
      Packet(5, Counted(InfoRows(channels), [Str(4, c.logPath), Int(8, c.generation), Int(8, c.from)]))
  }

  function ReplyOf(sx: Syntax, p: Packet): ClientReply
    requires p.tag in REPLY_PROTOCOL && Matches(sx, REPLY_PROTOCOL[p.tag], p.body)
  {
    if p.tag == 5 then
      var t := p.body.tail;
      KindAt(t, REPLY_PROTOCOL[5].tail);
      Channels(InfosOf(sx, p.body.rows), DiscoveryCursor(t[0].text, t[1].value, t[2].value))
    else if p.tag == 3 then Status(StatusOfFields(p.body.fields))
    else
      var f := p.body.fields;
      KindAt(f, REPLY_PROTOCOL[p.tag].kinds);
      match p.tag
      case 0 => Created(f[0].text)
      case 1 => Subscribed(f[0].text)
      case 2 => Error(f[0].text)
      case 4 => Deregistered(f[0].on)
  }

  function EncodeReply(m: ClientReply): Text {
    EncodePacket(ReplyPacket(m))
  }

  function DecodeReply(sx: Syntax, b: Text): Option<ClientReply> {
    var p := DecodePacket(sx, REPLY_PROTOCOL, b);
    if p.None? then None else DecodedMatches(sx, REPLY_PROTOCOL, b); Some(ReplyOf(sx, p.value))
  }

  lemma ReplyPacketBack(sx: Syntax, m: ClientReply)
    requires Encodable(sx, ReplyPacket(m).body)
    ensures var p := ReplyPacket(m);
            p.tag in REPLY_PROTOCOL && Matches(sx, REPLY_PROTOCOL[p.tag], p.body) && ReplyOf(sx, p) == m
  {
    if m.Channels? { InfoRowsBack(sx, m.channels); }
  }

  lemma ReplyRoundTrip(sx: Syntax, m: ClientReply)
    requires Encodable(sx, ReplyPacket(m).body)
    ensures DecodeReply(sx, EncodeReply(m)) == Some(m)
    ensures forall n :: 0 <= n < |EncodeReply(m)| ==> DecodeReply(sx, EncodeReply(m)[..n]).None?
    ensures forall x :: x != [] ==> DecodeReply(sx, EncodeReply(m) + x).None?
  {
    hide DecodePacket, EncodePacket, Matches, ReplyOf, ReplyPacket;
    ReplyPacketBack(sx, m);
    var p := ReplyPacket(m);
    PacketRoundTrip(sx, REPLY_PROTOCOL, p);
    forall n | 0 <= n < |EncodeReply(m)| ensures DecodeReply(sx, EncodeReply(m)[..n]).None? {
      NoStrictPrefixDecodes(sx, REPLY_PROTOCOL, p, n);
    }
    forall x: Text | x != [] ensures DecodeReply(sx, EncodeReply(m) + x).None? {
      NoExtensionDecodes(sx, REPLY_PROTOCOL, EncodePacket(p), x);
    }
  }
}
