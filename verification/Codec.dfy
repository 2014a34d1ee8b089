/** Control, stream and client messages as byte frames: a tag, then the fields of that tag's
    layout, then nothing (xchannel-net-core/src/codec.rs, xchannel-net-core/src/wire.rs). */
module Codec {
  import opened Bytes
  import opened Identity
  import LittleEndian
  import opened Fields

  // ---------------- frames ----------------

  /** Either a fixed list of fields, or a counted list of rows and fields behind it. */
  datatype Layout = Flat(kinds: seq<Kind>) | Listing(row: seq<Kind>, tail: seq<Kind>)

  datatype Body = Fixed(fields: seq<Field>) | Counted(rows: seq<seq<Field>>, tail: seq<Field>)

  datatype Packet = Packet(tag: byte, body: Body)

  ghost predicate Matches(sx: Syntax, layout: Layout, body: Body) {
    match layout
    case Flat(kinds) => body.Fixed? && KindsOf(body.fields) == kinds && FitsAll(sx, body.fields)
    case Listing(row, tail) =>
      && body.Counted? && AllRows(sx, row, body.rows) && |body.rows| < 0x1_0000_0000
      && KindsOf(body.tail) == tail && FitsAll(sx, body.tail)
  }

  function PutBody(body: Body): Text {
    match body
    case Fixed(fields) => PutAll(fields)
    case Counted(rows, tail) => LittleEndian.Encode(|rows|, 4) + PutRows(rows) + PutAll(tail)
  }

  function GetBody(sx: Syntax, layout: Layout, b: Text): Option<Got<Body>> {
    match layout
    case Flat(kinds) =>
      var r := GetAll(sx, kinds, b); if r.None? then None else Some(Got(Fixed(r.value.value), r.value.rest))
    case Listing(row, tail) =>
      var n := GetInt(4, b);
      if n.None? then None
      else
        var rows := GetRows(sx, row, n.value.value, n.value.rest);
        if rows.None? then None
        else
          var r := GetAll(sx, tail, rows.value.rest);
          if r.None? then None else Some(Got(Counted(rows.value.value, r.value.value), r.value.rest))
  }

  function EncodePacket(p: Packet): Text {
    [p.tag] + PutBody(p.body)
  }

  /** The layouts of one protocol, by tag. */
  type Protocol = map<byte, Layout>

  /** Unknown tags, short frames, malformed fields and trailing bytes are all refused. */
  function DecodePacket(sx: Syntax, protocol: Protocol, b: Text): Option<Packet> {
    if b == [] || b[0] !in protocol then None
    else
      var r := GetBody(sx, protocol[b[0]], b[1..]);
      if r.None? || r.value.rest != [] then None else Some(Packet(b[0], r.value.value))
  }

  lemma GetPutBody(sx: Syntax, layout: Layout, body: Body, rest: Text)
    requires Matches(sx, layout, body)
    ensures GetBody(sx, layout, PutBody(body) + rest) == Some(Got(body, rest))
  {
    hide GetAll, GetRows, PutAll, PutRows, GetInt, KindsOf, FitsAll, AllRows;
    match layout
    case Flat(_) => GetPutAll(sx, body.fields, rest);
    case Listing(row, _) =>
      var behind := PutAll(body.tail) + rest;
      LittleEndian.Widths();
      GetPutInt(4, |body.rows|, PutRows(body.rows) + behind);
      GetPutRows(sx, row, body.rows, behind);
      GetPutAll(sx, body.tail, rest);
      assert PutBody(body) + rest == LittleEndian.Encode(|body.rows|, 4) + (PutRows(body.rows) + behind);
  }

  lemma GetBodyExtends(sx: Syntax, layout: Layout, b: Text, x: Text)
    requires GetBody(sx, layout, b).Some?
    ensures GetBody(sx, layout, b + x)
            == Some(Got(GetBody(sx, layout, b).value.value, GetBody(sx, layout, b).value.rest + x))
  {
    hide GetAll, GetRows, GetInt;
    match layout
    case Flat(kinds) => GetAllExtends(sx, kinds, b, x);
    case Listing(row, tail) =>
      GetIntExtends(4, b, x);
      var n := GetInt(4, b).value;
      GetRowsExtends(sx, row, n.value, n.rest, x);
      GetAllExtends(sx, tail, GetRows(sx, row, n.value, n.rest).value.rest, x);
  }

  /** What decodes is well-formed. */
  lemma GetBodyMatches(sx: Syntax, layout: Layout, b: Text)
    requires GetBody(sx, layout, b).Some?
    ensures Matches(sx, layout, GetBody(sx, layout, b).value.value)
  {
    hide GetAll, GetRows, GetInt, KindsOf, FitsAll, AllRows;
    match layout
    case Flat(kinds) => GetAllFits(sx, kinds, b);
    case Listing(row, tail) =>
      var n := GetInt(4, b).value;
      CountFits(b);
      GetRowsFit(sx, row, n.value, n.rest);
      GetAllFits(sx, tail, GetRows(sx, row, n.value, n.rest).value.rest);
  }

  lemma CountFits(b: Text)
    requires GetInt(4, b).Some?
    ensures GetInt(4, b).value.value < 0x1_0000_0000
  {
    LittleEndian.Widths();
    LittleEndian.EncodeDecode(b[..4]);
  }

  lemma PacketRoundTrip(sx: Syntax, protocol: Protocol, p: Packet)
    requires p.tag in protocol && Matches(sx, protocol[p.tag], p.body)
    ensures DecodePacket(sx, protocol, EncodePacket(p)) == Some(p)
  {
    hide Matches, GetBody, PutBody;
    GetPutBody(sx, protocol[p.tag], p.body, []);
    assert EncodePacket(p)[1..] == PutBody(p.body) + [];
  }

  /** Frames are self-delimiting: nothing longer than a frame that decodes does, so no strict
      prefix of one does either. */
  lemma NoExtensionDecodes(sx: Syntax, protocol: Protocol, b: Text, x: Text)
    requires DecodePacket(sx, protocol, b).Some? && x != []
    ensures DecodePacket(sx, protocol, b + x).None?
  {
    hide GetBody;
    GetBodyExtends(sx, protocol[b[0]], b[1..], x);
    assert (b + x)[1..] == b[1..] + x;
  }

  lemma NoStrictPrefixDecodes(sx: Syntax, protocol: Protocol, p: Packet, n: nat)
    requires p.tag in protocol && Matches(sx, protocol[p.tag], p.body) && n < |EncodePacket(p)|
    ensures DecodePacket(sx, protocol, EncodePacket(p)[..n]).None?
  {
    hide DecodePacket, EncodePacket;
    PacketRoundTrip(sx, protocol, p);
    var b := EncodePacket(p);
    assert b == b[..n] + b[n..];
    if DecodePacket(sx, protocol, b[..n]).Some? { NoExtensionDecodes(sx, protocol, b[..n], b[n..]); }
  }

  // ---------------- identities ----------------

  const IDENTITY_KINDS: seq<Kind> := [KStr(4), KInt(8), KInt(4), KInt(4), KInt(8), KInt(8), KInt(8), KFlag, KOpt]

  function IdentityFields(id: ChannelIdentity): seq<Field> {
    [Str(4, id.name), Int(8, id.owner), Int(4, id.regionSize), Int(4, id.mtu), Int(8, id.earliestIndex),
     Int(8, id.registeredAt), Int(8, id.epoch), Flag(id.deleted), Opt(id.memberOf)]
  }

  /** Integers as wide as their fields. */
  ghost predicate Bounded(fields: seq<Field>) {
    forall i :: 0 <= i < |fields| && fields[i].Int? ==> fields[i].value < LittleEndian.Pow256(fields[i].width)
  }

  function IdentityOf(f: seq<Field>): ChannelIdentity
    requires KindsOf(f) == IDENTITY_KINDS && Bounded(f)
  {
    KindAt(f, IDENTITY_KINDS);
    LittleEndian.Widths();
    ChannelIdentity(f[0].text, f[1].value, f[2].value, f[3].value, f[4].value, f[5].value, f[6].value, f[7].on,
        f[8].optional)
  }

  lemma IdentityFieldsBack(id: ChannelIdentity)
    requires Bounded(IdentityFields(id))
    ensures KindsOf(IdentityFields(id)) == IDENTITY_KINDS && IdentityOf(IdentityFields(id)) == id
  {
  }

  /** The length a sender sizes its deadline by is the length it writes. */
  function IdentityEncodedLen(id: ChannelIdentity): nat {
    4 + |id.name| + 8 + 4 + 4 + 8 + 8 + 8 + 1 + 1 + if id.memberOf.Some? then 4 + |id.memberOf.value| else 0
  }

  function IdentitiesEncodedLen(ids: seq<ChannelIdentity>): nat {
    if ids == [] then 0 else IdentityEncodedLen(ids[0]) + IdentitiesEncodedLen(ids[1..])
  }

  lemma EncodedLenIsExact(id: ChannelIdentity)
    ensures |PutAll(IdentityFields(id))| == IdentityEncodedLen(id)
  {
    var f := IdentityFields(id);
    assert |PutAll(f[9..])| == 0;
    assert f[7..][1..] == f[8..] && f[8..][1..] == f[9..] && |PutAll(f[7..])| == |Put(f[7])| + |Put(f[8])|;
    assert f[5..][1..] == f[6..] && f[6..][1..] == f[7..] && |PutAll(f[5..])| == 16 + |PutAll(f[7..])|;
    assert f[3..][1..] == f[4..] && f[4..][1..] == f[5..] && |PutAll(f[3..])| == 12 + |PutAll(f[5..])|;
    assert f[1..][1..] == f[2..] && f[2..][1..] == f[3..] && |PutAll(f[1..])| == 12 + |PutAll(f[3..])|;
  }

  lemma {:induction false} EncodedLensAreExact(ids: seq<ChannelIdentity>)
    ensures |PutRows(IdentityRows(ids))| == IdentitiesEncodedLen(ids)
  {
    hide IdentityFields, PutAll, IdentityEncodedLen;
    if ids != [] {
      EncodedLenIsExact(ids[0]);
      EncodedLensAreExact(ids[1..]);
      assert IdentityRows(ids)[1..] == IdentityRows(ids[1..]);
    }
  }

  function IdentityRows(ids: seq<ChannelIdentity>): seq<seq<Field>> {
    seq(|ids|, i requires 0 <= i < |ids| => IdentityFields(ids[i]))
  }

  function IdentitiesOf(sx: Syntax, rows: seq<seq<Field>>): seq<ChannelIdentity>
    requires AllRows(sx, IDENTITY_KINDS, rows)
  {
    seq(|rows|, i requires 0 <= i < |rows| => IdentityOf(rows[i]))
  }

  lemma IdentityRowsBack(sx: Syntax, ids: seq<ChannelIdentity>)
    requires forall i :: 0 <= i < |ids| ==> FitsAll(sx, IdentityFields(ids[i]))
    ensures AllRows(sx, IDENTITY_KINDS, IdentityRows(ids)) && IdentitiesOf(sx, IdentityRows(ids)) == ids
  {
  }

  lemma FitsIsBounded(sx: Syntax, fields: seq<Field>)
    requires FitsAll(sx, fields)
    ensures Bounded(fields)
  {
  }

  /** Within the bounds of its fields: what a sender's types and length limits guarantee. */
  ghost predicate Encodable(sx: Syntax, body: Body) {
    match body
    case Fixed(fields) => FitsAll(sx, fields)
    case Counted(rows, tail) =>
      (forall i :: 0 <= i < |rows| ==> FitsAll(sx, rows[i])) && |rows| < 0x1_0000_0000 && FitsAll(sx, tail)
  }

  lemma DecodedMatches(sx: Syntax, protocol: Protocol, b: Text)
    requires DecodePacket(sx, protocol, b).Some?
    ensures var p := DecodePacket(sx, protocol, b).value; p.tag in protocol && Matches(sx, protocol[p.tag], p.body)
  {
    hide Matches, GetBody;
    GetBodyMatches(sx, protocol[b[0]], b[1..]);
  }

  // ---------------- control plane ----------------

  datatype ControlMsg =
    | Register(id: ChannelIdentity)
    | Deregister(name: Text, owner: NodeId)
    | RegistryDelta(ids: seq<ChannelIdentity>)
    | RegistrySync(ids: seq<ChannelIdentity>)
    | Heartbeat(node: NodeId, addr: Text, controlAddr: Text, name: Text)
    | RegisterRejected(name: Text, winner: NodeId)
    | PeerHint(node: NodeId, addr: Text, controlAddr: Text, name: Text)
    | Leaving(node: NodeId)

  const PEER_KINDS: seq<Kind> := [KInt(8), KAddr, KAddr, KStr(4)]

  const CONTROL_PROTOCOL: Protocol := map[
    0 := Flat(IDENTITY_KINDS), 1 := Flat([KStr(4), KInt(8)]), 2 := Listing(IDENTITY_KINDS, []),
    3 := Listing(IDENTITY_KINDS, []), 4 := Flat(PEER_KINDS), 5 := Flat([KStr(4), KInt(8)]), 6 := Flat(PEER_KINDS),
    7 := Flat([KInt(8)])]

  function ControlPacket(m: ControlMsg): Packet {
    match m
    case Register(id) => Packet(0, Fixed(IdentityFields(id)))
    case Deregister(name, owner) => Packet(1, Fixed([Str(4, name), Int(8, owner)]))
    case RegistryDelta(ids) => Packet(2, Counted(IdentityRows(ids), []))
    case RegistrySync(ids) => Packet(3, Counted(IdentityRows(ids), []))
    case Heartbeat(node, a, c, name) => Packet(4, Fixed([Int(8, node), Addr(a), Addr(c), Str(4, name)]))
    case RegisterRejected(name, winner) => Packet(5, Fixed([Str(4, name), Int(8, winner)]))
    case PeerHint(node, a, c, name) => Packet(6, Fixed([Int(8, node), Addr(a), Addr(c), Str(4, name)]))
    case Leaving(node) => Packet(7, Fixed([Int(8, node)]))
  }

  function ControlOf(sx: Syntax, p: Packet): ControlMsg
    requires p.tag in CONTROL_PROTOCOL && Matches(sx, CONTROL_PROTOCOL[p.tag], p.body)
  {
    if p.tag == 2 then RegistryDelta(IdentitiesOf(sx, p.body.rows))
    else if p.tag == 3 then RegistrySync(IdentitiesOf(sx, p.body.rows))
    else
      var f := p.body.fields;
      KindAt(f, CONTROL_PROTOCOL[p.tag].kinds);
      match p.tag
      case 0 => FitsIsBounded(sx, f); Register(IdentityOf(f))
      case 1 => Deregister(f[0].text, f[1].value)
      case 4 => Heartbeat(f[0].value, f[1].text, f[2].text, f[3].text)
      case 5 => RegisterRejected(f[0].text, f[1].value)
      case 6 => PeerHint(f[0].value, f[1].text, f[2].text, f[3].text)
      case 7 => Leaving(f[0].value)
  }

  function EncodeControl(m: ControlMsg): Text {
    EncodePacket(ControlPacket(m))
  }

  function DecodeControl(sx: Syntax, b: Text): Option<ControlMsg> {
    var p := DecodePacket(sx, CONTROL_PROTOCOL, b);
    if p.None? then None else DecodedMatches(sx, CONTROL_PROTOCOL, b); Some(ControlOf(sx, p.value))
  }

  lemma ControlPacketBack(sx: Syntax, m: ControlMsg)
    requires Encodable(sx, ControlPacket(m).body)
    ensures var p := ControlPacket(m);
            p.tag in CONTROL_PROTOCOL && Matches(sx, CONTROL_PROTOCOL[p.tag], p.body) && ControlOf(sx, p) == m
  {
    match m
    case Register(id) => FitsIsBounded(sx, IdentityFields(id)); IdentityFieldsBack(id);
    case RegistryDelta(ids) => RowsFit(sx, ids); IdentityRowsBack(sx, ids);
    case RegistrySync(ids) => RowsFit(sx, ids); IdentityRowsBack(sx, ids);
    case _ =>
  }

  lemma RowsFit(sx: Syntax, ids: seq<ChannelIdentity>)
    requires forall i :: 0 <= i < |IdentityRows(ids)| ==> FitsAll(sx, IdentityRows(ids)[i])
    ensures forall i :: 0 <= i < |ids| ==> FitsAll(sx, IdentityFields(ids[i]))
  {
    hide IdentityFields, FitsAll;
    forall i | 0 <= i < |ids| ensures FitsAll(sx, IdentityFields(ids[i])) {
      assert IdentityRows(ids)[i] == IdentityFields(ids[i]);
    }
  }

  /** Codec round trip and self-delimitation, control plane. */
  lemma ControlRoundTrip(sx: Syntax, m: ControlMsg)
    requires Encodable(sx, ControlPacket(m).body)
    ensures DecodeControl(sx, EncodeControl(m)) == Some(m)
    ensures forall n :: 0 <= n < |EncodeControl(m)| ==> DecodeControl(sx, EncodeControl(m)[..n]).None?
    ensures forall x :: x != [] ==> DecodeControl(sx, EncodeControl(m) + x).None?
  {
    hide DecodePacket, EncodePacket, Matches, ControlOf, ControlPacket;
    ControlPacketBack(sx, m);
    var p := ControlPacket(m);
    PacketRoundTrip(sx, CONTROL_PROTOCOL, p);
    forall n | 0 <= n < |EncodeControl(m)| ensures DecodeControl(sx, EncodeControl(m)[..n]).None? {
      NoStrictPrefixDecodes(sx, CONTROL_PROTOCOL, p, n);
    }
    forall x: Text | x != [] ensures DecodeControl(sx, EncodeControl(m) + x).None? {
      NoExtensionDecodes(sx, CONTROL_PROTOCOL, EncodePacket(p), x);
    }
  }
}
