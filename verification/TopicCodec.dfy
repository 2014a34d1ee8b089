/** Topic records as bytes, and recovery from the bytes alone
    (xchannel-net-core/src/mux.rs). */
module TopicCodec {
  import opened Bytes
  import opened Identity
  import opened TopicRecords
  import LittleEndian
  import opened Fields
  import MuxMachine
  import MuxTheorems
  import MuxEngine

  /** A record of the topic channel. */
  datatype RawRecord = RawRecord(msgType: u16, payload: Text)

  /** The writer configuration every slot table carries. */
  datatype TopicGeometry = TopicGeometry(regionSize: nat, mtu: nat, fileRollSize: nat, keepFiles: nat)

  const SLOT_TABLE_VERSION: nat := 2
  const SLOT_TABLE_TYPE: u16 := 0xFFFF
  const TOPIC_GAP_TYPE: u16 := 0xFFFE
  const MEMBER_CLOSED_TYPE: u16 := 0xFFFD
  const TERMINAL_TYPE: u16 := 0xFFFC
  const MEMBER_REGRESSED_TYPE: u16 := 0xFFFB

  // ---------------- slot tables ----------------

  const TABLE_KINDS: seq<Kind> := [KInt(1), KInt(4), KInt(4), KInt(8), KInt(4), KInt(2)]
  const LINE_KINDS: seq<Kind> := [KInt(2), KInt(8), KInt(8), KStr(2)]

  function TableFields(g: TopicGeometry, count: nat): seq<Field> {
    [Int(1, SLOT_TABLE_VERSION), Int(4, g.regionSize), Int(4, g.mtu), Int(8, g.fileRollSize), Int(4, g.keepFiles),
        Int(2, count)]
  }

  function LineFields(e: SlotEntry): seq<Field> {
    [Int(2, e.memberRef), Int(8, e.id.epoch), Int(8, e.cursor), Str(2, e.id.name)]
  }

  function LineOf(f: seq<Field>): SlotEntry
    requires KindsOf(f) == LINE_KINDS
  {
    KindAt(f, LINE_KINDS);
    SlotEntry(f[0].value, MemberId(f[3].text, f[1].value), f[2].value)
  }

  function Lines(entries: seq<SlotEntry>): seq<seq<Field>> {
    seq(|entries|, i requires 0 <= i < |entries| => LineFields(entries[i]))
  }

  function EntriesOf(sx: Syntax, rows: seq<seq<Field>>): seq<SlotEntry>
    requires AllRows(sx, LINE_KINDS, rows)
  {
    seq(|rows|, i requires 0 <= i < |rows| => LineOf(rows[i]))
  }

  function EncodeSlotTable(g: TopicGeometry, entries: seq<SlotEntry>): Text {
    PutAll(TableFields(g, |entries|)) + PutRows(Lines(entries))
  }

  datatype SlotTableMsg = SlotTableMsg(geometry: TopicGeometry, members: seq<SlotEntry>)

  /** A table of another version is refused; bytes behind the last line are not looked at. */
  function DecodeSlotTable(sx: Syntax, b: Text): Option<SlotTableMsg> {
    var head := GetAll(sx, TABLE_KINDS, b);
    if head.None? then None
    else
      var f := head.value.value;
      GetAllFits(sx, TABLE_KINDS, b);
      KindAt(f, TABLE_KINDS);
      if f[0].value != SLOT_TABLE_VERSION then None
      else
        var rows := GetRows(sx, LINE_KINDS, f[5].value, head.value.rest);
        if rows.None? then None
        else
          GetRowsFit(sx, LINE_KINDS, f[5].value, head.value.rest);
          Some(SlotTableMsg(TopicGeometry(f[1].value, f[2].value, f[3].value, f[4].value),
              EntriesOf(sx, rows.value.value)))
  }

  /** Within the table's length fields. */
  ghost predicate TableFits(sx: Syntax, g: TopicGeometry, entries: seq<SlotEntry>) {
    && FitsAll(sx, TableFields(g, |entries|))
    && forall i :: 0 <= i < |entries| ==> FitsAll(sx, LineFields(entries[i]))
  }

  lemma LinesBack(sx: Syntax, entries: seq<SlotEntry>)
    requires forall i :: 0 <= i < |entries| ==> FitsAll(sx, LineFields(entries[i]))
    ensures AllRows(sx, LINE_KINDS, Lines(entries)) && EntriesOf(sx, Lines(entries)) == entries
  {
  }

  lemma SlotTableRoundTrip(sx: Syntax, g: TopicGeometry, entries: seq<SlotEntry>, rest: Text)
    requires TableFits(sx, g, entries)
    ensures DecodeSlotTable(sx, EncodeSlotTable(g, entries) + rest) == Some(SlotTableMsg(g, entries))
  {
    hide GetAll, GetRows, PutAll, PutRows, FitsAll, Lines, EntriesOf;
    var fields := TableFields(g, |entries|);
    LinesBack(sx, entries);
    assert |Lines(entries)| == |entries| by { LinesLength(entries); }
    GetPutAll(sx, fields, PutRows(Lines(entries)) + rest);
    GetPutRows(sx, LINE_KINDS, Lines(entries), rest);
    assert KindsOf(fields) == TABLE_KINDS;
    assert EncodeSlotTable(g, entries) + rest == PutAll(fields) + (PutRows(Lines(entries)) + rest);
  }

  lemma LinesLength(entries: seq<SlotEntry>)
    ensures |Lines(entries)| == |entries|
  {
  }

  lemma OtherVersionsAreRefused(sx: Syntax, b: Text)
    requires b != [] && b[0] != SLOT_TABLE_VERSION
    ensures DecodeSlotTable(sx, b).None?
  {
    var first := Get(sx, KInt(1), b);
    assert b[..1] == [b[0]];
    assert LittleEndian.Decode([b[0]]) == b[0] + 256 * LittleEndian.Decode([]);
    assert first == Some(Got(Int(1, b[0]), b[1..]));
    var all := GetAll(sx, TABLE_KINDS, b);
    if all.Some? {
      assert all.value.value[0] == first.value.value;
    }
  }

  // ---------------- all the records of a topic ----------------

  const PROVENANCE_KINDS: seq<Kind> := [KInt(2), KInt(8), KInt(8)]

  function Provenance(ref: nat, index: nat, meta: nat): seq<Field> {
    [Int(2, ref), Int(8, index), Int(8, meta)]
  }

  function RawOf(g: TopicGeometry, r: TopicRecord): RawRecord {
    match r
    case Data(ref, index, rec) => RawRecord(rec.msgType, PutAll(Provenance(ref, index, rec.meta)) + rec.body)
    case SlotTable(entries) => RawRecord(SLOT_TABLE_TYPE, EncodeSlotTable(g, entries))
    case TopicGap(ref, from, resumedAt) => RawRecord(TOPIC_GAP_TYPE, PutAll(Provenance(ref, from, resumedAt)))
    case MemberRegressed(ref, expected, head) => RawRecord(MEMBER_REGRESSED_TYPE,
      PutAll(Provenance(ref, expected, head)))
    case MemberClosed(ref, final) => RawRecord(MEMBER_CLOSED_TYPE, PutAll([Int(2, ref), Int(8, final)]))
    case Terminal => RawRecord(TERMINAL_TYPE, [])
  }

  /** A merged record as a consumer reads it back: whose it is, and the original. */
  function Split(sx: Syntax, raw: RawRecord): Option<TopicRecord> {
    var head := GetAll(sx, PROVENANCE_KINDS, raw.payload);
    if head.None? then None
    else
      GetAllFits(sx, PROVENANCE_KINDS, raw.payload);
      KindAt(head.value.value, PROVENANCE_KINDS);
      var f := head.value.value;
      Some(Data(f[0].value, f[1].value, MemberRecord(raw.msgType, f[2].value, head.value.rest)))
  }

  /** What the mux writes: fields within bounds, and never a member's record of a reserved type. */
  ghost predicate Writable(sx: Syntax, g: TopicGeometry, r: TopicRecord) {
    InRange(sx, g, r) && (r.Data? ==> !IsControl(r.record.msgType))
  }

  /** The record's numbers and names fit their fields. */
  ghost predicate InRange(sx: Syntax, g: TopicGeometry, r: TopicRecord) {
    match r
    case Data(ref, index, rec) => FitsAll(sx, Provenance(ref, index, rec.meta))
    case SlotTable(entries) => TableFits(sx, g, entries)
    case _ => true
  }

  lemma SplitBack(sx: Syntax, g: TopicGeometry, r: TopicRecord)
    requires r.Data? && Writable(sx, g, r)
    ensures Split(sx, RawOf(g, r)) == Some(r)
  {
    hide GetAll, PutAll, FitsAll;
    var fields := Provenance(r.memberRef, r.memberIndex, r.record.meta);
    GetPutAll(sx, fields, r.record.body);
    assert KindsOf(fields) == PROVENANCE_KINDS;
  }

  /** One step of recovery on raw records; a table or prefix that does not parse ends it. */
  function RawStep(sx: Syntax, s: ScanState, raw: RawRecord): Option<ScanState> {
    if raw.msgType == SLOT_TABLE_TYPE then
      var t := DecodeSlotTable(sx, raw.payload);
      if t.None? then None
      else Some(ScanState(RefsOf(t.value.members), Overwrite(s.out, t.value.members)))
    else if IsControl(raw.msgType) then Some(s)
    else
      var d := Split(sx, raw);
      if d.None? then None else Some(ScanStep(s, d.value))
  }

  function RawScan(sx: Syntax, raws: seq<RawRecord>): Option<ScanState> {
    if raws == [] then Some(NOTHING_SCANNED)
    else
      var before := RawScan(sx, raws[..|raws| - 1]);
      if before.None? then None else RawStep(sx, before.value, raws[|raws| - 1])
  }

  lemma RawStepIsScanStep(sx: Syntax, g: TopicGeometry, s: ScanState, r: TopicRecord)
    requires Writable(sx, g, r)
    ensures RawStep(sx, s, RawOf(g, r)) == Some(ScanStep(s, r))
  {
    hide DecodeSlotTable, EncodeSlotTable, Split, RefsOf, Overwrite, TableFits, FitsAll;
    match r
    case SlotTable(entries) =>
      SlotTableRoundTrip(sx, g, entries, []);
      assert EncodeSlotTable(g, entries) + [] == EncodeSlotTable(g, entries);
    case Data(_, _, _) => SplitBack(sx, g, r);
    case _ =>
  }

  function RawLog(g: TopicGeometry, log: seq<TopicRecord>): seq<RawRecord> {
    seq(|log|, i requires 0 <= i < |log| => RawOf(g, log[i]))
  }

  /** Recovery reads the bytes and finds the cursors the records mean. */
  lemma {:induction false} RecoveryReadsTheBytes(sx: Syntax, g: TopicGeometry, log: seq<TopicRecord>)
    requires forall i :: 0 <= i < |log| ==> Writable(sx, g, log[i])
    ensures RawScan(sx, RawLog(g, log)) == Some(Scan(log))
  {
    hide RawStep, ScanStep, RawOf, Writable;
    if log != [] {
      var n := |log| - 1;
      RecoveryReadsTheBytes(sx, g, log[..n]);
      assert RawLog(g, log)[..n] == RawLog(g, log[..n]);
      RawStepIsScanStep(sx, g, Scan(log[..n]), log[n]);
    }
  }

  /** Over any run of the mux, whatever its members write: the encoded topic is read back as what
      it means. No member record is ever taken for a table, no table for a record. */
  lemma ReachableTopicsReadBack(c: MuxMachine.Config, states: seq<MuxMachine.System>, steps: seq<MuxMachine.Step>,
                                k: nat,
                                sx: Syntax, g: TopicGeometry)
    requires MuxMachine.Run(c, states, steps) && MuxMachine.Initial(states[0]) && k < |states|
    requires forall r :: r in states[k].topic.records ==> InRange(sx, g, r)
    ensures RawScan(sx, RawLog(g, states[k].topic.records)) == Some(Scan(states[k].topic.records))
  {
    hide RawScan, RawLog, Scan, TableFits, FitsAll, MuxMachine.Run;
    var log := states[k].topic.records;
    MuxTheorems.MembersForgeNothing(c, states, steps, k);
    forall i | 0 <= i < |log| ensures Writable(sx, g, log[i]) {
      assert log[i] in log && InRange(sx, g, log[i]);
    }
    RecoveryReadsTheBytes(sx, g, log);
  }

  // ---------------- lengths ----------------

  lemma {:induction false} PutRowsAppend(rows: seq<seq<Field>>, row: seq<Field>)
    ensures PutRows(rows + [row]) == PutRows(rows) + PutAll(row)
  {
    hide PutAll;
    if rows == [] {
      assert [] + [row] == [row] && [row][1..] == [];
    } else {
      PutRowsAppend(rows[1..], row);
      assert (rows + [row])[1..] == rows[1..] + [row];
    }
  }

  lemma LineLength(e: SlotEntry)
    ensures |PutAll(LineFields(e))| == 20 + |e.id.name|
  {
    var f := LineFields(e);
    assert f[3..][1..] == [] && |PutAll(f[3..])| == 2 + |e.id.name|;
    assert f[1..][1..] == f[2..] && f[2..][1..] == f[3..] && |PutAll(f[1..])| == 16 + |PutAll(f[3..])|;
  }

  /** The size the mux rolls and rejects by is the size of the payload it writes. */
  lemma PayloadLength(g: TopicGeometry, r: TopicRecord)
    ensures |RawOf(g, r).payload| == MuxEngine.PayloadLen(r)
  {
    hide PutAll, PutRows;
    match r
    case Data(ref, index, rec) => ProvenanceLength(ref, index, rec.meta);
    case SlotTable(entries) => TableLength(g, entries);
    case TopicGap(ref, from, at) => ProvenanceLength(ref, from, at);
    case MemberRegressed(ref, expected, head) => ProvenanceLength(ref, expected, head);
    case MemberClosed(ref, final) => ClosedLength(ref, final);
    case Terminal =>
  }

  lemma ClosedLength(ref: nat, final: nat)
    ensures |PutAll([Int(2, ref), Int(8, final)])| == 10
  {
    var f := [Int(2, ref), Int(8, final)];
    assert f[1..][1..] == [] && |PutAll(f[1..])| == 8;
  }

  lemma {:induction false} TableLength(g: TopicGeometry, entries: seq<SlotEntry>)
    ensures |EncodeSlotTable(g, entries)| == MuxEngine.TableLen(entries)
  {
    HeadLength(g, |entries|);
    LinesTotal(entries);
  }

  lemma HeadLength(g: TopicGeometry, count: nat)
    ensures |PutAll(TableFields(g, count))| == 23
  {
    var f := TableFields(g, count);
    assert f[5..][1..] == [] && |PutAll(f[5..])| == 2;
    assert f[4..][1..] == f[5..] && |PutAll(f[4..])| == 4 + |PutAll(f[5..])|;
    assert f[3..][1..] == f[4..] && |PutAll(f[3..])| == 8 + |PutAll(f[4..])|;
    assert f[2..][1..] == f[3..] && |PutAll(f[2..])| == 4 + |PutAll(f[3..])|;
    assert f[1..][1..] == f[2..] && |PutAll(f[1..])| == 4 + |PutAll(f[2..])|;
  }

  lemma ProvenanceLength(ref: nat, index: nat, meta: nat)
    ensures |PutAll(Provenance(ref, index, meta))| == PROVENANCE_LEN
  {
    var f := Provenance(ref, index, meta);
    assert f[2..][1..] == [] && |PutAll(f[2..])| == 8;
    assert f[1..][1..] == f[2..] && |PutAll(f[1..])| == 8 + |PutAll(f[2..])|;
  }

  lemma {:induction false} LinesTotal(entries: seq<SlotEntry>)
    ensures 23 + |PutRows(Lines(entries))| == MuxEngine.TableLen(entries)
  {
    hide PutAll, LineFields;
    if entries != [] {
      var n := |entries| - 1;
      LinesTotal(entries[..n]);
      assert Lines(entries) == Lines(entries[..n]) + [LineFields(entries[n])];
      PutRowsAppend(Lines(entries[..n]), LineFields(entries[n]));
      LineLength(entries[n]);
    }
  }
}
