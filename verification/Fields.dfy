/** The fields wire messages are made of, written one after the other without separators:
    little-endian integers, one-byte flags, length-prefixed bytes and text, optional text
    (xchannel-net-core/src/codec.rs). */
module Fields {
  import opened Bytes
  import opened Identity
  import LittleEndian

  /** Which bytes are UTF-8, and which text parses as a socket address. */
  datatype Syntax = Syntax(utf8: Text -> bool, addr: Text -> bool)

  datatype Kind = KInt(width: nat) | KFlag | KStr(lenWidth: nat) | KRaw | KAddr | KOpt

  datatype Field =
    | Int(width: nat, value: nat)
    | Flag(on: bool)
    | Str(lenWidth: nat, text: Text)
    | Raw(bytes: Text)
    | Addr(text: Text)
    | Opt(optional: Option<Text>)

  function KindOf(f: Field): Kind {
    match f
    case Int(w, _) => KInt(w)
    case Flag(_) => KFlag
    case Str(w, _) => KStr(w)
    case Raw(_) => KRaw
    case Addr(_) => KAddr
    case Opt(_) => KOpt
  }

  function KindsOf(fields: seq<Field>): seq<Kind> {
    seq(|fields|, i requires 0 <= i < |fields| => KindOf(fields[i]))
  }

  lemma KindAt(f: seq<Field>, kinds: seq<Kind>)
    requires KindsOf(f) == kinds
    ensures |f| == |kinds| && forall i :: 0 <= i < |kinds| ==> KindOf(f[i]) == kinds[i]
  {
  }

  predicate FitsText(sx: Syntax, t: Text, lenWidth: nat) {
    |t| < LittleEndian.Pow256(lenWidth) && sx.utf8(t)
  }

  /** Within the bounds of its length field and well-formed. */
  predicate Fits(sx: Syntax, f: Field) {
    match f
    case Int(w, v) => v < LittleEndian.Pow256(w)
    case Flag(_) => true
    case Str(w, t) => FitsText(sx, t, w)
    case Raw(b) => |b| < LittleEndian.Pow256(4)
    case Addr(t) => FitsText(sx, t, 4) && sx.addr(t)
    case Opt(t) => t.Some? ==> FitsText(sx, t.value, 4)
  }

  ghost predicate FitsAll(sx: Syntax, fields: seq<Field>) {
    forall i :: 0 <= i < |fields| ==> Fits(sx, fields[i])
  }

  // ---------------- writing ----------------

  function PutBlob(b: Text, lenWidth: nat): Text {
    LittleEndian.Encode(|b|, lenWidth) + b
  }

  function Put(f: Field): Text {
    match f
    case Int(w, v) => LittleEndian.Encode(v, w)
    case Flag(on) => [if on then 1 else 0]
    case Str(w, t) => PutBlob(t, w)
    case Raw(b) => PutBlob(b, 4)
    case Addr(t) => PutBlob(t, 4)
    case Opt(t) => if t.None? then [0] else [1] + PutBlob(t.value, 4)
  }

  function PutAll(fields: seq<Field>): Text {
    if fields == [] then [] else Put(fields[0]) + PutAll(fields[1..])
  }

  function PutRows(rows: seq<seq<Field>>): Text {
    if rows == [] then [] else PutAll(rows[0]) + PutRows(rows[1..])
  }

  // ---------------- reading ----------------

  /** A value and the bytes behind it. */
  datatype Got<+T> = Got(value: T, rest: Text)

  function GetInt(width: nat, b: Text): Option<Got<nat>> {
    if |b| < width then None else Some(Got(LittleEndian.Decode(b[..width]), b[width..]))
  }

  function GetBlob(lenWidth: nat, b: Text): Option<Got<Text>> {
    var n := GetInt(lenWidth, b);
    if n.None? || |n.value.rest| < n.value.value then None
    else Some(Got(n.value.rest[..n.value.value], n.value.rest[n.value.value..]))
  }

  function GetText(sx: Syntax, lenWidth: nat, b: Text): Option<Got<Text>> {
    var t := GetBlob(lenWidth, b);
    if t.None? || !sx.utf8(t.value.value) then None else t
  }

  function Get(sx: Syntax, kind: Kind, b: Text): Option<Got<Field>> {
    match kind
    case KInt(w) =>
      var n := GetInt(w, b); if n.None? then None else Some(Got(Int(w, n.value.value), n.value.rest))
    case KFlag =>
      var n := GetInt(1, b); if n.None? then None else Some(Got(Flag(n.value.value != 0), n.value.rest))
    case KStr(w) =>
      var t := GetText(sx, w, b); if t.None? then None else Some(Got(Str(w, t.value.value), t.value.rest))
    case KRaw =>
      var t := GetBlob(4, b); if t.None? then None else Some(Got(Raw(t.value.value), t.value.rest))
    case KAddr =>
      var t := GetText(sx, 4, b);
      if t.None? || !sx.addr(t.value.value) then None else Some(Got(Addr(t.value.value), t.value.rest))
    case KOpt =>
      var n := GetInt(1, b);
      if n.None? then None
      else if n.value.value == 0 then Some(Got(Opt(None), n.value.rest))
      else
        var t := GetText(sx, 4, n.value.rest);
        if t.None? then None else Some(Got(Opt(Some(t.value.value)), t.value.rest))
  }

  function Prepend<T>(front: seq<T>, r: Option<Got<seq<T>>>): Option<Got<seq<T>>> {
    if r.None? then None else Some(Got(front + r.value.value, r.value.rest))
  }

  lemma PrependLaws<T>(a: seq<T>, b: seq<T>, r: Option<Got<seq<T>>>)
    ensures Prepend([], r) == r && Prepend(a, Prepend(b, r)) == Prepend(a + b, r)
  {
    if r.Some? {
      assert [] + r.value.value == r.value.value && a + (b + r.value.value) == a + b + r.value.value;
    }
  }

  function GetAll(sx: Syntax, kinds: seq<Kind>, b: Text): Option<Got<seq<Field>>>
    decreases |kinds|
  {
    if kinds == [] then Some(Got([], b))
    else
      var first := Get(sx, kinds[0], b);
      if first.None? then None else Prepend([first.value.value], GetAll(sx, kinds[1..], first.value.rest))
  }

  function GetRows(sx: Syntax, kinds: seq<Kind>, n: nat, b: Text): Option<Got<seq<seq<Field>>>>
    decreases n
  {
    if n == 0 then Some(Got([], b))
    else
      var first := GetAll(sx, kinds, b);
      if first.None? then None else Prepend([first.value.value], GetRows(sx, kinds, n - 1, first.value.rest))
  }

  // ---------------- what was written is what is read ----------------

  lemma GetPutInt(width: nat, n: nat, rest: Text)
    requires n < LittleEndian.Pow256(width)
    ensures GetInt(width, LittleEndian.Encode(n, width) + rest) == Some(Got(n, rest))
  {
  }

  lemma GetPutBlob(lenWidth: nat, t: Text, rest: Text)
    requires |t| < LittleEndian.Pow256(lenWidth)
    ensures GetBlob(lenWidth, PutBlob(t, lenWidth) + rest) == Some(Got(t, rest))
  {
    GetPutInt(lenWidth, |t|, t + rest);
    assert PutBlob(t, lenWidth) + rest == LittleEndian.Encode(|t|, lenWidth) + (t + rest);
  }

  lemma GetPut(sx: Syntax, f: Field, rest: Text)
    requires Fits(sx, f)
    ensures Get(sx, KindOf(f), Put(f) + rest) == Some(Got(f, rest))
  {
    hide GetInt, GetBlob, PutBlob;
    match f
    case Int(w, v) => GetPutInt(w, v, rest);
    case Flag(on) => OneByte(if on then 1 else 0, rest);
    case Str(w, t) => GetPutBlob(w, t, rest);
    case Raw(b) => GetPutBlob(4, b, rest);
    case Addr(t) => GetPutBlob(4, t, rest);
    case Opt(t) =>
      if t.None? {
        OneByte(0, rest);
      } else {
        OneByte(1, PutBlob(t.value, 4) + rest);
        GetPutBlob(4, t.value, rest);
        assert [1] + PutBlob(t.value, 4) + rest == [1] + (PutBlob(t.value, 4) + rest);
      }
  }

  lemma OneByte(b: byte, rest: Text)
    ensures GetInt(1, [b] + rest) == Some(Got(b, rest))
  {
    assert ([b] + rest)[..1] == [b];
    assert LittleEndian.Decode([b]) == b + 256 * LittleEndian.Decode([]);
  }

  lemma {:induction false} GetPutAll(sx: Syntax, fields: seq<Field>, rest: Text)
    requires FitsAll(sx, fields)
    ensures GetAll(sx, KindsOf(fields), PutAll(fields) + rest) == Some(Got(fields, rest))
    decreases |fields|
  {
    hide Get, Put, Fits;
    if fields == [] {
      assert PutAll(fields) + rest == rest;
    } else {
      GetPut(sx, fields[0], PutAll(fields[1..]) + rest);
      GetPutAll(sx, fields[1..], rest);
      assert PutAll(fields) + rest == Put(fields[0]) + (PutAll(fields[1..]) + rest);
      assert KindsOf(fields)[0] == KindOf(fields[0]) && KindsOf(fields)[1..] == KindsOf(fields[1..]);
      assert fields == [fields[0]] + fields[1..];
    }
  }

  ghost predicate AllRows(sx: Syntax, kinds: seq<Kind>, rows: seq<seq<Field>>) {
    forall i :: 0 <= i < |rows| ==> KindsOf(rows[i]) == kinds && FitsAll(sx, rows[i])
  }

  lemma {:induction false} GetPutRows(sx: Syntax, kinds: seq<Kind>, rows: seq<seq<Field>>, rest: Text)
    requires AllRows(sx, kinds, rows)
    ensures GetRows(sx, kinds, |rows|, PutRows(rows) + rest) == Some(Got(rows, rest))
    decreases |rows|
  {
    hide GetAll, PutAll, FitsAll, KindsOf;
    if rows == [] {
      assert PutRows(rows) + rest == rest;
    } else {
      GetPutAll(sx, rows[0], PutRows(rows[1..]) + rest);
      GetPutRows(sx, kinds, rows[1..], rest);
      assert PutRows(rows) + rest == PutAll(rows[0]) + (PutRows(rows[1..]) + rest);
      assert rows == [rows[0]] + rows[1..];
    }
  }

  // ---------------- more bytes behind change nothing in front ----------------

  lemma GetIntExtends(width: nat, b: Text, x: Text)
    requires GetInt(width, b).Some?
    ensures GetInt(width, b + x) == Some(Got(GetInt(width, b).value.value, GetInt(width, b).value.rest + x))
  {
    assert (b + x)[..width] == b[..width] && (b + x)[width..] == b[width..] + x;
  }

  lemma GetBlobExtends(lenWidth: nat, b: Text, x: Text)
    requires GetBlob(lenWidth, b).Some?
    ensures GetBlob(lenWidth, b + x) == Some(Got(GetBlob(lenWidth, b).value.value, GetBlob(lenWidth, b).value.rest + x))
  {
    GetIntExtends(lenWidth, b, x);
    var n := GetInt(lenWidth, b).value;
    assert (n.rest + x)[..n.value] == n.rest[..n.value] && (n.rest + x)[n.value..] == n.rest[n.value..] + x;
  }

  lemma GetExtends(sx: Syntax, kind: Kind, b: Text, x: Text)
    requires Get(sx, kind, b).Some?
    ensures Get(sx, kind, b + x) == Some(Got(Get(sx, kind, b).value.value, Get(sx, kind, b).value.rest + x))
  {
    hide GetInt, GetBlob;
    match kind
    case KInt(w) => GetIntExtends(w, b, x);
    case KFlag => GetIntExtends(1, b, x);
    case KStr(w) => GetBlobExtends(w, b, x);
    case KRaw => GetBlobExtends(4, b, x);
    case KAddr => GetBlobExtends(4, b, x);
    case KOpt =>
      GetIntExtends(1, b, x);
      if GetInt(1, b).value.value != 0 { GetBlobExtends(4, GetInt(1, b).value.rest, x); }
  }

  lemma {:induction false} GetAllExtends(sx: Syntax, kinds: seq<Kind>, b: Text, x: Text)
    requires GetAll(sx, kinds, b).Some?
    ensures GetAll(sx, kinds, b + x) == Some(Got(GetAll(sx, kinds, b).value.value, GetAll(sx, kinds, b).value.rest + x))
    decreases |kinds|
  {
    hide Get;
    if kinds != [] {
      GetExtends(sx, kinds[0], b, x);
      GetAllExtends(sx, kinds[1..], Get(sx, kinds[0], b).value.rest, x);
    }
  }

  lemma {:induction false} GetRowsExtends(sx: Syntax, kinds: seq<Kind>, n: nat, b: Text, x: Text)
    requires GetRows(sx, kinds, n, b).Some?
    ensures GetRows(sx, kinds, n, b + x)
         == Some(Got(GetRows(sx, kinds, n, b).value.value, GetRows(sx, kinds, n, b).value.rest + x))
    decreases n
  {
    hide GetAll;
    if n > 0 {
      GetAllExtends(sx, kinds, b, x);
      GetRowsExtends(sx, kinds, n - 1, GetAll(sx, kinds, b).value.rest, x);
    }
  }

  // ---------------- what is read is well-formed ----------------

  lemma GetFits(sx: Syntax, kind: Kind, b: Text)
    requires Get(sx, kind, b).Some?
    ensures KindOf(Get(sx, kind, b).value.value) == kind && Fits(sx, Get(sx, kind, b).value.value)
  {
    match kind
    case KInt(w) => LittleEndian.EncodeDecode(b[..w]);
    case KFlag =>
    case KStr(w) => LittleEndian.EncodeDecode(b[..w]);
    case KRaw => LittleEndian.EncodeDecode(b[..4]);
    case KAddr => LittleEndian.EncodeDecode(b[..4]);
    case KOpt =>
      if GetInt(1, b).value.value != 0 { LittleEndian.EncodeDecode(b[1..][..4]); }
  }

  lemma {:induction false} GetAllFits(sx: Syntax, kinds: seq<Kind>, b: Text)
    requires GetAll(sx, kinds, b).Some?
    ensures KindsOf(GetAll(sx, kinds, b).value.value) == kinds && FitsAll(sx, GetAll(sx, kinds, b).value.value)
    decreases |kinds|
  {
    hide Get, Fits;
    if kinds != [] {
      GetFits(sx, kinds[0], b);
      GetAllFits(sx, kinds[1..], Get(sx, kinds[0], b).value.rest);
      assert kinds == [kinds[0]] + kinds[1..];
    }
  }

  lemma {:induction false} GetRowsFit(sx: Syntax, kinds: seq<Kind>, n: nat, b: Text)
    requires GetRows(sx, kinds, n, b).Some?
    ensures |GetRows(sx, kinds, n, b).value.value| == n && AllRows(sx, kinds, GetRows(sx, kinds, n, b).value.value)
    decreases n
  {
    hide GetAll, KindsOf, FitsAll;
    if n > 0 {
      GetAllFits(sx, kinds, b);
      GetRowsFit(sx, kinds, n - 1, GetAll(sx, kinds, b).value.rest);
    }
  }

  // ---------------- the reader and the writer ----------------

  /** Reads fields off a frame, moving forward. */
  class Reader {
    const buf: Text
    var pos: nat

    ghost predicate Valid()
      reads this
    {
      pos <= |buf|
    }

    constructor (b: Text)
      ensures Valid() && buf == b && pos == 0
    {
      buf, pos := b, 0;
    }

    method Take(n: nat) returns (s: Option<Text>)
      requires Valid()
      modifies this
      ensures Valid()
      ensures s.Some? <==> old(pos) + n <= |buf|
      ensures s.Some? ==> s.value == buf[old(pos)..old(pos) + n] && pos == old(pos) + n
      ensures s.None? ==> pos == old(pos)
    {
      var end := pos + n;
      if end > |buf| { return None; }
      s := Some(buf[pos..end]);
      pos := end;
    }

    method TakeInt(width: nat) returns (n: Option<nat>)
      requires Valid()
      modifies this
      ensures Valid() && Reads(GetInt(width, buf[old(pos)..]), n, buf, pos)
    {
      var b := Take(width);
      if b.None? { return None; }
      assert buf[old(pos)..][..width] == b.value && buf[old(pos)..][width..] == buf[pos..];
      n := Some(LittleEndian.Decode(b.value));
    }

    method TakeBlob(lenWidth: nat) returns (t: Option<Text>)
      requires Valid()
      modifies this
      ensures Valid() && Reads(GetBlob(lenWidth, buf[old(pos)..]), t, buf, pos)
    {
      var n := TakeInt(lenWidth);
      if n.None? { return None; }
      ghost var body := buf[pos..];
      t := Take(n.value);
      if t.Some? {
        assert body[..n.value] == t.value && body[n.value..] == buf[pos..];
      }
    }

    /** The fields of a fixed layout, one after the other; the first failure ends it. */
    method TakeAll(sx: Syntax, kinds: seq<Kind>) returns (fields: Option<seq<Field>>)
      requires Valid()
      modifies this
      ensures Valid() && Reads(GetAll(sx, kinds, buf[old(pos)..]), fields, buf, pos)
    {
      hide Get;
      var got: seq<Field>, i := [], 0;
      assert kinds[0..] == kinds;
      PrependLaws(got, got, GetAll(sx, kinds, buf[pos..]));
      while i < |kinds|
        invariant Valid() && i <= |kinds|
        invariant GetAll(sx, kinds, buf[old(pos)..]) == Prepend(got, GetAll(sx, kinds[i..], buf[pos..]))
      {
        var f := TakeField(sx, kinds[i]);
        if f.None? { return None; }
        assert kinds[i..][1..] == kinds[i + 1..];
        PrependLaws(got, [f.value], GetAll(sx, kinds[i + 1..], buf[pos..]));
        got := got + [f.value];
        i := i + 1;
      }
      assert got + [] == got;
      fields := Some(got);
    }

    method TakeField(sx: Syntax, kind: Kind) returns (f: Option<Field>)
      requires Valid()
      modifies this
      ensures Valid() && Reads(Get(sx, kind, buf[old(pos)..]), f, buf, pos)
    {
      hide GetInt, GetBlob;
      match kind
      case KInt(w) =>
        var n := TakeInt(w);
        f := if n.None? then None else Some(Int(w, n.value));
      case KFlag =>
        var n := TakeInt(1);
        f := if n.None? then None else Some(Flag(n.value != 0));
      case KStr(w) =>
        var t := TakeBlob(w);
        f := if t.None? || !sx.utf8(t.value) then None else Some(Str(w, t.value));
      case KRaw =>
        var t := TakeBlob(4);
        f := if t.None? then None else Some(Raw(t.value));
      case KAddr =>
        var t := TakeBlob(4);
        f := if t.None? || !sx.utf8(t.value) || !sx.addr(t.value) then None else Some(Addr(t.value));
      case KOpt =>
        var n := TakeInt(1);
        if n.None? { return None; }
        if n.value == 0 { return Some(Opt(None)); }
        var t := TakeBlob(4);
        f := if t.None? || !sx.utf8(t.value) then None else Some(Opt(Some(t.value)));
    }

    /** `n` rows of one layout; the count comes off the wire, so the loop ends with the bytes. */
    method TakeRows(sx: Syntax, kinds: seq<Kind>, n: nat) returns (rows: Option<seq<seq<Field>>>)
      requires Valid()
      modifies this
      ensures Valid() && Reads(GetRows(sx, kinds, n, buf[old(pos)..]), rows, buf, pos)
    {
      hide GetAll;
      var got: seq<seq<Field>> := [];
      PrependLaws(got, got, GetRows(sx, kinds, n, buf[pos..]));
      for i := 0 to n
        invariant Valid()
        invariant GetRows(sx, kinds, n, buf[old(pos)..]) == Prepend(got, GetRows(sx, kinds, n - i, buf[pos..]))
      {
        var row := TakeAll(sx, kinds);
        if row.None? { return None; }
        PrependLaws(got, [row.value], GetRows(sx, kinds, n - i - 1, buf[pos..]));
        got := got + [row.value];
      }
      assert got + [] == got;
      rows := Some(got);
    }
  }

  /** A reader did what the function says: same value, and positioned at the same rest. */
  ghost predicate Reads<T>(spec: Option<Got<T>>, value: Option<T>, buf: Text, pos: nat)
    requires pos <= |buf|
  {
    (spec.Some? <==> value.Some?) && (spec.Some? ==> value.value == spec.value.value && buf[pos..] == spec.value.rest)
  }

  /** Appends fields to a buffer. */
  class Writer {
    var buf: Text

    constructor ()
      ensures buf == []
    {
      buf := [];
    }

    method WriteAll(fields: seq<Field>)
      modifies this
      ensures buf == old(buf) + PutAll(fields)
    {
      hide Put;
      var i := 0;
      while i < |fields|
        invariant i <= |fields| && buf + PutAll(fields[i..]) == old(buf) + PutAll(fields)
      {
        assert fields[i..][1..] == fields[i + 1..];
        buf := buf + Put(fields[i]);
        i := i + 1;
      }
    }

    method WriteRows(rows: seq<seq<Field>>)
      modifies this
      ensures buf == old(buf) + PutRows(rows)
    {
      hide PutAll;
      var i := 0;
      while i < |rows|
        invariant i <= |rows| && buf + PutRows(rows[i..]) == old(buf) + PutRows(rows)
      {
        assert rows[i..][1..] == rows[i + 1..];
        WriteAll(rows[i]);
        i := i + 1;
      }
    }
  }
}
