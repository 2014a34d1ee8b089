/** Recovery reads only what the topic still retains. */
module MuxRecovery {
  import opened TopicRecords
  import opened MuxInvariant

  ghost predicate HasTable(log: seq<TopicRecord>) {
    exists t :: t in log && t.SlotTable?
  }

  /** What a scan of `window` knows of `id`, against a scan of the whole `log`: everything
      if a table in the window names the member, nothing if none does. */
  ghost predicate SeesMember(window: seq<TopicRecord>, log: seq<TopicRecord>, id: MemberId) {
    var w, f := Scan(window).out, Scan(log).out;
    if Named(window, id) then (id in w <==> id in f) && Next(w, id) == Next(f, id)
    else id !in w
  }

  ghost predicate Sees(window: seq<TopicRecord>, log: seq<TopicRecord>) {
    && (HasTable(window) ==> Scan(window).active == Scan(log).active)
    && (!HasTable(window) ==> Scan(window) == NOTHING_SCANNED)
    && (forall ref :: ref in Scan(window).active ==> Named(window, Scan(window).active[ref]))
    && (forall id :: SeesMember(window, log, id))
  }

  lemma SeesTable(window: seq<TopicRecord>, log: seq<TopicRecord>, r: TopicRecord)
    requires Sees(window, log) && r.SlotTable?
    ensures Sees(window + [r], log + [r])
  {
    ScanAppend(window, r);
    ScanAppend(log, r);
    assert r in window + [r];
    forall id ensures SeesMember(window + [r], log + [r], id) {
      assert SeesMember(window, log, id);
      NamedAppend(window, r, id);
      OverwriteAgrees(Scan(window).out, Scan(log).out, r.entries, id);
      OverwriteAgrees(Scan(log).out, Scan(window).out, r.entries, id);
    }
    forall ref | ref in RefsOf(r.entries) ensures Named(window + [r], RefsOf(r.entries)[ref]) {
      RefsOfComesFromALine(r.entries, ref);
      NamedAppend(window, r, RefsOf(r.entries)[ref]);
    }
  }

  lemma SeesRecord(window: seq<TopicRecord>, log: seq<TopicRecord>, r: TopicRecord)
    requires Sees(window, log) && !r.SlotTable? && (NeedsTable(r) ==> HasTable(window))
    ensures Sees(window + [r], log + [r])
  {
    ScanAppend(window, r);
    ScanAppend(log, r);
    assert HasTable(window + [r]) <==> HasTable(window) by {
      if HasTable(window) {
        var t :| t in window && t.SlotTable?;
        assert t in window + [r];
      }
    }
    forall id ensures Named(window + [r], id) <==> Named(window, id) {
      NamedAppend(window, r, id);
    }
    forall id ensures SeesMember(window + [r], log + [r], id) {
      assert SeesMember(window, log, id);
    }
  }

  lemma SeesNothing(log: seq<TopicRecord>)
    ensures Sees([], log)
  {
  }

  /** Scanning from any point no record looks back across sees every member that a table
      from there on names exactly as a scan from genesis does. */
  lemma {:induction false} ScanOfSuffix(log: seq<TopicRecord>, from: nat)
    requires from <= |log| && Covered(log, from)
    ensures Sees(log[from..], log)
    decreases |log|
  {
    hide Sees, HasTable, Covered;
    if from == |log| {
      SeesNothing(log);
      assert log[from..] == [];
    } else {
      var before, r := log[..|log| - 1], log[|log| - 1];
      var window := before[from..];
      assert log[from..] == window + [r] && log == before + [r];
      CoveredBefore(before, r, from);
      ScanOfSuffix(before, from);
      if r.SlotTable? {
        SeesTable(window, before, r);
      } else {
        SeesRecord(window, before, r);
      }
    }
  }

  lemma CoveredBefore(before: seq<TopicRecord>, r: TopicRecord, from: nat)
    requires from <= |before| && Covered(before + [r], from)
    ensures Covered(before, from)
    ensures NeedsTable(r) ==> HasTable(before[from..])
  {
    var log := before + [r];
    forall j | from <= j < |before| && NeedsTable(before[j])
      ensures exists i :: from <= i < j && before[i].SlotTable?
    {
      assert log[j] == before[j];
      var i :| from <= i < j && log[i].SlotTable?;
      assert before[i].SlotTable?;
    }
    if NeedsTable(r) {
      assert log[|before|] == r;
      var i :| from <= i < |before| && log[i].SlotTable?;
      assert before[from..][i - from] == log[i];
    }
  }

  /** A member no table ever named is unknown to any scan. */
  lemma UnnamedIsUnknown(log: seq<TopicRecord>, id: MemberId)
    requires Covered(log, 0) && !Named(log, id)
    ensures Next(Scan(log).out, id) == 0
  {
    ScanOfSuffix(log, 0);
    assert log[0..] == log;
    assert SeesMember(log, log, id);
  }
}
