/** A commit that fails without ending the session: the member's source has moved past the record,
    its cursor has not. A topic told nothing of the member beyond that record shows no trace of the
    failure. Nothing is lost until a later record is merged or a table lists the member beyond it; then
    the record is lost. A closing record beyond it only states an untrue index. */
module MuxFailedCommit {
  import opened TopicRecords
  import opened MuxMachine
  import opened MuxTrail
  import opened MuxInvariant
  import opened MuxSteps
  import opened MuxTheorems
  import opened MuxPitfalls

  /** What a merge of slot `i` leaves when its commit fails. */
  function CommitFailed(s: System, i: nat): System
    requires s.host.Up? && i < |s.host.session.slots|
  {
    var ses := s.host.session;
    s.(host := Up(ses.(slots := ses.slots[i := ses.slots[i].(source := ses.slots[i].source + 1)])))
  }

  /** `f` is `s`, except that the slot of `id`, which stands at `at` in `s`, may have moved on. */
  ghost predicate Drifts(f: System, s: System, id: MemberId, at: nat) {
    && s.host.Up? && f.host.Up?
    && var slots, slots' := s.host.session.slots, f.host.session.slots;
    && f == s.(host := Up(s.host.session.(slots := slots'))) && |slots'| == |slots|
    && forall k :: 0 <= k < |slots| ==>
         && slots'[k].id == slots[k].id && slots'[k].memberRef == slots[k].memberRef
         && if slots[k].id == id then slots[k].cursor == at else slots'[k] == slots[k]
  }

  lemma FailureDrifts(c: Config, s: System, i: nat)
    requires Inv(c, s) && s.host.Up? && i < |s.host.session.slots|
    ensures Shape(CommitFailed(s, i))
    ensures Drifts(CommitFailed(s, i), s, s.host.session.slots[i].id, s.host.session.slots[i].cursor)
  {
    assert DistinctSlots(s.host.session.slots);
  }

  // ---------------- the topic not told: no trace ----------------

  /** Every slot of `id` still shows the cursor `at`. */
  predicate Showing(slots: seq<Slot>, id: MemberId, at: nat) {
    forall k :: 0 <= k < |slots| && slots[k].id == id ==> slots[k].cursor == at
  }

  /** The step neither merges `id` nor lists it in a table beyond `at`. */
  predicate Harmless(f: System, step: Step, id: MemberId, at: nat)
    requires f.host.Up?
  {
    var slots, phase := f.host.session.slots, f.host.session.phase;
    match step
    case Merge(k) => k < |slots| ==> slots[k].id != id
    case Attach(_) => Showing(slots, id, at)
    case RollTable => Showing(slots, id, at)
    case Refresh => Showing(slots, id, at)
    case CloseTable =>
      phase.Closing? && phase.slot < |slots| ==> Showing(slots[..phase.slot] + slots[phase.slot + 1..], id, at)
    case _ => true
  }

  /** ... and does not close it with an index beyond `at` either. */
  predicate Quiet(f: System, step: Step, id: MemberId, at: nat)
    requires f.host.Up?
  {
    var slots := f.host.session.slots;
    && Harmless(f, step, id, at)
    && (step.Close? && step.slot < |slots| && slots[step.slot].id == id ==> slots[step.slot].cursor == at)
  }

  predicate IsRejectOf(f: System, step: Step, id: MemberId)
    requires f.host.Up?
  {
    step.Reject? && step.slot < |f.host.session.slots| && f.host.session.slots[step.slot].id == id
  }

  lemma SameEntries(f: System, s: System, id: MemberId, at: nat)
    requires Drifts(f, s, id, at)
    ensures Showing(f.host.session.slots, id, at) ==>
              EntriesOf(f.host.session.slots) == EntriesOf(s.host.session.slots)
    ensures forall m :: Attached(f.host.session.slots, m) <==> Attached(s.host.session.slots, m)
  {
    var slots, slots' := s.host.session.slots, f.host.session.slots;
    forall m ensures Attached(slots', m) <==> Attached(slots, m) {
      if k :| 0 <= k < |slots| && slots[k].id == m { assert slots'[k].id == m; }
      if k :| 0 <= k < |slots'| && slots'[k].id == m { assert slots[k].id == m; }
    }
  }

  lemma QuietAttach(c: Config, f: System, s: System, m: MemberId, id: MemberId, at: nat)
    requires Shape(s) && Shape(f) && Drifts(f, s, id, at) && Enabled(c, f, Attach(m))
    requires Showing(f.host.session.slots, id, at)
    ensures Enabled(c, s, Attach(m))
    ensures var f', s' := Apply(c, f, Attach(m)), Apply(c, s, Attach(m)); f' == s' || Drifts(f', s', id, at)
  {
    hide Scan, Named;
    SameEntries(f, s, id, at);
    var f', s' := Apply(c, f, Attach(m)), Apply(c, s, Attach(m));
    assert EntriesOf(f'.host.session.slots) == EntriesOf(s'.host.session.slots);
    if m == id {
      assert f.host.session.slots == s.host.session.slots;
    }
  }

  lemma QuietCloseTable(c: Config, f: System, s: System, id: MemberId, at: nat)
    requires Shape(s) && Shape(f) && Drifts(f, s, id, at) && Enabled(c, f, CloseTable)
    requires Harmless(f, CloseTable, id, at)
    ensures Enabled(c, s, CloseTable) && Drifts(Apply(c, f, CloseTable), Apply(c, s, CloseTable), id, at)
  {
    hide Scan, Named;
    var f', s' := Apply(c, f, CloseTable), Apply(c, s, CloseTable);
    var slots, slots', i := s.host.session.slots, f.host.session.slots, s.host.session.phase.slot;
    var rest, rest' := slots[..i] + slots[i + 1..], slots'[..i] + slots'[i + 1..];
    forall k | 0 <= k < |rest|
      ensures var j := if k < i then k else k + 1; rest[k] == slots[j] && rest'[k] == slots'[j]
    {
    }
    assert EntriesOf(rest') == EntriesOf(rest);
  }

  lemma QuietOnSlot(c: Config, f: System, s: System, step: Step, id: MemberId, at: nat)
    requires Shape(s) && Shape(f) && Drifts(f, s, id, at) && Enabled(c, f, step)
    requires Quiet(f, step, id, at) && !IsRejectOf(f, step, id) && (step.Merge? || step.Reject? || step.Close?)
    ensures Enabled(c, s, step) && Drifts(Apply(c, f, step), Apply(c, s, step), id, at)
  {
    hide Scan, Named;
  }

  lemma QuietByMember(c: Config, f: System, s: System, step: Step, id: MemberId, at: nat)
    requires Shape(s) && Shape(f) && Drifts(f, s, id, at) && Enabled(c, f, step)
    requires step.MemberAppend? || step.MemberPrune? || step.MemberReset?
    ensures Enabled(c, s, step) && Drifts(Apply(c, f, step), Apply(c, s, step), id, at)
  {
    hide Scan, Named;
    SameEntries(f, s, id, at);
  }

  /** The same step from the state without the failure. */
  lemma QuietStep(c: Config, f: System, s: System, step: Step, id: MemberId, at: nat)
    requires Shape(s) && Shape(f) && Drifts(f, s, id, at) && Enabled(c, f, step)
    requires Quiet(f, step, id, at) && !IsRejectOf(f, step, id)
    ensures Enabled(c, s, step)
    ensures step.Crash? ==> Apply(c, f, step) == Apply(c, s, step)
    ensures Apply(c, f, step) == Apply(c, s, step) || Drifts(Apply(c, f, step), Apply(c, s, step), id, at)
  {
    hide Scan, Named;
    match step
    case Attach(m) => QuietAttach(c, f, s, m, id, at);
    case CloseTable => QuietCloseTable(c, f, s, id, at);
    case Merge(_) => QuietOnSlot(c, f, s, step, id, at);
    case Reject(_) => QuietOnSlot(c, f, s, step, id, at);
    case Close(_) => QuietOnSlot(c, f, s, step, id, at);
    case MemberAppend(_, _) => QuietByMember(c, f, s, step, id, at);
    case MemberPrune(_, _) => QuietByMember(c, f, s, step, id, at);
    case MemberReset(_, _, _) => QuietByMember(c, f, s, step, id, at);
    case _ => SameEntries(f, s, id, at);
  }

  lemma QuietReject(c: Config, f: System, s: System, step: Step, id: MemberId, at: nat)
    requires Shape(f) && Drifts(f, s, id, at) && Enabled(c, f, step) && IsRejectOf(f, step, id)
    ensures Drifts(Apply(c, f, step), s, id, at)
  {
    hide Scan, Named;
  }

  /** Up to the end of the session the topic is told nothing of `id` beyond `at`. */
  ghost predicate Untold(c: Config, f: System, steps: seq<Step>, id: MemberId, at: nat)
    decreases |steps|
  {
    steps == [] || steps[0].Crash?
    || (&& Shape(f) && Enabled(c, f, steps[0]) && f.host.Up? && Quiet(f, steps[0], id, at)
        && Untold(c, Apply(c, f, steps[0]), steps[1..], id, at))
  }

  ghost predicate Ends(steps: seq<Step>) {
    exists k :: 0 <= k < |steps| && steps[k].Crash?
  }

  /** A failed commit of which the topic is told nothing before the session ends leaves no trace:
      where the steps lead, other steps lead without the failure, so everything the invariant
      promises holds there, exactly-once included. */
  lemma {:induction false} UntoldFailureLeavesNoTrace(c: Config, f: System, s: System, steps: seq<Step>, end: System,
                                                      id: MemberId, at: nat) returns (clean: seq<Step>)
    requires Inv(c, s) && Drifts(f, s, id, at) && Leads(c, f, steps, end) && Untold(c, f, steps, id, at) && Ends(steps)
    ensures Leads(c, s, clean, end) && Inv(c, end)
    decreases |steps|
  {
    hide Apply, Enabled, Settled, SessionOK, SegmentsOpenWell, Scan, Named, Drifts;
    assert f.host.Up? by { DriftsIsUp(f, s, id, at); }
    var f', rest := Apply(c, f, steps[0]), steps[1..];
    if IsRejectOf(f, steps[0], id) {
      QuietReject(c, f, s, steps[0], id, at);
      EndsLater(steps);
      clean := UntoldFailureLeavesNoTrace(c, f', s, rest, end, id, at);
    } else {
      QuietStep(c, f, s, steps[0], id, at);
      StepKeepsInv(c, s, steps[0]);
      var s' := Apply(c, s, steps[0]);
      if f' == s' {
        clean := rest;
        LeadsKeepsInv(c, s', rest, end);
      } else {
        EndsLater(steps);
        clean := UntoldFailureLeavesNoTrace(c, f', s', rest, end, id, at);
      }
      LeadsByOne(c, s, steps[0]);
      LeadsOn(c, s, [steps[0]], s', clean, end);
      clean := [steps[0]] + clean;
    }
  }

  // ---------------- the topic told of the close only: nothing lost ----------------

  /** Up to the end of the session `id` is not merged, and no table lists it beyond `at`. */
  ghost predicate Unclaimed(c: Config, f: System, steps: seq<Step>, id: MemberId, at: nat)
    decreases |steps|
  {
    steps == [] || steps[0].Crash?
    || (&& Shape(f) && Enabled(c, f, steps[0]) && f.host.Up? && Harmless(f, steps[0], id, at)
        && Unclaimed(c, Apply(c, f, steps[0]), steps[1..], id, at))
  }

  lemma DriftingClose(c: Config, f: System, s: System, k: nat, id: MemberId, at: nat) returns (s': System)
    requires Inv(c, s) && Shape(f) && Drifts(f, s, id, at) && Enabled(c, f, Close(k))
    requires f.host.session.slots[k].id == id
    ensures Inv(c, s') && Drifts(Apply(c, f, Close(k)), s', id, at)
  {
    hide Inv, Scan, Named;
    var ses, slot := s.host.session, f.host.session.slots[k];
    assert Shape(s) by { InvHasShape(c, s); }
    CloseAtKeepsInv(c, s, k, slot.cursor);
    s' := Commit(s, MemberClosed(slot.memberRef, slot.cursor), ses.(phase := Closing(k)));
  }

  lemma InvHasShape(c: Config, s: System)
    requires Inv(c, s)
    ensures Shape(s)
  {
  }

  /** A state without the failure that the step leads to, or drifts from. */
  lemma HarmlessStep(c: Config, f: System, s: System, step: Step, id: MemberId, at: nat) returns (s': System)
    requires Inv(c, s) && Shape(f) && Drifts(f, s, id, at) && Enabled(c, f, step) && Harmless(f, step, id, at)
    ensures Inv(c, s') && (Apply(c, f, step) == s' || Drifts(Apply(c, f, step), s', id, at))
    ensures step.Crash? ==> Apply(c, f, step) == s'
  {
    assert f.host.Up? by { DriftsIsUp(f, s, id, at); }
    InvHasShape(c, s);
    hide Inv, Shape, Drifts, Scan, Named, Apply, ApplyCall, Enabled;
    if IsRejectOf(f, step, id) {
      QuietReject(c, f, s, step, id, at);
      s' := s;
    } else if !Quiet(f, step, id, at) {
      s' := DriftingClose(c, f, s, step.slot, id, at);
    } else {
      QuietStep(c, f, s, step, id, at);
      StepKeepsInv(c, s, step);
      s' := Apply(c, s, step);
    }
  }

  /** A failed commit after which the member is not merged again and no table lists it beyond the record
      loses nothing, even if the member is closed further on: at the end of the session everything
      the invariant promises holds, exactly-once included. */
  lemma {:induction false} UnclaimedFailureLosesNothing(c: Config, f: System, s: System, steps: seq<Step>,
                                                        end: System, id: MemberId, at: nat)
    requires Inv(c, s) && Drifts(f, s, id, at) && Leads(c, f, steps, end)
    requires Unclaimed(c, f, steps, id, at) && Ends(steps)
    ensures Inv(c, end)
    decreases |steps|
  {
    assert f.host.Up? by { DriftsIsUp(f, s, id, at); }
    hide Inv, Shape, Drifts, Scan, Named, Apply, Enabled, Harmless;
    var f', rest := Apply(c, f, steps[0]), steps[1..];
    var s' := HarmlessStep(c, f, s, steps[0], id, at);
    if f' == s' {
      LeadsKeepsInv(c, s', rest, end);
    } else {
      EndsLater(steps);
      UnclaimedFailureLosesNothing(c, f', s', rest, end, id, at);
    }
  }

  lemma DriftsIsUp(f: System, s: System, id: MemberId, at: nat)
    requires Drifts(f, s, id, at)
    ensures f.host.Up? && s.host.Up?
  {
  }

  lemma EndsLater(steps: seq<Step>)
    requires Ends(steps) && !steps[0].Crash?
    ensures Ends(steps[1..])
  {
    var k :| 0 <= k < |steps| && steps[k].Crash?;
    assert steps[1..][k - 1].Crash?;
  }

  // ---------------- the record claimed as merged: lost ----------------

  /** What the topic holds of the member is what its own recovery claims. */
  ghost predicate ExactlyOnce(c: Config, s: System, id: MemberId)
    requires id in s.members && 0 < |s.members[id].history|
  {
    && LogNext(s, id) <= |Current(s.members[id])|
    && Attributed(s.topic.records, id) == Accepted(Current(s.members[id]), LogNext(s, id), c.mtu)
  }

  /** Slot `k` is `id`'s; it stood at a record that may be merged and was not, and has moved on. */
  ghost predicate Skipping(c: Config, f: System, s: System, k: nat, id: MemberId, at: nat) {
    && Inv(c, s) && Drifts(f, s, id, at) && id !in s.broken && Undisturbed(s, id)
    && k < |s.host.session.slots| && s.host.session.slots[k].id == id
    && at < |Current(s.members[id])| && Acceptable(Current(s.members[id])[at], c.mtu)
    && at < f.host.session.slots[k].source <= |Current(s.members[id])|
  }

  /** The topic has everything acceptable below the skipped record, and nothing else. */
  lemma SkippedSoFar(c: Config, f: System, s: System, k: nat, id: MemberId, at: nat)
    requires Skipping(c, f, s, k, id, at)
    ensures LogNext(s, id) <= at && Denotes(s.topic.records, s.host.session.slots[k].memberRef, id)
    ensures Attributed(s.topic.records, id) == Accepted(Current(s.members[id]), at, c.mtu)
    ensures DistinctSlots(s.host.session.slots)
  {
    hide SegmentsOpenWell, Named, Scan, Attributed, Accepted;
    assert SlotOK(s, s.host.session, k) && Settled(c, s, id);
    MergedExactlyOnce(c, s, id);
  }

  lemma MoreAccepted(log: seq<MemberRecord>, n: nat, m: nat, mtu: nat)
    requires n < m <= |log| && Acceptable(log[n], mtu)
    ensures |Accepted(log, n, mtu)| < |Accepted(log, m, mtu)|
    ensures m < |log| && Acceptable(log[m], mtu) ==> |Accepted(log, n, mtu)| + 1 < |Accepted(log, m + 1, mtu)|
  {
    AcceptedGrows(log, n + 1, m, mtu);
  }

  /** Merging a record behind the skipped one claims it as merged. */
  lemma MergeBehindLosesIt(c: Config, f: System, s: System, k: nat, id: MemberId, at: nat)
    requires Skipping(c, f, s, k, id, at) && Shape(f) && Enabled(c, f, Merge(k))
    ensures var j, after := f.host.session.slots[k].source, Apply(c, f, Merge(k));
            && !ExactlyOnce(c, after, id) && at < LogNext(after, id) == j + 1
            && Attributed(after.topic.records, id)
               == Accepted(Current(s.members[id]), at, c.mtu) + [(j, Current(s.members[id])[j])]
  {
    hide Inv, Named, Scan, Attributed, Accepted;
    SkippedSoFar(c, f, s, k, id, at);
    var j, log := f.host.session.slots[k].source, Current(s.members[id]);
    var r := Data(s.host.session.slots[k].memberRef, j, log[j]);
    assert Apply(c, f, Merge(k)).topic.records == s.topic.records + [r];
    ScanAppend(s.topic.records, r);
    RecordEffect(s.topic.records, r, id);
    MoreAccepted(log, at, j, c.mtu);
  }

  /** So does any table that shows the member beyond it. */
  lemma TableBehindLosesIt(c: Config, f: System, s: System, k: nat, id: MemberId, at: nat, after: System, j: nat)
    requires Skipping(c, f, s, k, id, at) && after.members == s.members && after.host.Up?
    requires var slots := after.host.session.slots;
             && DistinctSlots(slots) && j < |slots| && slots[j].id == id
             && at < slots[j].cursor <= |Current(s.members[id])|
             && after.topic.records == s.topic.records + [SlotTable(EntriesOf(slots))]
    ensures !ExactlyOnce(c, after, id) && at < LogNext(after, id)
    ensures Attributed(after.topic.records, id) == Accepted(Current(s.members[id]), at, c.mtu)
  {
    hide Inv, Named, Scan, Attributed, Accepted;
    SkippedSoFar(c, f, s, k, id, at);
    TableEffect(WorldOf(c, s), s.topic.records, after.host.session.slots, id);
    ScanAppend(s.topic.records, SlotTable(EntriesOf(after.host.session.slots)));
    MoreAccepted(Current(s.members[id]), at, after.host.session.slots[j].cursor, c.mtu);
  }

  /** Rejecting the record behind the failed one moves the cursor past both; the next refresh of the
      table makes that durable. */
  lemma RejectThenTableLosesIt(c: Config, f: System, s: System, k: nat, id: MemberId, at: nat)
    requires Skipping(c, f, s, k, id, at) && Shape(f) && Enabled(c, f, Reject(k))
    ensures var rejected := Apply(c, f, Reject(k));
            && Shape(rejected) && Enabled(c, rejected, Refresh)
            && !ExactlyOnce(c, Apply(c, rejected, Refresh), id) && at < LogNext(Apply(c, rejected, Refresh), id)
  {
    hide Inv, Named, Scan, Attributed, Accepted;
    SkippedSoFar(c, f, s, k, id, at);
    var rejected := Apply(c, f, Reject(k));
    TableBehindLosesIt(c, f, s, k, id, at, Apply(c, rejected, Refresh), k);
  }

  /** A closing record written beyond it says the member was drained to there, which is not so. */
  lemma CloseBehindIsFalse(c: Config, f: System, s: System, k: nat, id: MemberId, at: nat)
    requires Skipping(c, f, s, k, id, at) && Shape(f) && Enabled(c, f, Close(k)) && !Quiet(f, Close(k), id, at)
    requires at < f.host.session.slots[k].cursor <= |Current(s.members[id])|
    ensures var slot, after := f.host.session.slots[k], Apply(c, f, Close(k));
            && after.topic.records == s.topic.records + [MemberClosed(slot.memberRef, slot.cursor)]
            && Attributed(after.topic.records, id) == Accepted(Current(s.members[id]), at, c.mtu)
            && Attributed(after.topic.records, id) != Accepted(Current(s.members[id]), slot.cursor, c.mtu)
  {
    hide Inv, Named, Scan, Attributed, Accepted;
    SkippedSoFar(c, f, s, k, id, at);
    var slot := f.host.session.slots[k];
    ScanAppend(s.topic.records, MemberClosed(slot.memberRef, slot.cursor));
    MoreAccepted(Current(s.members[id]), at, slot.cursor, c.mtu);
  }

  /** The table behind a close takes the drifting slot away. */
  lemma ClosedAndTabled(c: Config, f: System, s: System, id: MemberId, at: nat)
    requires Inv(c, s) && Shape(f) && Drifts(f, s, id, at) && f.host.session.phase.Closing?
    requires f.host.session.slots[f.host.session.phase.slot].id == id
    ensures Enabled(c, f, CloseTable) && Inv(c, Apply(c, f, CloseTable))
    ensures var after := Apply(c, f, CloseTable);
            && after.members == s.members && after.broken == s.broken
            && after.host.Up? && !Attached(after.host.session.slots, id) && LogNext(after, id) == LogNext(s, id)
  {
    hide Scan, Named, Settled, SegmentsOpenWell;
    var slots, slots', i := s.host.session.slots, f.host.session.slots, s.host.session.phase.slot;
    assert DistinctSlots(slots);
    var rest, rest' := slots[..i] + slots[i + 1..], slots'[..i] + slots'[i + 1..];
    forall k | 0 <= k < |rest| ensures rest[k] == rest'[k] && rest[k].id != id {
      var j := if k < i then k else k + 1;
      assert rest[k] == slots[j] && rest'[k] == slots'[j] && slots[j].id != slots[i].id;
    }
    assert rest == rest';
    CloseTableStep(c, s);
    hide Inv;
    TableEffect(WorldOf(c, s), s.topic.records, rest, id);
  }

  /** Yet it loses nothing: recovery passes over it, the table behind it no longer lists the member, and
      the next session resumes at or below the failed record. */
  lemma CloseBehindLosesNothing(c: Config, f: System, s: System, k: nat, id: MemberId, at: nat)
    requires Skipping(c, f, s, k, id, at) && Shape(f) && Enabled(c, f, Close(k))
    ensures var closed := Apply(c, f, Close(k));
            && Shape(closed) && Enabled(c, closed, CloseTable)
            && var after := Apply(c, closed, CloseTable);
            && Inv(c, after) && !Attached(after.host.session.slots, id)
            && ExactlyOnce(c, after, id) && LogNext(after, id) == LogNext(s, id) <= at
  {
    hide Scan, Named, Attributed, Accepted;
    SkippedSoFar(c, f, s, k, id, at);
    var slot, closed := f.host.session.slots[k], Apply(c, f, Close(k));
    var clean := DriftingClose(c, f, s, k, id, at);
    hide Inv;
    RecordEffect(s.topic.records, MemberClosed(slot.memberRef, slot.cursor), id);
    ClosedAndTabled(c, closed, clean, id, at);
    MergedExactlyOnce(c, Apply(c, closed, CloseTable), id);
  }
}
