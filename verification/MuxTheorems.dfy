/** What the multiplexer guarantees over whole histories: any number of sessions, crashes
    at any point, refs that restart from 0, member logs that grow meanwhile. */
module MuxTheorems {
  import opened ChannelLog
  import opened TopicRecords
  import opened MuxMachine
  import opened MuxTrail
  import opened MuxInvariant
  import opened MuxRecovery
  import opened MuxSteps

  // ---------------- exactly once ----------------

  /** A member whose owner neither reset nor pruned it: the records the slot tables
      attribute to it are its own acceptable records below the cursor, each once, in order,
      unchanged. The cursor may be the live one or the one recovery would compute. */
  lemma MergedExactlyOnce(c: Config, s: System, id: MemberId)
    requires Inv(c, s) && id !in s.broken && Undisturbed(s, id)
    ensures LogNext(s, id) <= |Current(s.members[id])|
    ensures Attributed(s.topic.records, id) == Accepted(Current(s.members[id]), LogNext(s, id), c.mtu)
    ensures s.host.Up? ==>
              forall k :: 0 <= k < |s.host.session.slots| && s.host.session.slots[k].id == id ==>
                var cursor := s.host.session.slots[k].cursor;
                && LogNext(s, id) <= cursor <= |Current(s.members[id])|
                && Attributed(s.topic.records, id) == Accepted(Current(s.members[id]), cursor, c.mtu)
  {
    var w, log := WorldOf(c, s), s.topic.records;
    assert Settled(c, s, id);
    UnmarkedTrailIsThePrefix(w, log, id);
    AcceptedSkips(w, id, TrailNext(log, id), LogNext(s, id));
    if s.host.Up? {
      var ses := s.host.session;
      forall k | 0 <= k < |ses.slots| && ses.slots[k].id == id
        ensures ses.slots[k].cursor <= |Current(s.members[id])|
        ensures Attributed(log, id) == Accepted(Current(s.members[id]), ses.slots[k].cursor, c.mtu)
      {
        assert SlotOK(s, ses, k);
        AcceptedSkips(w, id, LogNext(s, id), ses.slots[k].cursor);
      }
    }
  }

  /** With an unpruned topic, `recovered` misses nothing the log ever held. */
  ghost predicate WholeTopic(s: System)
    requires Shape(s)
  {
    s.topic.first == 0 && (s.host.Up? ==> s.host.session.openFrom == 0)
  }

  lemma WholeTopicStep(c: Config, s: System, step: Step)
    requires Shape(s) && Enabled(c, s, step) && WholeTopic(s) && c.keepFiles == 0
    requires Shape(Apply(c, s, step))
    ensures WholeTopic(Apply(c, s, step))
  {
  }

  lemma {:induction false} UnprunedTopicIsWhole(c: Config, states: seq<System>, steps: seq<Step>, k: nat)
    requires Run(c, states, steps) && Initial(states[0]) && k < |states| && c.keepFiles == 0
    ensures Shape(states[k]) && WholeTopic(states[k])
  {
    hide Apply, Settled, SessionOK, SegmentsOpenWell;
    RunKeepsInv(c, states, steps, k);
    if k > 0 {
      UnprunedTopicIsWhole(c, states, steps, k - 1);
      WholeTopicStep(c, states[k - 1], steps[k - 1]);
    }
  }

  /** Nobody attaches `id` again in the session that removed it. */
  ghost predicate NeverReattached(states: seq<System>, steps: seq<Step>, id: MemberId)
    requires |states| == |steps| + 1
  {
    forall k :: 0 <= k < |steps| && steps[k] == Attach(id) && states[k].host.Up? ==>
                  id !in states[k].host.session.removed
  }

  /** An undisturbed member was undisturbed all along. */
  lemma UndisturbedBefore(c: Config, s: System, step: Step, id: MemberId)
    requires Shape(s) && Enabled(c, s, step) && Undisturbed(Apply(c, s, step), id)
    ensures Undisturbed(s, id)
  {
    hide Scan, Named, Next;
  }

  /** With an unpruned topic only a second attach in one session can break a member that
      needs no marker. */
  lemma UndisturbedStep(c: Config, s: System, step: Step, id: MemberId)
    requires Inv(c, s) && Enabled(c, s, step) && WholeTopic(s)
    requires id !in s.broken && Undisturbed(s, id)
    requires step == Attach(id) ==> id !in s.host.session.removed
    ensures id !in Apply(c, s, step).broken
  {
  }

  lemma {:induction false} UndisturbedStaysUnbroken(c: Config, states: seq<System>, steps: seq<Step>,
                                                     k: nat, id: MemberId)
    requires Run(c, states, steps) && Initial(states[0]) && k < |states| && c.keepFiles == 0
    requires NeverReattached(states, steps, id) && Undisturbed(states[k], id)
    ensures id !in states[k].broken
  {
    hide Apply, Settled, SessionOK, SegmentsOpenWell;
    if k > 0 {
      UndisturbedBefore(c, states[k - 1], steps[k - 1], id);
      UndisturbedStaysUnbroken(c, states, steps, k - 1, id);
      UnprunedTopicIsWhole(c, states, steps, k - 1);
      RunKeepsInv(c, states, steps, k - 1);
      UndisturbedStep(c, states[k - 1], steps[k - 1], id);
    }
  }

  /** Exactly-once merge over whole histories: any run of an unpruned topic over a member
      that is append-only and unpruned, whatever else happens to it or to other members. */
  lemma ExactlyOnceOverWholeHistories(c: Config, states: seq<System>, steps: seq<Step>, id: MemberId)
    requires Run(c, states, steps) && Initial(states[0]) && c.keepFiles == 0
    requires NeverReattached(states, steps, id) && Undisturbed(states[|steps|], id)
    ensures var s := states[|steps|];
            && LogNext(s, id) <= |Current(s.members[id])|
            && Attributed(s.topic.records, id) == Accepted(Current(s.members[id]), LogNext(s, id), c.mtu)
            && (s.host.Up? ==>
                  forall k :: 0 <= k < |s.host.session.slots| && s.host.session.slots[k].id == id ==>
                    var cursor := s.host.session.slots[k].cursor;
                    && cursor <= |Current(s.members[id])|
                    && Attributed(s.topic.records, id) == Accepted(Current(s.members[id]), cursor, c.mtu))
  {
    RunKeepsInv(c, states, steps, |steps|);
    UndisturbedStaysUnbroken(c, states, steps, |steps|, id);
    MergedExactlyOnce(c, states[|steps|], id);
  }

  // ---------------- recovery under the topic's own retention ----------------

  /** Recovery over the retained window answers what recovery over the full log would,
      exactly when a retained table names the member or there was nothing to recover. */
  lemma WindowRecallsExactlyTheNamed(t: Channel<TopicRecord>, id: MemberId)
    requires Valid(t) && t.base == 0 && SegmentsOpenWell(t)
    ensures Next(Scan(Retained(t)).out, id) == Next(Scan(t.records).out, id)
            <==> Named(Retained(t), id) || Next(Scan(t.records).out, id) == 0
  {
    hide Scan, Named, Covered;
    ScanOfSuffix(t.records, Earliest(t));
    assert SeesMember(Retained(t), t.records, id);
  }

  /** While a new segment still lacks its table, the segment before it is retained. */
  ghost predicate OldTableRetained(c: Config, s: System)
    requires Shape(s)
  {
    s.host.Up? && s.host.session.phase.TableDue? && c.keepFiles != 1 ==>
      s.topic.first < |s.topic.starts| - 1
  }

  lemma OldTableStep(c: Config, s: System, step: Step)
    requires Shape(s) && Enabled(c, s, step) && OldTableRetained(c, s)
    requires Shape(Apply(c, s, step))
    ensures OldTableRetained(c, Apply(c, s, step))
  {
  }

  lemma {:induction false} RollLeavesTheOldTable(c: Config, states: seq<System>, steps: seq<Step>, k: nat)
    requires Run(c, states, steps) && Initial(states[0]) && k < |states|
    ensures Shape(states[k]) && OldTableRetained(c, states[k])
  {
    hide Apply, Settled, SessionOK, SegmentsOpenWell;
    RunKeepsInv(c, states, steps, k);
    if k > 0 {
      RollLeavesTheOldTable(c, states, steps, k - 1);
      OldTableStep(c, states[k - 1], steps[k - 1]);
    }
  }

  lemma NamedFurtherBack(log: seq<TopicRecord>, from: nat, home: nat, id: MemberId)
    requires from <= home <= |log| && Named(log[home..], id)
    ensures Named(log[from..], id)
  {
  }

  /** Retention-proof recovery: however much the topic has pruned, a crash now loses nothing
      of an attached member. What a restart would recover is what the full log says, and it
      falls short of the live cursor by permanently rejected records only. The one window
      left out is a topic that keeps a single segment and has rolled to a new one without
      having written its table. */
  lemma RecoveryIsRetentionProof(c: Config, states: seq<System>, steps: seq<Step>, k: nat)
    requires Run(c, states, steps) && Initial(states[0]) && k < |states| && states[k].host.Up?
    requires c.keepFiles != 1 || !states[k].host.session.phase.TableDue?
    ensures Shape(states[k]) && SegmentsOpenWell(states[k].topic)
    ensures var s, slots := states[k], states[k].host.session.slots;
            forall i :: 0 <= i < |slots| ==>
              var recovered := Next(Scan(Retained(s.topic)).out, slots[i].id);
              && recovered == LogNext(s, slots[i].id)
              && (slots[i].id !in s.broken ==>
                    recovered <= slots[i].cursor && AllRejected(WorldOf(c, s), slots[i].id, recovered, slots[i].cursor))
  {
    RunKeepsInv(c, states, steps, k);
    RollLeavesTheOldTable(c, states, steps, k);
    var s, ses := states[k], states[k].host.session;
    forall i | 0 <= i < |ses.slots|
      ensures Next(Scan(Retained(s.topic)).out, ses.slots[i].id) == LogNext(s, ses.slots[i].id)
      ensures ses.slots[i].id !in s.broken ==>
                LogNext(s, ses.slots[i].id) <= ses.slots[i].cursor
                && AllRejected(WorldOf(c, s), ses.slots[i].id, LogNext(s, ses.slots[i].id), ses.slots[i].cursor)
    {
      var id := ses.slots[i].id;
      assert SlotOK(s, ses, i);
      NamedFurtherBack(s.topic.records, Earliest(s.topic), TableHome(s.topic, ses.phase), id);
      WindowRecallsExactlyTheNamed(s.topic, id);
      if id !in s.broken { assert Settled(c, s, id); }
    }
  }

  // ---------------- no silent hole ----------------

  /** An honest trail is honest at each of its records. */
  lemma {:induction false} TrailAt(w: World, log: seq<TopicRecord>, id: MemberId, j: nat)
    requires Trail(w, log, id) && j < |log| && (log[j].Data? || IsMark(log[j]))
    requires Denotes(log[..j], log[j].memberRef, id)
    ensures Fits(w, id, TrailNext(log[..j], id), log[j])
    decreases |log|
  {
    var before := log[..|log| - 1];
    if j < |before| {
      assert before[..j] == log[..j];
      TrailAt(w, before, id, j);
    }
  }

  /** No silent hole, under member retention, member resets and any number of restarts: each
      merged record, gap and regression of an unbroken member fits what came before it. A
      jump skips only records the mux rejects or the range a gap names, and nothing but a
      regression marker ever lets an index come again. */
  lemma NoSilentHole(c: Config, states: seq<System>, steps: seq<Step>, k: nat, id: MemberId, j: nat)
    requires Run(c, states, steps) && Initial(states[0]) && k < |states|
    requires id !in states[k].broken
    requires var log := states[k].topic.records;
             && j < |log| && (log[j].Data? || IsMark(log[j])) && Denotes(log[..j], log[j].memberRef, id)
    ensures var log := states[k].topic.records;
            Fits(WorldOf(c, states[k]), id, TrailNext(log[..j], id), log[j])
  {
    RunKeepsInv(c, states, steps, k);
    assert Settled(c, states[k], id);
    TrailAt(WorldOf(c, states[k]), states[k].topic.records, id, j);
  }

  /** `log[j]` is a merged record of `id`. */
  predicate MergedAt(log: seq<TopicRecord>, id: MemberId, j: nat) {
    j < |log| && log[j].Data? && Denotes(log[..j], log[j].memberRef, id)
  }

  predicate RegressedAt(log: seq<TopicRecord>, id: MemberId, j: nat) {
    j < |log| && log[j].MemberRegressed? && Denotes(log[..j], log[j].memberRef, id)
  }

  lemma {:induction false} TrailNeverFallsBack(w: World, log: seq<TopicRecord>, id: MemberId, a: nat, b: nat)
    requires Trail(w, log, id) && a <= b <= |log|
    requires forall j :: a <= j < b ==> !RegressedAt(log, id, j)
    ensures TrailNext(log[..a], id) <= TrailNext(log[..b], id)
    decreases b
  {
    if a < b {
      TrailNeverFallsBack(w, log, id, a, b - 1);
      assert log[..b] == log[..b - 1] + [log[b - 1]];
      TrailAppend(w, log[..b - 1], log[b - 1], id);
      if (log[b - 1].Data? || IsMark(log[b - 1])) && Denotes(log[..b - 1], log[b - 1].memberRef, id) {
        assert !RegressedAt(log, id, b - 1);
        TrailAt(w, log, id, b - 1);
      }
    }
  }

  /** A later merge of an equal or lower index has a regression marker in between. */
  lemma BackwardsOnlyAfterARegression(c: Config, s: System, id: MemberId, a: nat, b: nat)
    requires Inv(c, s) && id !in s.broken && a < b
    requires MergedAt(s.topic.records, id, a) && MergedAt(s.topic.records, id, b)
    requires s.topic.records[b].memberIndex <= s.topic.records[a].memberIndex
    ensures exists j :: a < j < b && RegressedAt(s.topic.records, id, j)
  {
    var log, w := s.topic.records, WorldOf(c, s);
    assert Settled(c, s, id);
    TrailAt(w, log, id, b);
    assert log[..a + 1] == log[..a] + [log[a]];
    TrailAppend(w, log[..a], log[a], id);
    if forall j :: a < j < b ==> !RegressedAt(log, id, j) {
      TrailNeverFallsBack(w, log, id, a + 1, b);
    }
  }

  /** Every attach starts inside the member's log, so skipping forward to it ends. */
  lemma AttachStartsInsideTheLog(c: Config, s: System, id: MemberId)
    requires Inv(c, s) && Enabled(c, s, Attach(id))
    ensures var slots := Apply(c, s, Attach(id)).host.session.slots;
            && slots[|slots| - 1].id == id
            && s.members[id].earliest <= slots[|slots| - 1].source <= |Current(s.members[id])|
  {
  }

  // ---------------- nothing forged ----------------

  /** Every merged record is one the topic may hold: not of a reserved type, not too long. */
  ghost predicate NothingForged(c: Config, log: seq<TopicRecord>) {
    forall r :: r in log && r.Data? ==> Acceptable(r.record, c.mtu)
  }

  lemma NothingForgedStep(c: Config, s: System, step: Step)
    requires Shape(s) && Enabled(c, s, step) && NothingForged(c, s.topic.records)
    requires s.host.Up? && s.host.session.phase.MarkDue? ==> IsMark(s.host.session.phase.mark)
    ensures NothingForged(c, Apply(c, s, step).topic.records)
  {
    hide Scan, Named, Acceptable;
  }

  /** A member cannot forge a control record into the topic, over any run. */
  lemma {:induction false} MembersForgeNothing(c: Config, states: seq<System>, steps: seq<Step>, k: nat)
    requires Run(c, states, steps) && Initial(states[0]) && k < |states|
    ensures NothingForged(c, states[k].topic.records)
  {
    hide Apply, Settled, SegmentsOpenWell, SlotOK;
    if k > 0 {
      MembersForgeNothing(c, states, steps, k - 1);
      RunKeepsInv(c, states, steps, k - 1);
      NothingForgedStep(c, states[k - 1], steps[k - 1]);
    }
  }

  // ---------------- retirement ----------------

  /** A terminal marker written by the running session is the last record of the topic. */
  ghost predicate TerminalIsLast(s: System)
    requires Shape(s)
  {
    s.host.Up? ==>
      forall j :: s.host.session.openLen <= j < |s.topic.records| && s.topic.records[j].Terminal? ==>
                    j == |s.topic.records| - 1 && s.host.session.finished
  }

  lemma TerminalStep(c: Config, s: System, step: Step)
    requires Shape(s) && Enabled(c, s, step) && TerminalIsLast(s)
    requires s.host.Up? && s.host.session.phase.MarkDue? ==> IsMark(s.host.session.phase.mark)
    ensures Shape(Apply(c, s, step)) ==> TerminalIsLast(Apply(c, s, step))
  {
    var s' := Apply(c, s, step);
    if s.host.Up? && s'.host.Up? {
      assert forall j :: 0 <= j < |s.topic.records| ==> s'.topic.records[j] == s.topic.records[j];
    }
  }

  lemma {:induction false} AtMostOneTerminalPerSession(c: Config, states: seq<System>, steps: seq<Step>, k: nat)
    requires Run(c, states, steps) && Initial(states[0]) && k < |states|
    ensures Shape(states[k]) && TerminalIsLast(states[k])
  {
    hide Apply, Settled, SegmentsOpenWell, SlotOK;
    RunKeepsInv(c, states, steps, k);
    if k > 0 {
      AtMostOneTerminalPerSession(c, states, steps, k - 1);
      RunKeepsInv(c, states, steps, k - 1);
      TerminalStep(c, states[k - 1], steps[k - 1]);
    }
  }

  /** Retirement is final: once the marker is written, nothing changes the topic until the
      process is gone, whatever is called. */
  lemma {:induction false} RetirementIsFinal(c: Config, states: seq<System>, steps: seq<Step>, i: nat, j: nat)
    requires Run(c, states, steps) && i <= j < |states|
    requires states[i].host.Up? && states[i].host.session.finished
    requires forall k :: i <= k < j ==> !steps[k].Crash?
    ensures states[j].topic == states[i].topic && states[j].host == states[i].host
    decreases j
  {
    if i < j {
      RetirementIsFinal(c, states, steps, i, j - 1);
      assert Enabled(c, states[j - 1], steps[j - 1]);
    }
  }
}
