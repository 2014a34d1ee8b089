/** The topic multiplexer as a state machine whose steps are single durable effects: one
    commit, one roll, one in-memory advance. A crash may fall between any two of them, so
    every prefix of every public call is a reachable state. Member channels grow, are
    pruned and are reset by their own writers in between. */
module MuxMachine {
  import opened ChannelLog
  import opened TopicRecords

  /** `mtu` and `keepFiles` of the topic; both are the same in every session. */
  datatype Config = Config(mtu: nat, keepFiles: nat)

  /** A member channel on disk. `history` lists every log that has carried this name and
      epoch, oldest first; more than one means its owner reset it in place. `earliest` is
      the retention floor of the log being written now. */
  datatype Member = Member(history: seq<seq<MemberRecord>>, earliest: nat)

  function Current(m: Member): seq<MemberRecord>
    requires 0 < |m.history|
  {
    m.history[|m.history| - 1]
  }

  /** An attached member: where its source stands and what has been merged. */
  datatype Slot = Slot(memberRef: nat, id: MemberId, source: nat, cursor: nat, rejected: nat)

  function EntriesOf(slots: seq<Slot>): (entries: seq<SlotEntry>)
    ensures |entries| == |slots|
    ensures forall k :: 0 <= k < |slots| ==>
                          entries[k] == SlotEntry(slots[k].memberRef, slots[k].id, slots[k].cursor)
  {
    seq(|slots|, k requires 0 <= k < |slots| =>
      SlotEntry(slots[k].memberRef, slots[k].id, slots[k].cursor))
  }

  predicate Attached(slots: seq<Slot>, id: MemberId) {
    exists k :: 0 <= k < |slots| && slots[k].id == id
  }

  /** What the call in progress still owes the topic. */
  datatype Phase =
    | Idle
    | MarkDue(mark: TopicRecord, id: MemberId) // attach wrote its table, not yet its marker
    | TableDue                                 // rolled, the new segment has no table yet
    | Closing(slot: nat)                       // MemberClosed written, slot still listed

  /** One mux process, from open to crash. `recovered` is computed once, at open, from the
      records `[openFrom, openLen)` that were retained then. */
  datatype Session = Session(slots: seq<Slot>, nextRef: nat, recovered: map<MemberId, nat>,
                             finished: bool, phase: Phase, removed: set<MemberId>,
                             openFrom: nat, openLen: nat)

  datatype Host = Down | Up(session: Session)

  /** `broken` collects the members for which one of three things has happened: a crash
      between an attach's table and its marker, a second attach in one session, or an
      attach after the topic's retention dropped every table naming the member. */
  datatype System = System(topic: Channel<TopicRecord>, members: map<MemberId, Member>,
                           host: Host, broken: set<MemberId>)

  datatype Step =
    | Open
    | Crash
    | Attach(id: MemberId)
    | AttachFails
    | Mark
    | Reject(slot: nat)
    | Merge(slot: nat)
    | RollTopic
    | RollTable
    | Refresh
    | Close(slot: nat)
    | CloseTable
    | Retire
    | MemberAppend(id: MemberId, record: MemberRecord)
    | MemberPrune(id: MemberId, floor: nat)
    | MemberReset(id: MemberId, log: seq<MemberRecord>, floor: nat)

  // ---------------- attaching ----------------

  /** Where a resume lands and what has to be recorded about it. */
  datatype Resume = Clean(start: nat) | Hole(from: nat, start: nat) | Back(expected: nat, start: nat)

  function ResumeAt(want: nat, earliest: nat, head: nat): (r: Resume)
    ensures earliest <= head ==> earliest <= r.start <= head
    ensures r.Clean? <==> r.start == want
    ensures r.start > want ==> r.Hole?
  {
    if want < earliest then Hole(want, earliest)
    else if want > head then Back(want, head)
    else Clean(want)
  }

  function PhaseAfterAttach(ref: nat, id: MemberId, r: Resume): Phase {
    match r
    case Clean(_) => Idle
    case Hole(from, start) => MarkDue(TopicGap(ref, from, start), id)
    case Back(expected, start) => MarkDue(MemberRegressed(ref, expected, start), id)
  }

  /** The cursor `recovered` holds for `id` is the topic's own: this session has not merged
      it before, and either a table naming it was still retained at open or none ever was. */
  ghost predicate Recalled(topic: Channel<TopicRecord>, ses: Session, id: MemberId)
    requires ses.openFrom <= ses.openLen <= |topic.records|
  {
    && id !in ses.removed
    && (Named(topic.records[ses.openFrom..ses.openLen], id) || !Named(topic.records[..ses.openLen], id))
  }

  // ---------------- the steps ----------------

  /** Every member has a log, and retains no record it never held. */
  ghost predicate Inventory(members: map<MemberId, Member>) {
    forall id :: id in members ==>
                   0 < |members[id].history| && members[id].earliest <= |Current(members[id])|
  }

  /** The parts of a state fit together well enough for a step to make sense. */
  ghost predicate Shape(s: System) {
    && Inventory(s.members)
    && Valid(s.topic) && s.topic.base == 0
    && (s.host.Up? ==>
          var ses := s.host.session;
          && ses.openFrom <= ses.openLen <= |s.topic.records|
          && (ses.phase.Closing? ==> ses.phase.slot < |ses.slots|))
  }

  /** Slot `i`'s source has a record to give. */
  ghost predicate Readable(s: System, i: nat)
    requires Shape(s) && s.host.Up?
  {
    && s.host.session.phase.Idle? && i < |s.host.session.slots|
    && var slot := s.host.session.slots[i];
    && slot.id in s.members
    && slot.source < |Current(s.members[slot.id])|
  }

  ghost function RecordAt(s: System, i: nat): MemberRecord
    requires Shape(s) && s.host.Up? && Readable(s, i)
  {
    var slot := s.host.session.slots[i];
    Current(s.members[slot.id])[slot.source]
  }

  ghost predicate Enabled(c: Config, s: System, step: Step)
    requires Shape(s)
  {
    match step
    case Open => s.host.Down?
    case Crash => s.host.Up?
    case MemberAppend(id, _) => id in s.members
    case MemberPrune(id, floor) =>
      id in s.members && s.members[id].earliest <= floor <= |Current(s.members[id])|
    case MemberReset(id, log, floor) =>
      && id in s.members && floor <= |log|
      && (s.host.Up? ==> !Attached(s.host.session.slots, id))
    case _ => s.host.Up? && !s.host.session.finished && CallEnabled(c, s, step)
  }

  /** The steps a live mux takes inside its own calls. */
  ghost predicate CallEnabled(c: Config, s: System, step: Step)
    requires Shape(s) && s.host.Up?
  {
    var ses := s.host.session;
    match step
    case Attach(id) =>
      ses.phase.Idle? && !Attached(ses.slots, id) && ses.nextRef < 0xFFFF && id in s.members
    case AttachFails => ses.phase.Idle? && ses.nextRef < 0xFFFF
    case Mark => ses.phase.MarkDue?
    case Reject(i) => Readable(s, i) && !Acceptable(RecordAt(s, i), c.mtu)
    case Merge(i) => Readable(s, i) && Acceptable(RecordAt(s, i), c.mtu)
    case RollTopic => ses.phase.Idle? && ses.slots != []
    case RollTable => ses.phase.TableDue?
    case Refresh => ses.phase.Idle? && ses.slots != []
    case Close(i) => ses.phase.Idle? && i < |ses.slots|
    case CloseTable => ses.phase.Closing?
    case Retire => ses.phase.Idle? && ses.slots == []
    case _ => false
  }

  /** The same state with one more record in the topic and the session moved on. */
  function Commit(s: System, r: TopicRecord, ses: Session): System
    requires Valid(s.topic)
  {
    s.(topic := Append(s.topic, r), host := Up(ses))
  }

  function SlotAdvanced(slots: seq<Slot>, i: nat, rejected: nat): seq<Slot>
    requires i < |slots|
  {
    var next := slots[i].source + 1;
    slots[i := slots[i].(source := next, cursor := next, rejected := slots[i].rejected + rejected)]
  }

  function NewSession(topic: Channel<TopicRecord>): Session
    requires Valid(topic) && topic.base == 0
  {
    Session([], 0, Scan(Retained(topic)).out, false, Idle, {}, Earliest(topic), |topic.records|)
  }

  ghost function Apply(c: Config, s: System, step: Step): System
    requires Shape(s) && Enabled(c, s, step)
  {
    match step
    case Open => s.(host := Up(NewSession(s.topic)))
    case Crash =>
      var phase := s.host.session.phase;
      s.(host := Down, broken := if phase.MarkDue? then s.broken + {phase.id} else s.broken)
    case MemberAppend(id, r) =>
      var m := s.members[id];
      var last := |m.history| - 1;
      s.(members := s.members[id := m.(history := m.history[last := m.history[last] + [r]])])
    case MemberPrune(id, floor) => s.(members := s.members[id := s.members[id].(earliest := floor)])
    case MemberReset(id, log, floor) =>
      s.(members := s.members[id := Member(s.members[id].history + [log], floor)])
    case _ => ApplyCall(c, s, step)
  }

  ghost function ApplyCall(c: Config, s: System, step: Step): System
    requires Shape(s) && s.host.Up? && CallEnabled(c, s, step)
  {
    var ses := s.host.session;
    match step
    case Attach(id) =>
      var m := s.members[id];
      var resume := ResumeAt(Next(ses.recovered, id), m.earliest, |Current(m)|);
      var slots := ses.slots + [Slot(ses.nextRef, id, resume.start, resume.start, 0)];
      var after := ses.(slots := slots, nextRef := ses.nextRef + 1,
                        phase := PhaseAfterAttach(ses.nextRef, id, resume));
      Commit(s, SlotTable(EntriesOf(slots)), after).(
        broken := if Recalled(s.topic, ses, id) then s.broken else s.broken + {id})
    case AttachFails => s.(host := Up(ses.(nextRef := ses.nextRef + 1)))
    case Mark => Commit(s, ses.phase.mark, ses.(phase := Idle))
    case Reject(i) => s.(host := Up(ses.(slots := SlotAdvanced(ses.slots, i, 1))))
    case Merge(i) =>
      var slot := ses.slots[i];
      Commit(s, Data(slot.memberRef, slot.source, RecordAt(s, i)),
             ses.(slots := SlotAdvanced(ses.slots, i, 0)))
    case RollTopic => s.(topic := Roll(s.topic, c.keepFiles), host := Up(ses.(phase := TableDue)))
    case RollTable => Commit(s, SlotTable(EntriesOf(ses.slots)), ses.(phase := Idle))
    case Refresh => Commit(s, SlotTable(EntriesOf(ses.slots)), ses)
    case Close(i) =>
      var slot := ses.slots[i];
      Commit(s, MemberClosed(slot.memberRef, slot.cursor), ses.(phase := Closing(i)))
    case CloseTable =>
      var i := ses.phase.slot;
      var slots := ses.slots[..i] + ses.slots[i + 1..];
      Commit(s, SlotTable(EntriesOf(slots)),
             ses.(slots := slots, phase := Idle, removed := ses.removed + {ses.slots[i].id}))
    case Retire => Commit(s, Terminal, ses.(finished := true))
    case _ => s
  }

  /** A topic that holds nothing, no mux running, members whose logs may already exist. */
  ghost predicate Initial(s: System) {
    && s.topic == Fresh(s.topic.generation, 0)
    && Inventory(s.members) && (forall id :: id in s.members ==> |s.members[id].history| == 1)
    && s.host.Down? && s.broken == {}
  }

  /** A run: each state is the previous one after an enabled step. */
  ghost predicate Run(c: Config, states: seq<System>, steps: seq<Step>) {
    && |states| == |steps| + 1
    && forall k :: 0 <= k < |steps| ==>
                     && Shape(states[k]) && Enabled(c, states[k], steps[k])
                     && states[k + 1] == Apply(c, states[k], steps[k])
  }

  // ---------------- sequences of steps ----------------

  /** Taking `steps` from `a` is possible and ends in `b`. */
  ghost predicate Leads(c: Config, a: System, steps: seq<Step>, b: System)
    decreases |steps|
  {
    if steps == [] then a == b
    else Shape(a) && Enabled(c, a, steps[0]) && Leads(c, Apply(c, a, steps[0]), steps[1..], b)
  }

  lemma {:induction false} LeadsOn(c: Config, a: System, steps: seq<Step>, b: System, more: seq<Step>, d: System)
    requires Leads(c, a, steps, b) && Leads(c, b, more, d)
    ensures Leads(c, a, steps + more, d)
    decreases |steps|
  {
    hide Apply, Enabled, Shape;
    if steps == [] {
      assert steps + more == more;
    } else {
      LeadsOn(c, Apply(c, a, steps[0]), steps[1..], b, more, d);
      assert (steps + more)[1..] == steps[1..] + more;
    }
  }

  lemma LeadsByOne(c: Config, a: System, step: Step)
    requires Shape(a) && Enabled(c, a, step)
    ensures Leads(c, a, [step], Apply(c, a, step))
  {
  }

  lemma LeadsNowhere(c: Config, a: System)
    ensures Leads(c, a, [], a)
  {
  }

  /** Steps that lead from a first state are a run from it. */
  lemma {:induction false} LeadsIsARun(c: Config, a: System, steps: seq<Step>, b: System) returns (states: seq<System>)
    requires Leads(c, a, steps, b)
    ensures Run(c, states, steps) && states[0] == a && states[|steps|] == b
    decreases |steps|
  {
    hide Apply, Enabled, Shape;
    if steps == [] {
      states := [a];
    } else {
      var rest := LeadsIsARun(c, Apply(c, a, steps[0]), steps[1..], b);
      states := [a] + rest;
      forall k | 0 <= k < |steps|
        ensures Shape(states[k]) && Enabled(c, states[k], steps[k]) && states[k + 1] == Apply(c, states[k], steps[k])
      {
        if k > 0 { assert states[k] == rest[k - 1] && steps[k] == steps[1..][k - 1]; }
      }
    }
  }
}
