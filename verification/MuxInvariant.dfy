/** What every step of the multiplexer keeps, crashes included. */
module MuxInvariant {
  import opened ChannelLog
  import opened TopicRecords
  import opened MuxMachine
  import opened MuxTrail

  function WorldOf(c: Config, s: System): World {
    World(s.members, c.mtu)
  }

  // ---------------- segments open with a slot table ----------------

  /** Only a slot table and the terminal marker can be read without a table before them. */
  predicate NeedsTable(r: TopicRecord) {
    !r.SlotTable? && !r.Terminal?
  }

  /** From `start` on, nothing that needs a table comes before one. */
  ghost predicate Covered(log: seq<TopicRecord>, start: nat) {
    forall j :: start <= j < |log| && NeedsTable(log[j]) ==>
                  exists i :: start <= i < j && log[i].SlotTable?
  }

  /** Every segment that holds a record opens with a slot table or the terminal marker, and
      whatever it holds can be read from its own start. */
  ghost predicate SegmentsOpenWell(t: Channel<TopicRecord>) {
    forall k :: 0 <= k < |t.starts| ==>
      && Covered(t.records, t.starts[k])
      && (t.starts[k] < |t.records| ==> !NeedsTable(t.records[t.starts[k]]))
  }

  // ---------------- the session and the log agree ----------------

  ghost predicate DistinctSlots(slots: seq<Slot>) {
    forall i, j :: 0 <= i < j < |slots| ==>
                     slots[i].memberRef != slots[j].memberRef && slots[i].id != slots[j].id
  }

  /** Where the tables naming the attached members are: in the segment being written, or,
      while a new segment still lacks its table, in the one before it. */
  ghost function TableHome(t: Channel<TopicRecord>, phase: Phase): nat
    requires 0 < |t.starts|
  {
    var n := |t.starts|;
    if phase.TableDue? && n >= 2 then t.starts[n - 2] else t.starts[n - 1]
  }

  ghost predicate SlotOK(s: System, ses: Session, k: nat)
    requires Shape(s) && k < |ses.slots|
  {
    var slot := ses.slots[k];
    && slot.memberRef < ses.nextRef
    && slot.id in s.members
    && slot.source == slot.cursor <= |Current(s.members[slot.id])|
    && Denotes(s.topic.records, slot.memberRef, slot.id)
    && TableHome(s.topic, ses.phase) <= |s.topic.records|
    && Named(s.topic.records[TableHome(s.topic, ses.phase)..], slot.id)
  }

  ghost predicate SessionOK(s: System, ses: Session)
    requires Shape(s)
  {
    && DistinctSlots(ses.slots)
    && ses.nextRef <= 0xFFFF
    && (forall k :: 0 <= k < |ses.slots| ==> SlotOK(s, ses, k))
    && (ses.phase.TableDue? ==>
          |s.topic.starts| >= 2 && s.topic.starts[|s.topic.starts| - 1] == |s.topic.records|
          && ses.slots != [])
    && (ses.phase.MarkDue? ==>
          && IsMark(ses.phase.mark)
          && Denotes(s.topic.records, ses.phase.mark.memberRef, ses.phase.id)
          && Attached(ses.slots, ses.phase.id))
    && (ses.finished ==> ses.phase.Idle? && ses.slots == [])
  }

  // ---------------- one member's trail and cursors ----------------

  /** A marker still owed describes the jump its table already made. */
  ghost predicate MarkFits(w: World, mark: TopicRecord, id: MemberId, expected: nat, next: nat) {
    Fits(w, id, expected, mark)
    && match mark
       case TopicGap(_, _, resumedAt) => next == resumedAt
       case MemberRegressed(_, _, head) => next == head
       case _ => false
  }

  /** What recovery over the whole log would resume `id` at. */
  function LogNext(s: System, id: MemberId): nat {
    Next(Scan(s.topic.records).out, id)
  }

  ghost predicate Owing(s: System, id: MemberId) {
    s.host.Up? && s.host.session.phase.MarkDue? && s.host.session.phase.id == id
  }

  /** The member's trail is honest, and what recovery would answer lags the trail and leads
      the live cursor by rejected records only. */
  ghost predicate Settled(c: Config, s: System, id: MemberId)
    requires Shape(s)
  {
    var w, log, n := WorldOf(c, s), s.topic.records, LogNext(s, id);
    && Trail(w, log, id)
    && (if Owing(s, id) then MarkFits(w, s.host.session.phase.mark, id, TrailNext(log, id), n)
        else TrailNext(log, id) <= n && AllRejected(w, id, TrailNext(log, id), n))
    && (s.host.Up? ==> SessionSettled(c, s, s.host.session, id))
    && (id in s.members && |s.members[id].history| == 1 ==> n <= |Current(s.members[id])|)
    && (Undisturbed(s, id) ==> Unmarked(log, id) && !Owing(s, id))
  }

  ghost predicate SessionSettled(c: Config, s: System, ses: Session, id: MemberId)
    requires Shape(s) && s.host == Up(ses)
  {
    var w, n := WorldOf(c, s), LogNext(s, id);
    && (forall k :: 0 <= k < |ses.slots| && ses.slots[k].id == id ==>
                      n <= ses.slots[k].cursor && AllRejected(w, id, n, ses.slots[k].cursor))
    && (!Attached(ses.slots, id) && Recalled(s.topic, ses, id) ==> Next(ses.recovered, id) == n)
  }

  /** Never reset and never pruned by its owner. */
  ghost predicate Undisturbed(s: System, id: MemberId) {
    id in s.members && |s.members[id].history| == 1 && s.members[id].earliest == 0
  }

  /** The part that holds of every member, broken or not. */
  ghost predicate Structure(s: System) {
    && Shape(s)
    && SegmentsOpenWell(s.topic)
    && (s.host.Up? ==> SessionOK(s, s.host.session))
  }

  ghost predicate Inv(c: Config, s: System) {
    && Structure(s)
    && forall id :: id !in s.broken ==> Settled(c, s, id)
  }

  lemma InitialEstablishesInv(c: Config, s: System)
    requires Initial(s)
    ensures Inv(c, s)
  {
  }
}
