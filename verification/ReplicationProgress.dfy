/** When a resume gets anywhere: which replicas can still advance or be rebuilt, and which stay as they
    are for good. */
module ReplicationProgress {
  import opened Bytes
  import opened Identity
  import opened ChannelLog
  import opened TopicRecords
  import opened Replication
  import opened ReplicationMachine

  /** What the handshake makes of a replica whose position was read. An accepted stream extends it from
      where it is exactly if it has a record, or is of this very incarnation, which still has its first. */
  lemma ResumeIsContiguous(r: Log, log: Log)
    requires Valid(r) && Valid(log)
    ensures var reply := Answer(log, Head(r), r.generation);
            && (reply.Accepted? <==>
                Head(r) == 0 || (r.generation == log.generation && Earliest(log) <= Head(r) <= Head(log)))
            && (reply.Accepted? ==>
                  (r.generation == log.generation && reply.start == Head(r)
                   <==> Head(r) > 0 || (r.generation == log.generation && Earliest(log) == 0)))
  {
  }

  /** The replica holds a record, or is an empty one of this channel's current incarnation, which still
      has its first record. */
  ghost predicate Promising(c: Config, s: System)
    requires LogsOK(s) && s.disk.Some?
  {
    var r := s.disk.value;
    || Head(r.log) > 0
    || (r.name == c.name && r.log.generation == s.current && Earliest(s.logs[s.current]) == 0)
  }

  /** Rebuilt, or further than it was. */
  predicate Moved(before: Replica, after: Option<Replica>) {
    after.None? || Head(after.value.log) > Head(before.log)
  }

  ghost predicate CanMove(c: Config, s: System)
    requires s.disk.Some?
  {
    exists steps, end :: Leads(c, s, steps, end) && Moved(s.disk.value, end.disk)
  }

  // ---------------- never ----------------

  /** No connection of an empty replica that is not promising can bring record 0 or a refusal. */
  predicate Hopeless(conn: Conn, r: Replica, name: Text) {
    match conn
    case Idle => true
    case Asked(from, _) => from == 0
    case Refused => false
    case Streaming(g, start, _, _, _, _) => Extendable(r, name, g) ==> start > 0
  }

  ghost predicate Stuck(c: Config, s: System) {
    Inv(c, s) && s.disk.Some? && !Promising(c, s) && Hopeless(s.conn, s.disk.value, c.name)
  }

  lemma StuckDiskStays(c: Config, s: System, step: Step)
    requires Stuck(c, s) && Enabled(s, step)
    ensures var s' := Apply(c, s, step);
            s'.disk == s.disk && (step.Deliver? || step.TornDeliver? ==> step.Deliver? && s'.conn.Idle?)
  {
    if step.Deliver? || step.TornDeliver? {
      assert WireOK(s.conn, s.logs[s.conn.generation]) && s.conn.wire[0].index >= s.conn.start;
    }
  }

  lemma StuckStep(c: Config, s: System, step: Step)
    requires Stuck(c, s) && Enabled(s, step)
    ensures Stuck(c, Apply(c, s, step))
  {
    StepKeepsInv(c, s, step);
    StuckDiskStays(c, s, step);
    InvIsSound(c, s);
    InvIsSound(c, Apply(c, s, step));
    if step.Reclaim? { ReclaimKeepsItBarred(c, s, step.generation); }
    hide Inv, Agrees, WireOK, Delivered, Extended;
    var s' := Apply(c, s, step);
    assert !Promising(c, s');
    assert Hopeless(s'.conn, s.disk.value, c.name);
  }

  lemma ReclaimKeepsItBarred(c: Config, s: System, g: nat)
    requires Stuck(c, s) && g !in s.logs
    ensures s.disk.value.name == c.name ==> s.disk.value.log.generation != g
  {
  }

  /** Such a replica never advances and is never rebuilt, whatever happens from then on. */
  lemma {:induction false} EmptyReplicaNeverAdvances(c: Config, states: seq<System>, steps: seq<Step>, k: nat)
    requires Run(c, states, steps) && Stuck(c, states[0]) && k < |states|
    ensures Stuck(c, states[k]) && states[k].disk == states[0].disk
  {
    if k > 0 {
      EmptyReplicaNeverAdvances(c, states, steps, k - 1);
      StuckDiskStays(c, states[k - 1], steps[k - 1]);
      StuckStep(c, states[k - 1], steps[k - 1]);
    }
  }

  lemma {:induction false} StuckForGood(c: Config, s: System, steps: seq<Step>, end: System)
    requires Stuck(c, s) && Leads(c, s, steps, end)
    ensures end.disk == s.disk
    decreases |steps|
  {
    hide Apply, Enabled, Stuck;
    if steps != [] {
      StuckDiskStays(c, s, steps[0]);
      StuckStep(c, s, steps[0]);
      StuckForGood(c, Apply(c, s, steps[0]), steps[1..], end);
    }
  }

  // ---------------- some day ----------------

  /** A generation no incarnation has had. */
  lemma {:induction false} FreshGeneration(used: set<nat>) returns (g: nat)
    ensures forall h :: h in used ==> h < g
    decreases used
  {
    if used == {} {
      g := 0;
    } else {
      var h :| h in used;
      var above := FreshGeneration(used - {h});
      g := if above <= h then h + 1 else above;
      assert forall k :: k in used ==> k == h || k in used - {h};
    }
  }

  /** A replica with a record that is not of the current incarnation is refused, and so rebuilt. */
  lemma RefusedIsRebuilt(c: Config, s: System) returns (steps: seq<Step>, end: System)
    requires Inv(c, s) && s.conn.Idle? && s.disk.Some? && Head(s.disk.value.log) > 0
    requires Served(s.logs[s.current], Head(s.disk.value.log), s.disk.value.log.generation).Refused?
    ensures Leads(c, s, steps, end) && end.disk.None?
  {
    hide Leads, Inv, Answer;
    InvIsSound(c, s);
    LeadsNowhere(c, s);
    var asked := LeadsFurther(c, s, [], s, Ask(true));
    var served := LeadsFurther(c, s, [] + [Ask(true)], asked, Serve);
    end := LeadsFurther(c, s, [] + [Ask(true)] + [Serve], served, Rebuild);
    steps := [] + [Ask(true)] + [Serve] + [Rebuild];
  }

  /** A stream that starts where the replica ends extends it by the next record. */
  lemma AcceptedIsExtended(c: Config, s: System, visible: bool) returns (steps: seq<Step>, end: System)
    requires Inv(c, s) && s.conn.Idle? && s.disk.Some? && Extendable(s.disk.value, c.name, s.current)
    requires var asked, log := Position(s.disk, visible), s.logs[s.current];
             && Answer(log, asked.from, asked.generation).Accepted?
             && Answer(log, asked.from, asked.generation).start == Head(s.disk.value.log)
    ensures Leads(c, s, [Ask(visible), Serve] + steps, end)
    ensures end.disk.Some? && Head(end.disk.value.log) == Head(s.disk.value.log) + 1
    ensures forall k :: 0 <= k < |steps| ==> !steps[k].Ask?
  {
    hide Leads, Inv;
    InvIsSound(c, s);
    LeadsNowhere(c, s);
    var write := Write(s.current, MemberRecord(0, 0, []));
    var asked := LeadsFurther(c, s, [], s, Ask(visible));
    var served := LeadsFurther(c, s, [] + [Ask(visible)], asked, Serve);
    assert [] + [Ask(visible)] + [Serve] == [Ask(visible), Serve];
    var rest;
    rest, end := ServedIsExtended(c, served, write);
    steps := rest;
    LeadsOn(c, s, [Ask(visible), Serve], served, rest, end);
  }

  lemma ServedIsExtended(c: Config, s: System, write: Step) returns (steps: seq<Step>, end: System)
    requires Inv(c, s) && s.disk.Some? && s.conn.Streaming? && !s.conn.open && s.conn.wire == []
    requires Extendable(s.disk.value, c.name, s.conn.generation) && s.conn.generation in s.logs
    requires s.conn.reader.next == Head(s.disk.value.log) && write.Write? && write.generation == s.conn.generation
    ensures Leads(c, s, steps, end) && steps == [Open, write, Send, Deliver(false)]
    ensures end.disk.Some? && Head(end.disk.value.log) == Head(s.disk.value.log) + 1
  {
    assert s.conn.reader.next <= Head(s.logs[s.conn.generation]);
    InvIsSound(c, s);
    hide Leads, Inv;
    LeadsNowhere(c, s);
    var taken := LeadsFurther(c, s, [], s, Open);
    assert taken == s.(conn := s.conn.(open := true));
    var written := LeadsFurther(c, s, [] + [Open], taken, write);
    assert written.disk == s.disk && written.conn == taken.conn;
    var rest;
    rest, end := WrittenIsExtended(c, written);
    hide Apply, Enabled;
    steps := [] + [Open] + [write] + rest;
    LeadsOn(c, s, [] + [Open] + [write], written, rest, end);
  }

  lemma WrittenIsExtended(c: Config, s: System) returns (steps: seq<Step>, end: System)
    requires Inv(c, s) && s.disk.Some? && s.conn.Streaming? && s.conn.open && s.conn.wire == []
    requires s.conn.reader.next == Head(s.disk.value.log) < Head(s.logs[s.conn.generation])
    ensures Leads(c, s, steps, end) && steps == [Send, Deliver(false)]
    ensures end.disk.Some? && Head(end.disk.value.log) == Head(s.disk.value.log) + 1
  {
    InvIsSound(c, s);
    assert Enabled(s, Send);
    hide Leads, Inv;
    LeadsNowhere(c, s);
    var sent := LeadsFurther(c, s, [], s, Send);
    assert |sent.conn.wire| == 1 && sent.conn.wire[0].index == s.conn.reader.next;
    end := LeadsFurther(c, s, [] + [Send], sent, Deliver(false));
    steps := [] + [Send] + [Deliver(false)];
  }

  /** A promising replica has steps that move it. */
  lemma PromisingCanMove(c: Config, s: System) returns (steps: seq<Step>, end: System)
    requires Inv(c, s) && s.conn.Idle? && s.disk.Some? && Promising(c, s)
    ensures Leads(c, s, steps, end) && Moved(s.disk.value, end.disk)
  {
    hide Leads;
    var r := s.disk.value;
    ResumeIsContiguous(r.log, s.logs[s.current]);
    if Answer(s.logs[s.current], Head(r.log), r.log.generation).Accepted? {
      if r.name == c.name {
        var rest;
        rest, end := AcceptedIsExtended(c, s, true);
        steps := [Ask(true), Serve] + rest;
      } else {
        steps, end := ReclaimedIsRebuilt(c, s);
      }
    } else {
      steps, end := RefusedIsRebuilt(c, s);
    }
  }

  /** Another channel's replica that the handshake does not refuse is refused once the name is
      reclaimed. */
  lemma ReclaimedIsRebuilt(c: Config, s: System) returns (steps: seq<Step>, end: System)
    requires Inv(c, s) && s.conn.Idle? && s.disk.Some? && Head(s.disk.value.log) > 0
    ensures Leads(c, s, steps, end) && end.disk.None?
  {
    hide Leads;
    var g := FreshGeneration(s.logs.Keys + {s.disk.value.log.generation});
    LeadsNowhere(c, s);
    var reclaimed := LeadsFurther(c, s, [], s, Reclaim(g));
    var rest;
    rest, end := RefusedIsRebuilt(c, reclaimed);
    LeadsOn(c, s, [] + [Reclaim(g)], reclaimed, rest, end);
    steps := [] + [Reclaim(g)] + rest;
  }

  /** Progress, decided: an idle subscriber's replica can still advance or be rebuilt if and only if it is
      promising. The others are the empty replicas whose origin pruned its first record or was
      reclaimed, or whose files belong to another channel. */
  lemma ReplicaCanMoveIffPromising(c: Config, s: System)
    requires Inv(c, s) && s.conn.Idle? && s.disk.Some?
    ensures CanMove(c, s) <==> Promising(c, s)
  {
    InvIsSound(c, s);
    hide Leads, Inv, Promising;
    if Promising(c, s) {
      var steps, end := PromisingCanMove(c, s);
    } else {
      assert Stuck(c, s);
      forall steps, end | Leads(c, s, steps, end) ensures !Moved(s.disk.value, end.disk) {
        StuckForGood(c, s, steps, end);
      }
    }
  }

  // ---------------- when the position cannot be read ----------------

  lemma {:induction false} FutileForGood(c: Config, s: System, steps: seq<Step>, end: System)
    requires Inv(c, s) && (s.conn.Idle? || Futile(c, s)) && Leads(c, s, steps, end)
    requires forall k :: 0 <= k < |steps| ==> !steps[k].Ask?
    ensures end.disk == s.disk
    decreases |steps|
  {
    hide Inv, Futile;
    if steps != [] {
      if !s.conn.Idle? { FutileStep(c, s, steps[0]); }
      StepKeepsInv(c, s, steps[0]);
      assert forall k :: 0 <= k < |steps[1..]| ==> steps[1..][k] == steps[k + 1];
      FutileForGood(c, Apply(c, s, steps[0]), steps[1..], end);
    }
  }

  /** The attempt that begins here, served at once, can change the replica. */
  ghost predicate AttemptTouches(c: Config, s: System, visible: bool) {
    exists steps: seq<Step>, end ::
      && Leads(c, s, [Ask(visible), Serve] + steps, end)
      && (forall k :: 0 <= k < |steps| ==> !steps[k].Ask?)
      && end.disk != s.disk
  }

  /** A subscriber that cannot read its replica's position asks from 0. That changes the replica, however
      long it is, if and only if it is of the current incarnation and ends where the retained log begins. */
  lemma UnreadPositionTouchesIff(c: Config, s: System)
    requires Inv(c, s) && s.conn.Idle? && s.disk.Some?
    ensures AttemptTouches(c, s, false) <==>
            && Extendable(s.disk.value, c.name, s.current)
            && Earliest(s.logs[s.current]) == Head(s.disk.value.log)
  {
    hide Leads;
    var r := s.disk.value;
    if Extendable(r, c.name, s.current) && Earliest(s.logs[s.current]) == Head(r.log) {
      var steps, end := AcceptedIsExtended(c, s, false);
    } else {
      forall steps: seq<Step>, end | Leads(c, s, [Ask(false), Serve] + steps, end)
                          && (forall k :: 0 <= k < |steps| ==> !steps[k].Ask?)
        ensures end.disk == s.disk
      {
        UnreadIsFutile(c, s, steps, end);
      }
    }
  }

  lemma UnreadIsFutile(c: Config, s: System, steps: seq<Step>, end: System)
    requires Inv(c, s) && s.conn.Idle? && s.disk.Some?
    requires Extendable(s.disk.value, c.name, s.current) ==>
               Earliest(s.logs[s.current]) != Head(s.disk.value.log)
    requires Leads(c, s, [Ask(false), Serve] + steps, end) && forall k :: 0 <= k < |steps| ==> !steps[k].Ask?
    ensures end.disk == s.disk
  {
    var served := AttemptServed(c, s, steps, end);
    ServedFromTheStart(c, s, served.conn);
    hide Inv, Futile, Answer, Served, Leads;
    FutileForGood(c, served, steps, end);
  }

  lemma AttemptServed(c: Config, s: System, steps: seq<Step>, end: System) returns (served: System)
    requires Inv(c, s) && s.conn.Idle? && Leads(c, s, [Ask(false), Serve] + steps, end)
    ensures served == s.(conn := Served(s.logs[s.current], 0, 0)) && Inv(c, served) && Leads(c, served, steps, end)
  {
    StepKeepsInv(c, s, Ask(false));
    var asked := s.(conn := Asked(0, 0));
    InvIsSound(c, asked);
    hide Inv, Served, Answer;
    served := Apply(c, asked, Serve);
    StepKeepsInv(c, asked, Serve);
    assert ([Ask(false), Serve] + steps)[1..] == [Serve] + steps && ([Serve] + steps)[1..] == steps;
    assert Leads(c, asked, [Serve] + steps, end);
  }

  lemma ServedFromTheStart(c: Config, s: System, conn: Conn)
    requires LogsOK(s) && s.disk.Some? && conn == Served(s.logs[s.current], 0, 0)
    requires Extendable(s.disk.value, c.name, s.current) ==>
               Earliest(s.logs[s.current]) != Head(s.disk.value.log)
    ensures Futile(c, s.(conn := conn))
  {
  }
}
