/** Who may touch a subscription's replica. Any number of callers and conductor ticks try to
    establish it, each attempt runs on a thread of its own, the duty cycle polls what they hand
    over; three flags keep them apart. Every atomic access is a step of its own
    (xchannel-net/src/node.rs). */
module Subscription {

  type Thread = nat

  datatype Phase =
    | Claimed      // won the `establishing` flag, no thread yet
    | Started      // running, flags not looked at yet
    | Looking      // `stopped` was clear, `connected` not looked at yet
    | Reading      // reads the replica's position and shakes hands; may hold its writer
    | Holding      // handshake done: owns a sink
    | Published    // `connected` is set, the sink not handed over yet
    | Rebuilding   // refused: about to delete the replica
    | Finished     // only `establishing` is left to clear

  /** `attempts`: those under way, by thread. The duty cycle's share: sinks `queued` for it,
      sinks it is `polling`, sinks it dropped without having cleared `connected` yet. */
  datatype State = State(establishing: bool, connected: bool, stopped: bool,
                         attempts: map<Thread, Phase>, queued: nat, polling: nat, dropped: nat)

  datatype Step =
    | Claim(thread: Thread)
    | GiveUp(thread: Thread)     // backoff not over, or no thread to be had
    | Start(thread: Thread)
    | LookStopped(thread: Thread)
    | LookConnected(thread: Thread)
    | Fail(thread: Thread)
    | Connect(thread: Thread)
    | Refuse(thread: Thread)
    | Delete(thread: Thread)
    | Publish(thread: Thread)
    | HandOver(thread: Thread)
    | Finish(thread: Thread)
    | Adopt
    | DropSink
    | ClearConnected
    | Stop

  predicate Enabled(s: State, step: Step) {
    match step
    case Claim(t) => t !in s.attempts && !s.establishing
    case GiveUp(t) => t in s.attempts && s.attempts[t].Claimed?
    case Start(t) => t in s.attempts && s.attempts[t].Claimed?
    case LookStopped(t) => t in s.attempts && s.attempts[t].Started?
    case LookConnected(t) => t in s.attempts && s.attempts[t].Looking?
    case Fail(t) => t in s.attempts && (s.attempts[t].Reading? || s.attempts[t].Holding?)
    case Connect(t) => t in s.attempts && s.attempts[t].Reading?
    case Refuse(t) => t in s.attempts && s.attempts[t].Reading?
    case Delete(t) => t in s.attempts && s.attempts[t].Rebuilding?
    case Publish(t) => t in s.attempts && s.attempts[t].Holding?
    case HandOver(t) => t in s.attempts && s.attempts[t].Published?
    case Finish(t) => t in s.attempts && s.attempts[t].Finished?
    case Adopt => true
    case DropSink => s.polling > 0
    case ClearConnected => s.dropped > 0
    case Stop => true
  }

  function Apply(s: State, step: Step): State
    requires Enabled(s, step)
  {
    match step
    case Claim(t) => s.(establishing := true, attempts := s.attempts[t := Claimed])
    case GiveUp(t) => s.(establishing := false, attempts := s.attempts - {t})
    case Start(t) => s.(attempts := s.attempts[t := Started])
    case LookStopped(t) => s.(attempts := s.attempts[t := if s.stopped then Finished else Looking])
    case LookConnected(t) => s.(attempts := s.attempts[t := if s.connected then Finished else Reading])
    case Fail(t) => s.(attempts := s.attempts[t := Finished])
    case Connect(t) => s.(attempts := s.attempts[t := Holding])
    case Refuse(t) => s.(attempts := s.attempts[t := Rebuilding])
    case Delete(t) => s.(attempts := s.attempts[t := Finished])
    case Publish(t) => s.(attempts := s.attempts[t := Published], connected := true)
    case HandOver(t) => s.(attempts := s.attempts[t := Finished], queued := s.queued + 1)
    case Finish(t) => s.(establishing := false, attempts := s.attempts - {t})
    case Adopt => s.(polling := s.polling + s.queued, queued := 0)
    case DropSink => s.(polling := s.polling - 1, dropped := s.dropped + 1)
    case ClearConnected => s.(dropped := s.dropped - 1, connected := false)
    case Stop => s.(stopped := true)
  }

  const INITIAL: State := State(false, false, false, map[], 0, 0, 0)

  ghost predicate Run(states: seq<State>, steps: seq<Step>) {
    && |states| == |steps| + 1 && states[0] == INITIAL
    && forall k :: 0 <= k < |steps| ==> Enabled(states[k], steps[k]) && states[k + 1] == Apply(states[k], steps[k])
  }

  function Holders(s: State): set<Thread> {
    set t | t in s.attempts && (s.attempts[t].Holding? || s.attempts[t].Published?)
  }

  function Readers(s: State): set<Thread> {
    set t | t in s.attempts && s.attempts[t].Reading?
  }

  /** Sinks with a connection: held by an attempt, queued or polled. */
  function PollItems(s: State): nat {
    |Holders(s)| + s.queued + s.polling
  }

  /** Everything that may have the replica's writer open. */
  function Writers(s: State): nat {
    |Readers(s)| + PollItems(s)
  }

  ghost predicate Inv(s: State) {
    && (forall t, u :: t in s.attempts && u in s.attempts ==> t == u)
    && (s.establishing <==> s.attempts != map[])
    && s.queued + s.polling + s.dropped <= 1
    && (s.queued + s.polling + s.dropped == 1 ==> s.connected)
    && (s.connected && s.queued + s.polling + s.dropped == 0 ==>
          s.establishing && forall t :: t in s.attempts ==> s.attempts[t].Published?)
    && (forall t :: t in s.attempts ==>
          match s.attempts[t]
          case Reading => !s.connected
          case Holding => !s.connected
          case Rebuilding => !s.connected
          case Published => s.connected && s.queued + s.polling + s.dropped == 0
          case _ => true)
  }

  lemma StepKeepsInv(s: State, step: Step)
    requires Inv(s) && Enabled(s, step)
    ensures Inv(Apply(s, step))
  {
  }

  lemma {:induction false} RunKeepsInv(states: seq<State>, steps: seq<Step>, k: nat)
    requires Run(states, steps) && k < |states|
    ensures Inv(states[k])
  {
    if k > 0 {
      RunKeepsInv(states, steps, k - 1);
      StepKeepsInv(states[k - 1], steps[k - 1]);
    }
  }

  lemma AtMostOne(threads: set<Thread>)
    requires forall t, u :: t in threads && u in threads ==> t == u
    ensures |threads| <= 1
  {
    if threads != {} {
      var t :| t in threads;
      assert threads == {t};
    }
  }

  /** Over every interleaving: one attempt at most, one poll-item at most, one writer at most. */
  lemma SingleReplicaWriter(states: seq<State>, steps: seq<Step>, k: nat)
    requires Run(states, steps) && k < |states|
    ensures |states[k].attempts| <= 1
    ensures PollItems(states[k]) <= 1 && Writers(states[k]) <= 1
  {
    var s := states[k];
    RunKeepsInv(states, steps, k);
    AtMostOne(s.attempts.Keys);
    assert |s.attempts| == |s.attempts.Keys|;
    AtMostOne(Readers(s));
    AtMostOne(Holders(s));
    if Readers(s) != {} {
      var t :| t in Readers(s);
      assert s.queued + s.polling == 0 && Holders(s) == {};
    } else if Holders(s) != {} {
      var t :| t in Holders(s);
      assert s.queued + s.polling == 0;
    }
  }

  /** The replica's files are deleted only when nobody has, or is about to be given, its writer. */
  lemma RebuildDeletesAlone(states: seq<State>, steps: seq<Step>, k: nat)
    requires Run(states, steps) && k < |steps| && steps[k].Delete?
    ensures Writers(states[k]) == 0 && PollItems(states[k]) == 0 && states[k].dropped == 0
    ensures states[k].attempts.Keys == {steps[k].thread}
  {
    var s := states[k];
    RunKeepsInv(states, steps, k);
    assert Readers(s) == {} && Holders(s) == {};
  }

  /** The order inside the duty cycle matters: were `connected` cleared before the sink is dropped,
      an attempt could be refused and about to delete the replica while the sink is still polled. */
  lemma ClearingFirstLetsADeleteIn(s: State, t: Thread)
    requires Inv(s) && s.polling == 1 && !s.establishing && !s.stopped
    ensures var look := [Claim(t), Start(t), LookStopped(t), LookConnected(t), Refuse(t)];
            CanRun(s.(connected := false), look + [Delete(t)]) && Writers(After(s.(connected := false), look)) > 0
  {
    var s0 := s.(connected := false);
    var s1 := Apply(s0, Claim(t));
    var s2 := Apply(s1, Start(t));
    var s3 := Apply(s2, LookStopped(t));
    var s4 := Apply(s3, LookConnected(t));
    var s5 := Apply(s4, Refuse(t));
    assert After(s4, [Refuse(t)]) == s5 && CanRun(s4, [Refuse(t), Delete(t)]);
    assert After(s3, [LookConnected(t), Refuse(t)]) == s5 && CanRun(s3, [LookConnected(t), Refuse(t), Delete(t)]);
    assert After(s2, [LookStopped(t), LookConnected(t), Refuse(t)]) == s5;
    assert CanRun(s2, [LookStopped(t), LookConnected(t), Refuse(t), Delete(t)]);
    assert After(s1, [Start(t), LookStopped(t), LookConnected(t), Refuse(t)]) == s5;
    assert CanRun(s1, [Start(t), LookStopped(t), LookConnected(t), Refuse(t), Delete(t)]);
    assert After(s0, [Claim(t), Start(t), LookStopped(t), LookConnected(t), Refuse(t)]) == s5;
    assert [Claim(t), Start(t), LookStopped(t), LookConnected(t), Refuse(t)] + [Delete(t)]
        == [Claim(t), Start(t), LookStopped(t), LookConnected(t), Refuse(t), Delete(t)];
    assert CanRun(s0, [Claim(t), Start(t), LookStopped(t), LookConnected(t), Refuse(t), Delete(t)]);
  }

  predicate CanRun(s: State, steps: seq<Step>)
    decreases |steps|
  {
    steps == [] || (Enabled(s, steps[0]) && CanRun(Apply(s, steps[0]), steps[1..]))
  }

  function After(s: State, steps: seq<Step>): State
    decreases |steps|
  {
    if steps == [] || !Enabled(s, steps[0]) then s else After(Apply(s, steps[0]), steps[1..])
  }
}
