/** Dialling a long candidate list a few addresses at a time, resuming behind what was spent
    (xchannel-net/src/node.rs). */
module DialFairness {

  /** The candidate at offset `i` of a walk that begins at `start` and wraps around. */
  function Spot(n: nat, start: nat, i: nat): (p: nat)
    requires start < n && i < n
    ensures p < n
  {
    if start + i < n then start + i else start + i - n
  }

  /** How far `p` is from `start` along the walk. */
  function Offset(n: nat, start: nat, p: nat): (d: nat)
    requires start < n && p < n
    ensures d < n && Spot(n, start, d) == p
  {
    if start <= p then p - start else p + n - start
  }

  lemma SpotIsModulo(n: nat, start: nat, i: nat)
    requires start < n && i < n
    ensures Spot(n, start, i) == (start + i) % n
  {
  }

  /** Whom one call dials from offset `i` on: the candidates that are dialable and due when the
      walk comes by, until the budget is spent. */
  function Dials(ready: seq<bool>, start: nat, i: nat, budget: nat): seq<nat>
    requires start < |ready| && i <= |ready|
    decreases |ready| - i
  {
    if i == |ready| || budget == 0 then []
    else
      var p := Spot(|ready|, start, i);
      if ready[p] then [p] + Dials(ready, start, i + 1, budget - 1) else Dials(ready, start, i + 1, budget)
  }

  /** `ready[p]`: candidate `p` has a destination, is past its backoff and not linked. */
  method DialSome(ready: seq<bool>, cursor: nat, budget: nat) returns (dialled: seq<nat>, next: nat)
    ensures ready == [] ==> dialled == [] && next == cursor
    ensures ready != [] ==>
              var start := cursor % |ready|;
              dialled == Dials(ready, start, 0, budget) && next == start + |dialled| && |dialled| <= budget
  {
    if ready == [] { return [], cursor; }
    var start, i := cursor % |ready|, 0;
    dialled := [];
    while i < |ready| && |dialled| < budget
      invariant 0 <= i <= |ready| && |dialled| <= budget
      invariant Dials(ready, start, 0, budget) == dialled + Dials(ready, start, i, budget - |dialled|)
    {
      SpotIsModulo(|ready|, start, i);
      var p := (start + i) % |ready|;
      if ready[p] { dialled := dialled + [p]; }
      i := i + 1;
    }
    next := start + |dialled|;
  }

  /** A call never dials twice at one spot, nor more than its budget, and only who is ready. */
  lemma {:induction false} DialsAreReady(ready: seq<bool>, start: nat, i: nat, budget: nat)
    requires start < |ready| && i <= |ready|
    ensures |Dials(ready, start, i, budget)| <= budget
    ensures forall p :: p in Dials(ready, start, i, budget) ==>
            p < |ready| && ready[p] && Offset(|ready|, start, p) >= i
    ensures forall j, k :: 0 <= j < k < |Dials(ready, start, i, budget)| ==>
              Dials(ready, start, i, budget)[j] != Dials(ready, start, i, budget)[k]
    decreases |ready| - i
  {
    if i < |ready| && budget > 0 {
      var p := Spot(|ready|, start, i);
      DialsAreReady(ready, start, i + 1, if ready[p] then budget - 1 else budget);
    }
  }

  /** A ready candidate the walk did not reach: the whole budget went to candidates in front of it. */
  lemma {:induction false} PassedOver(ready: seq<bool>, start: nat, i: nat, budget: nat, p: nat)
    requires start < |ready| && p < |ready| && ready[p] && i <= Offset(|ready|, start, p)
    requires p !in Dials(ready, start, i, budget)
    ensures |Dials(ready, start, i, budget)| == budget && i + budget <= Offset(|ready|, start, p)
    decreases |ready| - i
  {
    if budget > 0 {
      var q := Spot(|ready|, start, i);
      assert q != p;
      PassedOver(ready, start, i + 1, if ready[q] then budget - 1 else budget, p);
    }
  }

  /** Where the cursor stands before call `k`, over calls with the given readiness. */
  function CursorAt(calls: seq<seq<bool>>, n: nat, cursor: nat, budget: nat, k: nat): nat
    requires n > 0 && k <= |calls| && forall j :: 0 <= j < |calls| ==> |calls[j]| == n
  {
    if k == 0 then cursor
    else
      var start := CursorAt(calls, n, cursor, budget, k - 1) % n;
      start + |Dials(calls[k - 1], start, 0, budget)|
  }

  function DialledIn(calls: seq<seq<bool>>, n: nat, cursor: nat, budget: nat, k: nat): seq<nat>
    requires n > 0 && k < |calls| && forall j :: 0 <= j < |calls| ==> |calls[j]| == n
  {
    Dials(calls[k], CursorAt(calls, n, cursor, budget, k) % n, 0, budget)
  }

  /** Every call that passes a ready candidate over brings the walk a whole budget closer to it. */
  lemma {:induction false} EachCallComesCloser(calls: seq<seq<bool>>, n: nat, cursor: nat, budget: nat, p: nat, k: nat)
    requires p < n && k <= |calls| && forall j :: 0 <= j < |calls| ==> |calls[j]| == n && calls[j][p]
    requires forall j :: 0 <= j < k ==> p !in DialledIn(calls, n, cursor, budget, j)
    ensures Offset(n, CursorAt(calls, n, cursor, budget, k) % n, p) + k * budget == Offset(n, cursor % n, p)
  {
    if k > 0 {
      EachCallComesCloser(calls, n, cursor, budget, p, k - 1);
      var start := CursorAt(calls, n, cursor, budget, k - 1) % n;
      assert p !in DialledIn(calls, n, cursor, budget, k - 1);
      PassedOver(calls[k - 1], start, 0, budget, p);
      AdvanceShortens(n, start, budget, p);
      assert k * budget == (k - 1) * budget + budget;
    }
  }

  lemma AdvanceShortens(n: nat, start: nat, budget: nat, p: nat)
    requires start < n && p < n && budget <= Offset(n, start, p)
    ensures Offset(n, (start + budget) % n, p) == Offset(n, start, p) - budget
  {
    Wrap(start + budget, n);
  }

  lemma Wrap(a: nat, n: nat)
    requires n > 0 && a < n + n
    ensures a % n == if a < n then a else a - n
  {
  }

  /** Dial fairness: a candidate that stays dialable and due is dialled within ceil(n / budget)
      calls, whatever the other candidates do. */
  lemma DialledWithinOneRound(calls: seq<seq<bool>>, n: nat, cursor: nat, budget: nat, p: nat)
    requires p < n && budget > 0 && forall j :: 0 <= j < |calls| ==> |calls[j]| == n && calls[j][p]
    requires |calls| >= (n + budget - 1) / budget
    ensures exists k :: 0 <= k < (n + budget - 1) / budget && p in DialledIn(calls, n, cursor, budget, k)
  {
    var rounds := (n + budget - 1) / budget;
    Ceiling(n, budget);
    if forall k :: 0 <= k < rounds ==> p !in DialledIn(calls, n, cursor, budget, k) {
      EachCallComesCloser(calls, n, cursor, budget, p, rounds);
    }
  }

  lemma Ceiling(n: nat, budget: nat)
    requires budget > 0
    ensures (n + budget - 1) / budget * budget >= n
  {
  }

  /** The bound is tight: with everybody always ready, the candidate just behind the cursor waits
      for the last of those calls. */
  lemma {:induction false} LastInLineWaits(calls: seq<seq<bool>>, n: nat, budget: nat, k: nat)
    requires n > 0 && k < |calls| && k * budget + budget < n
    requires forall j :: 0 <= j < |calls| ==> |calls[j]| == n && forall p :: 0 <= p < n ==> calls[j][p]
    ensures CursorAt(calls, n, 0, budget, k) == k * budget && n - 1 !in DialledIn(calls, n, 0, budget, k)
  {
    hide Dials;
    var at := k * budget;
    if k > 0 {
      var before := (k - 1) * budget;
      assert before + budget == at;
      LastInLineWaits(calls, n, budget, k - 1);
      Wrap(before, n);
      EveryoneReady(calls[k - 1], before, 0, budget);
    }
    Wrap(at, n);
    EveryoneReady(calls[k], at, 0, budget);
  }

  lemma {:induction false} EveryoneReady(ready: seq<bool>, start: nat, i: nat, budget: nat)
    requires start + i + budget < |ready| && forall p :: 0 <= p < |ready| ==> ready[p]
    ensures Dials(ready, start, i, budget) == seq(budget, k => start + i + k)
    decreases budget
  {
    if budget > 0 {
      EveryoneReady(ready, start, i + 1, budget - 1);
    }
  }
}
