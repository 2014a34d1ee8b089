/** What a topic's log says about one member, read as a trail: merged indices that climb,
    with every index left out either rejected by the mux or covered by a marker. */
module MuxTrail {
  import opened TopicRecords
  import opened MuxMachine

  /** The member logs as far as they are known, and the topic's record limit. */
  datatype World = World(members: map<MemberId, Member>, mtu: nat)

  /** Some log of this member held, at index `j`, a record the mux never merges. */
  ghost predicate RejectedAt(w: World, id: MemberId, j: nat) {
    && id in w.members
    && exists k :: 0 <= k < |w.members[id].history| && j < |w.members[id].history[k]|
                   && !Acceptable(w.members[id].history[k][j], w.mtu)
  }

  ghost predicate AllRejected(w: World, id: MemberId, from: nat, to: nat) {
    forall j :: from <= j < to ==> RejectedAt(w, id, j)
  }

  /** Some log of this member held exactly this record at index `j`, and it may be merged. */
  ghost predicate Genuine(w: World, id: MemberId, j: nat, r: MemberRecord) {
    && id in w.members && Acceptable(r, w.mtu)
    && exists k :: 0 <= k < |w.members[id].history| && j < |w.members[id].history[k]|
                   && w.members[id].history[k][j] == r
  }

  /** The index the trail of `id` expects next. */
  function TrailNext(log: seq<TopicRecord>, id: MemberId): nat {
    if log == [] then 0
    else
      var before, r := log[..|log| - 1], log[|log| - 1];
      match r
      case Data(ref, index, _) =>
        if Denotes(before, ref, id) then index + 1 else TrailNext(before, id)
      case TopicGap(ref, _, resumedAt) =>
        if Denotes(before, ref, id) then resumedAt else TrailNext(before, id)
      case MemberRegressed(ref, _, head) =>
        if Denotes(before, ref, id) then head else TrailNext(before, id)
      case _ => TrailNext(before, id)
  }

  /** One more record fits the trail: it does not go back, it skips only rejected indices,
      a gap says truthfully what it skips, and only a regression moves backwards. */
  ghost predicate Fits(w: World, id: MemberId, expected: nat, r: TopicRecord) {
    match r
    case Data(_, index, record) =>
      expected <= index && AllRejected(w, id, expected, index) && Genuine(w, id, index, record)
    case TopicGap(_, from, resumedAt) =>
      expected <= from < resumedAt && AllRejected(w, id, expected, from)
    case MemberRegressed(_, wanted, head) =>
      expected <= wanted && AllRejected(w, id, expected, wanted) && head < wanted
    case _ => true
  }

  predicate IsMark(r: TopicRecord) {
    r.TopicGap? || r.MemberRegressed?
  }

  /** The whole log reads as an honest trail of `id`: nothing repeated, nothing reordered,
      no hole that a marker or a rejected record does not account for. */
  ghost predicate Trail(w: World, log: seq<TopicRecord>, id: MemberId) {
    log == []
    || (var before, r := log[..|log| - 1], log[|log| - 1];
        && Trail(w, before, id)
        && ((r.Data? || IsMark(r)) && Denotes(before, r.memberRef, id)
            ==> Fits(w, id, TrailNext(before, id), r)))
  }

  /** No marker anywhere speaks of `id`. */
  ghost predicate Unmarked(log: seq<TopicRecord>, id: MemberId) {
    log == []
    || (var before, r := log[..|log| - 1], log[|log| - 1];
        Unmarked(before, id) && !(IsMark(r) && Denotes(before, r.memberRef, id)))
  }

  // ---------------- the world only learns ----------------

  ghost predicate Grows(w: World, w': World) {
    && w.mtu == w'.mtu
    && forall id :: id in w.members ==>
         && id in w'.members
         && |w.members[id].history| <= |w'.members[id].history|
         && forall k :: 0 <= k < |w.members[id].history| ==>
                          w.members[id].history[k] <= w'.members[id].history[k]
  }

  lemma RejectedGrows(w: World, w': World, id: MemberId, from: nat, to: nat)
    requires Grows(w, w') && AllRejected(w, id, from, to)
    ensures AllRejected(w', id, from, to)
  {
    forall j | from <= j < to ensures RejectedAt(w', id, j) {
      assert RejectedAt(w, id, j);
      var h, h' := w.members[id].history, w'.members[id].history;
      var k :| 0 <= k < |h| && j < |h[k]| && !Acceptable(h[k][j], w.mtu);
      assert h[k] <= h'[k];
      assert h'[k][j] == h[k][j];
    }
  }

  lemma FitsGrows(w: World, w': World, id: MemberId, expected: nat, r: TopicRecord)
    requires Grows(w, w') && Fits(w, id, expected, r)
    ensures Fits(w', id, expected, r)
  {
    match r
    case Data(_, index, record) =>
      RejectedGrows(w, w', id, expected, index);
      var h, h' := w.members[id].history, w'.members[id].history;
      var k :| 0 <= k < |h| && index < |h[k]| && h[k][index] == record;
      assert h[k] <= h'[k];
      assert h'[k][index] == record;
    case TopicGap(_, from, _) => RejectedGrows(w, w', id, expected, from);
    case MemberRegressed(_, wanted, _) => RejectedGrows(w, w', id, expected, wanted);
    case _ =>
  }

  lemma {:induction false} TrailGrows(w: World, w': World, log: seq<TopicRecord>, id: MemberId)
    requires Grows(w, w') && Trail(w, log, id)
    ensures Trail(w', log, id)
  {
    if log != [] {
      var before, r := log[..|log| - 1], log[|log| - 1];
      TrailGrows(w, w', before, id);
      if (r.Data? || IsMark(r)) && Denotes(before, r.memberRef, id) {
        FitsGrows(w, w', id, TrailNext(before, id), r);
      }
    }
  }

  // ---------------- one more record ----------------

  lemma TrailAppend(w: World, log: seq<TopicRecord>, r: TopicRecord, id: MemberId)
    ensures Trail(w, log + [r], id) <==>
            Trail(w, log, id) && ((r.Data? || IsMark(r)) && Denotes(log, r.memberRef, id)
                                  ==> Fits(w, id, TrailNext(log, id), r))
    ensures Unmarked(log + [r], id) <==>
            Unmarked(log, id) && !(IsMark(r) && Denotes(log, r.memberRef, id))
    ensures !((r.Data? || IsMark(r)) && Denotes(log, r.memberRef, id)) ==>
              TrailNext(log + [r], id) == TrailNext(log, id)
    ensures r.Data? && Denotes(log, r.memberRef, id) ==> TrailNext(log + [r], id) == r.memberIndex + 1
    ensures r.TopicGap? && Denotes(log, r.memberRef, id) ==> TrailNext(log + [r], id) == r.resumedAt
    ensures r.MemberRegressed? && Denotes(log, r.memberRef, id) ==> TrailNext(log + [r], id) == r.head
  {
  }

  // ---------------- what an unmarked trail is worth ----------------

  /** The records of `log` below `n` that the mux may merge, with their indices. */
  function Accepted(log: seq<MemberRecord>, n: nat, mtu: nat): seq<(nat, MemberRecord)>
    requires n <= |log|
  {
    if n == 0 then []
    else Accepted(log, n - 1, mtu) + if Acceptable(log[n - 1], mtu) then [(n - 1, log[n - 1])] else []
  }

  lemma {:induction false} AcceptedSkips(w: World, id: MemberId, from: nat, to: nat)
    requires id in w.members && |w.members[id].history| == 1
    requires from <= to <= |w.members[id].history[0]| && AllRejected(w, id, from, to)
    ensures Accepted(w.members[id].history[0], to, w.mtu) == Accepted(w.members[id].history[0], from, w.mtu)
  {
    if from < to {
      AcceptedSkips(w, id, from, to - 1);
      assert RejectedAt(w, id, to - 1);
    }
  }

  /** A trail without markers over a member that was never reset is the member's own log up
      to where the trail stands, less exactly the records that may not be merged. */
  lemma {:induction false} UnmarkedTrailIsThePrefix(w: World, log: seq<TopicRecord>, id: MemberId)
    requires id in w.members && |w.members[id].history| == 1
    requires Trail(w, log, id) && Unmarked(log, id)
    ensures TrailNext(log, id) <= |w.members[id].history[0]|
    ensures Attributed(log, id) == Accepted(w.members[id].history[0], TrailNext(log, id), w.mtu)
  {
    if log != [] {
      var before, r := log[..|log| - 1], log[|log| - 1];
      UnmarkedTrailIsThePrefix(w, before, id);
      if r.Data? && Denotes(before, r.memberRef, id) {
        AcceptedSkips(w, id, TrailNext(before, id), r.memberIndex);
      }
    }
  }
}
