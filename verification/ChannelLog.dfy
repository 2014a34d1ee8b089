/** The append-only channel underneath everything else: one writer, absolute record
    indices, a sequence of segments, and retention that drops whole segments from the
    front. The value keeps every record ever written since `base`; what is still on
    disk starts at segment `first`.  */
module ChannelLog {

  /** `starts[k]` is the absolute index at which segment `k` begins; the last segment is
      the one being written. */
  datatype Channel<+R> = Channel(generation: nat, base: nat, records: seq<R>,
                                 starts: seq<nat>, first: nat)

  ghost predicate Valid<R>(c: Channel<R>)
  {
    && 0 < |c.starts|
    && c.first < |c.starts|
    && c.starts[0] == c.base
    && (forall i, j :: 0 <= i <= j < |c.starts| ==> c.starts[i] <= c.starts[j])
    && c.starts[|c.starts| - 1] <= Head(c)
  }

  /** A channel that holds nothing yet and whose first record will carry index `base`. */
  function Fresh<R>(generation: nat, base: nat): (c: Channel<R>)
    ensures Valid(c) && Head(c) == Earliest(c) == base
  {
    Channel(generation, base, [], [base], 0)
  }

  /** The absolute index the next record will carry. */
  function Head<R>(c: Channel<R>): nat {
    c.base + |c.records|
  }

  /** The absolute index of the first record still retained. */
  function Earliest<R>(c: Channel<R>): nat
    requires c.first < |c.starts|
  {
    c.starts[c.first]
  }

  /** The record at an absolute index, retained or not. */
  function At<R>(c: Channel<R>, index: nat): R
    requires c.base <= index < Head(c)
  {
    c.records[index - c.base]
  }

  /** What a reader opened now would see. */
  function Retained<R>(c: Channel<R>): (w: seq<R>)
    requires Valid(c)
    ensures |w| == Head(c) - Earliest(c)
  {
    c.records[Earliest(c) - c.base..]
  }

  function Append<R>(c: Channel<R>, r: R): (d: Channel<R>)
    requires Valid(c)
    ensures Valid(d) && Head(d) == Head(c) + 1
  {
    c.(records := c.records + [r])
  }

  /** Start a new segment, then keep only the last `keep` of them counting the new one;
      `keep == 0` keeps everything. */
  function Roll<R>(c: Channel<R>, keep: nat): (d: Channel<R>)
    requires Valid(c)
    ensures Valid(d) && Head(d) == Head(c) && d.records == c.records
    ensures Earliest(c) <= Earliest(d)
    ensures keep != 1 ==> d.first < |d.starts| - 1
  {
    var n := |c.starts| + 1;
    c.(starts := c.starts + [Head(c)],
       first := if keep > 0 && n - keep > c.first then n - keep else c.first)
  }
}
