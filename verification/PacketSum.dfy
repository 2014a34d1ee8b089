/** Sums over multisets, in whatever order the members are taken. */
module PacketSum {

  ghost function Sum<T(!new)>(xs: multiset<T>, weight: T -> nat): nat
    decreases |xs|
  {
    if xs == multiset{} then 0
    else var x :| x in xs; weight(x) + Sum(xs - multiset{x}, weight)
  }

  lemma {:induction false} SumTakes<T(!new)>(xs: multiset<T>, weight: T -> nat, x: T)
    requires x in xs
    ensures Sum(xs, weight) == weight(x) + Sum(xs - multiset{x}, weight)
    decreases |xs|
  {
    var y :| y in xs && Sum(xs, weight) == weight(y) + Sum(xs - multiset{y}, weight);
    if y != x {
      SumTakes(xs - multiset{y}, weight, x);
      SumTakes(xs - multiset{x}, weight, y);
      assert xs - multiset{y} - multiset{x} == xs - multiset{x} - multiset{y};
    }
  }

  lemma {:induction false} SumAdds<T(!new)>(xs: multiset<T>, ys: multiset<T>, weight: T -> nat)
    ensures Sum(xs + ys, weight) == Sum(xs, weight) + Sum(ys, weight)
    decreases |ys|
  {
    if ys == multiset{} {
      assert xs + ys == xs;
    } else {
      var y :| y in ys;
      SumTakes(ys, weight, y);
      SumTakes(xs + ys, weight, y);
      assert xs + ys - multiset{y} == xs + (ys - multiset{y});
      SumAdds(xs, ys - multiset{y}, weight);
    }
  }

  lemma SumOfOne<T(!new)>(x: T, weight: T -> nat)
    ensures Sum(multiset{x}, weight) == weight(x)
  {
    SumTakes(multiset{x}, weight, x);
    assert multiset{x} - multiset{x} == multiset{};
  }
}
