/** Filtering, mapping and joining sequences, and counting what they hold. The lemmas say when two
    orders of walking a collection come to the same: filtering and mapping keep multisets equal, and
    a stable sort keeps elements that are tied in the order they had. */
module Sequences {
  import Ordering

  function Filter<T>(xs: seq<T>, keep: T -> bool): seq<T> {
    if xs == [] then []
    else (if keep(xs[0]) then [xs[0]] else []) + Filter(xs[1..], keep)
  }

  function Concat<T>(parts: seq<seq<T>>): seq<T> {
    if parts == [] then [] else parts[0] + Concat(parts[1..])
  }

  lemma {:induction false} FilterCount<T>(xs: seq<T>, keep: T -> bool, x: T)
    ensures multiset(Filter(xs, keep))[x] == if keep(x) then multiset(xs)[x] else 0
  {
    if xs != [] {
      FilterCount(xs[1..], keep, x);
      assert xs == [xs[0]] + xs[1..];
    }
  }

  lemma FilterSameMultiset<T>(xs: seq<T>, ys: seq<T>, keep: T -> bool)
    requires multiset(xs) == multiset(ys)
    ensures multiset(Filter(xs, keep)) == multiset(Filter(ys, keep))
  {
    forall x | x in Filter(xs, keep) + Filter(ys, keep)
      ensures multiset(Filter(xs, keep))[x] == multiset(Filter(ys, keep))[x]
    {
      FilterCount(xs, keep, x);
      FilterCount(ys, keep, x);
    }
  }

  lemma {:induction false} FilterAll<T>(xs: seq<T>, keep: T -> bool)
    requires forall x | x in xs :: keep(x)
    ensures Filter(xs, keep) == xs
  {
    if xs != [] {
      FilterAll(xs[1..], keep);
      assert xs == [xs[0]] + xs[1..];
    }
  }

  lemma FilterSubset<T>(xs: seq<T>, ys: seq<T>, keep: T -> bool)
    requires multiset(xs) <= multiset(ys)
    ensures multiset(Filter(xs, keep)) <= multiset(Filter(ys, keep))
  {
    forall x | x in multiset(Filter(xs, keep))
      ensures multiset(Filter(xs, keep))[x] <= multiset(Filter(ys, keep))[x]
    {
      assert x in Filter(xs, keep);
      FilterCount(xs, keep, x);
      FilterCount(ys, keep, x);
    }
  }

  lemma {:induction false} FilterAppend<T>(xs: seq<T>, ys: seq<T>, keep: T -> bool)
    ensures Filter(xs + ys, keep) == Filter(xs, keep) + Filter(ys, keep)
  {
    if xs == [] {
      assert xs + ys == ys;
    } else {
      var head := if keep(xs[0]) then [xs[0]] else [];
      FilterAppend(xs[1..], ys, keep);
      assert xs + ys == [xs[0]] + (xs[1..] + ys);
      assert head + (Filter(xs[1..], keep) + Filter(ys, keep)) == (head + Filter(xs[1..], keep)) + Filter(ys, keep);
    }
  }

  lemma {:induction false} FilterNone<T>(xs: seq<T>, keep: T -> bool)
    requires forall x | x in xs :: !keep(x)
    ensures Filter(xs, keep) == []
  {
    if xs != [] {
      FilterNone(xs[1..], keep);
    }
  }

  function Map<T, U>(xs: seq<T>, f: T -> U): (ys: seq<U>)
    ensures |ys| == |xs|
    ensures forall i | 0 <= i < |xs| :: ys[i] == f(xs[i])
  {
    seq(|xs|, i requires 0 <= i < |xs| => f(xs[i]))
  }

  lemma {:induction false} MapMultiset<T, U>(xs: seq<T>, ys: seq<T>, f: T -> U)
    requires multiset(xs) == multiset(ys)
    ensures multiset(Map(xs, f)) == multiset(Map(ys, f))
  {
    if xs == [] {
      assert |multiset(ys)| == |ys|;
    } else {
      var x := xs[0];
      assert x in multiset(xs);
      assert x in ys;
      var i :| 0 <= i < |ys| && ys[i] == x;
      var rest := ys[..i] + ys[i + 1..];
      Ordering.RemoveAt(ys, i);
      Ordering.RemoveHead(xs);
      MapMultiset(xs[1..], rest, f);
      MapHead(xs, f);
      MapAt(ys, i, f);
    }
  }

  lemma MapHead<T, U>(xs: seq<T>, f: T -> U)
    requires xs != []
    ensures multiset(Map(xs, f)) == multiset{f(xs[0])} + multiset(Map(xs[1..], f))
  {
    assert Map(xs, f) == [f(xs[0])] + Map(xs[1..], f);
  }

  lemma MapAt<T, U>(ys: seq<T>, i: nat, f: T -> U)
    requires i < |ys|
    ensures multiset(Map(ys, f)) == multiset{f(ys[i])} + multiset(Map(ys[..i] + ys[i + 1..], f))
  {
    assert Map(ys, f) == Map(ys[..i], f) + [f(ys[i])] + Map(ys[i + 1..], f);
    assert Map(ys[..i] + ys[i + 1..], f) == Map(ys[..i], f) + Map(ys[i + 1..], f);
  }

  /** Distinct sequences of the same elements are the same multiset. */
  lemma DistinctSameElements<T>(xs: seq<T>, ys: seq<T>)
    requires Ordering.Distinct(xs) && Ordering.Distinct(ys)
    requires forall x | x in xs + ys :: x in xs && x in ys
    ensures multiset(xs) == multiset(ys)
  {
    Ordering.DistinctMultiset(xs);
    Ordering.DistinctMultiset(ys);
  }

  // ---- Stable sorting ----

  /** The elements a comparison cannot tell from `c`. */
  function Tied<T>(less: (T, T) -> bool, c: T): T -> bool {
    x => !less(x, c) && !less(c, x)
  }

  lemma {:induction false} InsertKept<T>(x: T, xs: seq<T>, less: (T, T) -> bool, keep: T -> bool)
    requires forall y | y in xs && less(y, x) :: !keep(x) || !keep(y)
    ensures Filter(Ordering.Insert(x, xs, less), keep) == (if keep(x) then [x] else []) + Filter(xs, keep)
  {
    if xs != [] && less(xs[0], x) {
      InsertKept(x, xs[1..], less, keep);
      KeptBehind(x, xs[0], xs[1..], Ordering.Insert(x, xs[1..], less), keep);
      assert xs == [xs[0]] + xs[1..];
    } else {
      FilterCons(x, xs, keep);
    }
  }

  lemma KeptBehind<T>(x: T, y: T, xs: seq<T>, more: seq<T>, keep: T -> bool)
    requires Filter(more, keep) == (if keep(x) then [x] else []) + Filter(xs, keep)
    requires !keep(x) || !keep(y)
    ensures Filter([y] + more, keep) == (if keep(x) then [x] else []) + Filter([y] + xs, keep)
  {
    FilterCons(y, more, keep);
    FilterCons(y, xs, keep);
  }

  lemma InsertTied<T(!new)>(x: T, xs: seq<T>, less: (T, T) -> bool, c: T)
    requires Ordering.StrictWeak(less)
    ensures Filter(Ordering.Insert(x, xs, less), Tied(less, c))
      == (if Tied(less, c)(x) then [x] else []) + Filter(xs, Tied(less, c))
  {
    InsertKept(x, xs, less, Tied(less, c));
  }

  lemma FilterCons<T>(x: T, xs: seq<T>, keep: T -> bool)
    ensures Filter([x] + xs, keep) == (if keep(x) then [x] else []) + Filter(xs, keep)
  {
    assert ([x] + xs)[1..] == xs;
  }

  /** A stable sort keeps tied elements in the order they came. */
  lemma {:induction false} SortIsStable<T(!new)>(xs: seq<T>, less: (T, T) -> bool, c: T)
    requires Ordering.StrictWeak(less)
    ensures Filter(Ordering.StableSort(xs, less), Tied(less, c)) == Filter(xs, Tied(less, c))
  {
    if xs != [] {
      SortIsStable(xs[1..], less, c);
      InsertTied(xs[0], Ordering.StableSort(xs[1..], less), less, c);
    }
  }

  /** An ordered sequence is settled by the order of its tied elements. */
  lemma {:induction false} OrderedByTies<T(!new)>(a: seq<T>, b: seq<T>, less: (T, T) -> bool)
    requires Ordering.StrictWeak(less) && Ordering.Ordered(a, less) && Ordering.Ordered(b, less)
    requires forall c :: Filter(a, Tied(less, c)) == Filter(b, Tied(less, c))
    ensures a == b
  {
    if a == [] {
      NoTies(b, less);
    } else {
      var c := a[0];
      assert Filter(a, Tied(less, c))[0] == c;
      FilterHolds(b, Tied(less, c));
      assert b != [];
      FilterHolds(a, Tied(less, b[0]));
      assert Filter(b, Tied(less, b[0]))[0] == b[0];
      assert b[0] in a && c in b;
      assert Tied(less, c)(b[0]);
      assert Filter(b, Tied(less, c))[0] == b[0];
      assert a == [c] + a[1..] && b == [c] + b[1..];
      forall d ensures Filter(a[1..], Tied(less, d)) == Filter(b[1..], Tied(less, d)) {
        var head := if Tied(less, d)(c) then [c] else [];
        assert Filter(a, Tied(less, d)) == head + Filter(a[1..], Tied(less, d));
        assert Filter(b, Tied(less, d)) == head + Filter(b[1..], Tied(less, d));
        SameTail(head, Filter(a[1..], Tied(less, d)), Filter(b[1..], Tied(less, d)));
      }
      OrderedByTies(a[1..], b[1..], less);
    }
  }

  lemma SameTail<T>(head: seq<T>, x: seq<T>, y: seq<T>)
    requires head + x == head + y
    ensures x == y
  {
    assert x == (head + x)[|head|..] && y == (head + y)[|head|..];
  }

  lemma NoTies<T(!new)>(b: seq<T>, less: (T, T) -> bool)
    requires Ordering.StrictWeak(less) && forall c :: Filter(b, Tied(less, c)) == []
    ensures b == []
  {
    assert b == [] || Filter(b, Tied(less, b[0])) != [];
  }

  lemma {:induction false} FilterHolds<T>(xs: seq<T>, keep: T -> bool)
    ensures forall x :: x in Filter(xs, keep) <==> x in xs && keep(x)
  {
    if xs != [] {
      FilterHolds(xs[1..], keep);
      assert xs == [xs[0]] + xs[1..];
    }
  }

  /** Two sequences that agree on the order of tied elements sort to the same result. */
  lemma SortByTies<T(!new)>(xs: seq<T>, ys: seq<T>, less: (T, T) -> bool)
    requires Ordering.StrictWeak(less)
    requires forall c :: Filter(xs, Tied(less, c)) == Filter(ys, Tied(less, c))
    ensures Ordering.StableSort(xs, less) == Ordering.StableSort(ys, less)
  {
    var a, b := Ordering.StableSort(xs, less), Ordering.StableSort(ys, less);
    Ordering.StableSortOrdered(xs, less);
    Ordering.StableSortOrdered(ys, less);
    forall c ensures Filter(a, Tied(less, c)) == Filter(b, Tied(less, c)) {
      SortIsStable(xs, less, c);
      SortIsStable(ys, less, c);
    }
    OrderedByTies(a, b, less);
  }

  // ---- Sorting what is mapped ----

  lemma {:induction false} InsertMapped<T(!new), U>(x: T, xs: seq<T>, f: T -> U, less: (T, T) -> bool, lessMapped: (U, U) -> bool)
    requires forall a, b :: lessMapped(f(a), f(b)) == less(a, b)
    ensures Ordering.Insert(f(x), Map(xs, f), lessMapped) == Map(Ordering.Insert(x, xs, less), f)
  {
    if xs != [] && less(xs[0], x) {
      InsertMapped(x, xs[1..], f, less, lessMapped);
      MapCons(xs[0], Ordering.Insert(x, xs[1..], less), f);
      assert Map(xs, f)[1..] == Map(xs[1..], f);
    } else {
      MapCons(x, xs, f);
    }
  }

  lemma MapCons<T, U>(x: T, xs: seq<T>, f: T -> U)
    ensures Map([x] + xs, f) == [f(x)] + Map(xs, f)
  {
  }

  /** Where the mapping keeps the order, sorting and mapping may be exchanged. */
  lemma {:induction false} SortMapped<T(!new), U>(xs: seq<T>, f: T -> U, less: (T, T) -> bool, lessMapped: (U, U) -> bool)
    requires forall a, b :: lessMapped(f(a), f(b)) == less(a, b)
    ensures Ordering.StableSort(Map(xs, f), lessMapped) == Map(Ordering.StableSort(xs, less), f)
  {
    if xs != [] {
      assert Map(xs, f)[1..] == Map(xs[1..], f);
      SortMapped(xs[1..], f, less, lessMapped);
      InsertMapped(xs[0], Ordering.StableSort(xs[1..], less), f, less, lessMapped);
    }
  }
}
