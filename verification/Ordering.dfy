/** The orders the Go code sorts by: byte-wise string comparison, and the stable
    sort `sort.SliceStable` promises. The lemmas say what makes a sorted list canonical, so that
    what is sorted after ranging over a Go map does not show the order of ranging. */
module Ordering {

  /** `a < b` on Go strings: lexicographic. */
  predicate Less(a: string, b: string) {
    if b == "" then false
    else if a == "" then true
    else if a[0] != b[0] then a[0] < b[0]
    else Less(a[1..], b[1..])
  }

  lemma {:induction false} LessTotal(a: string, b: string)
    ensures Less(a, b) || Less(b, a) || a == b
    ensures !(Less(a, b) && Less(b, a))
    ensures Less(a, b) ==> a != b
  {
    if a != "" && b != "" && a[0] == b[0] {
      LessTotal(a[1..], b[1..]);
      assert a == [a[0]] + a[1..] && b == [b[0]] + b[1..];
    }
  }

  lemma {:induction false} LessTransitive(a: string, b: string, c: string)
    requires Less(a, b) && Less(b, c)
    ensures Less(a, c)
  {
    if a != "" && a[0] == b[0] && b[0] == c[0] {
      LessTransitive(a[1..], b[1..], c[1..]);
    }
  }

  lemma RemoveAt<T>(xs: seq<T>, i: nat)
    requires i < |xs|
    ensures multiset(xs[..i] + xs[i + 1..]) == multiset(xs) - multiset{xs[i]}
  {
    assert xs == xs[..i] + [xs[i]] + xs[i + 1..];
  }

  lemma RemoveHead<T>(xs: seq<T>)
    requires xs != []
    ensures multiset(xs[1..]) == multiset(xs) - multiset{xs[0]}
  {
    assert xs == [xs[0]] + xs[1..];
  }

  /** What `sort.SliceStable` needs of its comparison: a strict weak order. */
  ghost predicate StrictWeak<T(!new)>(less: (T, T) -> bool) {
    && (forall x :: !less(x, x))
    && (forall x, y :: less(x, y) ==> !less(y, x))
    && (forall x, y, z :: less(x, y) ==> less(x, z) || less(z, y))
  }

  /** No element is less than one placed before it. */
  ghost predicate Ordered<T>(xs: seq<T>, less: (T, T) -> bool) {
    forall i, j | 0 <= i < j < |xs| :: !less(xs[j], xs[i])
  }

  /** Every element is less than the ones placed after it. */
  ghost predicate StrictlyOrdered<T>(xs: seq<T>, less: (T, T) -> bool) {
    forall i, j | 0 <= i < j < |xs| :: less(xs[i], xs[j])
  }

  /** Puts `x` before the first element that is not less than it. */
  function Insert<T>(x: T, xs: seq<T>, less: (T, T) -> bool): (r: seq<T>)
    ensures multiset(r) == multiset(xs) + multiset{x}
  {
    if xs == [] then [x]
    else if less(xs[0], x) then
      assert xs == [xs[0]] + xs[1..];
      [xs[0]] + Insert(x, xs[1..], less)
    else [x] + xs
  }

  /** The stable sort of `xs`. */
  function StableSort<T>(xs: seq<T>, less: (T, T) -> bool): (r: seq<T>)
    ensures multiset(r) == multiset(xs)
    ensures |r| == |xs|
  {
    if xs == [] then []
    else
      var r := Insert(xs[0], StableSort(xs[1..], less), less);
      assert xs == [xs[0]] + xs[1..];
      assert |multiset(r)| == |r| && |multiset(xs)| == |xs|;
      r
  }

  lemma {:induction false} InsertOrdered<T(!new)>(x: T, xs: seq<T>, less: (T, T) -> bool)
    requires StrictWeak(less) && Ordered(xs, less)
    ensures Ordered(Insert(x, xs, less), less)
  {
    if xs != [] && less(xs[0], x) {
      InsertOrdered(x, xs[1..], less);
      var rest := Insert(x, xs[1..], less);
      forall y | y in rest ensures !less(y, xs[0]) {
        assert y in multiset(rest);
        assert y == x || y in xs[1..];
      }
    }
  }

  lemma {:induction false} StableSortOrdered<T(!new)>(xs: seq<T>, less: (T, T) -> bool)
    requires StrictWeak(less)
    ensures Ordered(StableSort(xs, less), less)
  {
    if xs != [] {
      StableSortOrdered(xs[1..], less);
      InsertOrdered(xs[0], StableSort(xs[1..], less), less);
    }
  }

  lemma SameMembers<T>(xs: seq<T>, ys: seq<T>)
    requires multiset(xs) == multiset(ys)
    ensures forall x :: x in xs <==> x in ys
  {
    forall x ensures x in xs <==> x in ys {
      assert x in xs <==> x in multiset(xs);
      assert x in ys <==> x in multiset(ys);
    }
  }

  lemma StrictlyOrderedCons<T>(x: T, xs: seq<T>, less: (T, T) -> bool)
    requires StrictlyOrdered(xs, less)
    requires forall y | y in xs :: less(x, y)
    ensures StrictlyOrdered([x] + xs, less)
    ensures forall y :: y in [x] + xs <==> y == x || y in xs
  {
  }

  /** Two strictly ordered sequences with the same elements are the same sequence. */
  lemma {:induction false} StrictlyOrderedUnique<T(!new)>(xs: seq<T>, ys: seq<T>, less: (T, T) -> bool)
    requires StrictWeak(less)
    requires StrictlyOrdered(xs, less) && StrictlyOrdered(ys, less)
    requires forall x :: x in xs <==> x in ys
    ensures xs == ys
  {
    if xs == [] {
      assert forall k | 0 <= k < |ys| :: ys[k] in ys;
    } else {
      assert xs[0] in ys;
      assert ys[0] in xs;
      assert xs[0] == ys[0];
      forall x ensures x in xs[1..] <==> x in ys[1..] {
        assert x in xs[1..] ==> x in xs && x != xs[0];
        assert x in ys[1..] ==> x in ys && x != ys[0];
      }
      StrictlyOrderedUnique(xs[1..], ys[1..], less);
      assert xs == [xs[0]] + xs[1..] && ys == [ys[0]] + ys[1..];
    }
  }

  ghost predicate Distinct<T>(xs: seq<T>) {
    forall i, j | 0 <= i < j < |xs| :: xs[i] != xs[j]
  }

  /** Distinctness is a matter of the multiset of elements, so sorting keeps it. */
  lemma {:induction false} DistinctMultiset<T>(xs: seq<T>)
    ensures Distinct(xs) <==> forall x | x in xs :: multiset(xs)[x] == 1
  {
    if xs != [] {
      var x, rest := xs[0], xs[1..];
      DistinctMultiset(rest);
      assert xs == [x] + rest;
      assert multiset(xs) == multiset{x} + multiset(rest);
      assert Distinct(xs) <==> x !in rest && Distinct(rest);
      assert x in rest <==> multiset(rest)[x] > 0;
      assert forall y | y in rest && y != x :: multiset(xs)[y] == multiset(rest)[y];
      if x !in rest {
        assert forall y :: y in xs <==> y == x || y in rest;
      } else {
        assert multiset(xs)[x] > 1;
      }
    }
  }

  lemma HeadsAgree<T(!new)>(a: seq<T>, b: seq<T>, less: (T, T) -> bool)
    requires StrictWeak(less) && Ordered(a, less) && Ordered(b, less) && a != [] && b != []
    requires forall x :: x in a <==> x in b
    requires forall x, y :: x != y ==> less(x, y) || less(y, x)
    ensures a[0] == b[0]
  {
    assert a[0] in b && b[0] in a;
  }

  /** Where only equal elements tie, the multiset settles the ordered sequence. */
  lemma {:induction false} OrderedUnique<T(!new)>(a: seq<T>, b: seq<T>, less: (T, T) -> bool)
    requires StrictWeak(less) && Ordered(a, less) && Ordered(b, less)
    requires multiset(a) == multiset(b)
    requires forall x, y :: x != y ==> less(x, y) || less(y, x)
    ensures a == b
  {
    SameMembers(a, b);
    assert |a| == |multiset(a)| == |multiset(b)| == |b|;
    if a != [] {
      HeadsAgree(a, b, less);
      assert a[0] == b[0];
      RemoveHead(a);
      RemoveHead(b);
      OrderedUnique(a[1..], b[1..], less);
      assert a == [a[0]] + a[1..] && b == [b[0]] + b[1..];
    }
  }

  lemma StrictlyOrderedDistinct(xs: seq<string>)
    requires StrictlyOrdered(xs, Less)
    ensures Distinct(xs)
  {
    forall i, j | 0 <= i < j < |xs| ensures xs[i] != xs[j] {
      LessTotal(xs[i], xs[j]);
    }
  }

  /** Sorting distinct elements under an order that separates them gives a sequence
      that depends on the elements alone. */
  lemma SortCanonical<T(!new)>(xs: seq<T>, ys: seq<T>, less: (T, T) -> bool)
    requires StrictWeak(less)
    requires multiset(xs) == multiset(ys) && Distinct(xs)
    requires forall x, y | x in xs && y in xs && x != y :: less(x, y) || less(y, x)
    ensures StableSort(xs, less) == StableSort(ys, less)
    ensures StrictlyOrdered(StableSort(xs, less), less)
  {
    var a, b := StableSort(xs, less), StableSort(ys, less);
    StableSortOrdered(xs, less);
    StableSortOrdered(ys, less);
    SameMembers(xs, a);
    SameMembers(xs, b);
    DistinctMultiset(xs);
    DistinctMultiset(a);
    DistinctMultiset(b);
    StrictlyOrderedUnique(a, b, less);
  }

  /** Strings in ascending order. */
  function SortStrings(xs: seq<string>): (r: seq<string>)
    ensures multiset(r) == multiset(xs)
  {
    StableSort(xs, Less)
  }

  lemma LessStrictWeak()
    ensures StrictWeak(Less)
  {
    forall x, y ensures !Less(x, x) && (Less(x, y) ==> !Less(y, x)) {
      LessTotal(x, y);
      LessTotal(x, x);
    }
    forall x, y, z | Less(x, y) ensures Less(x, z) || Less(z, y) {
      LessTotal(x, z);
      if Less(z, x) { LessTransitive(z, x, y); }
    }
  }

  lemma SortStringsStrict(xs: seq<string>)
    requires Distinct(xs)
    ensures StrictlyOrdered(SortStrings(xs), Less)
  {
    LessStrictWeak();
    forall x, y | x in xs && y in xs && x != y ensures Less(x, y) || Less(y, x) {
      LessTotal(x, y);
    }
    SortCanonical(xs, xs, Less);
  }

  /** The elements of a finite set of strings in ascending order. */
  ghost function SortedElements(s: set<string>): (r: seq<string>)
    ensures StrictlyOrdered(r, Less)
    ensures forall x :: x in r <==> x in s
    decreases |s|
  {
    if s == {} then []
    else
      var rest := SortedElements(s - {Least(s)});
      StrictlyOrderedCons(Least(s), rest, Less);
      [Least(s)] + rest
  }

  ghost function Least(s: set<string>): (x: string)
    requires s != {}
    ensures x in s && forall y | y in s && y != x :: Less(x, y)
  {
    LeastExists(s);
    var x :| x in s && forall y | y in s && y != x :: Less(x, y);
    x
  }

  lemma LeastExists(s: set<string>)
    requires s != {}
    ensures exists x :: x in s && forall y | y in s && y != x :: Less(x, y)
    decreases |s|
  {
    var a :| a in s;
    if s - {a} == {} {
      assert s == {a};
    } else {
      LeastExists(s - {a});
      var m :| m in s - {a} && forall y | y in s - {a} && y != m :: Less(m, y);
      LessTotal(a, m);
      if Less(a, m) {
        forall y | y in s && y != a ensures Less(a, y) {
          if y != m { LessTransitive(a, m, y); }
        }
      } else {
        assert Less(m, a);
      }
    }
  }

  /** Any sequence holding exactly the set's elements sorts to the same result. */
  lemma SortedElementsOf(xs: seq<string>, s: set<string>)
    requires Distinct(xs)
    requires forall x :: x in xs <==> x in s
    ensures SortStrings(xs) == SortedElements(s)
  {
    SortStringsStrict(xs);
    SameMembers(xs, SortStrings(xs));
    LessStrictWeak();
    StrictlyOrderedUnique(SortStrings(xs), SortedElements(s), Less);
  }
}
