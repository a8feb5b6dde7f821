/** The pod-count walk (app/domain/application_graph.go). */
module OwnerWalk {
  // Counting pods up a chain of owners that nothing forbids to be cyclic.

  /** Each owned member's owner. Both ends are members. */
  type Owners = map<string, string>

  /** Reading the Go map: an id nothing owns reads as the empty string. */
  function OwnerOf(owners: Owners, id: string): string {
    if id in owners then owners[id] else ""
  }

  ghost predicate Among(owners: Owners, members: set<string>) {
    && "" !in members
    && forall id | id in owners :: id in members && owners[id] in members
  }

  /** The ids the bounded walk visits, from `id` upwards. */
  function Visits(owners: Owners, id: string, hops: nat, limit: nat): seq<string>
    decreases limit + 1 - hops
  {
    if id == "" || hops > limit then [] else [id] + Visits(owners, OwnerOf(owners, id), hops + 1, limit)
  }

  /** `k` owners above `start`, or the empty string. */
  ghost function At(owners: Owners, start: string, k: nat): string {
    if k == 0 then start else OwnerOf(owners, At(owners, start, k - 1))
  }

  /** The owner chain of `start` comes by `id`. */
  ghost predicate Reaches(owners: Owners, start: string, id: string) {
    id != "" && exists k :: At(owners, start, k) == id
  }

  ghost predicate OnCycle(owners: Owners, id: string) {
    exists k :: k > 0 && At(owners, id, k) == id
  }

  lemma {:induction false} AtFrom(owners: Owners, start: string, i: nat, m: nat)
    ensures At(owners, start, i + m) == At(owners, At(owners, start, i), m)
  {
    if m > 0 {
      AtFrom(owners, start, i, m - 1);
    }
  }

  lemma {:induction false} NoOwnerOfNothing(owners: Owners, members: set<string>, start: string, i: nat, k: nat)
    requires Among(owners, members) && i <= k && At(owners, start, k) != ""
    ensures At(owners, start, i) != ""
    decreases k - i
  {
    if i < k {
      NoOwnerOfNothing(owners, members, start, i + 1, k);
    }
  }

  /** More elements than the set holds: one comes twice. */
  lemma {:induction false} Pigeonhole(xs: seq<string>, holes: set<string>) returns (i: nat, j: nat)
    requires |xs| > |holes| && forall x | x in xs :: x in holes
    ensures i < j < |xs| && xs[i] == xs[j]
    decreases |xs|
  {
    var last := |xs| - 1;
    if xs[last] in xs[..last] {
      i :| 0 <= i < last && xs[..last][i] == xs[last];
      j := last;
    } else {
      assert xs[last] in xs;
      i, j := Pigeonhole(xs[..last], holes - {xs[last]});
    }
  }

  /** Whatever a chain comes by, it comes by within as many hops as there are members. */
  lemma {:induction false} ReachedSoon(owners: Owners, members: set<string>, start: string, k: nat) returns (m: nat)
    requires Among(owners, members) && start in members && At(owners, start, k) != ""
    ensures m < |members| && At(owners, start, m) == At(owners, start, k)
    decreases k
  {
    if k < |members| {
      m := k;
    } else {
      var chain := seq(k + 1, n requires 0 <= n => At(owners, start, n));
      forall x | x in chain ensures x in members {
        var n :| 0 <= n <= k && chain[n] == x;
        NoOwnerOfNothing(owners, members, start, n, k);
      }
      var i, j := Pigeonhole(chain, members);
      AtFrom(owners, start, i, k - j);
      AtFrom(owners, start, j, k - j);
      m := ReachedSoon(owners, members, start, k - (j - i));
    }
  }

  lemma {:induction false} VisitsAt(owners: Owners, members: set<string>, start: string, hops: nat, limit: nat)
    requires Among(owners, members)
    ensures forall n | 0 <= n < |Visits(owners, start, hops, limit)| ::
      Visits(owners, start, hops, limit)[n] == At(owners, start, n) != ""
    ensures forall n | 0 <= n && hops + n <= limit && At(owners, start, n) != "" ::
      n < |Visits(owners, start, hops, limit)|
    decreases limit + 1 - hops
  {
    if start != "" && hops <= limit {
      var next := OwnerOf(owners, start);
      var rest := Visits(owners, next, hops + 1, limit);
      VisitsAt(owners, members, next, hops + 1, limit);
      forall n | 0 < n ensures At(owners, start, n) == At(owners, next, n - 1) {
        AtFrom(owners, start, 1, n - 1);
        assert At(owners, start, 1) == next;
      }
    } else {
      forall n | 0 <= n && hops + n <= limit ensures At(owners, start, n) == "" {
        if At(owners, start, n) != "" {
          NoOwnerOfNothing(owners, members, start, 0, n);
        }
      }
    }
  }

  /** The bound loses nothing: the walk visits exactly the ids the owner chain reaches,
      cycles or not. */
  lemma WalkVisitsWhatIsReached(owners: Owners, members: set<string>, start: string, id: string)
    requires Among(owners, members) && start in members
    ensures id in Visits(owners, start, 0, |members|) <==> Reaches(owners, start, id)
  {
    VisitsAt(owners, members, start, 0, |members|);
    if Reaches(owners, start, id) {
      var k :| At(owners, start, k) == id;
      var m := ReachedSoon(owners, members, start, k);
      assert Visits(owners, start, 0, |members|)[m] == id;
    }
  }

  /** The chain of `start` comes by an id and, within the bound, comes back to it. */
  ghost predicate ComesBack(owners: Owners, start: string, id: string, limit: nat) {
    exists k: nat, l: nat :: l > 0 && k + l <= limit && At(owners, start, k) == id && At(owners, id, l) == id
  }

  /** One walk counts an id once if it reaches it, and more than once exactly when it comes back. */
  lemma WalkCounts(owners: Owners, members: set<string>, start: string, id: string)
    requires Among(owners, members) && start in members && id != ""
    ensures
      var count := multiset(Visits(owners, start, 0, |members|))[id];
      var reached := if Reaches(owners, start, id) then 1 else 0;
      count >= reached && (count == reached <==> !ComesBack(owners, start, id, |members|))
  {
    var visits := Visits(owners, start, 0, |members|);
    WalkVisitsWhatIsReached(owners, members, start, id);
    if ComesBack(owners, start, id, |members|) {
      VisitedTwice(owners, members, start, id);
    } else {
      VisitedOnce(owners, members, start, id);
      CountedOnce(visits, id);
    }
  }

  lemma VisitedTwice(owners: Owners, members: set<string>, start: string, id: string)
    requires Among(owners, members) && id != "" && ComesBack(owners, start, id, |members|)
    ensures multiset(Visits(owners, start, 0, |members|))[id] >= 2
  {
    var visits := Visits(owners, start, 0, |members|);
    VisitsAt(owners, members, start, 0, |members|);
    var k: nat, l: nat :| l > 0 && k + l <= |members| && At(owners, start, k) == id && At(owners, id, l) == id;
    AtFrom(owners, start, k, l);
    CountedTwice(visits, id, k, k + l);
  }

  lemma VisitedOnce(owners: Owners, members: set<string>, start: string, id: string)
    requires Among(owners, members) && !ComesBack(owners, start, id, |members|)
    ensures var visits := Visits(owners, start, 0, |members|);
      forall i, j | 0 <= i < j < |visits| && visits[i] == id :: visits[j] != id
  {
    var visits := Visits(owners, start, 0, |members|);
    VisitsAt(owners, members, start, 0, |members|);
    VisitsLength(owners, start, 0, |members|);
    forall i, j | 0 <= i < j < |visits| && visits[i] == id ensures visits[j] != id {
      AtFrom(owners, start, i, j - i);
      assert At(owners, id, j - i) == visits[j];
    }
  }

  lemma {:induction false} VisitsLength(owners: Owners, start: string, hops: nat, limit: nat)
    requires hops <= limit + 1
    ensures |Visits(owners, start, hops, limit)| <= limit + 1 - hops
    decreases limit + 1 - hops
  {
    if start != "" && hops <= limit {
      VisitsLength(owners, OwnerOf(owners, start), hops + 1, limit);
    }
  }

  lemma CountedTwice(xs: seq<string>, x: string, i: nat, j: nat)
    requires i < j < |xs| && xs[i] == x == xs[j]
    ensures multiset(xs)[x] >= 2
  {
    assert xs == xs[..j] + xs[j..];
    assert xs[..j][i] == x && xs[j..][0] == x;
  }

  lemma {:induction false} CountedOnce(xs: seq<string>, x: string)
    requires forall i, j | 0 <= i < j < |xs| && xs[i] == x :: xs[j] != x
    ensures multiset(xs)[x] == if x in xs then 1 else 0
  {
    if xs != [] {
      assert xs == [xs[0]] + xs[1..];
      CountedOnce(xs[1..], x);
      assert xs[0] == x ==> x !in xs[1..];
    }
  }

  // ---- The counts ----

  /** How often the walks from the pods' parents visit an id, all told. */
  function Total(owners: Owners, parents: seq<string>, limit: nat, id: string): nat {
    if parents == [] then 0
    else multiset(Visits(owners, parents[|parents| - 1], 0, limit))[id]
         + Total(owners, parents[..|parents| - 1], limit, id)
  }

  /** How many of the parents lie under an id. */
  ghost function Beneath(owners: Owners, parents: seq<string>, id: string): nat {
    if parents == [] then 0
    else (if Reaches(owners, parents[|parents| - 1], id) then 1 else 0)
         + Beneath(owners, parents[..|parents| - 1], id)
  }

  function CountOf(counts: map<string, nat>, id: string): nat {
    if id in counts then counts[id] else 0
  }

  /** Adds one to every id a walk visits. */
  method CountUp(owners: Owners, start: string, limit: nat, before: map<string, nat>)
    returns (counts: map<string, nat>)
    ensures forall id :: CountOf(counts, id) == CountOf(before, id) + multiset(Visits(owners, start, 0, limit))[id]
  {
    counts := before;
    var id, hops := start, 0;
    ghost var seen: seq<string> := [];
    while id != "" && hops <= limit
      invariant hops <= limit + 1
      invariant Visits(owners, start, 0, limit) == seen + Visits(owners, id, hops, limit)
      invariant forall x :: CountOf(counts, x) == CountOf(before, x) + multiset(seen)[x]
      decreases limit + 1 - hops
    {
      counts := counts[id := CountOf(counts, id) + 1];
      seen := seen + [id];
      id, hops := OwnerOf(owners, id), hops + 1;
    }
    assert Visits(owners, start, 0, limit) == seen;
  }

  /** The pod count of every member, from the parents of the drawn pods. */
  method CountPods(owners: Owners, parents: seq<string>, limit: nat) returns (counts: map<string, nat>)
    ensures forall id :: CountOf(counts, id) == Total(owners, parents, limit, id)
  {
    counts := map[];
    for i := 0 to |parents|
      invariant forall id :: CountOf(counts, id) == Total(owners, parents[..i], limit, id)
    {
      assert parents[..i + 1][..i] == parents[..i];
      counts := CountUp(owners, parents[i], limit, counts);
    }
    assert parents[..|parents|] == parents;
  }

  /** A member has a positive count exactly when some drawn pod's owner chain reaches it. */
  lemma {:induction false} PositiveExactlyWhenReached(owners: Owners, members: set<string>, parents: seq<string>, id: string)
    requires Among(owners, members) && forall p | p in parents :: p in members
    ensures Total(owners, parents, |members|, id) > 0 <==> exists p :: p in parents && Reaches(owners, p, id)
  {
    if parents != [] {
      var before, last := parents[..|parents| - 1], parents[|parents| - 1];
      assert parents == before + [last];
      PositiveExactlyWhenReached(owners, members, before, id);
      WalkVisitsWhatIsReached(owners, members, last, id);
      assert multiset(Visits(owners, last, 0, |members|))[id] > 0 <==> id in Visits(owners, last, 0, |members|);
    }
  }

  /** Exactly when: the count is the number of drawn pods beneath if and only if no pod's chain
      comes back to the id within the bound. It is never too small. */
  lemma {:induction false} CountExactlyWhen(owners: Owners, members: set<string>, parents: seq<string>, id: string)
    requires Among(owners, members) && id != "" && forall p | p in parents :: p in members
    ensures Total(owners, parents, |members|, id) >= Beneath(owners, parents, id)
    ensures Total(owners, parents, |members|, id) == Beneath(owners, parents, id) <==>
      forall p | p in parents :: !ComesBack(owners, p, id, |members|)
  {
    if parents != [] {
      var before, last := parents[..|parents| - 1], parents[|parents| - 1];
      assert parents == before + [last];
      CountExactlyWhen(owners, members, before, id);
      WalkCounts(owners, members, last, id);
    }
  }

  /** Off a cycle, the count is exactly the number of drawn pods beneath. */
  lemma ExactOffCycles(owners: Owners, members: set<string>, parents: seq<string>, id: string)
    requires Among(owners, members) && (forall p | p in parents :: p in members)
    requires !OnCycle(owners, id)
    ensures Total(owners, parents, |members|, id) == Beneath(owners, parents, id)
  {
    assert id != "" by {
      assert At(owners, "", 1) == "";
    }
    CountExactlyWhen(owners, members, parents, id);
  }

  /** On a cycle it can be too many: one pod under two controllers that own each other
      counts twice for the nearer one. */
  lemma CycleOvercounts(a: string, b: string)
    requires a != "" && b != "" && a != b
    ensures var owners := map[a := b, b := a];
      Among(owners, {a, b}) && Total(owners, [a], |{a, b}|, a) == 2 && Beneath(owners, [a], a) == 1
  {
    var owners := map[a := b, b := a];
    assert multiset([a, b, a])[a] == 2;
    assert Total(owners, [a], 2, a) == 2 + Total(owners, [], 2, a) by {
      assert [a][..0] == [];
    }
    assert [a][..0] == [];
    assert At(owners, a, 0) == a;
  }
}
