/** Grouping release Secrets into releases (app/domain/helm.go). */
module HelmReleases {
  import opened Ordering
  import opened Sequences

  datatype HelmRevision = HelmRevision(ns: string, name: string, revision: int, createdAt: int, secretName: string,
                                       status: string)

  datatype ReleaseKey = ReleaseKey(ns: string, name: string)

  datatype HelmRelease = HelmRelease(ns: string, name: string, current: HelmRevision, revisions: seq<HelmRevision>)

  /** A higher revision leads, then the newer creation, then the Secret's name. */
  predicate NewerFirst(a: HelmRevision, b: HelmRevision) {
    if a.revision != b.revision then a.revision > b.revision
    else if a.createdAt != b.createdAt then a.createdAt > b.createdAt
    else Less(b.secretName, a.secretName)
  }

  lemma NewerFirstStrictWeak()
    ensures StrictWeak(NewerFirst)
    ensures forall a: HelmRevision, b: HelmRevision | a.secretName != b.secretName :: NewerFirst(a, b) || NewerFirst(b, a)
  {
    LessStrictWeak();
    forall a: HelmRevision, b: HelmRevision | a.secretName != b.secretName ensures NewerFirst(a, b) || NewerFirst(b, a) {
      LessTotal(a.secretName, b.secretName);
    }
  }

  predicate KeyLess(a: ReleaseKey, b: ReleaseKey) {
    if a.ns != b.ns then Less(a.ns, b.ns) else Less(a.name, b.name)
  }

  predicate ReleaseLess(a: HelmRelease, b: HelmRelease) {
    KeyLess(ReleaseKey(a.ns, a.name), ReleaseKey(b.ns, b.name))
  }

  lemma KeyLessTotal(a: ReleaseKey, b: ReleaseKey)
    requires a != b
    ensures KeyLess(a, b) || KeyLess(b, a)
  {
    LessTotal(a.ns, b.ns);
    LessTotal(a.name, b.name);
  }

  lemma KeyLessStrictWeak()
    ensures StrictWeak(KeyLess)
  {
    LessStrictWeak();
    forall a: ReleaseKey, b: ReleaseKey, c: ReleaseKey | KeyLess(a, b) ensures KeyLess(a, c) || KeyLess(c, b) {
      LessTotal(a.ns, c.ns);
      LessTotal(c.ns, b.ns);
      assert Less(a.name, b.name) ==> Less(a.name, c.name) || Less(c.name, b.name);
    }
  }

  // ---- The specification ----

  function KeyOf(r: HelmRevision): ReleaseKey { ReleaseKey(r.ns, r.name) }

  function InGroup(key: ReleaseKey): HelmRevision -> bool {
    (r: HelmRevision) => r.name != "" && KeyOf(r) == key
  }

  function IsNamed(): HelmRevision -> bool { (r: HelmRevision) => r.name != "" }

  function Members(revisions: seq<HelmRevision>, key: ReleaseKey): seq<HelmRevision> {
    Filter(revisions, InGroup(key))
  }

  function Group(revisions: seq<HelmRevision>, key: ReleaseKey): seq<HelmRevision> {
    StableSort(Members(revisions, key), NewerFirst)
  }

  /** The keys met, each once, in the order met. */
  function KeysMet(revisions: seq<HelmRevision>): seq<ReleaseKey> {
    if revisions == [] then []
    else
      var before, last := KeysMet(revisions[..|revisions| - 1]), revisions[|revisions| - 1];
      if last.name == "" || KeyOf(last) in before then before else before + [KeyOf(last)]
  }

  lemma {:induction false} KeysMetMeans(revisions: seq<HelmRevision>)
    ensures Distinct(KeysMet(revisions))
    ensures forall key :: key in KeysMet(revisions) <==> exists r :: r in revisions && InGroup(key)(r)
  {
    if revisions != [] {
      var before, last := revisions[..|revisions| - 1], revisions[|revisions| - 1];
      assert revisions == before + [last];
      KeysMetMeans(before);
      forall key ensures key in KeysMet(revisions) <==> exists r :: r in revisions && InGroup(key)(r) {
        if InGroup(key)(last) { assert last in revisions; }
      }
    }
  }

  lemma GroupNotEmpty(revisions: seq<HelmRevision>, key: ReleaseKey)
    requires key in KeysMet(revisions)
    ensures Group(revisions, key) != []
  {
    KeysMetMeans(revisions);
    FilterHolds(revisions, InGroup(key));
    var r :| r in revisions && InGroup(key)(r);
    assert r in Members(revisions, key);
  }

  function ReleaseOf(revisions: seq<HelmRevision>): ReleaseKey -> HelmRelease {
    (key: ReleaseKey) =>
      var group := Group(revisions, key);
      HelmRelease(key.ns, key.name, if group == [] then HelmRevision("", "", 0, 0, "", "") else group[0], group)
  }

  /** The releases, by namespace and name. */
  function Releases(revisions: seq<HelmRevision>): seq<HelmRelease> {
    Map(StableSort(KeysMet(revisions), KeyLess), ReleaseOf(revisions))
  }

  // ---- Grouping ----

  method GroupHelmRevisions(revisions: seq<HelmRevision>) returns (releases: seq<HelmRelease>)
    ensures releases == Releases(revisions)
  {
    var grouped, order := GatherGroups(revisions);
    releases := [];
    for i := 0 to |order|
      invariant releases == Map(order[..i], ReleaseOf(revisions))
    {
      var key := order[i];
      assert order[i] in order;
      GroupNotEmpty(revisions, key);
      var found := StableSort(grouped[key], NewerFirst);
      releases := releases + [HelmRelease(key.ns, key.name, found[0], found)];
    }
    assert order[..|order|] == order;
    SortMapped(order, ReleaseOf(revisions), KeyLess, ReleaseLess);
    releases := StableSort(releases, ReleaseLess);
  }

  method GatherGroups(revisions: seq<HelmRevision>)
    returns (grouped: map<ReleaseKey, seq<HelmRevision>>, order: seq<ReleaseKey>)
    ensures order == KeysMet(revisions)
    ensures forall key | key in order :: key in grouped && grouped[key] == Members(revisions, key)
  {
    grouped, order := map[], [];
    for i := 0 to |revisions|
      invariant order == KeysMet(revisions[..i])
      invariant forall key :: key in grouped <==> key in order
      invariant forall key | key in grouped :: grouped[key] == Members(revisions[..i], key)
    {
      var r := revisions[i];
      NextRevision(revisions, i);
      if r.name == "" {
        continue;
      }
      var id := KeyOf(r);
      if id !in grouped {
        order := order + [id];
        grouped := grouped[id := []];
        NotMetYet(revisions[..i], id);
      }
      grouped := grouped[id := grouped[id] + [r]];
    }
    assert revisions[..|revisions|] == revisions;
  }

  lemma NextRevision(revisions: seq<HelmRevision>, i: nat)
    requires i < |revisions|
    ensures revisions[..i + 1][..i] == revisions[..i]
    ensures forall key :: Members(revisions[..i + 1], key) == Members(revisions[..i], key)
                                                              + Members([revisions[i]], key)
    ensures forall key :: Members([revisions[i]], key) == if InGroup(key)(revisions[i]) then [revisions[i]] else []
  {
    forall key ensures Members([revisions[i]], key) == if InGroup(key)(revisions[i]) then [revisions[i]] else [] {
      OneMember(revisions[i], key);
    }
    assert revisions[..i + 1] == revisions[..i] + [revisions[i]];
    forall key ensures Members(revisions[..i + 1], key) == Members(revisions[..i], key) + Members([revisions[i]], key) {
      FilterAppend(revisions[..i], [revisions[i]], InGroup(key));
    }
  }

  lemma OneMember(r: HelmRevision, key: ReleaseKey)
    ensures Members([r], key) == if InGroup(key)(r) then [r] else []
  {
    if InGroup(key)(r) {
      FilterAll([r], InGroup(key));
    } else {
      FilterNone([r], InGroup(key));
    }
  }

  lemma NotMetYet(revisions: seq<HelmRevision>, key: ReleaseKey)
    requires key !in KeysMet(revisions)
    ensures Members(revisions, key) == []
  {
    KeysMetMeans(revisions);
    FilterNone(revisions, InGroup(key));
  }

  // ---- What the grouping promises ----

  /** Every release holds exactly its own revisions, and its current one leads them all. */
  lemma ReleaseMeans(revisions: seq<HelmRevision>, i: nat)
    requires i < |Releases(revisions)|
    ensures var release := Releases(revisions)[i];
      && multiset(release.revisions) == multiset(Filter(revisions, InGroup(ReleaseKey(release.ns, release.name))))
      && release.revisions != [] && release.current == release.revisions[0]
      && forall r | r in release.revisions :: !NewerFirst(r, release.current)
  {
    var keys := StableSort(KeysMet(revisions), KeyLess);
    var key := keys[i];
    SameMembers(KeysMet(revisions), keys);
    assert key in keys;
    GroupNotEmpty(revisions, key);
    NewerFirstStrictWeak();
    StableSortOrdered(Members(revisions, key), NewerFirst);
    var group := Group(revisions, key);
    forall r | r in group ensures !NewerFirst(r, group[0]) {
      var k :| 0 <= k < |group| && group[k] == r;
    }
  }

  /** Releases come in order of namespace and name, no two alike. */
  lemma ReleasesOrdered(revisions: seq<HelmRevision>)
    ensures StrictlyOrdered(Releases(revisions), ReleaseLess)
  {
    KeysMetMeans(revisions);
    KeyLessStrictWeak();
    var keys := KeysMet(revisions);
    forall a, b | a in keys && b in keys && a != b ensures KeyLess(a, b) || KeyLess(b, a) {
      KeyLessTotal(a, b);
    }
    SortCanonical(keys, keys, KeyLess);
  }

  function RevisionsOf(): HelmRelease -> seq<HelmRevision> { (r: HelmRelease) => r.revisions }

  function AllGroups(keys: seq<ReleaseKey>, revisions: seq<HelmRevision>): seq<HelmRevision> {
    Concat(Map(Map(keys, ReleaseOf(revisions)), RevisionsOf()))
  }

  lemma GroupsHead(keys: seq<ReleaseKey>, revisions: seq<HelmRevision>)
    requires keys != []
    ensures AllGroups(keys, revisions) == Group(revisions, keys[0]) + AllGroups(keys[1..], revisions)
  {
    var parts := Map(Map(keys, ReleaseOf(revisions)), RevisionsOf());
    assert parts[1..] == Map(Map(keys[1..], ReleaseOf(revisions)), RevisionsOf());
    assert parts[0] == Group(revisions, keys[0]);
  }

  lemma {:induction false} GroupsCount(keys: seq<ReleaseKey>, revisions: seq<HelmRevision>, x: HelmRevision)
    requires Distinct(keys)
    ensures multiset(AllGroups(keys, revisions))[x]
      == if x.name != "" && KeyOf(x) in keys then multiset(revisions)[x] else 0
  {
    if keys != [] {
      GroupsCount(keys[1..], revisions, x);
      GroupsHead(keys, revisions);
      FilterCount(revisions, InGroup(keys[0]), x);
      KeyInRest(keys, KeyOf(x));
    }
  }

  lemma KeyInRest(keys: seq<ReleaseKey>, key: ReleaseKey)
    requires keys != [] && Distinct(keys)
    ensures key in keys <==> key == keys[0] || key in keys[1..]
    ensures key == keys[0] ==> key !in keys[1..]
  {
    assert keys == [keys[0]] + keys[1..];
  }

  /** Every named revision is returned exactly once, and nothing else is. */
  lemma EveryRevisionOnce(revisions: seq<HelmRevision>)
    ensures multiset(Concat(Map(Releases(revisions), RevisionsOf()))) == multiset(Filter(revisions, IsNamed()))
  {
    var keys := StableSort(KeysMet(revisions), KeyLess);
    var all, named := AllGroups(keys, revisions), Filter(revisions, IsNamed());
    forall x | x in all + named ensures multiset(all)[x] == multiset(named)[x] {
      RevisionCount(revisions, x);
    }
  }

  lemma SortedKeys(revisions: seq<HelmRevision>)
    ensures var keys := StableSort(KeysMet(revisions), KeyLess);
      Distinct(keys) && forall key :: key in keys <==> key in KeysMet(revisions)
  {
    var keys := StableSort(KeysMet(revisions), KeyLess);
    KeysMetMeans(revisions);
    DistinctMultiset(KeysMet(revisions));
    DistinctMultiset(keys);
    SameMembers(KeysMet(revisions), keys);
  }

  lemma RevisionCount(revisions: seq<HelmRevision>, x: HelmRevision)
    ensures multiset(AllGroups(StableSort(KeysMet(revisions), KeyLess), revisions))[x]
      == multiset(Filter(revisions, IsNamed()))[x]
  {
    SortedKeys(revisions);
    GroupsCount(StableSort(KeysMet(revisions), KeyLess), revisions, x);
    FilterCount(revisions, IsNamed(), x);
    if x.name != "" && x in revisions { KeyIsMet(revisions, x); }
  }

  lemma KeyIsMet(revisions: seq<HelmRevision>, x: HelmRevision)
    requires x.name != "" && x in revisions
    ensures KeyOf(x) in KeysMet(revisions)
  {
    KeysMetMeans(revisions);
    assert InGroup(KeyOf(x))(x);
  }

  /** No namespace has two Secrets of one name. */
  predicate SecretsDistinct(revisions: seq<HelmRevision>) {
    forall i, j | 0 <= i < j < |revisions| && revisions[i].ns == revisions[j].ns ::
      revisions[i].secretName != revisions[j].secretName
  }

  lemma GroupAnyOrder(a: seq<HelmRevision>, b: seq<HelmRevision>, key: ReleaseKey)
    requires multiset(a) == multiset(b) && SecretsDistinct(a)
    ensures Group(a, key) == Group(b, key)
  {
    var xs, ys := Filter(a, InGroup(key)), Filter(b, InGroup(key));
    FilterSameMultiset(a, b, InGroup(key));
    FilterHolds(a, InGroup(key));
    NewerFirstStrictWeak();
    DistinctMultiset(a);
    forall x | x in xs ensures multiset(xs)[x] == 1 {
      FilterCount(a, InGroup(key), x);
    }
    DistinctMultiset(xs);
    forall x, y | x in xs && y in xs && x != y ensures NewerFirst(x, y) || NewerFirst(y, x) {
      var i :| 0 <= i < |a| && a[i] == x;
      var j :| 0 <= j < |a| && a[j] == y;
      assert x.ns == y.ns && i != j;
      assert x.secretName != y.secretName;
    }
    SortCanonical(xs, ys, NewerFirst);
  }

  /** The grouping is canonical: with distinct Secret names in each namespace the same
      revisions in any order give the same releases. */
  lemma GroupingIsCanonical(a: seq<HelmRevision>, b: seq<HelmRevision>)
    requires multiset(a) == multiset(b) && SecretsDistinct(a)
    ensures Releases(a) == Releases(b)
  {
    var p, q := KeysMet(a), KeysMet(b);
    KeysMetMeans(a);
    KeysMetMeans(b);
    SameMembers(a, b);
    DistinctSameElements(p, q);
    KeyLessStrictWeak();
    forall x, y | x in p && y in p && x != y ensures KeyLess(x, y) || KeyLess(y, x) {
      KeyLessTotal(x, y);
    }
    SortCanonical(p, q, KeyLess);
    var keys := StableSort(p, KeyLess);
    forall i | 0 <= i < |keys| ensures ReleaseOf(a)(keys[i]) == ReleaseOf(b)(keys[i]) {
      GroupAnyOrder(a, b, keys[i]);
    }
  }
}
