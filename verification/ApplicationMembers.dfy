/** What belongs to an application (app/domain/application_graph.go). */
module ApplicationMembers {
  // The instance label seeds, ownership extends.

  import opened Options
  import opened Ordering
  import opened Sequences
  import Text

  const LABEL_INSTANCE := "app.kubernetes.io/instance"

  datatype OwnerReference = OwnerReference(kind: string, name: string, controller: bool) {
    predicate IsZero() { name == "" }
  }

  const NO_OWNER := OwnerReference("", "", false)

  /** The controlling owner in a list, or the zero reference. */
  function Controller(owners: seq<OwnerReference>): OwnerReference {
    if owners == [] then NO_OWNER
    else if owners[0].controller then owners[0]
    else Controller(owners[1..])
  }

  type Labels = map<string, string>

  /** Reading a Go map: a missing key reads as the empty string. */
  function Get(labels: Labels, key: string): string {
    if key in labels then labels[key] else ""
  }

  datatype AttachedRef = AttachedRef(kind: string, name: string, via: string)

  datatype Candidate = Candidate(kind: string, name: string, labels: Labels, owner: OwnerReference,
                                 desired: int, ready: int, failed: int, suspended: bool,
                                 attached: seq<AttachedRef>)
  {
    function Id(): string { ObjectId(kind, name) }
  }

  datatype Pod = Pod(name: string, namespace: string, labels: Labels, owners: seq<OwnerReference>, healthy: bool)

  function ObjectId(kind: string, name: string): string {
    Text.ToLower(kind) + "/" + name
  }

  predicate Labelled(c: Candidate, instance: string) {
    Get(c.labels, LABEL_INSTANCE) == instance
  }

  // ---- The definition of membership ----

  /** An owner chain: it starts at a labelled candidate, and every later link is owned by
      the one before it. */
  ghost predicate Chain(offered: set<Candidate>, instance: string, path: seq<Candidate>) {
    && path != []
    && (forall c | c in path :: c in offered)
    && Labelled(path[0], instance)
    && forall i | 0 < i < |path| ::
         !path[i].owner.IsZero() && ObjectId(path[i].owner.kind, path[i].owner.name) == path[i - 1].Id()
  }

  ghost predicate Belongs(offered: set<Candidate>, instance: string, id: string) {
    exists path: seq<Candidate> :: Chain(offered, instance, path) && path[|path| - 1].Id() == id
  }

  /** Holding every labelled candidate, and everything owned by something it holds. */
  ghost predicate Closed(offered: set<Candidate>, instance: string, ids: set<string>) {
    forall c | c in offered && (Labelled(c, instance) || OwnedBy(c, ids)) :: c.Id() in ids
  }

  predicate OwnedBy(c: Candidate, ids: set<string>) {
    !c.owner.IsZero() && ObjectId(c.owner.kind, c.owner.name) in ids
  }

  lemma LabelledBelongs(offered: set<Candidate>, instance: string, c: Candidate)
    requires c in offered && Labelled(c, instance)
    ensures Belongs(offered, instance, c.Id())
  {
    assert Chain(offered, instance, [c]);
  }

  lemma OwnedBelongs(offered: set<Candidate>, instance: string, c: Candidate)
    requires c in offered && !c.owner.IsZero()
    requires Belongs(offered, instance, ObjectId(c.owner.kind, c.owner.name))
    ensures Belongs(offered, instance, c.Id())
  {
    var path: seq<Candidate> :| Chain(offered, instance, path)
      && path[|path| - 1].Id() == ObjectId(c.owner.kind, c.owner.name);
    ChainExtends(offered, instance, path, c);
    assert (path + [c])[|path|] == c;
  }

  lemma ChainExtends(offered: set<Candidate>, instance: string, path: seq<Candidate>, c: Candidate)
    requires Chain(offered, instance, path) && c in offered && !c.owner.IsZero()
    requires path[|path| - 1].Id() == ObjectId(c.owner.kind, c.owner.name)
    ensures Chain(offered, instance, path + [c])
  {
    var more := path + [c];
    forall i | 0 < i < |more|
      ensures !more[i].owner.IsZero() && ObjectId(more[i].owner.kind, more[i].owner.name) == more[i - 1].Id()
    {
      assert more[i - 1] == path[i - 1] && (i < |path| ==> more[i] == path[i]);
    }
  }

  lemma {:induction false} ChainStays(offered: set<Candidate>, instance: string, ids: set<string>, path: seq<Candidate>)
    requires Closed(offered, instance, ids) && Chain(offered, instance, path)
    ensures path[|path| - 1].Id() in ids
    decreases |path|
  {
    if |path| > 1 {
      var before := path[..|path| - 1];
      ChainStays(offered, instance, ids, before);
    }
    assert path[|path| - 1] in offered;
  }

  /** Membership is the least closed set: owner chains from a labelled candidate reach it,
      and reach nothing outside any closed set. */
  lemma BelongsIsLeast(offered: set<Candidate>, instance: string, ids: set<string>)
    requires Closed(offered, instance, ids)
    ensures forall id | Belongs(offered, instance, id) :: id in ids
  {
    forall id | Belongs(offered, instance, id) ensures id in ids {
      var path: seq<Candidate> :| Chain(offered, instance, path) && path[|path| - 1].Id() == id;
      ChainStays(offered, instance, ids, path);
    }
  }

  // ---- The computation ----

  type Members = map<string, Candidate>

  /** What was offered, whatever the order and however often. */
  ghost function Offered(candidates: seq<Candidate>): set<Candidate> {
    set c | c in candidates
  }

  /** Every entry is a candidate filed under its own id. */
  ghost predicate Filed(offered: set<Candidate>, members: Members) {
    forall id | id in members :: members[id] in offered && members[id].Id() == id
  }

  /** A pod is the application's by its label, or because a member controls it. */
  predicate PodBelongs(pod: Pod, instance: string, ids: set<string>) {
    || Get(pod.labels, LABEL_INSTANCE) == instance
    || (var owner := Controller(pod.owners); !owner.IsZero() && ObjectId(owner.kind, owner.name) in ids)
  }

  function BelongsTo(instance: string, ids: set<string>): Pod -> bool {
    pod => PodBelongs(pod, instance, ids)
  }

  function PodsOf(pods: seq<Pod>, instance: string, ids: set<string>): seq<Pod> {
    Filter(pods, BelongsTo(instance, ids))
  }

  /** The last labelled candidate of an id. */
  function LastLabelled(candidates: seq<Candidate>, instance: string, id: string): Option<Candidate> {
    if candidates == [] then None
    else
      var last := candidates[|candidates| - 1];
      if Labelled(last, instance) && last.Id() == id then Some(last)
      else LastLabelled(candidates[..|candidates| - 1], instance, id)
  }

  lemma {:induction false} LastLabelledMeans(candidates: seq<Candidate>, instance: string, id: string)
    ensures LastLabelled(candidates, instance, id).Some? <==>
      exists c :: c in candidates && Labelled(c, instance) && c.Id() == id
    ensures LastLabelled(candidates, instance, id).Some? ==>
      var c := LastLabelled(candidates, instance, id).value; c in candidates && Labelled(c, instance) && c.Id() == id
  {
    if candidates != [] {
      var before, last := candidates[..|candidates| - 1], candidates[|candidates| - 1];
      assert candidates == before + [last];
      LastLabelledMeans(before, instance, id);
    }
  }

  /** What is filed under an id: the last labelled candidate of that id. */
  function FiledUnder(members: Members, id: string): Option<Candidate> {
    if id in members then Some(members[id]) else None
  }

  /** The members seeded by the label. */
  method Seeds(candidates: seq<Candidate>, instance: string) returns (members: Members)
    ensures forall id :: FiledUnder(members, id) == LastLabelled(candidates, instance, id)
  {
    members := map[];
    for i := 0 to |candidates|
      invariant forall id :: FiledUnder(members, id) == LastLabelled(candidates[..i], instance, id)
    {
      var c := candidates[i];
      assert candidates[..i + 1][..i] == candidates[..i];
      if Labelled(c, instance) {
        members := members[c.Id() := c];
      }
    }
    assert candidates[..|candidates|] == candidates;
  }

  lemma SeedsMean(candidates: seq<Candidate>, instance: string, members: Members)
    requires forall id :: FiledUnder(members, id) == LastLabelled(candidates, instance, id)
    ensures Filed(Offered(candidates), members)
    ensures forall c | c in candidates && Labelled(c, instance) :: c.Id() in members
    ensures forall id | id in members :: Labelled(members[id], instance)
  {
    forall id | id in members
      ensures members[id] in Offered(candidates) && members[id].Id() == id && Labelled(members[id], instance)
    {
      assert FiledUnder(members, id) == Some(members[id]);
      LastLabelledMeans(candidates, instance, id);
    }
    forall c | c in candidates && Labelled(c, instance) ensures c.Id() in members {
      LastLabelledMeans(candidates, instance, c.Id());
      assert FiledUnder(members, c.Id()).Some?;
    }
  }

  /** A candidate the members have nothing to say about, or already hold. */
  predicate Settled(c: Candidate, members: Members) {
    c.Id() in members || !OwnedBy(c, members.Keys)
  }

  /** A member owns the member of that id. */
  predicate OwnedAmong(members: Members, id: string) {
    id in members && OwnedBy(members[id], members.Keys)
  }

  /** Extended by candidates that a member owns. `sound` is any property that ownership hands
      down. */
  ghost predicate Grown(offered: set<Candidate>, before: Members, members: Members, sound: string -> bool) {
    && Filed(offered, members)
    && (forall id | id in before :: id in members && members[id] == before[id])
    && (forall id {:trigger OwnedAmong(members, id)} | id in members && id !in before :: OwnedAmong(members, id))
    && (forall id | id in members :: sound(id))
  }

  ghost predicate HandsDown(offered: set<Candidate>, sound: string -> bool) {
    forall c | c in offered && !c.owner.IsZero() && sound(ObjectId(c.owner.kind, c.owner.name)) :: sound(c.Id())
  }

  lemma OwnedStays(members: Members, more: Members, id: string)
    requires OwnedAmong(members, id) && members.Keys <= more.Keys && more[id] == members[id]
    ensures OwnedAmong(more, id)
  {
  }

  lemma OwnedIsSound(offered: set<Candidate>, members: Members, sound: string -> bool, c: Candidate)
    requires HandsDown(offered, sound) && (forall id | id in members :: sound(id))
    requires c in offered && OwnedBy(c, members.Keys)
    ensures sound(c.Id())
  {
  }

  lemma GrownNext(offered: set<Candidate>, before: Members, members: Members, sound: string -> bool, c: Candidate,
      taken: string)
    requires Grown(offered, before, members, sound)
    requires c in offered && c.Id() == taken && sound(taken) && taken !in members && OwnedBy(c, members.Keys)
    ensures Grown(offered, before, members[taken := c], sound)
  {
    FiledNext(offered, members, c, taken);
    OwnedNext(before, members, c, taken);
  }

  lemma FiledNext(offered: set<Candidate>, members: Members, c: Candidate, taken: string)
    requires Filed(offered, members) && c in offered && c.Id() == taken
    ensures Filed(offered, members[taken := c])
  {
  }

  lemma OwnedNext(before: Members, members: Members, c: Candidate, taken: string)
    requires forall id {:trigger OwnedAmong(members, id)} | id in members && id !in before :: OwnedAmong(members, id)
    requires taken !in members && OwnedBy(c, members.Keys)
    ensures var more := members[taken := c];
      forall id {:trigger OwnedAmong(more, id)} | id in more && id !in before :: OwnedAmong(more, id)
  {
    var more := members[taken := c];
    assert members.Keys <= more.Keys;
    forall id | id in more && id !in before ensures OwnedAmong(more, id) {
      if id in members {
        assert OwnedAmong(members, id);
        OwnedStays(members, more, id);
      }
    }
  }

  lemma GrownFurther(offered: set<Candidate>, a: Members, b: Members, c: Members, sound: string -> bool)
    requires Grown(offered, a, b, sound) && Grown(offered, b, c, sound)
    ensures Grown(offered, a, c, sound)
  {
    assert b.Keys <= c.Keys;
    forall id | id in c && id !in a ensures OwnedAmong(c, id) {
      if id in b { OwnedStays(b, c, id); } else { assert OwnedAmong(c, id); }
    }
  }

  /** One scan of the candidates, extending the members by what they own. `added` is the last
      one taken in. */
  method Extend(candidates: seq<Candidate>, before: Members, ghost sound: string -> bool)
    returns (members: Members, changed: bool, ghost added: string)
    requires Grown(Offered(candidates), before, before, sound) && HandsDown(Offered(candidates), sound)
    ensures Grown(Offered(candidates), before, members, sound)
    ensures changed ==> added in members && added !in before
    ensures !changed ==> members == before && forall c | c in candidates :: Settled(c, before)
  {
    members, changed, added := before, false, "";
    for i := 0 to |candidates|
      invariant Grown(Offered(candidates), before, members, sound)
      invariant changed ==> added in members && added !in before
      invariant !changed ==> members == before
      invariant !changed ==> forall k | 0 <= k < i :: Settled(candidates[k], before)
    {
      var c := candidates[i];
      if !Settled(c, members) {
        OwnedIsSound(Offered(candidates), members, sound, c);
        GrownNext(Offered(candidates), before, members, sound, c, c.Id());
        added := c.Id();
        members := members[c.Id() := c];
        changed := true;
      }
    }
  }

  ghost function Ids(candidates: seq<Candidate>): set<string> {
    set c | c in candidates :: c.Id()
  }

  /** Which candidate a member is: the last labelled one of its id, or one a member owns. */
  ghost predicate KeptRightly(candidates: seq<Candidate>, instance: string, members: Members) {
    forall id | id in members ::
      match LastLabelled(candidates, instance, id)
      case Some(c) => members[id] == c
      case None => OwnedAmong(members, id)
  }

  lemma SeedsBelong(candidates: seq<Candidate>, instance: string, seeds: Members)
    requires forall id :: FiledUnder(seeds, id) == LastLabelled(candidates, instance, id)
    ensures var sound := Belonging(Offered(candidates), instance);
      Grown(Offered(candidates), seeds, seeds, sound) && HandsDown(Offered(candidates), sound)
  {
    var offered, sound := Offered(candidates), Belonging(Offered(candidates), instance);
    SeedsMean(candidates, instance, seeds);
    forall id | id in seeds ensures sound(id) {
      LabelledBelongs(offered, instance, seeds[id]);
    }
    forall c | c in offered && !c.owner.IsZero() && sound(ObjectId(c.owner.kind, c.owner.name)) ensures sound(c.Id()) {
      OwnedBelongs(offered, instance, c);
    }
  }

  ghost function Belonging(offered: set<Candidate>, instance: string): string -> bool {
    id => Belongs(offered, instance, id)
  }

  lemma SettledIsClosed(candidates: seq<Candidate>, instance: string, members: Members)
    requires forall c | c in candidates && Labelled(c, instance) :: c.Id() in members
    requires forall c | c in candidates :: Settled(c, members)
    ensures Closed(Offered(candidates), instance, members.Keys)
  {
    forall c | c in candidates && OwnedBy(c, members.Keys) ensures c.Id() in members {
      assert Settled(c, members);
    }
  }

  lemma SettledIsExact(candidates: seq<Candidate>, instance: string, seeds: Members, members: Members)
    requires forall id :: FiledUnder(seeds, id) == LastLabelled(candidates, instance, id)
    requires Grown(Offered(candidates), seeds, members, Belonging(Offered(candidates), instance))
    requires forall c | c in candidates :: Settled(c, members)
    ensures forall id :: id in members <==> Belongs(Offered(candidates), instance, id)
  {
    SeedsMean(candidates, instance, seeds);
    SettledIsClosed(candidates, instance, members);
    BelongsIsLeast(Offered(candidates), instance, members.Keys);
    forall id | id in members ensures Belongs(Offered(candidates), instance, id) {
      assert Belonging(Offered(candidates), instance)(id);
    }
  }

  lemma GrownIsKeptRightly(candidates: seq<Candidate>, instance: string, seeds: Members, members: Members,
      sound: string -> bool)
    requires forall id :: FiledUnder(seeds, id) == LastLabelled(candidates, instance, id)
    requires Grown(Offered(candidates), seeds, members, sound)
    ensures KeptRightly(candidates, instance, members)
  {
    forall id | id in members
      ensures match LastLabelled(candidates, instance, id)
              case Some(c) => members[id] == c
              case None => OwnedAmong(members, id)
    {
      assert FiledUnder(seeds, id) == LastLabelled(candidates, instance, id);
      assert id !in seeds ==> OwnedAmong(members, id);
    }
  }

  /** Grows the members until a scan changes nothing: exactly what belongs. */
  method FindMembers(candidates: seq<Candidate>, instance: string) returns (members: Members)
    ensures Filed(Offered(candidates), members)
    ensures forall id :: id in members <==> Belongs(Offered(candidates), instance, id)
    ensures KeptRightly(candidates, instance, members)
  {
    members := Seeds(candidates, instance);
    ghost var seeds, offered, sound := members, Offered(candidates), Belonging(Offered(candidates), instance);
    SeedsBelong(candidates, instance, seeds);
    var changed := true;
    while changed
      invariant Grown(offered, seeds, members, sound)
      invariant !changed ==> forall c | c in candidates :: Settled(c, members)
      decreases Ids(candidates) - members.Keys, changed
    {
      ghost var before := members;
      ghost var added;
      members, changed, added := Extend(candidates, members, sound);
      GrownFurther(offered, seeds, before, members, sound);
      if changed {
        assert added in Ids(candidates) - before.Keys;
        assert Ids(candidates) - members.Keys < Ids(candidates) - before.Keys;
      }
    }
    SettledIsExact(candidates, instance, seeds, members);
    GrownIsKeptRightly(candidates, instance, seeds, members, sound);
  }

  /** With no two candidates of one id, the members are one function of what was offered. */
  lemma MembersDetermined(offered: set<Candidate>, a: Members, b: Members)
    requires Filed(offered, a) && Filed(offered, b) && a.Keys == b.Keys
    requires forall c, d | c in offered && d in offered && c.Id() == d.Id() :: c == d
    ensures a == b
  {
  }

  method FindPods(pods: seq<Pod>, instance: string, members: Members) returns (found: seq<Pod>)
    ensures found == PodsOf(pods, instance, members.Keys)
  {
    found := [];
    ghost var keep := BelongsTo(instance, members.Keys);
    for i := 0 to |pods|
      invariant found == Filter(pods[..i], keep)
    {
      assert pods[..i + 1] == pods[..i] + [pods[i]];
      FilterAppend(pods[..i], [pods[i]], keep);
      var owner := Controller(pods[i].owners);
      if Get(pods[i].labels, LABEL_INSTANCE) == instance {
        found := found + [pods[i]];
      } else if !owner.IsZero() && ObjectId(owner.kind, owner.name) in members {
        found := found + [pods[i]];
      }
    }
    assert pods[..|pods|] == pods;
  }

  ghost predicate AllThatBelong(offered: set<Candidate>, instance: string, ids: set<string>) {
    forall id :: id in ids <==> Belongs(offered, instance, id)
  }

  function PodNameLess(a: Pod, b: Pod): bool { Less(a.name, b.name) }

  /** The pods of an application in name order, as often as they come and pods of one name in
      the order they came. What it holds does not depend on the order the controllers were
      offered in. */
  method ApplicationPods(candidates: seq<Candidate>, pods: seq<Pod>, instance: string) returns (found: seq<Pod>)
    ensures forall pod :: pod in found <==>
      pod in pods && (|| Get(pod.labels, LABEL_INSTANCE) == instance
                      || (var owner := Controller(pod.owners);
                          !owner.IsZero() && Belongs(Offered(candidates), instance, ObjectId(owner.kind, owner.name))))
    ensures Ordered(found, PodNameLess)
    ensures forall ids | AllThatBelong(Offered(candidates), instance, ids) ::
      found == StableSort(PodsOf(pods, instance, ids), PodNameLess)
  {
    var members := FindMembers(candidates, instance);
    var own := FindPods(pods, instance, members);
    found := StableSort(own, PodNameLess);
    forall ids | AllThatBelong(Offered(candidates), instance, ids) ensures ids == members.Keys {
      assert forall id :: id in ids <==> id in members;
    }
    SameMembers(own, found);
    FilterHolds(pods, BelongsTo(instance, members.Keys));
    LessStrictWeak();
    assert StrictWeak(PodNameLess);
    StableSortOrdered(own, PodNameLess);
  }
}
