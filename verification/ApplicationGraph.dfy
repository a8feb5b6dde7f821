/** The map around an application (app/domain/application_graph.go). */
module ApplicationGraph {
  import opened Ordering
  import opened Sequences
  import opened ApplicationMembers
  import opened OwnerWalk
  import opened DependencyGraph

  datatype Input = Input(instance: string, candidates: seq<Candidate>, pods: seq<Pod>,
                         services: seq<ServiceRef>, ingresses: seq<IngressRef>)

  /** A member's parent, when that is a member with a name. */
  function ParentId(c: Candidate): string { ObjectId(c.owner.kind, c.owner.name) }

  predicate Folds(members: Members, id: string) {
    && id in members && !members[id].owner.IsZero()
    && ParentId(members[id]) in members && members[ParentId(members[id])].name != ""
  }

  ghost function MemberOwners(members: Members): Owners {
    map id | id in members && Folds(members, id) :: ParentId(members[id])
  }

  /** The drawn pods' parents: the controllers that are members. */
  function PodParent(members: Members, pod: Pod): string {
    var owner := Controller(pod.owners);
    if !owner.IsZero() && ObjectId(owner.kind, owner.name) in members then ObjectId(owner.kind, owner.name) else ""
  }

  function Parents(members: Members, pods: seq<Pod>): seq<string> {
    if pods == [] then []
    else
      var last := PodParent(members, pods[|pods| - 1]);
      Parents(members, pods[..|pods| - 1]) + if last == "" then [] else [last]
  }

  /** The parent filed under a pod's name: the last pod of that name decides. */
  function ParentOf(members: Members, pods: seq<Pod>, name: string): string {
    if pods == [] then ""
    else
      var last := pods[|pods| - 1];
      if last.name == name && PodParent(members, last) != "" then PodParent(members, last)
      else ParentOf(members, pods[..|pods| - 1], name)
  }

  function Healthy(c: Candidate): bool {
    if c.kind == "CronJob" then true
    else if c.kind == "Job" then c.failed == 0
    else c.ready >= c.desired
  }

  // ---- What the map holds ----

  function MemberNode(members: Members): string -> GraphNode {
    id =>
      if id in members then
        GraphNode(id, TIER_OWNER, members[id].name, Healthy(members[id]),
                  if Folds(members, id) then ParentId(members[id]) else "", "")
      else GraphNode(id, TIER_OWNER, "", false, "", "")
  }

  ghost function CreatesEdges(members: Members, id: string): seq<GraphEdge> {
    if Folds(members, id) then [GraphEdge(ParentId(members[id]), id, "creates")] else []
  }

  function PodNode(members: Members, pods: seq<Pod>): Pod -> GraphNode {
    (pod: Pod) => GraphNode(PodId(pod.name), TIER_POD, pod.name, pod.healthy, ParentOf(members, pods, pod.name), "")
  }

  function ManagesEdges(members: Members, pods: seq<Pod>, pod: Pod): seq<GraphEdge> {
    var parent := ParentOf(members, pods, pod.name);
    if parent == "" then [] else [GraphEdge(parent, PodId(pod.name), "manages")]
  }

  /** What a pod's own controller's template attaches. */
  function PodAttached(members: Members, pods: seq<Pod>, pod: Pod): seq<AttachedRef> {
    var parent := ParentOf(members, pods, pod.name);
    if parent != "" && parent in members then members[parent].attached else []
  }

  /** What a top-level member with no pods beneath declares itself. */
  ghost function OwnAttached(members: Members, pods: seq<Pod>, id: string): seq<AttachedRef> {
    if id in members && !Folds(members, id)
       && Total(MemberOwners(members), Parents(members, pods), |members|, id) == 0
    then members[id].attached else []
  }

  function Keeps(instance: string): ServiceRef -> bool {
    (s: ServiceRef) => Get(s.labels, LABEL_INSTANCE) == instance
  }

  ghost function Creates(members: Members): string -> seq<GraphEdge> {
    id => CreatesEdges(members, id)
  }

  ghost function Manages(members: Members, pods: seq<Pod>): Pod -> seq<GraphEdge> {
    pod => ManagesEdges(members, pods, pod)
  }

  ghost function PodReads(members: Members, pods: seq<Pod>): Pod -> seq<GraphEdge> {
    (pod: Pod) => AttachedEdges(PodAttached(members, pods, pod), PodId(pod.name))
  }

  ghost function OwnReads(members: Members, pods: seq<Pod>): string -> seq<GraphEdge> {
    id => AttachedEdges(OwnAttached(members, pods, id), id)
  }

  /** Every line of the map, for given orders of walking the member map twice. */
  ghost function MapEdges(input: Input, members: Members, pods: seq<Pod>, first: seq<string>, second: seq<string>)
    : seq<GraphEdge>
  {
    Flatten(first, Creates(members)) + FixedEdges(input, members, pods) + Flatten(second, OwnReads(members, pods))
  }

  /** The lines that follow the order of the lists they come from. */
  ghost function FixedEdges(input: Input, members: Members, pods: seq<Pod>): seq<GraphEdge> {
    Flatten(pods, Manages(members, pods))
    + ServiceEdges(input.services, pods, Keeps(input.instance))
    + IngressEdges(input.ingresses, Routed(input.services, pods, Keeps(input.instance)))
    + Flatten(pods, PodReads(members, pods))
  }

  // ---- Walking the member map in any order ----

  lemma {:induction false} FlattenFilter(order: seq<string>, lines: string -> seq<GraphEdge>,
      tagOf: GraphEdge -> string, keep: GraphEdge -> bool, tag: string)
    requires Distinct(order)
    requires forall id, e | e in lines(id) :: tagOf(e) == id
    requires forall e | keep(e) :: tagOf(e) == tag
    ensures Filter(Flatten(order, lines), keep) == if tag in order then Filter(lines(tag), keep) else []
  {
    if order != [] {
      var before, last := order[..|order| - 1], order[|order| - 1];
      assert order == before + [last];
      FlattenFilter(before, lines, tagOf, keep, tag);
      FilterAppend(Flatten(before, lines), lines(last), keep);
      if last != tag {
        FilterNone(lines(last), keep);
      }
    }
  }

  /** Two walks of the same map leave tied lines in the same order. */
  lemma FlattenAnyOrder(a: seq<string>, b: seq<string>, lines: string -> seq<GraphEdge>,
      tagOf: GraphEdge -> string, c: GraphEdge)
    requires Distinct(a) && Distinct(b) && forall id :: id in a <==> id in b
    requires forall id, e | e in lines(id) :: tagOf(e) == id
    requires forall e: GraphEdge | e.from == c.from && e.dest == c.dest :: tagOf(e) == tagOf(c)
    ensures Filter(Flatten(a, lines), Tied(EdgeLess, c)) == Filter(Flatten(b, lines), Tied(EdgeLess, c))
  {
    EdgeLessStrictWeak();
    FlattenFilter(a, lines, tagOf, Tied(EdgeLess, c), tagOf(c));
    FlattenFilter(b, lines, tagOf, Tied(EdgeLess, c), tagOf(c));
  }

  /** The sorted lines do not depend on how the member map happened to be walked. */
  lemma EdgesAnyOrder(input: Input, members: Members, pods: seq<Pod>,
      a1: seq<string>, a2: seq<string>, b1: seq<string>, b2: seq<string>)
    requires Distinct(a1) && Distinct(a2) && Distinct(b1) && Distinct(b2)
    requires forall id :: id in a1 <==> id in b1
    requires forall id :: id in a2 <==> id in b2
    ensures StableSort(MapEdges(input, members, pods, a1, a2), EdgeLess)
      == StableSort(MapEdges(input, members, pods, b1, b2), EdgeLess)
  {
    EdgeLessStrictWeak();
    var fixed := FixedEdges(input, members, pods);
    forall c ensures Filter(MapEdges(input, members, pods, a1, a2), Tied(EdgeLess, c))
                  == Filter(MapEdges(input, members, pods, b1, b2), Tied(EdgeLess, c))
    {
      var keep := Tied(EdgeLess, c);
      forall id, e | e in OwnReads(members, pods)(id) ensures e.from == id {
        OneLinePerResource(OwnAttached(members, pods, id), id);
      }
      FlattenAnyOrder(a1, b1, Creates(members), (e: GraphEdge) => e.dest, c);
      FlattenAnyOrder(a2, b2, OwnReads(members, pods), (e: GraphEdge) => e.from, c);
      ThreeFilters(Flatten(a1, Creates(members)), fixed, Flatten(a2, OwnReads(members, pods)), keep);
      ThreeFilters(Flatten(b1, Creates(members)), fixed, Flatten(b2, OwnReads(members, pods)), keep);
    }
    SortByTies(MapEdges(input, members, pods, a1, a2), MapEdges(input, members, pods, b1, b2), EdgeLess);
  }

  lemma ThreeFilters<T>(a: seq<T>, b: seq<T>, c: seq<T>, keep: T -> bool)
    ensures Filter(a + b + c, keep) == Filter(a, keep) + Filter(b, keep) + Filter(c, keep)
  {
    FilterAppend(a, b, keep);
    FilterAppend(a + b, c, keep);
  }

  // ---- The boxes ----

  ghost function BaseNodes(input: Input, members: Members, pods: seq<Pod>, order: seq<string>): seq<GraphNode> {
    Map(order, MemberNode(members)) + Map(pods, PodNode(members, pods))
    + ServiceNodes(input.services, pods, Keeps(input.instance))
    + IngressNodes(input.ingresses, Routed(input.services, pods, Keeps(input.instance)))
  }

  /** Everything some drawn pod, or some member without pods, attaches. */
  ghost function AllAttached(members: Members, pods: seq<Pod>): set<string> {
    PodsAttach(members, pods, pods) + MembersAttach(members, pods, members.Keys)
  }

  ghost function PodsAttach(members: Members, pods: seq<Pod>, some: seq<Pod>): set<string> {
    set pod, ref | pod in some && ref in PodAttached(members, pods, pod) :: AttachedId(ref)
  }

  ghost function MembersAttach(members: Members, pods: seq<Pod>, ids: set<string>): set<string> {
    set id, ref | id in ids && ref in OwnAttached(members, pods, id) :: AttachedId(ref)
  }

  function AttachedKey(id: string): NodeKey { NodeKey(TIER_ATTACHED, id) }

  ghost function Canonical(members: Members): seq<string> { SortedElements(members.Keys) }

  /** The boxes of the map, as it lists them. */
  ghost function MapKeys(input: Input, members: Members, pods: seq<Pod>): seq<NodeKey> {
    var base := BaseNodes(input, members, pods, Canonical(members));
    StableSort(Keys(base) + Map(SortedElements(AllAttached(members, pods) - IdSet(base)), AttachedKey), KeyLess)
  }

  /** The boxes so far: the base ones, then one box for each attached id not among them. */
  ghost predicate AttachedOnto(nodes: seq<GraphNode>, base: seq<GraphNode>, ids: set<string>) {
    && base <= nodes
    && IdSet(nodes[|base|..]) == ids - IdSet(base)
    && Distinct(Keys(nodes[|base|..]))
    && forall n | n in nodes[|base|..] :: n.tier == TIER_ATTACHED
  }

  /** The boxes so far: the base ones, then those of everything mentioned. */
  ghost predicate AttachedAs(nodes: seq<GraphNode>, base: seq<GraphNode>, refs: seq<AttachedRef>) {
    nodes == base + AttachedNodes(refs, IdSet(base))
  }

  lemma AttachAgain(nodes: seq<GraphNode>, base: seq<GraphNode>, refs: seq<AttachedRef>, more: seq<AttachedRef>)
    requires AttachedAs(nodes, base, refs)
    ensures AttachedAs(nodes + AttachedNodes(more, IdSet(nodes)), base, refs + more)
  {
    OneBoxPerResource(refs, IdSet(base));
    IdSetAppend(base, AttachedNodes(refs, IdSet(base)));
    assert IdSet(nodes) == IdSet(base) + AttachedIds(refs);
    AttachedConcat(refs, more, IdSet(base));
    RegroupNodes(base, AttachedNodes(refs, IdSet(base)), AttachedNodes(more, IdSet(nodes)));
  }

  lemma AttachedAsOnto(nodes: seq<GraphNode>, base: seq<GraphNode>, refs: seq<AttachedRef>)
    requires AttachedAs(nodes, base, refs)
    ensures AttachedOnto(nodes, base, AttachedIds(refs))
  {
    OneBoxPerResource(refs, IdSet(base));
    assert nodes[|base|..] == AttachedNodes(refs, IdSet(base));
  }

  /** What the pods read and what members declare themselves, mention by mention. */
  ghost function PodRefs(members: Members, pods: seq<Pod>, some: seq<Pod>): seq<AttachedRef> {
    if some == [] then []
    else PodRefs(members, pods, some[..|some| - 1]) + PodAttached(members, pods, some[|some| - 1])
  }

  ghost function OwnRefs(members: Members, pods: seq<Pod>, order: seq<string>): seq<AttachedRef> {
    if order == [] then []
    else OwnRefs(members, pods, order[..|order| - 1]) + OwnAttached(members, pods, order[|order| - 1])
  }

  lemma {:induction false} PodRefsIds(members: Members, pods: seq<Pod>, some: seq<Pod>)
    ensures AttachedIds(PodRefs(members, pods, some)) == PodsAttach(members, pods, some)
  {
    if some != [] {
      var before, last := some[..|some| - 1], some[|some| - 1];
      assert some == before + [last];
      PodRefsIds(members, pods, before);
      AttachedIdsConcat(PodRefs(members, pods, before), PodAttached(members, pods, last));
    }
  }

  lemma {:induction false} OwnRefsIds(members: Members, pods: seq<Pod>, order: seq<string>)
    ensures AttachedIds(OwnRefs(members, pods, order)) == MembersAttach(members, pods, set id | id in order)
  {
    if order != [] {
      var before, last := order[..|order| - 1], order[|order| - 1];
      assert order == before + [last];
      OwnRefsIds(members, pods, before);
      AttachedIdsConcat(OwnRefs(members, pods, before), OwnAttached(members, pods, last));
    }
  }

  ghost predicate Walk(order: seq<string>, members: Members) {
    Distinct(order) && forall id :: id in order <==> id in members
  }

  /** Every box of the map, for given orders of walking the member map twice. */
  ghost function MapNodes(input: Input, members: Members, pods: seq<Pod>, first: seq<string>, second: seq<string>)
    : seq<GraphNode>
  {
    var base := BaseNodes(input, members, pods, first);
    base + AttachedNodes(PodRefs(members, pods, pods) + OwnRefs(members, pods, second), IdSet(base))
  }

  lemma AllRefsIds(members: Members, pods: seq<Pod>, order: seq<string>)
    requires Walk(order, members)
    ensures AttachedIds(PodRefs(members, pods, pods) + OwnRefs(members, pods, order)) == AllAttached(members, pods)
  {
    PodRefsIds(members, pods, pods);
    OwnRefsIds(members, pods, order);
    assert (set id | id in order) == members.Keys;
    AttachedIdsConcat(PodRefs(members, pods, pods), OwnRefs(members, pods, order));
  }

  lemma BaseAnyOrder(input: Input, members: Members, pods: seq<Pod>, a: seq<string>, b: seq<string>)
    requires Distinct(a) && Distinct(b) && forall id :: id in a <==> id in b
    ensures multiset(Keys(BaseNodes(input, members, pods, a))) == multiset(Keys(BaseNodes(input, members, pods, b)))
    ensures IdSet(BaseNodes(input, members, pods, a)) == IdSet(BaseNodes(input, members, pods, b))
  {
    DistinctSameElements(a, b);
    MapMultiset(a, b, MemberNode(members));
    var x, y := BaseNodes(input, members, pods, a), BaseNodes(input, members, pods, b);
    assert multiset(x) == multiset(y);
    MapMultiset(x, y, KeyOf);
    SameMembers(x, y);
  }

  lemma AttachedKeys(tail: seq<GraphNode>, ids: set<string>)
    requires IdSet(tail) == ids && Distinct(Keys(tail)) && forall n | n in tail :: n.tier == TIER_ATTACHED
    ensures multiset(Keys(tail)) == multiset(Map(SortedElements(ids), AttachedKey))
  {
    var keys, wanted := Keys(tail), Map(SortedElements(ids), AttachedKey);
    StrictlyOrderedDistinct(SortedElements(ids));
    forall i | 0 <= i < |keys| ensures keys[i] in wanted {
      assert tail[i] in tail;
      var k :| 0 <= k < |SortedElements(ids)| && SortedElements(ids)[k] == tail[i].id;
      assert wanted[k] == keys[i];
    }
    forall k | 0 <= k < |wanted| ensures wanted[k] in keys {
      assert SortedElements(ids)[k] in ids;
      var n :| n in tail && n.id == SortedElements(ids)[k];
      var i :| 0 <= i < |tail| && tail[i] == n;
      assert keys[i] == wanted[k];
    }
    DistinctSameElements(keys, wanted);
  }

  lemma KeysAppend(a: seq<GraphNode>, b: seq<GraphNode>)
    ensures Keys(a + b) == Keys(a) + Keys(b)
  {
  }

  /** Sorting boxes sorts their keys, and equal multisets of keys sort the same. */
  lemma SortedKeys(nodes: seq<GraphNode>, keys: seq<NodeKey>)
    requires multiset(Keys(nodes)) == multiset(keys)
    ensures Keys(StableSort(nodes, NodeLess)) == StableSort(keys, KeyLess)
  {
    var sorted := StableSort(nodes, NodeLess);
    KeyLessStrictWeak();
    StableSortOrdered(nodes, NodeLess);
    StableSortOrdered(keys, KeyLess);
    MapMultiset(sorted, nodes, KeyOf);
    assert Ordered(Keys(sorted), KeyLess);
    OrderedUnique(Keys(sorted), StableSort(keys, KeyLess), KeyLess);
  }

  /** The sorted boxes do not depend on how the member map happened to be walked. */
  lemma KeysAnyOrder(input: Input, members: Members, pods: seq<Pod>, order: seq<string>, nodes: seq<GraphNode>)
    requires Distinct(order) && forall id :: id in order <==> id in members
    requires AttachedOnto(nodes, BaseNodes(input, members, pods, order), AllAttached(members, pods))
    ensures Keys(StableSort(nodes, NodeLess)) == MapKeys(input, members, pods)
  {
    StrictlyOrderedDistinct(Canonical(members));
    BaseAnyOrder(input, members, pods, order, Canonical(members));
    var base := BaseNodes(input, members, pods, order);
    var extra := AllAttached(members, pods) - IdSet(base);
    assert nodes == base + nodes[|base|..];
    KeysAppend(base, nodes[|base|..]);
    AttachedKeys(nodes[|base|..], extra);
    SortedKeys(nodes, Keys(BaseNodes(input, members, pods, Canonical(members))) + Map(SortedElements(extra), AttachedKey));
  }

  // ---- No line dangles ----

  lemma {:induction false} ParentIsMember(members: Members, pods: seq<Pod>, name: string)
    ensures ParentOf(members, pods, name) == "" || ParentOf(members, pods, name) in members
  {
    if pods != [] {
      ParentIsMember(members, pods[..|pods| - 1], name);
    }
  }

  /** Holding a box for every member, pod, drawn service, drawn ingress and attached resource. */
  ghost predicate HoldsAll(input: Input, members: Members, pods: seq<Pod>, ids: set<string>) {
    && members.Keys <= ids && AllAttached(members, pods) <= ids
    && (forall pod | pod in pods :: PodId(pod.name) in ids)
    && IdSet(ServiceNodes(input.services, pods, Keeps(input.instance))) <= ids
    && IdSet(IngressNodes(input.ingresses, Routed(input.services, pods, Keeps(input.instance)))) <= ids
  }

  lemma OwnedLinesJoined(input: Input, members: Members, pods: seq<Pod>, order: seq<string>, ids: set<string>)
    requires HoldsAll(input, members, pods, ids) && forall id | id in order :: id in members
    ensures Joined(Flatten(order, Creates(members)), ids)
    ensures Joined(Flatten(order, OwnReads(members, pods)), ids)
  {
    forall e | e in Flatten(order, Creates(members)) ensures e.from in ids && e.dest in ids {
      FlattenMember(order, Creates(members), e);
    }
    forall e | e in Flatten(order, OwnReads(members, pods)) ensures e.from in ids && e.dest in ids {
      FlattenMember(order, OwnReads(members, pods), e);
      var id :| id in order && e in OwnReads(members, pods)(id);
      OneLinePerResource(OwnAttached(members, pods, id), id);
      assert e.dest in MembersAttach(members, pods, members.Keys);
    }
  }

  lemma PodLinesJoined(input: Input, members: Members, pods: seq<Pod>, ids: set<string>)
    requires HoldsAll(input, members, pods, ids)
    ensures Joined(Flatten(pods, Manages(members, pods)), ids)
    ensures Joined(Flatten(pods, PodReads(members, pods)), ids)
  {
    forall e | e in Flatten(pods, Manages(members, pods)) ensures e.from in ids && e.dest in ids {
      FlattenMember(pods, Manages(members, pods), e);
      var pod :| pod in pods && e in Manages(members, pods)(pod);
      ParentIsMember(members, pods, pod.name);
    }
    forall e | e in Flatten(pods, PodReads(members, pods)) ensures e.from in ids && e.dest in ids {
      FlattenMember(pods, PodReads(members, pods), e);
      var pod :| pod in pods && e in PodReads(members, pods)(pod);
      OneLinePerResource(PodAttached(members, pods, pod), PodId(pod.name));
      assert e.dest in PodsAttach(members, pods, pods);
    }
  }

  lemma NetworkLinesJoined(input: Input, members: Members, pods: seq<Pod>, ids: set<string>)
    requires HoldsAll(input, members, pods, ids)
    ensures Joined(ServiceEdges(input.services, pods, Keeps(input.instance)), ids)
    ensures Joined(IngressEdges(input.ingresses, Routed(input.services, pods, Keeps(input.instance))), ids)
  {
    ServiceNodesCover(input.services, pods, Keeps(input.instance));
    IngressNodesCover(input.ingresses, Routed(input.services, pods, Keeps(input.instance)));
  }

  /** Both ends of every line of the map are boxes of the map. */
  lemma NoLineDangles(input: Input, members: Members, pods: seq<Pod>, first: seq<string>, second: seq<string>,
      ids: set<string>)
    requires HoldsAll(input, members, pods, ids)
    requires forall id | id in first + second :: id in members
    ensures Joined(MapEdges(input, members, pods, first, second), ids)
  {
    OwnedLinesJoined(input, members, pods, first, ids);
    OwnedLinesJoined(input, members, pods, second, ids);
    PodLinesJoined(input, members, pods, ids);
    NetworkLinesJoined(input, members, pods, ids);
  }

  lemma BaseHolds(input: Input, members: Members, pods: seq<Pod>, order: seq<string>, nodes: seq<GraphNode>)
    requires forall id :: id in order <==> id in members
    requires AttachedOnto(nodes, BaseNodes(input, members, pods, order), AllAttached(members, pods))
    ensures HoldsAll(input, members, pods, IdSet(nodes))
  {
    var base := BaseNodes(input, members, pods, order);
    assert nodes == base + nodes[|base|..];
    IdSetAppend(base, nodes[|base|..]);
    var a, b := Map(order, MemberNode(members)), Map(pods, PodNode(members, pods));
    var c := ServiceNodes(input.services, pods, Keeps(input.instance));
    var d := IngressNodes(input.ingresses, Routed(input.services, pods, Keeps(input.instance)));
    IdSetAppend(a, b);
    IdSetAppend(a + b, c);
    IdSetAppend(a + b + c, d);
    forall id | id in members ensures id in IdSet(a) {
      var i :| 0 <= i < |order| && order[i] == id;
      assert a[i].id == id && a[i] in a;
    }
    forall pod | pod in pods ensures PodId(pod.name) in IdSet(b) {
      var i :| 0 <= i < |pods| && pods[i] == pod;
      assert b[i].id == PodId(pod.name) && b[i] in b;
    }
  }

  // ---- Drawing the map ----

  method FindOwners(members: Members) returns (owners: Owners)
    ensures owners == MemberOwners(members)
  {
    owners := map[];
    var left := members.Keys;
    while left != {}
      invariant left <= members.Keys
      invariant owners == map id | id in members && Folds(members, id) && id !in left :: ParentId(members[id])
      decreases left
    {
      var id :| id in left;
      left := left - {id};
      if Folds(members, id) {
        owners := owners[id := ParentId(members[id])];
      }
    }
  }

  /** Files each pod's parent under its name, and lists the parents to count from. */
  method FindParents(members: Members, pods: seq<Pod>) returns (parentOf: map<string, string>, parents: seq<string>)
    ensures parents == Parents(members, pods)
    ensures forall name :: Get(parentOf, name) == ParentOf(members, pods, name)
  {
    parentOf, parents := map[], [];
    for i := 0 to |pods|
      invariant parents == Parents(members, pods[..i])
      invariant forall name :: Get(parentOf, name) == ParentOf(members, pods[..i], name)
    {
      assert pods[..i + 1][..i] == pods[..i];
      var parent := PodParent(members, pods[i]);
      if parent != "" {
        parentOf := parentOf[pods[i].name := parent];
        parents := parents + [parent];
      }
    }
    assert pods[..|pods|] == pods;
  }

  method DrawMembers(g: PodGraph, members: Members) returns (ghost order: seq<string>)
    requires g.nodes == [] && g.edges == []
    modifies g
    ensures Distinct(order) && forall id :: id in order <==> id in members
    ensures g.nodes == Map(order, MemberNode(members)) && g.edges == Flatten(order, Creates(members))
  {
    order := [];
    var left := members.Keys;
    while left != {}
      invariant left <= members.Keys && Distinct(order)
      invariant forall id :: id in order <==> id in members && id !in left
      invariant g.nodes == Map(order, MemberNode(members)) && g.edges == Flatten(order, Creates(members))
      decreases left
    {
      var id :| id in left;
      left := left - {id};
      order := order + [id];
      g.Add(MemberNode(members)(id));
      if Folds(members, id) {
        g.Connect(ParentId(members[id]), id, "creates");
      }
    }
  }

  method DrawPod(g: PodGraph, ghost members: Members, ghost pods: seq<Pod>, pod: Pod, parent: string)
    requires parent == ParentOf(members, pods, pod.name)
    modifies g
    ensures g.nodes == old(g.nodes) + [PodNode(members, pods)(pod)]
    ensures g.edges == old(g.edges) + Manages(members, pods)(pod)
  {
    g.Add(GraphNode(PodId(pod.name), TIER_POD, pod.name, pod.healthy, parent, ""));
    if parent != "" {
      g.Connect(parent, PodId(pod.name), "manages");
    }
  }

  ghost predicate PodsDrawn(nodes: seq<GraphNode>, edges: seq<GraphEdge>, base: seq<GraphNode>, before: seq<GraphEdge>,
      members: Members, pods: seq<Pod>, i: nat)
    requires i <= |pods|
  {
    && nodes == base + Map(pods[..i], PodNode(members, pods))
    && edges == before + Flatten(pods[..i], Manages(members, pods))
  }

  lemma PodsDrawnNext(nodes: seq<GraphNode>, edges: seq<GraphEdge>, base: seq<GraphNode>, before: seq<GraphEdge>,
      members: Members, pods: seq<Pod>, i: nat)
    requires i < |pods| && PodsDrawn(nodes, edges, base, before, members, pods, i)
    ensures PodsDrawn(nodes + [PodNode(members, pods)(pods[i])], edges + Manages(members, pods)(pods[i]),
                      base, before, members, pods, i + 1)
  {
    assert pods[..i + 1][..i] == pods[..i];
    RegroupEdges(before, Flatten(pods[..i], Manages(members, pods)), Manages(members, pods)(pods[i]));
  }

  method DrawPods(g: PodGraph, members: Members, pods: seq<Pod>, parentOf: map<string, string>)
    requires forall name :: Get(parentOf, name) == ParentOf(members, pods, name)
    modifies g
    ensures g.nodes == old(g.nodes) + Map(pods, PodNode(members, pods))
    ensures g.edges == old(g.edges) + Flatten(pods, Manages(members, pods))
  {
    ghost var base, before := g.nodes, g.edges;
    for i := 0 to |pods|
      invariant PodsDrawn(g.nodes, g.edges, base, before, members, pods, i)
    {
      PodsDrawnNext(g.nodes, g.edges, base, before, members, pods, i);
      DrawPod(g, members, pods, pods[i], Get(parentOf, pods[i].name));
    }
    assert pods[..|pods|] == pods;
  }

  lemma PodsAttachNext(members: Members, pods: seq<Pod>, i: nat)
    requires i < |pods|
    ensures PodRefs(members, pods, pods[..i + 1]) == PodRefs(members, pods, pods[..i]) + PodAttached(members, pods, pods[i])
    ensures Flatten(pods[..i + 1], PodReads(members, pods))
      == Flatten(pods[..i], PodReads(members, pods)) + PodReads(members, pods)(pods[i])
  {
    assert pods[..i + 1] == pods[..i] + [pods[i]];
  }

  /** What a pod reads, from the template of the controller that created it. */
  method AttachToPod(g: PodGraph, members: Members, ghost pods: seq<Pod>, pod: Pod, parent: string)
    requires parent == ParentOf(members, pods, pod.name)
    modifies g
    ensures g.nodes == old(g.nodes) + AttachedNodes(PodAttached(members, pods, pod), IdSet(old(g.nodes)))
    ensures g.edges == old(g.edges) + PodReads(members, pods)(pod)
  {
    ParentIsMember(members, pods, pod.name);
    if parent != "" {
      g.AddAttached(members[parent].attached, PodId(pod.name));
    }
  }

  /** Attaching once more to lines and boxes already attached. */
  lemma AttachOnce(nodes: seq<GraphNode>, edges: seq<GraphEdge>, base: seq<GraphNode>, before: seq<GraphEdge>,
      done: seq<AttachedRef>, refs: seq<AttachedRef>, lines: seq<GraphEdge>, more: seq<GraphEdge>,
      doneThen: seq<AttachedRef>, linesThen: seq<GraphEdge>)
    requires edges == before + lines && AttachedAs(nodes, base, done)
    requires doneThen == done + refs && linesThen == lines + more
    ensures edges + more == before + linesThen
    ensures AttachedAs(nodes + AttachedNodes(refs, IdSet(nodes)), base, doneThen)
  {
    RegroupEdges(before, lines, more);
    AttachAgain(nodes, base, done, refs);
  }

  ghost predicate PodsDone(nodes: seq<GraphNode>, edges: seq<GraphEdge>, base: seq<GraphNode>, before: seq<GraphEdge>,
      members: Members, pods: seq<Pod>, i: nat)
    requires i <= |pods|
  {
    && edges == before + Flatten(pods[..i], PodReads(members, pods))
    && AttachedAs(nodes, base, PodRefs(members, pods, pods[..i]))
  }

  lemma PodsDoneNext(nodes: seq<GraphNode>, edges: seq<GraphEdge>, base: seq<GraphNode>, before: seq<GraphEdge>,
      members: Members, pods: seq<Pod>, i: nat)
    requires i < |pods| && PodsDone(nodes, edges, base, before, members, pods, i)
    ensures PodsDone(nodes + AttachedNodes(PodAttached(members, pods, pods[i]), IdSet(nodes)),
                     edges + PodReads(members, pods)(pods[i]), base, before, members, pods, i + 1)
  {
    PodsAttachNext(members, pods, i);
    var lines := PodReads(members, pods);
    AttachOnce(nodes, edges, base, before, PodRefs(members, pods, pods[..i]), PodAttached(members, pods, pods[i]),
               Flatten(pods[..i], lines), lines(pods[i]), PodRefs(members, pods, pods[..i + 1]),
               Flatten(pods[..i + 1], lines));
  }

  method AttachToPods(g: PodGraph, members: Members, pods: seq<Pod>, parentOf: map<string, string>)
    requires forall name :: Get(parentOf, name) == ParentOf(members, pods, name)
    modifies g
    ensures g.edges == old(g.edges) + Flatten(pods, PodReads(members, pods))
    ensures AttachedAs(g.nodes, old(g.nodes), PodRefs(members, pods, pods))
  {
    ghost var base, before := g.nodes, g.edges;
    for i := 0 to |pods|
      invariant PodsDone(g.nodes, g.edges, base, before, members, pods, i)
    {
      PodsDoneNext(g.nodes, g.edges, base, before, members, pods, i);
      AttachToPod(g, members, pods, pods[i], Get(parentOf, pods[i].name));
    }
    assert pods[..|pods|] == pods;
  }

  lemma OwnAttachNext(members: Members, pods: seq<Pod>, refs: seq<AttachedRef>, order: seq<string>, id: string)
    ensures refs + OwnRefs(members, pods, order + [id])
      == refs + OwnRefs(members, pods, order) + OwnAttached(members, pods, id)
    ensures Flatten(order + [id], OwnReads(members, pods))
      == Flatten(order, OwnReads(members, pods)) + OwnReads(members, pods)(id)
  {
    assert (order + [id])[..|order|] == order;
  }

  /** What a top-level member with no pods beneath it declares. */
  method AttachToMember(g: PodGraph, members: Members, ghost pods: seq<Pod>, owners: Owners,
      counts: map<string, nat>, id: string)
    requires id in members && owners == MemberOwners(members)
    requires CountOf(counts, id) == Total(owners, Parents(members, pods), |members|, id)
    modifies g
    ensures g.nodes == old(g.nodes) + AttachedNodes(OwnAttached(members, pods, id), IdSet(old(g.nodes)))
    ensures g.edges == old(g.edges) + OwnReads(members, pods)(id)
  {
    if id !in owners && CountOf(counts, id) == 0 {
      g.AddAttached(members[id].attached, id);
    }
  }

  ghost predicate MembersDone(nodes: seq<GraphNode>, edges: seq<GraphEdge>, base: seq<GraphNode>,
      before: seq<GraphEdge>, members: Members, pods: seq<Pod>, refs: seq<AttachedRef>, order: seq<string>, done: set<string>)
  {
    && Distinct(order) && (forall id :: id in order <==> id in done)
    && edges == before + Flatten(order, OwnReads(members, pods))
    && AttachedAs(nodes, base, refs + OwnRefs(members, pods, order))
  }

  lemma NoMembersDone(nodes: seq<GraphNode>, edges: seq<GraphEdge>, base: seq<GraphNode>, members: Members,
      pods: seq<Pod>, refs: seq<AttachedRef>)
    requires AttachedAs(nodes, base, refs)
    ensures MembersDone(nodes, edges, base, edges, members, pods, refs, [], {})
  {
    assert refs + OwnRefs(members, pods, []) == refs;
  }

  lemma MembersDoneNext(nodes: seq<GraphNode>, edges: seq<GraphEdge>, base: seq<GraphNode>, before: seq<GraphEdge>,
      members: Members, pods: seq<Pod>, refs: seq<AttachedRef>, order: seq<string>, done: set<string>, id: string)
    requires MembersDone(nodes, edges, base, before, members, pods, refs, order, done) && id !in done
    ensures MembersDone(nodes + AttachedNodes(OwnAttached(members, pods, id), IdSet(nodes)),
                        edges + OwnReads(members, pods)(id), base, before, members, pods, refs,
                        order + [id], done + {id})
  {
    OwnAttachNext(members, pods, refs, order, id);
    var lines := OwnReads(members, pods);
    AttachOnce(nodes, edges, base, before, refs + OwnRefs(members, pods, order), OwnAttached(members, pods, id),
               Flatten(order, lines), lines(id), refs + OwnRefs(members, pods, order + [id]),
               Flatten(order + [id], lines));
  }

  method AttachToNext(g: PodGraph, members: Members, ghost pods: seq<Pod>, owners: Owners, counts: map<string, nat>,
      id: string, ghost base: seq<GraphNode>, ghost before: seq<GraphEdge>, ghost refs: seq<AttachedRef>,
      ghost order: seq<string>, ghost left: set<string>)
    requires id in left && left <= members.Keys && owners == MemberOwners(members)
    requires CountOf(counts, id) == Total(owners, Parents(members, pods), |members|, id)
    requires MembersDone(g.nodes, g.edges, base, before, members, pods, refs, order, members.Keys - left)
    modifies g
    ensures MembersDone(g.nodes, g.edges, base, before, members, pods, refs, order + [id], members.Keys - (left - {id}))
  {
    ghost var done := members.Keys - left;
    assert done + {id} == members.Keys - (left - {id});
    MembersDoneNext(g.nodes, g.edges, base, before, members, pods, refs, order, done, id);
    AttachToMember(g, members, pods, owners, counts, id);
  }

  method AttachToMembers(g: PodGraph, members: Members, ghost pods: seq<Pod>, owners: Owners, counts: map<string, nat>,
      ghost base: seq<GraphNode>, ghost refs: seq<AttachedRef>) returns (ghost order: seq<string>)
    requires owners == MemberOwners(members)
    requires forall id :: CountOf(counts, id) == Total(owners, Parents(members, pods), |members|, id)
    requires AttachedAs(g.nodes, base, refs)
    modifies g
    ensures MembersDone(g.nodes, g.edges, base, old(g.edges), members, pods, refs, order, members.Keys)
  {
    order := [];
    var left := members.Keys;
    ghost var before := g.edges;
    NoMembersDone(g.nodes, g.edges, base, members, pods, refs);
    assert members.Keys - left == {};
    while left != {}
      invariant left <= members.Keys
      invariant MembersDone(g.nodes, g.edges, base, before, members, pods, refs, order, members.Keys - left)
      decreases left
    {
      var id :| id in left;
      AttachToNext(g, members, pods, owners, counts, id, base, before, refs, order, left);
      left, order := left - {id}, order + [id];
    }
  }

  ghost function BaseEdges(input: Input, members: Members, pods: seq<Pod>, order: seq<string>): seq<GraphEdge> {
    Flatten(order, Creates(members)) + Flatten(pods, Manages(members, pods))
    + ServiceEdges(input.services, pods, Keeps(input.instance))
    + IngressEdges(input.ingresses, Routed(input.services, pods, Keeps(input.instance)))
  }

  ghost function AttachedLines(members: Members, pods: seq<Pod>, order: seq<string>): seq<GraphEdge> {
    Flatten(pods, PodReads(members, pods)) + Flatten(order, OwnReads(members, pods))
  }

  lemma RegroupAll(a: seq<GraphEdge>, b: seq<GraphEdge>, c: seq<GraphEdge>, d: seq<GraphEdge>, e: seq<GraphEdge>,
      f: seq<GraphEdge>)
    ensures (a + b + c + d) + (e + f) == a + (b + c + d + e) + f
  {
  }

  lemma AllLines(input: Input, members: Members, pods: seq<Pod>, first: seq<string>, second: seq<string>)
    ensures BaseEdges(input, members, pods, first) + AttachedLines(members, pods, second)
      == MapEdges(input, members, pods, first, second)
  {
    RegroupAll(Flatten(first, Creates(members)), Flatten(pods, Manages(members, pods)),
               ServiceEdges(input.services, pods, Keeps(input.instance)),
               IngressEdges(input.ingresses, Routed(input.services, pods, Keeps(input.instance))),
               Flatten(pods, PodReads(members, pods)), Flatten(second, OwnReads(members, pods)));
  }

  lemma AllDone(middle: seq<GraphEdge>, nodes: seq<GraphNode>, edges: seq<GraphEdge>, base: seq<GraphNode>,
      before: seq<GraphEdge>, members: Members, pods: seq<Pod>, order: seq<string>)
    requires middle == before + Flatten(pods, PodReads(members, pods))
    requires MembersDone(nodes, edges, base, middle, members, pods, PodRefs(members, pods, pods), order, members.Keys)
    ensures Walk(order, members)
    ensures edges == before + AttachedLines(members, pods, order)
    ensures AttachedAs(nodes, base, PodRefs(members, pods, pods) + OwnRefs(members, pods, order))
  {
    RegroupEdges(before, Flatten(pods, PodReads(members, pods)), Flatten(order, OwnReads(members, pods)));
  }

  /** Draws what the members and pods decide. However the member map is walked, the boxes
      and the lines come out the same, and no line dangles. */
  method Draw(input: Input, members: Members, pods: seq<Pod>)
    returns (g: PodGraph, ghost first: seq<string>, ghost second: seq<string>)
    ensures fresh(g) && Walk(first, members) && Walk(second, members)
    ensures g.nodes == StableSort(MapNodes(input, members, pods, first, second), NodeLess)
    ensures Keys(g.nodes) == MapKeys(input, members, pods)
    ensures g.edges == StableSort(MapEdges(input, members, pods, Canonical(members), Canonical(members)), EdgeLess)
    ensures Joined(g.edges, IdSet(g.nodes))
  {
    g := new PodGraph();
    var parentOf, parents := FindParents(members, pods);
    first := DrawBase(g, input, members, pods, parentOf);
    second := DrawAttached(g, members, pods, parentOf, parents);
    AllLines(input, members, pods, first, second);
    SortedBoxes(input, members, pods, first, second);
    SortedLines(input, members, pods, first, second, g.nodes);
    g.Sort();
  }

  /** The members, the pods, and the services and ingresses that lead to them. */
  method DrawBase(g: PodGraph, input: Input, members: Members, pods: seq<Pod>, parentOf: map<string, string>)
    returns (ghost order: seq<string>)
    requires g.nodes == [] && g.edges == []
    requires forall name :: Get(parentOf, name) == ParentOf(members, pods, name)
    modifies g
    ensures Walk(order, members)
    ensures g.nodes == BaseNodes(input, members, pods, order)
    ensures g.edges == BaseEdges(input, members, pods, order)
  {
    order := DrawMembers(g, members);
    DrawPods(g, members, pods, parentOf);
    var routed := g.AddServices(pods, input.services, Keeps(input.instance));
    g.AddIngresses(input.ingresses, routed);
  }

  /** What the drawn pods read, and what podless top-level members declare. */
  method DrawAttached(g: PodGraph, members: Members, pods: seq<Pod>, parentOf: map<string, string>,
      parents: seq<string>) returns (ghost order: seq<string>)
    requires parents == Parents(members, pods)
    requires forall name :: Get(parentOf, name) == ParentOf(members, pods, name)
    modifies g
    ensures Walk(order, members)
    ensures g.edges == old(g.edges) + AttachedLines(members, pods, order)
    ensures AttachedAs(g.nodes, old(g.nodes), PodRefs(members, pods, pods) + OwnRefs(members, pods, order))
  {
    var owners := FindOwners(members);
    var counts := CountPods(owners, parents, |members|);
    ghost var base, before := g.nodes, g.edges;
    AttachToPods(g, members, pods, parentOf);
    ghost var middle := g.edges;
    order := AttachToMembers(g, members, pods, owners, counts, base, PodRefs(members, pods, pods));
    AllDone(middle, g.nodes, g.edges, base, before, members, pods, order);
  }

  lemma SortedBoxes(input: Input, members: Members, pods: seq<Pod>, first: seq<string>, second: seq<string>)
    requires Walk(first, members) && Walk(second, members)
    ensures var nodes := MapNodes(input, members, pods, first, second);
      Keys(StableSort(nodes, NodeLess)) == MapKeys(input, members, pods) && HoldsAll(input, members, pods, IdSet(nodes))
  {
    var nodes := MapNodes(input, members, pods, first, second);
    AttachedAsOnto(nodes, BaseNodes(input, members, pods, first),
                   PodRefs(members, pods, pods) + OwnRefs(members, pods, second));
    AllRefsIds(members, pods, second);
    KeysAnyOrder(input, members, pods, first, nodes);
    BaseHolds(input, members, pods, first, nodes);
  }

  lemma SortedLines(input: Input, members: Members, pods: seq<Pod>, first: seq<string>, second: seq<string>,
      nodes: seq<GraphNode>)
    requires Walk(first, members) && Walk(second, members) && HoldsAll(input, members, pods, IdSet(nodes))
    ensures var edges := StableSort(MapEdges(input, members, pods, first, second), EdgeLess);
      && edges == StableSort(MapEdges(input, members, pods, Canonical(members), Canonical(members)), EdgeLess)
      && Joined(edges, IdSet(StableSort(nodes, NodeLess)))
  {
    StrictlyOrderedDistinct(Canonical(members));
    EdgesAnyOrder(input, members, pods, first, second, Canonical(members), Canonical(members));
    NoLineDangles(input, members, pods, first, second, IdSet(nodes));
    SameMembers(nodes, StableSort(nodes, NodeLess));
    SameMembers(MapEdges(input, members, pods, first, second),
                StableSort(MapEdges(input, members, pods, first, second), EdgeLess));
  }

  /** The map of an application: its members are what belongs, its pods theirs. */
  method NewApplicationGraph(input: Input)
    returns (g: PodGraph, members: Members, pods: seq<Pod>, ghost first: seq<string>, ghost second: seq<string>)
    ensures Walk(first, members) && Walk(second, members)
    ensures g.nodes == StableSort(MapNodes(input, members, pods, first, second), NodeLess)
    ensures fresh(g) && Filed(Offered(input.candidates), members)
    ensures forall id :: id in members <==> Belongs(Offered(input.candidates), input.instance, id)
    ensures KeptRightly(input.candidates, input.instance, members)
    ensures pods == PodsOf(input.pods, input.instance, members.Keys)
    ensures Keys(g.nodes) == MapKeys(input, members, pods)
    ensures g.edges == StableSort(MapEdges(input, members, pods, Canonical(members), Canonical(members)), EdgeLess)
    ensures Joined(g.edges, IdSet(g.nodes))
  {
    members := FindMembers(input.candidates, input.instance);
    pods := FindPods(input.pods, input.instance, members);
    g, first, second := Draw(input, members, pods);
  }

  // ---- What the walk of the member map can change ----

  lemma OwnRefsNext(members: Members, pods: seq<Pod>, order: seq<string>, id: string)
    ensures OwnRefs(members, pods, order + [id]) == OwnRefs(members, pods, order) + OwnAttached(members, pods, id)
  {
    assert (order + [id])[..|order|] == order;
  }

  lemma RegroupRefs(a: seq<AttachedRef>, b: seq<AttachedRef>, c: seq<AttachedRef>)
    ensures (a + b) + c == a + (b + c)
  {
  }

  lemma OwnRefsConcatNext(members: Members, pods: seq<Pod>, a: seq<string>, b: seq<string>, id: string)
    requires OwnRefs(members, pods, a + b) == OwnRefs(members, pods, a) + OwnRefs(members, pods, b)
    ensures OwnRefs(members, pods, a + (b + [id])) == OwnRefs(members, pods, a) + OwnRefs(members, pods, b + [id])
  {
    OwnRefsNext(members, pods, a + b, id);
    OwnRefsNext(members, pods, b, id);
    assert a + (b + [id]) == (a + b) + [id];
    RegroupRefs(OwnRefs(members, pods, a), OwnRefs(members, pods, b), OwnAttached(members, pods, id));
  }

  lemma {:induction false} OwnRefsConcat(members: Members, pods: seq<Pod>, a: seq<string>, b: seq<string>)
    ensures OwnRefs(members, pods, a + b) == OwnRefs(members, pods, a) + OwnRefs(members, pods, b)
  {
    if b == [] {
      assert a + b == a;
    } else {
      OwnRefsConcat(members, pods, a, b[..|b| - 1]);
      OwnRefsConcatNext(members, pods, a, b[..|b| - 1], b[|b| - 1]);
      assert b == b[..|b| - 1] + [b[|b| - 1]];
    }
  }

  /** The member reads the resource itself. */
  ghost predicate Mentions(members: Members, pods: seq<Pod>, m: string, id: string) {
    m in members && id in AttachedIds(OwnAttached(members, pods, m))
  }

  /** The first member in the walk to mention a resource decides how its box says it is read. */
  lemma {:induction false} FirstMention(members: Members, pods: seq<Pod>, order: seq<string>, id: string) returns (m: string)
    requires id in AttachedIds(OwnRefs(members, pods, order))
    ensures m in order && id in AttachedIds(OwnAttached(members, pods, m))
    ensures FirstVia(OwnRefs(members, pods, order), id) == FirstVia(OwnAttached(members, pods, m), id)
  {
    var before, last := order[..|order| - 1], order[|order| - 1];
    var refs := OwnRefs(members, pods, before);
    AttachedIdsConcat(refs, OwnAttached(members, pods, last));
    FirstViaConcat(refs, OwnAttached(members, pods, last), id);
    if id in AttachedIds(refs) { m := FirstMention(members, pods, before, id); } else { m := last; }
  }

  /** A walk that comes to a given member first. */
  lemma WalkFrom(members: Members, m: string) returns (order: seq<string>)
    requires m in members
    ensures Walk(order, members) && order != [] && order[0] == m
  {
    var rest := SortedElements(members.Keys - {m});
    StrictlyOrderedDistinct(rest);
    order := [m] + rest;
    forall i, j | 0 <= i < j < |order| ensures order[i] != order[j] {
      assert order[j] == rest[j - 1] && rest[j - 1] in members.Keys - {m};
      if i > 0 { assert order[i] == rest[i - 1]; }
    }
  }

  lemma ViaFrom(members: Members, pods: seq<Pod>, m: string, id: string) returns (order: seq<string>)
    requires Mentions(members, pods, m, id)
    ensures Walk(order, members)
    ensures FirstVia(OwnRefs(members, pods, order), id) == FirstVia(OwnAttached(members, pods, m), id)
  {
    order := WalkFrom(members, m);
    assert order == [m] + order[1..];
    OwnRefsConcat(members, pods, [m], order[1..]);
    assert OwnRefs(members, pods, [m]) == OwnAttached(members, pods, m) by { assert [m][..0] == []; }
    FirstViaConcat(OwnAttached(members, pods, m), OwnRefs(members, pods, order[1..]), id);
  }

  /** How the box of an attached resource says it is read, under a walk. */
  ghost function ViaShown(members: Members, pods: seq<Pod>, order: seq<string>, id: string): string {
    FirstVia(PodRefs(members, pods, pods) + OwnRefs(members, pods, order), id)
  }

  /** The box of an attached resource shows it so. */
  lemma ViaIsShown(input: Input, members: Members, pods: seq<Pod>, first: seq<string>, second: seq<string>, n: GraphNode)
    requires n in MapNodes(input, members, pods, first, second) && n !in BaseNodes(input, members, pods, first)
    ensures n.via == ViaShown(members, pods, second, n.id)
  {
    var base := BaseNodes(input, members, pods, first);
    AttachedVia(PodRefs(members, pods, pods) + OwnRefs(members, pods, second), IdSet(base), n);
  }

  ghost predicate AnyWalkShows(members: Members, pods: seq<Pod>, id: string) {
    forall a, b | Walk(a, members) && Walk(b, members) ::
      ViaShown(members, pods, a, id) == ViaShown(members, pods, b, id)
  }

  ghost predicate MentionsAgree(members: Members, pods: seq<Pod>, id: string) {
    forall x, y | Mentions(members, pods, x, id) && Mentions(members, pods, y, id) ::
      FirstVia(OwnAttached(members, pods, x), id) == FirstVia(OwnAttached(members, pods, y), id)
  }

  lemma ViaWithoutPods(members: Members, pods: seq<Pod>, order: seq<string>, id: string)
    requires id !in PodsAttach(members, pods, pods)
    ensures ViaShown(members, pods, order, id) == FirstVia(OwnRefs(members, pods, order), id)
  {
    PodRefsIds(members, pods, pods);
    FirstViaConcat(PodRefs(members, pods, pods), OwnRefs(members, pods, order), id);
  }

  lemma ViaOfAMember(members: Members, pods: seq<Pod>, order: seq<string>, id: string) returns (m: string)
    requires Walk(order, members) && id in AllAttached(members, pods) && id !in PodsAttach(members, pods, pods)
    ensures Mentions(members, pods, m, id)
    ensures ViaShown(members, pods, order, id) == FirstVia(OwnAttached(members, pods, m), id)
  {
    ViaWithoutPods(members, pods, order, id);
    OwnRefsIds(members, pods, order);
    assert (set i | i in order) == members.Keys;
    m := FirstMention(members, pods, order, id);
  }

  /** Exactly when: what an attached resource's box says of how it is read does not depend on
      how the member map is walked, if and only if a drawn pod reads the resource, or all the
      members that declare it themselves say the same. */
  lemma ViaAnyOrderExactlyWhen(members: Members, pods: seq<Pod>, id: string)
    requires id in AllAttached(members, pods)
    ensures AnyWalkShows(members, pods, id) <==> id in PodsAttach(members, pods, pods) || MentionsAgree(members, pods, id)
  {
    if id in PodsAttach(members, pods, pods) {
      PodRefsIds(members, pods, pods);
      forall a ensures ViaShown(members, pods, a, id) == FirstVia(PodRefs(members, pods, pods), id) {
        FirstViaConcat(PodRefs(members, pods, pods), OwnRefs(members, pods, a), id);
      }
    } else if MentionsAgree(members, pods, id) {
      forall a, b | Walk(a, members) && Walk(b, members)
        ensures ViaShown(members, pods, a, id) == ViaShown(members, pods, b, id)
      {
        var x := ViaOfAMember(members, pods, a, id);
        var y := ViaOfAMember(members, pods, b, id);
      }
    } else {
      var x, y :| Mentions(members, pods, x, id) && Mentions(members, pods, y, id)
        && FirstVia(OwnAttached(members, pods, x), id) != FirstVia(OwnAttached(members, pods, y), id);
      var a := ViaFrom(members, pods, x, id);
      var b := ViaFrom(members, pods, y, id);
      ViaWithoutPods(members, pods, a, id);
      ViaWithoutPods(members, pods, b, id);
    }
  }

  // ---- Lines from services to pods ----

  lemma FixedServiceLine(input: Input, members: Members, pods: seq<Pod>, service: string, pod: string)
    requires forall id | id in members :: AttachedKinds(members[id].attached)
    ensures ServiceLine(service, pod) in FixedEdges(input, members, pods) <==> Selects(input.services, pods, service, pod)
  {
    var line, keep := ServiceLine(service, pod), Keeps(input.instance);
    ServiceLineDrawn(input.services, pods, keep, service, pod);
    IngressIsNoServiceLine(input.ingresses, Routed(input.services, pods, keep), service, pod);
    FlattenMember(pods, Manages(members, pods), line);
    FlattenMember(pods, PodReads(members, pods), line);
    forall p | p in pods ensures line !in PodReads(members, pods)(p) {
      AttachedIsNoServiceLine(PodAttached(members, pods, p), PodId(p.name), service, pod);
    }
  }

  lemma MembersServiceLine(members: Members, pods: seq<Pod>, order: seq<string>, service: string, pod: string)
    requires forall id | id in members :: AttachedKinds(members[id].attached)
    ensures ServiceLine(service, pod) !in Flatten(order, Creates(members))
    ensures ServiceLine(service, pod) !in Flatten(order, OwnReads(members, pods))
  {
    var line := ServiceLine(service, pod);
    FlattenMember(order, Creates(members), line);
    FlattenMember(order, OwnReads(members, pods), line);
    forall id ensures line !in OwnReads(members, pods)(id) {
      AttachedIsNoServiceLine(OwnAttached(members, pods, id), id, service, pod);
    }
  }

  /** A line from a service to a pod is on the finished map exactly when a service of that name
      is offered and selects a pod of that name that is drawn. */
  lemma ServiceLineExactlyWhen(input: Input, members: Members, pods: seq<Pod>, service: string, pod: string)
    requires forall id | id in members :: AttachedKinds(members[id].attached)
    ensures ServiceLine(service, pod)
        in StableSort(MapEdges(input, members, pods, Canonical(members), Canonical(members)), EdgeLess)
      <==> Selects(input.services, pods, service, pod)
  {
    var lines := MapEdges(input, members, pods, Canonical(members), Canonical(members));
    SameMembers(lines, StableSort(lines, EdgeLess));
    FixedServiceLine(input, members, pods, service, pod);
    MembersServiceLine(members, pods, Canonical(members), service, pod);
  }

  /** What the count decides on the map: a member declares its own attachments exactly when
      nothing that is a member owns it and no drawn pod's owner chain reaches it. */
  lemma OwnAttachmentsExactlyWhen(members: Members, pods: seq<Pod>, id: string)
    requires id in members && members[id].attached != []
    requires forall i | i in members :: members[i].Id() == i
    ensures OwnAttached(members, pods, id) != [] <==>
      (!Folds(members, id) && !exists p :: p in Parents(members, pods) && Reaches(MemberOwners(members), p, id))
  {
    ParentsAreMembers(members, pods);
    PositiveExactlyWhenReached(MemberOwners(members), members.Keys, Parents(members, pods), id);
    assert |members.Keys| == |members|;
  }

  lemma {:induction false} ParentsAreMembers(members: Members, pods: seq<Pod>)
    ensures forall p | p in Parents(members, pods) :: p in members
  {
    if pods != [] {
      ParentsAreMembers(members, pods[..|pods| - 1]);
    }
  }
}
