/** The boxes and lines of a dependency map (app/domain/graph.go). */
module DependencyGraph {
  import opened Ordering
  import opened Sequences
  import opened ApplicationMembers
  import Text

  const TIER_INGRESS := 0
  const TIER_SERVICE := 1
  const TIER_OWNER := 2
  const TIER_POD := 3
  const TIER_ATTACHED := 5

  /** A box. `via` is how an attached resource is read; no other box has one. */
  datatype GraphNode = GraphNode(id: string, tier: nat, name: string, healthy: bool, group: string, via: string)

  datatype GraphEdge = GraphEdge(from: string, dest: string, caption: string)

  datatype ServiceRef = ServiceRef(name: string, selector: Labels, labels: Labels)

  datatype IngressRef = IngressRef(name: string, backends: seq<string>)

  /** What a node is sorted by. */
  datatype NodeKey = NodeKey(tier: nat, id: string)

  function KeyOf(n: GraphNode): NodeKey { NodeKey(n.tier, n.id) }

  function Keys(nodes: seq<GraphNode>): seq<NodeKey> { Map(nodes, KeyOf) }

  function IdSet(nodes: seq<GraphNode>): (ids: set<string>)
    ensures forall n | n in nodes :: n.id in ids
  {
    set n | n in nodes :: n.id
  }

  predicate KeyLess(a: NodeKey, b: NodeKey) {
    if a.tier != b.tier then a.tier < b.tier else Less(a.id, b.id)
  }

  predicate NodeLess(a: GraphNode, b: GraphNode) { KeyLess(KeyOf(a), KeyOf(b)) }

  predicate EdgeLess(a: GraphEdge, b: GraphEdge) {
    if a.from != b.from then Less(a.from, b.from) else Less(a.dest, b.dest)
  }

  lemma KeyLessStrictWeak()
    ensures StrictWeak(KeyLess) && StrictWeak(NodeLess)
    ensures forall a, b :: a != b ==> KeyLess(a, b) || KeyLess(b, a)
  {
    LessStrictWeak();
    forall a: NodeKey, b: NodeKey | a != b ensures KeyLess(a, b) || KeyLess(b, a) {
      LessTotal(a.id, b.id);
    }
  }

  lemma EdgeLessStrictWeak()
    ensures StrictWeak(EdgeLess)
    ensures forall a, b :: Tied(EdgeLess, a)(b) <==> a.from == b.from && a.dest == b.dest
  {
    LessStrictWeak();
    forall a: GraphEdge, b: GraphEdge
      ensures Tied(EdgeLess, a)(b) <==> a.from == b.from && a.dest == b.dest
    {
      LessTotal(a.from, b.from);
      LessTotal(a.dest, b.dest);
      assert Tied(EdgeLess, a)(b) <==> !EdgeLess(b, a) && !EdgeLess(a, b);
    }
    forall a: GraphEdge, b: GraphEdge, c: GraphEdge | EdgeLess(a, b) ensures EdgeLess(a, c) || EdgeLess(c, b) {
      LessTotal(a.from, c.from);
      LessTotal(c.from, b.from);
      LessTotal(a.from, b.from);
    }
  }

  // ---- Selectors ----

  /** Every key must match, and an empty selector matches nothing. */
  ghost predicate Matches(selector: Labels, labels: Labels) {
    selector != map[] && forall key | key in selector :: Get(labels, key) == selector[key]
  }

  method SelectorMatches(selector: Labels, labels: Labels) returns (matches: bool)
    ensures matches <==> Matches(selector, labels)
  {
    if |selector| == 0 {
      assert selector == map[];
      return false;
    }
    var left := selector.Keys;
    while left != {}
      invariant left <= selector.Keys
      invariant forall key | key in selector && key !in left :: Get(labels, key) == selector[key]
      decreases left
    {
      var key :| key in left;
      if Get(labels, key) != selector[key] {
        return false;
      }
      left := left - {key};
    }
    assert selector != map[];
    return true;
  }

  // ---- What each builder adds ----

  function PodId(name: string): string { "pod/" + name }

  function AttachedId(ref: AttachedRef): string { ref.kind + "/" + ref.name }

  ghost function AttachedIds(refs: seq<AttachedRef>): set<string> {
    set ref | ref in refs :: AttachedId(ref)
  }

  /** One line per resource, at its first mention. */
  ghost function AttachedEdges(refs: seq<AttachedRef>, from: string): seq<GraphEdge> {
    if refs == [] then []
    else
      var before, ref := refs[..|refs| - 1], refs[|refs| - 1];
      AttachedEdges(before, from)
      + if AttachedId(ref) in AttachedIds(before) then [] else [GraphEdge(from, AttachedId(ref), ref.via)]
  }

  /** One box per resource not drawn yet. */
  ghost function AttachedNodes(refs: seq<AttachedRef>, drawn: set<string>): seq<GraphNode> {
    if refs == [] then []
    else
      var before, ref := refs[..|refs| - 1], refs[|refs| - 1];
      AttachedNodes(before, drawn)
      + if AttachedId(ref) in AttachedIds(before) + drawn then []
        else [GraphNode(AttachedId(ref), TIER_ATTACHED, ref.name, true, "", ref.via)]
  }

  ghost function SelectedPods(service: ServiceRef, pods: seq<Pod>): seq<string> {
    if pods == [] then []
    else
      var last := pods[|pods| - 1];
      SelectedPods(service, pods[..|pods| - 1])
      + if Matches(service.selector, last.labels) then [PodId(last.name)] else []
  }

  function ServiceId(name: string): string { "service/" + name }

  function EdgesTo(from: string, tos: seq<string>, caption: string): seq<GraphEdge> {
    seq(|tos|, i requires 0 <= i < |tos| => GraphEdge(from, tos[i], caption))
  }

  /** Drawn because it selects something, or because it is kept regardless. */
  ghost predicate ServiceDrawn(service: ServiceRef, pods: seq<Pod>, keep: ServiceRef -> bool) {
    SelectedPods(service, pods) != [] || keep(service)
  }

  ghost function ServiceNodes(services: seq<ServiceRef>, pods: seq<Pod>, keep: ServiceRef -> bool): seq<GraphNode> {
    if services == [] then []
    else
      var s := services[|services| - 1];
      ServiceNodes(services[..|services| - 1], pods, keep)
      + ServiceNode(s, pods, keep)
  }

  ghost function ServiceNode(s: ServiceRef, pods: seq<Pod>, keep: ServiceRef -> bool): seq<GraphNode> {
    if ServiceDrawn(s, pods, keep)
    then [GraphNode(ServiceId(s.name), TIER_SERVICE, s.name, SelectedPods(s, pods) != [], "", "")] else []
  }

  ghost function ServiceEdges(services: seq<ServiceRef>, pods: seq<Pod>, keep: ServiceRef -> bool): seq<GraphEdge> {
    if services == [] then []
    else
      var s := services[|services| - 1];
      ServiceEdges(services[..|services| - 1], pods, keep)
      + EdgesTo(ServiceId(s.name), SelectedPods(s, pods), "selects")
  }

  ghost function Routed(services: seq<ServiceRef>, pods: seq<Pod>, keep: ServiceRef -> bool): set<string> {
    set s | s in services && ServiceDrawn(s, pods, keep) :: s.name
  }

  function Reached(backends: seq<string>, routed: set<string>): seq<string> {
    if backends == [] then []
    else
      var last := backends[|backends| - 1];
      Reached(backends[..|backends| - 1], routed) + if last in routed then [ServiceId(last)] else []
  }

  function IngressId(name: string): string { "ingress/" + name }

  function IngressNodes(ingresses: seq<IngressRef>, routed: set<string>): seq<GraphNode> {
    if ingresses == [] then []
    else
      var g := ingresses[|ingresses| - 1];
      IngressNodes(ingresses[..|ingresses| - 1], routed)
      + if Reached(g.backends, routed) == [] then [] else [GraphNode(IngressId(g.name), TIER_INGRESS, g.name, true, "", "")]
  }

  function IngressEdges(ingresses: seq<IngressRef>, routed: set<string>): seq<GraphEdge> {
    if ingresses == [] then []
    else
      var g := ingresses[|ingresses| - 1];
      IngressEdges(ingresses[..|ingresses| - 1], routed)
      + EdgesTo(IngressId(g.name), Reached(g.backends, routed), "routes to")
  }

  // ---- Lines and their ends ----

  /** One group of lines for each element, end to end. */
  ghost function Flatten<T>(order: seq<T>, lines: T -> seq<GraphEdge>): seq<GraphEdge> {
    if order == [] then [] else Flatten(order[..|order| - 1], lines) + lines(order[|order| - 1])
  }

  /** Both ends of every line are among the boxes. */
  ghost predicate Joined(edges: seq<GraphEdge>, ids: set<string>) {
    forall e | e in edges :: e.from in ids && e.dest in ids
  }

  lemma {:induction false} FlattenMember<T>(order: seq<T>, lines: T -> seq<GraphEdge>, e: GraphEdge)
    ensures e in Flatten(order, lines) <==> exists x :: x in order && e in lines(x)
  {
    if order != [] {
      FlattenMember(order[..|order| - 1], lines, e);
      assert order == order[..|order| - 1] + [order[|order| - 1]];
    }
  }

  lemma IdSetAppend(a: seq<GraphNode>, b: seq<GraphNode>)
    ensures IdSet(a + b) == IdSet(a) + IdSet(b)
  {
  }

  // ---- The graph object ----

  class PodGraph {
    var nodes: seq<GraphNode>
    var edges: seq<GraphEdge>

    constructor ()
      ensures nodes == [] && edges == []
    {
      nodes, edges := [], [];
    }

    method Add(node: GraphNode)
      modifies this`nodes
      ensures nodes == old(nodes) + [node]
    {
      nodes := nodes + [node];
    }

    method Connect(from: string, dest: string, caption: string)
      modifies this`edges
      ensures edges == old(edges) + [GraphEdge(from, dest, caption)]
    {
      edges := edges + [GraphEdge(from, dest, caption)];
    }

    method ConnectAll(from: string, tos: seq<string>, caption: string)
      modifies this`edges
      ensures edges == old(edges) + EdgesTo(from, tos, caption)
    {
      for i := 0 to |tos|
        invariant edges == old(edges) + EdgesTo(from, tos[..i], caption)
      {
        edges := edges + [GraphEdge(from, tos[i], caption)];
      }
      assert tos[..|tos|] == tos;
    }

    /** Hangs what `from` consumes off to one side, one box per resource however many
        consumers there are. */
    method AddAttached(attached: seq<AttachedRef>, from: string)
      modifies this
      ensures nodes == old(nodes) + AttachedNodes(attached, IdSet(old(nodes)))
      ensures edges == old(edges) + AttachedEdges(attached, from)
    {
      var boxes, lines := GatherAttached(attached, from, IdSet(nodes));
      nodes := nodes + boxes;
      edges := edges + lines;
    }

    static method GatherAttached(attached: seq<AttachedRef>, from: string, before: set<string>)
      returns (boxes: seq<GraphNode>, lines: seq<GraphEdge>)
      ensures boxes == AttachedNodes(attached, before) && lines == AttachedEdges(attached, from)
    {
      boxes, lines := [], [];
      var seen: set<string>, drawn := {}, before;
      for i := 0 to |attached|
        invariant seen == AttachedIds(attached[..i]) && drawn == before + seen
        invariant boxes == AttachedNodes(attached[..i], before) && lines == AttachedEdges(attached[..i], from)
      {
        AttachedUpTo(attached, i, before, from);
        var id := AttachedId(attached[i]);
        if id !in seen {
          seen := seen + {id};
          if id !in drawn {
            boxes := boxes + [GraphNode(id, TIER_ATTACHED, attached[i].name, true, "", attached[i].via)];
            drawn := drawn + {id};
          }
          lines := lines + [GraphEdge(from, id, attached[i].via)];
        }
      }
      assert attached[..|attached|] == attached;
    }

    method Select(service: ServiceRef, pods: seq<Pod>) returns (selected: seq<string>)
      ensures selected == SelectedPods(service, pods)
    {
      selected := [];
      for i := 0 to |pods|
        invariant selected == SelectedPods(service, pods[..i])
      {
        assert pods[..i + 1][..i] == pods[..i];
        var matches := SelectorMatches(service.selector, pods[i].labels);
        if matches {
          selected := selected + [PodId(pods[i].name)];
        }
      }
      assert pods[..|pods|] == pods;
    }

    /** One service: its lines, and its box when it selects something or is kept regardless. */
    method AddService(s: ServiceRef, pods: seq<Pod>, keep: ServiceRef -> bool) returns (drawn: bool)
      modifies this
      ensures drawn <==> ServiceDrawn(s, pods, keep)
      ensures nodes == old(nodes) + ServiceNode(s, pods, keep)
      ensures edges == old(edges) + EdgesTo(ServiceId(s.name), SelectedPods(s, pods), "selects")
    {
      var selected := Select(s, pods);
      if selected == [] && !keep(s) {
        assert EdgesTo(ServiceId(s.name), [], "selects") == [];
        return false;
      }
      Add(GraphNode(ServiceId(s.name), TIER_SERVICE, s.name, selected != [], "", ""));
      ConnectAll(ServiceId(s.name), selected, "selects");
      return true;
    }

    method AddServices(pods: seq<Pod>, services: seq<ServiceRef>, keep: ServiceRef -> bool) returns (routed: set<string>)
      modifies this
      ensures nodes == old(nodes) + ServiceNodes(services, pods, keep)
      ensures edges == old(edges) + ServiceEdges(services, pods, keep)
      ensures routed == Routed(services, pods, keep)
    {
      routed := {};
      for i := 0 to |services|
        invariant ServicesAdded(old(nodes), old(edges), nodes, edges, routed, services[..i], pods, keep)
      {
        ghost var drawnNodes, drawnEdges, before := nodes, edges, routed;
        var drawn := AddService(services[i], pods, keep);
        if drawn {
          routed := routed + {services[i].name};
        }
        OneMoreService(old(nodes), old(edges), drawnNodes, drawnEdges, before, services, i, pods, keep);
      }
      assert services[..|services|] == services;
    }

    method AddIngresses(ingresses: seq<IngressRef>, routed: set<string>)
      modifies this
      ensures nodes == old(nodes) + IngressNodes(ingresses, routed)
      ensures edges == old(edges) + IngressEdges(ingresses, routed)
    {
      for i := 0 to |ingresses|
        invariant nodes == old(nodes) + IngressNodes(ingresses[..i], routed)
        invariant edges == old(edges) + IngressEdges(ingresses[..i], routed)
      {
        var g := ingresses[i];
        assert ingresses[..i + 1][..i] == ingresses[..i];
        var reaches: seq<string> := [];
        for k := 0 to |g.backends|
          invariant reaches == Reached(g.backends[..k], routed)
        {
          assert g.backends[..k + 1][..k] == g.backends[..k];
          if g.backends[k] in routed {
            reaches := reaches + [ServiceId(g.backends[k])];
          }
        }
        assert g.backends[..|g.backends|] == g.backends;
        if reaches != [] {
          Add(GraphNode(IngressId(g.name), TIER_INGRESS, g.name, true, "", ""));
        }
        ConnectAll(IngressId(g.name), reaches, "routes to");
      }
      assert ingresses[..|ingresses|] == ingresses;
    }

    method Sort()
      modifies this
      ensures nodes == StableSort(old(nodes), NodeLess)
      ensures edges == StableSort(old(edges), EdgeLess)
    {
      nodes := StableSort(nodes, NodeLess);
      edges := StableSort(edges, EdgeLess);
    }
  }

  lemma AttachedAppend(refs: seq<AttachedRef>, ref: AttachedRef, drawn: set<string>, from: string)
    ensures AttachedIds(refs + [ref]) == AttachedIds(refs) + {AttachedId(ref)}
    ensures AttachedNodes(refs + [ref], drawn) == AttachedNodes(refs, drawn)
      + if AttachedId(ref) in AttachedIds(refs) + drawn then []
        else [GraphNode(AttachedId(ref), TIER_ATTACHED, ref.name, true, "", ref.via)]
    ensures AttachedEdges(refs + [ref], from) == AttachedEdges(refs, from)
      + if AttachedId(ref) in AttachedIds(refs) then [] else [GraphEdge(from, AttachedId(ref), ref.via)]
  {
    assert (refs + [ref])[..|refs|] == refs;
  }

  lemma AttachedUpTo(refs: seq<AttachedRef>, i: nat, drawn: set<string>, from: string)
    requires i < |refs|
    ensures var done, ref := refs[..i], refs[i];
      && AttachedIds(refs[..i + 1]) == AttachedIds(done) + {AttachedId(ref)}
      && AttachedNodes(refs[..i + 1], drawn) == AttachedNodes(done, drawn)
         + (if AttachedId(ref) in AttachedIds(done) + drawn then []
            else [GraphNode(AttachedId(ref), TIER_ATTACHED, ref.name, true, "", ref.via)])
      && AttachedEdges(refs[..i + 1], from) == AttachedEdges(done, from)
         + (if AttachedId(ref) in AttachedIds(done) then [] else [GraphEdge(from, AttachedId(ref), ref.via)])
  {
    assert refs[..i + 1] == refs[..i] + [refs[i]];
    AttachedAppend(refs[..i], refs[i], drawn, from);
  }

  lemma ServicesUpTo(services: seq<ServiceRef>, i: nat, pods: seq<Pod>, keep: ServiceRef -> bool)
    requires i < |services|
    ensures var done, s := services[..i], services[i];
      && ServiceNodes(services[..i + 1], pods, keep) == ServiceNodes(done, pods, keep) + ServiceNode(s, pods, keep)
      && ServiceEdges(services[..i + 1], pods, keep)
         == ServiceEdges(done, pods, keep) + EdgesTo(ServiceId(s.name), SelectedPods(s, pods), "selects")
      && Routed(services[..i + 1], pods, keep)
         == Routed(done, pods, keep) + (if ServiceDrawn(s, pods, keep) then {s.name} else {})
  {
    assert services[..i + 1] == services[..i] + [services[i]];
    assert services[..i + 1][..i] == services[..i];
  }

  ghost predicate ServicesAdded(nodes0: seq<GraphNode>, edges0: seq<GraphEdge>, nodes: seq<GraphNode>,
      edges: seq<GraphEdge>, routed: set<string>, services: seq<ServiceRef>, pods: seq<Pod>, keep: ServiceRef -> bool)
  {
    && nodes == nodes0 + ServiceNodes(services, pods, keep)
    && edges == edges0 + ServiceEdges(services, pods, keep)
    && routed == Routed(services, pods, keep)
  }

  lemma OneMoreService(nodes0: seq<GraphNode>, edges0: seq<GraphEdge>, nodes: seq<GraphNode>,
      edges: seq<GraphEdge>, routed: set<string>, services: seq<ServiceRef>, i: nat, pods: seq<Pod>,
      keep: ServiceRef -> bool)
    requires i < |services| && ServicesAdded(nodes0, edges0, nodes, edges, routed, services[..i], pods, keep)
    ensures var s := services[i];
      ServicesAdded(nodes0, edges0, nodes + ServiceNode(s, pods, keep),
                    edges + EdgesTo(ServiceId(s.name), SelectedPods(s, pods), "selects"),
                    routed + (if ServiceDrawn(s, pods, keep) then {s.name} else {}), services[..i + 1], pods, keep)
  {
    ServicesUpTo(services, i, pods, keep);
    RegroupNodes(nodes0, ServiceNodes(services[..i], pods, keep), ServiceNode(services[i], pods, keep));
    RegroupEdges(edges0, ServiceEdges(services[..i], pods, keep),
                 EdgesTo(ServiceId(services[i].name), SelectedPods(services[i], pods), "selects"));
  }

  lemma RegroupNodes(a: seq<GraphNode>, b: seq<GraphNode>, c: seq<GraphNode>)
    ensures (a + b) + c == a + (b + c)
  {
  }

  lemma RegroupEdges(a: seq<GraphEdge>, b: seq<GraphEdge>, c: seq<GraphEdge>)
    ensures (a + b) + c == a + (b + c)
  {
  }

  // ---- What the additions promise ----

  lemma {:induction false} SelectedPodsMeans(service: ServiceRef, pods: seq<Pod>, id: string)
    ensures id in SelectedPods(service, pods) <==>
      exists pod :: pod in pods && PodId(pod.name) == id && Matches(service.selector, pod.labels)
  {
    if pods != [] {
      SelectedPodsMeans(service, pods[..|pods| - 1], id);
      assert pods == pods[..|pods| - 1] + [pods[|pods| - 1]];
    }
  }

  /** A line from a service to a pod is drawn exactly when a service of that name selects
      a pod of that name. */
  lemma {:induction false} ServiceEdgeExactlyWhenSelected(services: seq<ServiceRef>, pods: seq<Pod>,
      keep: ServiceRef -> bool, e: GraphEdge)
    ensures e in ServiceEdges(services, pods, keep) <==>
      (e.caption == "selects" && exists s, pod ::
         s in services && pod in pods && e.from == ServiceId(s.name) && e.dest == PodId(pod.name)
         && Matches(s.selector, pod.labels))
  {
    if services != [] {
      var before, s := services[..|services| - 1], services[|services| - 1];
      assert services == before + [s];
      ServiceEdgeExactlyWhenSelected(before, pods, keep, e);
      SelectedPodsMeans(s, pods, e.dest);
      var added := EdgesTo(ServiceId(s.name), SelectedPods(s, pods), "selects");
      assert e in added <==> e.from == ServiceId(s.name) && e.caption == "selects" && e.dest in SelectedPods(s, pods) by {
        if e.from == ServiceId(s.name) && e.caption == "selects" && e.dest in SelectedPods(s, pods) {
          var i :| 0 <= i < |SelectedPods(s, pods)| && SelectedPods(s, pods)[i] == e.dest;
          assert added[i] == e;
        }
      }
    }
  }

  /** A service of that name is offered and selects a pod of that name that is drawn. */
  ghost predicate Selects(services: seq<ServiceRef>, pods: seq<Pod>, service: string, pod: string) {
    exists s, p :: s in services && p in pods && s.name == service && p.name == pod && Matches(s.selector, p.labels)
  }

  function ServiceLine(service: string, pod: string): GraphEdge {
    GraphEdge(ServiceId(service), PodId(pod), "selects")
  }

  lemma IdsIdentify(a: string, b: string)
    ensures ServiceId(a) == ServiceId(b) <==> a == b
    ensures PodId(a) == PodId(b) <==> a == b
    ensures ServiceId(a) != PodId(b)
  {
    assert ServiceId(a)[8..] == a && ServiceId(b)[8..] == b;
    assert PodId(a)[4..] == a && PodId(b)[4..] == b;
    assert ServiceId(a)[0] == 's' && PodId(b)[0] == 'p';
  }

  lemma ServiceLineDrawn(services: seq<ServiceRef>, pods: seq<Pod>, keep: ServiceRef -> bool, service: string, pod: string)
    ensures ServiceLine(service, pod) in ServiceEdges(services, pods, keep) <==> Selects(services, pods, service, pod)
  {
    ServiceEdgeExactlyWhenSelected(services, pods, keep, ServiceLine(service, pod));
    forall s, p | s in services && p in pods
      ensures ServiceLine(service, pod).from == ServiceId(s.name) <==> s.name == service
      ensures ServiceLine(service, pod).dest == PodId(p.name) <==> p.name == pod
    {
      IdsIdentify(service, s.name);
      IdsIdentify(pod, p.name);
    }
  }

  /** What is attached is of one of the attached kinds, and no pod. */
  ghost predicate AttachedKinds(refs: seq<AttachedRef>) {
    forall ref | ref in refs :: '/' !in ref.kind && ref.kind != "pod"
  }

  lemma AttachedIsNoServiceLine(refs: seq<AttachedRef>, from: string, service: string, pod: string)
    requires AttachedKinds(refs)
    ensures ServiceLine(service, pod) !in AttachedEdges(refs, from)
  {
    OneLinePerResource(refs, from);
    if PodId(pod) in AttachedIds(refs) {
      var ref :| ref in refs && AttachedId(ref) == PodId(pod);
      assert AttachedId(ref) == ref.kind + ['/'] + ref.name && PodId(pod) == "pod" + ['/'] + pod;
      Text.SeparatorSplits(ref.kind, '/', ref.name, "pod", pod);
    }
  }

  lemma IngressIsNoServiceLine(ingresses: seq<IngressRef>, routed: set<string>, service: string, pod: string)
    ensures ServiceLine(service, pod) !in IngressEdges(ingresses, routed)
  {
    IngressNodesCover(ingresses, routed);
    forall name ensures ServiceId(name) != PodId(pod) {
      IdsIdentify(name, pod);
    }
  }

  lemma ServiceCovers(s: ServiceRef, pods: seq<Pod>, keep: ServiceRef -> bool)
    ensures ServiceDrawn(s, pods, keep) ==> ServiceId(s.name) in IdSet(ServiceNode(s, pods, keep))
    ensures forall e | e in EdgesTo(ServiceId(s.name), SelectedPods(s, pods), "selects") ::
      && ServiceDrawn(s, pods, keep) && e.from == ServiceId(s.name)
      && exists pod :: pod in pods && e.dest == PodId(pod.name)
  {
    forall e | e in EdgesTo(ServiceId(s.name), SelectedPods(s, pods), "selects")
      ensures e.dest in SelectedPods(s, pods) && exists pod :: pod in pods && e.dest == PodId(pod.name)
    {
      SelectedPodsMeans(s, pods, e.dest);
    }
  }

  /** Every service that selects something is a box, and so is every backend a line reaches. */
  lemma {:induction false} ServiceNodesCover(services: seq<ServiceRef>, pods: seq<Pod>, keep: ServiceRef -> bool)
    ensures forall name | name in Routed(services, pods, keep) ::
      ServiceId(name) in IdSet(ServiceNodes(services, pods, keep))
    ensures forall e | e in ServiceEdges(services, pods, keep) ::
      e.from in IdSet(ServiceNodes(services, pods, keep)) && exists pod :: pod in pods && e.dest == PodId(pod.name)
  {
    if services != [] {
      var before, s := services[..|services| - 1], services[|services| - 1];
      assert services == before + [s];
      ServiceNodesCover(before, pods, keep);
      ServicesUpTo(services, |services| - 1, pods, keep);
      assert services[..|services| - 1 + 1] == services;
      ServiceCovers(s, pods, keep);
    }
  }

  lemma {:induction false} ReachedAreRouted(backends: seq<string>, routed: set<string>)
    ensures forall id | id in Reached(backends, routed) :: exists name :: name in routed && id == ServiceId(name)
  {
    if backends != [] {
      ReachedAreRouted(backends[..|backends| - 1], routed);
    }
  }

  lemma {:induction false} IngressNodesCover(ingresses: seq<IngressRef>, routed: set<string>)
    ensures forall e | e in IngressEdges(ingresses, routed) ::
      e.from in IdSet(IngressNodes(ingresses, routed)) && exists name :: name in routed && e.dest == ServiceId(name)
  {
    if ingresses != [] {
      var g := ingresses[|ingresses| - 1];
      IngressNodesCover(ingresses[..|ingresses| - 1], routed);
      ReachedAreRouted(g.backends, routed);
      var added := EdgesTo(IngressId(g.name), Reached(g.backends, routed), "routes to");
      assert forall e | e in added :: e.from == IngressId(g.name) && e.dest in Reached(g.backends, routed);
    }
  }

  /** A shared resource is one box: whatever was drawn before, the ids added are new, and
      each comes once. */
  lemma {:induction false} OneBoxPerResource(refs: seq<AttachedRef>, drawn: set<string>)
    ensures IdSet(AttachedNodes(refs, drawn)) == AttachedIds(refs) - drawn
    ensures Distinct(Keys(AttachedNodes(refs, drawn)))
    ensures forall n | n in AttachedNodes(refs, drawn) :: n.tier == TIER_ATTACHED
  {
    if refs != [] {
      var before, ref := refs[..|refs| - 1], refs[|refs| - 1];
      assert refs == before + [ref];
      AttachedAppend(before, ref, drawn, "");
      OneBoxPerResource(before, drawn);
      var id := AttachedId(ref);
      if id !in AttachedIds(before) + drawn {
        NewBox(AttachedNodes(before, drawn), GraphNode(id, TIER_ATTACHED, ref.name, true, "", ref.via));
        assert AttachedIds(refs) - drawn == (AttachedIds(before) - drawn) + {id};
      } else {
        assert AttachedNodes(refs, drawn) == AttachedNodes(before, drawn);
        assert AttachedIds(refs) - drawn == AttachedIds(before) - drawn;
      }
    }
  }

  lemma AttachedIdsConcat(a: seq<AttachedRef>, b: seq<AttachedRef>)
    ensures AttachedIds(a + b) == AttachedIds(a) + AttachedIds(b)
  {
  }

  lemma {:induction false} AttachedConcat(a: seq<AttachedRef>, b: seq<AttachedRef>, drawn: set<string>)
    ensures AttachedNodes(a + b, drawn) == AttachedNodes(a, drawn) + AttachedNodes(b, drawn + AttachedIds(a))
  {
    if b == [] {
      assert a + b == a;
    } else {
      var before, ref := b[..|b| - 1], b[|b| - 1];
      assert b == before + [ref] && a + b == (a + before) + [ref];
      AttachedConcat(a, before, drawn);
      AttachedAppend(a + before, ref, drawn, "");
      AttachedAppend(before, ref, drawn + AttachedIds(a), "");
      AttachedIdsConcat(a, before);
      assert AttachedIds(a + before) + drawn == AttachedIds(before) + (drawn + AttachedIds(a));
      var last := if AttachedId(ref) in AttachedIds(a + before) + drawn then []
                  else [GraphNode(AttachedId(ref), TIER_ATTACHED, ref.name, true, "", ref.via)];
      RegroupNodes(AttachedNodes(a, drawn), AttachedNodes(before, drawn + AttachedIds(a)), last);
    }
  }

  /** How the first mention of a resource reads it. */
  function FirstVia(refs: seq<AttachedRef>, id: string): string {
    if refs == [] then "" else if AttachedId(refs[0]) == id then refs[0].via else FirstVia(refs[1..], id)
  }

  lemma {:induction false} FirstViaConcat(a: seq<AttachedRef>, b: seq<AttachedRef>, id: string)
    ensures FirstVia(a + b, id) == if id in AttachedIds(a) then FirstVia(a, id) else FirstVia(b, id)
  {
    if a == [] {
      assert a + b == b;
    } else {
      FirstViaConcat(a[1..], b, id);
      assert (a + b)[1..] == a[1..] + b && a == [a[0]] + a[1..];
    }
  }

  /** A box attached says how the first mention of its resource reads it. */
  lemma {:induction false} AttachedVia(refs: seq<AttachedRef>, drawn: set<string>, n: GraphNode)
    requires n in AttachedNodes(refs, drawn)
    ensures n.id in AttachedIds(refs) && n.via == FirstVia(refs, n.id)
  {
    var before, ref := refs[..|refs| - 1], refs[|refs| - 1];
    assert refs == before + [ref];
    AttachedAppend(before, ref, drawn, "");
    FirstViaConcat(before, [ref], n.id);
    if n in AttachedNodes(before, drawn) { AttachedVia(before, drawn, n); }
  }

  lemma NewBox(nodes: seq<GraphNode>, n: GraphNode)
    requires Distinct(Keys(nodes)) && n.id !in IdSet(nodes)
    ensures Distinct(Keys(nodes + [n])) && IdSet(nodes + [n]) == IdSet(nodes) + {n.id}
  {
    assert forall i | 0 <= i < |nodes| :: nodes[i] in nodes;
  }

  /** One line per resource mentioned, and no other. */
  lemma {:induction false} OneLinePerResource(refs: seq<AttachedRef>, from: string)
    ensures forall e | e in AttachedEdges(refs, from) :: e.from == from && e.dest in AttachedIds(refs)
    ensures forall id | id in AttachedIds(refs) :: exists e :: e in AttachedEdges(refs, from) && e.dest == id
    ensures forall i, j | 0 <= i < j < |AttachedEdges(refs, from)| ::
      AttachedEdges(refs, from)[i].dest != AttachedEdges(refs, from)[j].dest
  {
    if refs != [] {
      var before, ref := refs[..|refs| - 1], refs[|refs| - 1];
      assert refs == before + [ref];
      AttachedAppend(before, ref, {}, from);
      OneLinePerResource(before, from);
      var edges, all := AttachedEdges(before, from), AttachedEdges(refs, from);
      assert forall i | 0 <= i < |edges| :: edges[i] in edges;
      forall id | id in AttachedIds(refs) ensures exists e :: e in all && e.dest == id {
        if id in AttachedIds(before) {
          var e :| e in edges && e.dest == id;
          assert e in all;
        } else {
          assert GraphEdge(from, id, ref.via) in all;
        }
      }
    }
  }
}
