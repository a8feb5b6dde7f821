/** The maps around one pod and around one workload (app/domain/graph.go). */
module ObjectGraphs {
  import opened Options
  import opened Ordering
  import opened Sequences
  import opened ApplicationMembers
  import opened DependencyGraph

  const TIER_CONTAINER := 4

  datatype Container = Container(name: string, ready: bool)

  /** A pod with its containers. */
  datatype Subject = Subject(pod: Pod, containers: seq<Container>)
  {
    function Id(): string { PodId(pod.name) }
  }

  // ---- Owners and containers ----

  function OwnerId(o: OwnerReference): string { ObjectId(o.kind, o.name) }

  function OwnerNode(): OwnerReference -> GraphNode {
    (o: OwnerReference) => GraphNode(OwnerId(o), TIER_OWNER, o.name, true, "", "")
  }

  /** What the i-th owner up the chain manages. */
  function Below(owners: seq<OwnerReference>, start: string, i: nat): string
    requires i <= |owners|
  {
    if i == 0 then start else OwnerId(owners[i - 1])
  }

  function OwnerEdges(owners: seq<OwnerReference>, start: string): seq<GraphEdge> {
    seq(|owners|, i requires 0 <= i < |owners| => GraphEdge(OwnerId(owners[i]), Below(owners, start, i), "manages"))
  }

  function ContainerNode(prefix: string, group: string): Container -> GraphNode {
    (c: Container) => GraphNode(prefix + c.name, TIER_CONTAINER, c.name, c.ready, group, "")
  }

  function ContainerEdge(prefix: string, group: string): Container -> GraphEdge {
    (c: Container) => GraphEdge(group, prefix + c.name, "")
  }

  method AddOwners(g: PodGraph, owners: seq<OwnerReference>, start: string)
    modifies g
    ensures g.nodes == old(g.nodes) + Map(owners, OwnerNode()) && g.edges == old(g.edges) + OwnerEdges(owners, start)
  {
    var below := start;
    for i := 0 to |owners|
      invariant below == Below(owners, start, i)
      invariant g.nodes == old(g.nodes) + Map(owners[..i], OwnerNode())
      invariant g.edges == old(g.edges) + OwnerEdges(owners[..i], start)
    {
      var id := OwnerId(owners[i]);
      g.Add(GraphNode(id, TIER_OWNER, owners[i].name, true, "", ""));
      g.Connect(id, below, "manages");
      below := id;
    }
    assert owners[..|owners|] == owners;
  }

  method AddContainers(g: PodGraph, containers: seq<Container>, prefix: string, group: string)
    modifies g
    ensures g.nodes == old(g.nodes) + Map(containers, ContainerNode(prefix, group))
    ensures g.edges == old(g.edges) + Map(containers, ContainerEdge(prefix, group))
  {
    for i := 0 to |containers|
      invariant g.nodes == old(g.nodes) + Map(containers[..i], ContainerNode(prefix, group))
      invariant g.edges == old(g.edges) + Map(containers[..i], ContainerEdge(prefix, group))
    {
      var c := containers[i];
      g.Add(GraphNode(prefix + c.name, TIER_CONTAINER, c.name, c.ready, group, ""));
      g.Connect(group, prefix + c.name, "");
    }
    assert containers[..|containers|] == containers;
  }

  // ---- A pod's map ----

  datatype PodInput = PodInput(subject: Subject, host: string, owners: seq<OwnerReference>, services: seq<ServiceRef>,
                               ingresses: seq<IngressRef>, attached: seq<AttachedRef>)

  /** No service is drawn unless it selects something. */
  function OnlySelecting(): ServiceRef -> bool { (s: ServiceRef) => false }

  ghost function Network(services: seq<ServiceRef>, ingresses: seq<IngressRef>, pods: seq<Pod>): seq<GraphNode> {
    ServiceNodes(services, pods, OnlySelecting()) + IngressNodes(ingresses, Routed(services, pods, OnlySelecting()))
  }

  ghost function NetworkEdges(services: seq<ServiceRef>, ingresses: seq<IngressRef>, pods: seq<Pod>): seq<GraphEdge> {
    ServiceEdges(services, pods, OnlySelecting()) + IngressEdges(ingresses, Routed(services, pods, OnlySelecting()))
  }

  function HostNodes(host: string): seq<GraphNode> {
    if host == "" then [] else [GraphNode("node/" + host, TIER_ATTACHED, host, true, "", "")]
  }

  function HostEdges(from: string, host: string): seq<GraphEdge> {
    if host == "" then [] else [GraphEdge(from, "node/" + host, "runs on")]
  }

  ghost function PodBase(input: PodInput): seq<GraphNode> {
    var id := input.subject.Id();
    [GraphNode(id, TIER_POD, input.subject.pod.name, input.subject.pod.healthy, "", "")]
    + Map(input.owners, OwnerNode())
    + Network(input.services, input.ingresses, [input.subject.pod])
    + Map(input.subject.containers, ContainerNode("container/", id))
  }

  ghost function PodMapNodes(input: PodInput): seq<GraphNode> {
    PodBase(input) + AttachedNodes(input.attached, IdSet(PodBase(input))) + HostNodes(input.host)
  }

  ghost function PodBaseEdges(input: PodInput): seq<GraphEdge> {
    var id := input.subject.Id();
    OwnerEdges(input.owners, id)
    + NetworkEdges(input.services, input.ingresses, [input.subject.pod])
    + Map(input.subject.containers, ContainerEdge("container/", id))
  }

  ghost function PodMapEdges(input: PodInput): seq<GraphEdge> {
    PodBaseEdges(input) + AttachedEdges(input.attached, input.subject.Id()) + HostEdges(input.subject.Id(), input.host)
  }

  method AddNetwork(g: PodGraph, services: seq<ServiceRef>, ingresses: seq<IngressRef>, pods: seq<Pod>)
    modifies g
    ensures g.nodes == old(g.nodes) + Network(services, ingresses, pods)
    ensures g.edges == old(g.edges) + NetworkEdges(services, ingresses, pods)
  {
    var routed := g.AddServices(pods, services, OnlySelecting());
    g.AddIngresses(ingresses, routed);
  }

  method DrawPodBase(g: PodGraph, input: PodInput)
    requires g.nodes == [] && g.edges == []
    modifies g
    ensures g.nodes == PodBase(input) && g.edges == PodBaseEdges(input)
  {
    var pod, id := input.subject.pod, input.subject.Id();
    g.Add(GraphNode(id, TIER_POD, pod.name, pod.healthy, "", ""));
    AddOwners(g, input.owners, id);
    AddNetwork(g, input.services, input.ingresses, [pod]);
    AddContainers(g, input.subject.containers, "container/", id);
  }

  method AddHost(g: PodGraph, from: string, host: string)
    modifies g
    ensures g.nodes == old(g.nodes) + HostNodes(host) && g.edges == old(g.edges) + HostEdges(from, host)
  {
    if host != "" {
      g.Add(GraphNode("node/" + host, TIER_ATTACHED, host, true, "", ""));
      g.Connect(from, "node/" + host, "runs on");
    }
  }

  method NewPodGraph(input: PodInput) returns (g: PodGraph)
    ensures fresh(g)
    ensures g.nodes == StableSort(PodMapNodes(input), NodeLess) && g.edges == StableSort(PodMapEdges(input), EdgeLess)
    ensures Joined(g.edges, IdSet(g.nodes))
  {
    g := new PodGraph();
    DrawPodBase(g, input);
    g.AddAttached(input.attached, input.subject.Id());
    AddHost(g, input.subject.Id(), input.host);
    PodMapJoined(input);
    SortedJoined(PodMapNodes(input), PodMapEdges(input));
    g.Sort();
  }

  lemma SortedJoined(nodes: seq<GraphNode>, edges: seq<GraphEdge>)
    requires Joined(edges, IdSet(nodes))
    ensures Joined(StableSort(edges, EdgeLess), IdSet(StableSort(nodes, NodeLess)))
  {
    SameMembers(nodes, StableSort(nodes, NodeLess));
    SameMembers(edges, StableSort(edges, EdgeLess));
  }

  // ---- Lines that join ----

  lemma ContainersJoined(containers: seq<Container>, prefix: string, group: string, ids: set<string>)
    requires group in ids && IdSet(Map(containers, ContainerNode(prefix, group))) <= ids
    ensures Joined(Map(containers, ContainerEdge(prefix, group)), ids)
  {
    var nodes := Map(containers, ContainerNode(prefix, group));
    forall i | 0 <= i < |containers| ensures prefix + containers[i].name in ids {
      assert nodes[i] in nodes;
    }
  }

  lemma NetworkJoined(services: seq<ServiceRef>, ingresses: seq<IngressRef>, pods: seq<Pod>, ids: set<string>)
    requires IdSet(Network(services, ingresses, pods)) <= ids && forall pod | pod in pods :: PodId(pod.name) in ids
    ensures Joined(NetworkEdges(services, ingresses, pods), ids)
  {
    IdSetAppend(ServiceNodes(services, pods, OnlySelecting()), IngressNodes(ingresses, Routed(services, pods, OnlySelecting())));
    ServiceNodesCover(services, pods, OnlySelecting());
    IngressNodesCover(ingresses, Routed(services, pods, OnlySelecting()));
  }

  lemma AttachedJoined(refs: seq<AttachedRef>, from: string, ids: set<string>)
    requires from in ids && AttachedIds(refs) <= ids
    ensures Joined(AttachedEdges(refs, from), ids)
  {
    OneLinePerResource(refs, from);
  }

  /** Boxes drawn before, together with those an attachment adds, hold all it attaches. */
  lemma AttachedHeld(base: seq<GraphNode>, refs: seq<AttachedRef>)
    ensures IdSet(base + AttachedNodes(refs, IdSet(base))) == IdSet(base) + AttachedIds(refs)
  {
    OneBoxPerResource(refs, IdSet(base));
    IdSetAppend(base, AttachedNodes(refs, IdSet(base)));
  }

  lemma PodBaseHolds(input: PodInput)
    ensures var ids := IdSet(PodBase(input));
      && input.subject.Id() in ids && IdSet(Map(input.owners, OwnerNode())) <= ids
      && IdSet(Network(input.services, input.ingresses, [input.subject.pod])) <= ids
      && IdSet(Map(input.subject.containers, ContainerNode("container/", input.subject.Id()))) <= ids
  {
    var id := input.subject.Id();
    var a := [GraphNode(id, TIER_POD, input.subject.pod.name, input.subject.pod.healthy, "", "")];
    var b, c := Map(input.owners, OwnerNode()), Network(input.services, input.ingresses, [input.subject.pod]);
    IdSetAppend(a, b);
    IdSetAppend(a + b, c);
    IdSetAppend(a + b + c, Map(input.subject.containers, ContainerNode("container/", id)));
    assert a[0] in a;
  }

  /** Both ends of every line of a pod's map are boxes of it. */
  lemma PodMapJoined(input: PodInput)
    ensures Joined(PodMapEdges(input), IdSet(PodMapNodes(input)))
  {
    var ids, id := IdSet(PodMapNodes(input)), input.subject.Id();
    PodBaseHolds(input);
    AttachedHeld(PodBase(input), input.attached);
    IdSetAppend(PodBase(input) + AttachedNodes(input.attached, IdSet(PodBase(input))), HostNodes(input.host));
    NetworkJoined(input.services, input.ingresses, [input.subject.pod], ids);
    ContainersJoined(input.subject.containers, "container/", id, ids);
    AttachedJoined(input.attached, id, ids);
    HostJoined(id, input.host, ids);
  }

  lemma HostJoined(from: string, host: string, ids: set<string>)
    requires from in ids && IdSet(HostNodes(host)) <= ids
    ensures Joined(HostEdges(from, host), ids)
  {
    if host != "" { assert HostNodes(host)[0] in HostNodes(host); }
  }

  // ---- A workload's map ----

  /** A controller between a workload and its pods, with the names of the pods it owns. */
  datatype Intermediate = Intermediate(kind: string, name: string, pods: seq<string>)
  {
    function Id(): string { ObjectId(kind, name) }
  }

  datatype WorkloadInput = WorkloadInput(kind: string, name: string, healthy: bool, subjects: seq<Subject>,
                                         intermediates: seq<Intermediate>, services: seq<ServiceRef>,
                                         ingresses: seq<IngressRef>, owners: seq<OwnerReference>,
                                         attached: seq<AttachedRef>)
  {
    function Id(): string { ObjectId(kind, name) }
  }

  function MiddleNode(): Intermediate -> GraphNode {
    (m: Intermediate) => GraphNode(m.Id(), TIER_OWNER, m.name, true, "", "")
  }

  function MiddleEdge(subject: string): Intermediate -> GraphEdge {
    (m: Intermediate) => GraphEdge(subject, m.Id(), "creates")
  }

  /** What created a pod: the last intermediate to list it, or the workload itself. */
  function CreatedBy(intermediates: seq<Intermediate>, subject: string, pod: string): string {
    if intermediates == [] then subject
    else
      var last := intermediates[|intermediates| - 1];
      if pod in last.pods then last.Id() else CreatedBy(intermediates[..|intermediates| - 1], subject, pod)
  }

  function PodPrefix(s: Subject): string { "container/" + s.pod.name + "/" }

  /** A pod's own box and its containers'. */
  function SubjectNodes(from: string, s: Subject): seq<GraphNode> {
    [GraphNode(s.Id(), TIER_POD, s.pod.name, s.pod.healthy, from, "")]
    + Map(s.containers, ContainerNode(PodPrefix(s), s.Id()))
  }

  function SubjectEdges(from: string, s: Subject): seq<GraphEdge> {
    [GraphEdge(from, s.Id(), "manages")] + Map(s.containers, ContainerEdge(PodPrefix(s), s.Id()))
  }

  function AllSubjectNodes(input: WorkloadInput, subjects: seq<Subject>): seq<GraphNode> {
    if subjects == [] then []
    else
      var last := subjects[|subjects| - 1];
      AllSubjectNodes(input, subjects[..|subjects| - 1])
      + SubjectNodes(CreatedBy(input.intermediates, input.Id(), last.pod.name), last)
  }

  function AllSubjectEdges(input: WorkloadInput, subjects: seq<Subject>): seq<GraphEdge> {
    if subjects == [] then []
    else
      var last := subjects[|subjects| - 1];
      AllSubjectEdges(input, subjects[..|subjects| - 1])
      + SubjectEdges(CreatedBy(input.intermediates, input.Id(), last.pod.name), last)
  }

  function PodOf(): Subject -> Pod { (s: Subject) => s.pod }

  function PodsIn(input: WorkloadInput): seq<Pod> { Map(input.subjects, PodOf()) }

  /** The workload, what controls it, and the controllers beneath it. */
  ghost function WorkloadTop(input: WorkloadInput): seq<GraphNode> {
    [GraphNode(input.Id(), TIER_OWNER, input.name, input.healthy, "", "")]
    + Map(input.owners, OwnerNode()) + Map(input.intermediates, MiddleNode())
  }

  ghost function WorkloadBase(input: WorkloadInput): seq<GraphNode> {
    WorkloadTop(input) + AllSubjectNodes(input, input.subjects) + Network(input.services, input.ingresses, PodsIn(input))
  }

  ghost function WorkloadTopEdges(input: WorkloadInput): seq<GraphEdge> {
    OwnerEdges(input.owners, input.Id()) + Map(input.intermediates, MiddleEdge(input.Id()))
  }

  ghost function WorkloadBaseEdges(input: WorkloadInput): seq<GraphEdge> {
    WorkloadTopEdges(input) + AllSubjectEdges(input, input.subjects)
    + NetworkEdges(input.services, input.ingresses, PodsIn(input))
  }

  /** Who reads what is attached: every pod, or the workload when it has none. */
  function Consumers(input: WorkloadInput): seq<string> {
    if input.subjects == [] then [input.Id()] else Map(input.subjects, SubjectId())
  }

  function SubjectId(): Subject -> string { (s: Subject) => s.Id() }

  ghost function ReadBy(refs: seq<AttachedRef>): string -> seq<GraphEdge> {
    from => AttachedEdges(refs, from)
  }

  /** However many pods read a resource it is one box; each of them has a line to it. */
  ghost function WorkloadMapNodes(input: WorkloadInput): seq<GraphNode> {
    WorkloadBase(input) + AttachedNodes(input.attached, IdSet(WorkloadBase(input)))
  }

  ghost function WorkloadMapEdges(input: WorkloadInput): seq<GraphEdge> {
    WorkloadBaseEdges(input) + Flatten(Consumers(input), ReadBy(input.attached))
  }

  method FindCreators(intermediates: seq<Intermediate>) returns (parentOf: map<string, string>)
    ensures forall subject, pod :: (if pod in parentOf then parentOf[pod] else subject) == CreatedBy(intermediates, subject, pod)
  {
    parentOf := map[];
    for i := 0 to |intermediates|
      invariant forall subject, pod ::
        (if pod in parentOf then parentOf[pod] else subject) == CreatedBy(intermediates[..i], subject, pod)
    {
      assert intermediates[..i + 1][..i] == intermediates[..i];
      parentOf := FileAll(parentOf, intermediates[i].pods, intermediates[i].Id());
    }
    assert intermediates[..|intermediates|] == intermediates;
  }

  method FileAll(before: map<string, string>, pods: seq<string>, id: string) returns (after: map<string, string>)
    ensures forall pod :: pod in after <==> pod in before || pod in pods
    ensures forall pod | pod in after :: after[pod] == if pod in pods then id else before[pod]
  {
    after := before;
    for k := 0 to |pods|
      invariant forall pod :: pod in after <==> pod in before || pod in pods[..k]
      invariant forall pod | pod in after :: after[pod] == if pod in pods[..k] then id else before[pod]
    {
      assert pods[..k + 1] == pods[..k] + [pods[k]];
      after := after[pods[k] := id];
    }
    assert pods[..|pods|] == pods;
  }

  method AddIntermediates(g: PodGraph, intermediates: seq<Intermediate>, subject: string)
    modifies g
    ensures g.nodes == old(g.nodes) + Map(intermediates, MiddleNode())
    ensures g.edges == old(g.edges) + Map(intermediates, MiddleEdge(subject))
  {
    for i := 0 to |intermediates|
      invariant g.nodes == old(g.nodes) + Map(intermediates[..i], MiddleNode())
      invariant g.edges == old(g.edges) + Map(intermediates[..i], MiddleEdge(subject))
    {
      g.Add(GraphNode(intermediates[i].Id(), TIER_OWNER, intermediates[i].name, true, "", ""));
      g.Connect(subject, intermediates[i].Id(), "creates");
    }
    assert intermediates[..|intermediates|] == intermediates;
  }

  method AddSubject(g: PodGraph, from: string, s: Subject)
    modifies g
    ensures g.nodes == old(g.nodes) + SubjectNodes(from, s) && g.edges == old(g.edges) + SubjectEdges(from, s)
  {
    g.Add(GraphNode(s.Id(), TIER_POD, s.pod.name, s.pod.healthy, from, ""));
    g.Connect(from, s.Id(), "manages");
    AddContainers(g, s.containers, PodPrefix(s), s.Id());
  }

  lemma SubjectsNext(input: WorkloadInput, i: nat)
    requires i < |input.subjects|
    ensures var s := input.subjects[i]; var from := CreatedBy(input.intermediates, input.Id(), s.pod.name);
      && AllSubjectNodes(input, input.subjects[..i + 1]) == AllSubjectNodes(input, input.subjects[..i]) + SubjectNodes(from, s)
      && AllSubjectEdges(input, input.subjects[..i + 1]) == AllSubjectEdges(input, input.subjects[..i]) + SubjectEdges(from, s)
  {
    assert input.subjects[..i + 1][..i] == input.subjects[..i];
  }

  ghost predicate SubjectsAdded(nodes0: seq<GraphNode>, edges0: seq<GraphEdge>, nodes: seq<GraphNode>,
      edges: seq<GraphEdge>, input: WorkloadInput, i: nat)
    requires i <= |input.subjects|
  {
    && nodes == nodes0 + AllSubjectNodes(input, input.subjects[..i])
    && edges == edges0 + AllSubjectEdges(input, input.subjects[..i])
  }

  lemma OneMoreSubject(nodes0: seq<GraphNode>, edges0: seq<GraphEdge>, nodes: seq<GraphNode>, edges: seq<GraphEdge>,
      input: WorkloadInput, i: nat)
    requires i < |input.subjects| && SubjectsAdded(nodes0, edges0, nodes, edges, input, i)
    ensures var s := input.subjects[i]; var from := CreatedBy(input.intermediates, input.Id(), s.pod.name);
      SubjectsAdded(nodes0, edges0, nodes + SubjectNodes(from, s), edges + SubjectEdges(from, s), input, i + 1)
  {
    SubjectsNext(input, i);
  }

  method AddSubjects(g: PodGraph, input: WorkloadInput, parentOf: map<string, string>)
    requires forall subject, pod ::
      (if pod in parentOf then parentOf[pod] else subject) == CreatedBy(input.intermediates, subject, pod)
    modifies g
    ensures SubjectsAdded(old(g.nodes), old(g.edges), g.nodes, g.edges, input, |input.subjects|)
  {
    for i := 0 to |input.subjects|
      invariant SubjectsAdded(old(g.nodes), old(g.edges), g.nodes, g.edges, input, i)
    {
      var s := input.subjects[i];
      ghost var nodes, edges := g.nodes, g.edges;
      AddSubject(g, if s.pod.name in parentOf then parentOf[s.pod.name] else input.Id(), s);
      OneMoreSubject(old(g.nodes), old(g.edges), nodes, edges, input, i);
    }
  }

  method DrawTop(g: PodGraph, input: WorkloadInput)
    requires g.nodes == [] && g.edges == []
    modifies g
    ensures g.nodes == WorkloadTop(input) && g.edges == WorkloadTopEdges(input)
  {
    g.Add(GraphNode(input.Id(), TIER_OWNER, input.name, input.healthy, "", ""));
    AddOwners(g, input.owners, input.Id());
    AddIntermediates(g, input.intermediates, input.Id());
  }

  method DrawWorkloadBase(g: PodGraph, input: WorkloadInput)
    requires g.nodes == [] && g.edges == []
    modifies g
    ensures g.nodes == WorkloadBase(input) && g.edges == WorkloadBaseEdges(input)
  {
    DrawTop(g, input);
    var parentOf := FindCreators(input.intermediates);
    AddSubjects(g, input, parentOf);
    assert input.subjects[..|input.subjects|] == input.subjects;
    AddNetwork(g, input.services, input.ingresses, PodsIn(input));
  }

  lemma {:induction false} NothingNew(refs: seq<AttachedRef>, drawn: set<string>)
    requires AttachedIds(refs) <= drawn
    ensures AttachedNodes(refs, drawn) == []
  {
    if refs != [] {
      assert refs[|refs| - 1] in refs && forall r | r in refs[..|refs| - 1] :: r in refs;
      NothingNew(refs[..|refs| - 1], drawn);
    }
  }

  /** Attaching what is drawn already adds lines only. */
  method AttachAgain(g: PodGraph, refs: seq<AttachedRef>, from: string)
    requires AttachedIds(refs) <= IdSet(g.nodes)
    modifies g
    ensures g.nodes == old(g.nodes) && g.edges == old(g.edges) + AttachedEdges(refs, from)
  {
    NothingNew(refs, IdSet(g.nodes));
    g.AddAttached(refs, from);
  }

  method AttachToAll(g: PodGraph, consumers: seq<string>, refs: seq<AttachedRef>)
    requires consumers != []
    modifies g
    ensures g.nodes == old(g.nodes) + AttachedNodes(refs, IdSet(old(g.nodes)))
    ensures g.edges == old(g.edges) + Flatten(consumers, ReadBy(refs))
  {
    AttachedHeld(g.nodes, refs);
    g.AddAttached(refs, consumers[0]);
    ghost var drawn := g.nodes;
    assert consumers[..1][..0] == [] && Flatten(consumers[..1][..0], ReadBy(refs)) == [];
    for i := 1 to |consumers|
      invariant g.nodes == drawn
      invariant g.edges == old(g.edges) + Flatten(consumers[..i], ReadBy(refs))
    {
      assert consumers[..i + 1][..i] == consumers[..i];
      AttachAgain(g, refs, consumers[i]);
    }
    assert consumers[..|consumers|] == consumers;
  }

  method NewWorkloadGraph(input: WorkloadInput) returns (g: PodGraph)
    ensures fresh(g)
    ensures g.nodes == StableSort(WorkloadMapNodes(input), NodeLess)
    ensures g.edges == StableSort(WorkloadMapEdges(input), EdgeLess)
    ensures Joined(g.edges, IdSet(g.nodes))
  {
    g := new PodGraph();
    DrawWorkloadBase(g, input);
    AttachToAll(g, Consumers(input), input.attached);
    WorkloadMapJoined(input);
    SortedJoined(WorkloadMapNodes(input), WorkloadMapEdges(input));
    g.Sort();
  }

  // ---- Lines from services to pods ----

  lemma NetworkServiceLine(services: seq<ServiceRef>, ingresses: seq<IngressRef>, pods: seq<Pod>, service: string, pod: string)
    ensures ServiceLine(service, pod) in NetworkEdges(services, ingresses, pods) <==> Selects(services, pods, service, pod)
  {
    ServiceLineDrawn(services, pods, OnlySelecting(), service, pod);
    IngressIsNoServiceLine(ingresses, Routed(services, pods, OnlySelecting()), service, pod);
  }

  lemma {:induction false} SubjectsServiceLine(input: WorkloadInput, subjects: seq<Subject>, service: string, pod: string)
    ensures ServiceLine(service, pod) !in AllSubjectEdges(input, subjects)
  {
    if subjects != [] {
      SubjectsServiceLine(input, subjects[..|subjects| - 1], service, pod);
    }
  }

  lemma OwnersServiceLine(owners: seq<OwnerReference>, start: string, service: string, pod: string)
    ensures ServiceLine(service, pod) !in OwnerEdges(owners, start)
  {
  }

  lemma ContainersServiceLine(containers: seq<Container>, prefix: string, group: string, service: string, pod: string)
    ensures ServiceLine(service, pod) !in Map(containers, ContainerEdge(prefix, group))
  {
  }

  lemma PodBaseServiceLine(input: PodInput, service: string, pod: string)
    ensures ServiceLine(service, pod) in PodBaseEdges(input) <==> Selects(input.services, [input.subject.pod], service, pod)
  {
    NetworkServiceLine(input.services, input.ingresses, [input.subject.pod], service, pod);
    OwnersServiceLine(input.owners, input.subject.Id(), service, pod);
    ContainersServiceLine(input.subject.containers, "container/", input.subject.Id(), service, pod);
  }

  /** A line from a service to a pod is on a pod's finished map exactly when it is the pod of the
      map and a service of that name is offered and selects it. */
  lemma PodServiceLineExactlyWhen(input: PodInput, service: string, pod: string)
    requires AttachedKinds(input.attached)
    ensures ServiceLine(service, pod) in StableSort(PodMapEdges(input), EdgeLess)
      <==> Selects(input.services, [input.subject.pod], service, pod)
  {
    SameMembers(PodMapEdges(input), StableSort(PodMapEdges(input), EdgeLess));
    PodBaseServiceLine(input, service, pod);
    AttachedIsNoServiceLine(input.attached, input.subject.Id(), service, pod);
  }

  lemma BaseServiceLine(input: WorkloadInput, service: string, pod: string)
    ensures ServiceLine(service, pod) in WorkloadBaseEdges(input) <==> Selects(input.services, PodsIn(input), service, pod)
  {
    NetworkServiceLine(input.services, input.ingresses, PodsIn(input), service, pod);
    SubjectsServiceLine(input, input.subjects, service, pod);
  }

  /** A line from a service to a pod is on a workload's finished map exactly when a service of
      that name is offered and selects a pod of that name that is drawn. */
  lemma WorkloadServiceLineExactlyWhen(input: WorkloadInput, service: string, pod: string)
    requires AttachedKinds(input.attached)
    ensures ServiceLine(service, pod) in StableSort(WorkloadMapEdges(input), EdgeLess)
      <==> Selects(input.services, PodsIn(input), service, pod)
  {
    var line := ServiceLine(service, pod);
    SameMembers(WorkloadMapEdges(input), StableSort(WorkloadMapEdges(input), EdgeLess));
    BaseServiceLine(input, service, pod);
    FlattenMember(Consumers(input), ReadBy(input.attached), line);
    forall from ensures line !in ReadBy(input.attached)(from) {
      AttachedIsNoServiceLine(input.attached, from, service, pod);
    }
  }

  lemma {:induction false} CreatorIsDrawn(intermediates: seq<Intermediate>, subject: string, pod: string)
    ensures var id := CreatedBy(intermediates, subject, pod);
      id == subject || exists m :: m in intermediates && m.Id() == id && pod in m.pods
  {
    if intermediates != [] {
      var before, last := intermediates[..|intermediates| - 1], intermediates[|intermediates| - 1];
      assert intermediates == before + [last];
      CreatorIsDrawn(before, subject, pod);
    }
  }

  lemma {:induction false} SubjectsJoined(input: WorkloadInput, subjects: seq<Subject>, ids: set<string>)
    requires IdSet(WorkloadTop(input)) <= ids && IdSet(AllSubjectNodes(input, subjects)) <= ids
    ensures Joined(AllSubjectEdges(input, subjects), ids)
    ensures forall s | s in subjects :: s.Id() in ids
  {
    if subjects != [] {
      var before, last := subjects[..|subjects| - 1], subjects[|subjects| - 1];
      assert subjects == before + [last];
      var from := CreatedBy(input.intermediates, input.Id(), last.pod.name);
      IdSetAppend(AllSubjectNodes(input, before), SubjectNodes(from, last));
      SubjectsJoined(input, before, ids);
      TopHolds(input, last.pod.name);
      SubjectJoined(from, last, ids);
    }
  }

  lemma SubjectJoined(from: string, s: Subject, ids: set<string>)
    requires from in ids && IdSet(SubjectNodes(from, s)) <= ids
    ensures s.Id() in ids && Joined(SubjectEdges(from, s), ids)
  {
    var own := [GraphNode(s.Id(), TIER_POD, s.pod.name, s.pod.healthy, from, "")];
    IdSetAppend(own, Map(s.containers, ContainerNode(PodPrefix(s), s.Id())));
    assert own[0] in own;
    ContainersJoined(s.containers, PodPrefix(s), s.Id(), ids);
  }

  lemma TopHolds(input: WorkloadInput, pod: string)
    ensures var ids := IdSet(WorkloadTop(input));
      && input.Id() in ids && IdSet(Map(input.owners, OwnerNode())) <= ids
      && CreatedBy(input.intermediates, input.Id(), pod) in ids
      && forall m | m in input.intermediates :: m.Id() in ids
  {
    var a := [GraphNode(input.Id(), TIER_OWNER, input.name, input.healthy, "", "")];
    var b, c := Map(input.owners, OwnerNode()), Map(input.intermediates, MiddleNode());
    IdSetAppend(a, b);
    IdSetAppend(a + b, c);
    assert a[0] in a;
    forall m | m in input.intermediates ensures m.Id() in IdSet(c) {
      var i :| 0 <= i < |input.intermediates| && input.intermediates[i] == m;
      assert c[i] in c;
    }
    CreatorIsDrawn(input.intermediates, input.Id(), pod);
  }

  lemma MiddleJoined(input: WorkloadInput, ids: set<string>)
    requires IdSet(WorkloadTop(input)) <= ids
    ensures Joined(Map(input.intermediates, MiddleEdge(input.Id())), ids)
  {
    TopHolds(input, "");
  }

  lemma ConsumersJoined(input: WorkloadInput, ids: set<string>)
    requires input.Id() in ids && AttachedIds(input.attached) <= ids && forall s | s in input.subjects :: s.Id() in ids
    ensures Joined(Flatten(Consumers(input), ReadBy(input.attached)), ids)
  {
    forall e | e in Flatten(Consumers(input), ReadBy(input.attached)) ensures e.from in ids && e.dest in ids {
      FlattenMember(Consumers(input), ReadBy(input.attached), e);
      var from :| from in Consumers(input) && e in ReadBy(input.attached)(from);
      OneLinePerResource(input.attached, from);
    }
  }

  lemma WorkloadBaseJoined(input: WorkloadInput, ids: set<string>)
    requires IdSet(WorkloadTop(input)) <= ids && IdSet(AllSubjectNodes(input, input.subjects)) <= ids
    requires IdSet(Network(input.services, input.ingresses, PodsIn(input))) <= ids
    ensures Joined(WorkloadBaseEdges(input), ids)
    ensures forall s | s in input.subjects :: s.Id() in ids
  {
    TopHolds(input, "");
    SubjectsJoined(input, input.subjects, ids);
    MiddleJoined(input, ids);
    PodsDrawn(input, ids);
    NetworkJoined(input.services, input.ingresses, PodsIn(input), ids);
  }

  lemma PodsDrawn(input: WorkloadInput, ids: set<string>)
    requires forall s | s in input.subjects :: s.Id() in ids
    ensures forall pod | pod in PodsIn(input) :: PodId(pod.name) in ids
  {
    forall pod | pod in PodsIn(input) ensures PodId(pod.name) in ids {
      var i :| 0 <= i < |PodsIn(input)| && PodsIn(input)[i] == pod;
      assert input.subjects[i].Id() in ids;
    }
  }

  /** Both ends of every line of a workload's map are boxes of it. */
  lemma WorkloadMapJoined(input: WorkloadInput)
    ensures Joined(WorkloadMapEdges(input), IdSet(WorkloadMapNodes(input)))
  {
    var ids := IdSet(WorkloadMapNodes(input));
    AttachedHeld(WorkloadBase(input), input.attached);
    TopHolds(input, "");
    WorkloadBaseJoined(input, ids);
    ConsumersJoined(input, ids);
  }

}
