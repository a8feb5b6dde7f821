/** What pods cost, and whom to charge (app/domain/aggregate_usage.go). */
module Consumption {
  import opened Options
  import opened Sequences
  import opened ApplicationMembers
  import Ordering
  import Text

  datatype Resources = Resources(cpuMilli: int, memoryBytes: int)
  {
    function Plus(other: Resources): Resources {
      Resources(cpuMilli + other.cpuMilli, memoryBytes + other.memoryBytes)
    }
  }

  const NOTHING := Resources(0, 0)

  datatype PodCost = PodCost(ns: string, owners: seq<OwnerReference>, measured: bool, usage: Resources,
                             occupiesNode: bool, requests: Resources, limits: Resources)

  datatype AggregateUsage = AggregateUsage(pods: nat, measurable: nat, measured: nat, metricsAvailable: bool,
                                           usage: Resources, usageMeasured: bool, requests: Resources, limits: Resources)
  {
    /** The reading of two sets of pods together. */
    function Plus(other: AggregateUsage): AggregateUsage {
      AggregateUsage(pods + other.pods, measurable + other.measurable, measured + other.measured, metricsAvailable,
                     usage.Plus(other.usage), usageMeasured || other.usageMeasured, requests.Plus(other.requests),
                     limits.Plus(other.limits))
    }
  }

  function Zero(metricsAvailable: bool): AggregateUsage {
    AggregateUsage(0, 0, 0, metricsAvailable, NOTHING, false, NOTHING, NOTHING)
  }

  /** One pod's reading. */
  function One(pod: PodCost, metricsAvailable: bool): AggregateUsage {
    AggregateUsage(1, if pod.occupiesNode then 1 else 0, if pod.measured then 1 else 0, metricsAvailable,
                   if pod.measured then pod.usage else NOTHING, pod.measured,
                   if pod.occupiesNode then pod.requests else NOTHING,
                   if pod.occupiesNode then pod.limits else NOTHING)
  }

  /** The reading of all of them. */
  function Aggregate(pods: seq<PodCost>, metricsAvailable: bool): AggregateUsage {
    if pods == [] then Zero(metricsAvailable)
    else Aggregate(pods[..|pods| - 1], metricsAvailable).Plus(One(pods[|pods| - 1], metricsAvailable))
  }

  lemma AggregateNext(pods: seq<PodCost>, i: nat, metricsAvailable: bool)
    requires i < |pods|
    ensures Aggregate(pods[..i + 1], metricsAvailable)
      == Aggregate(pods[..i], metricsAvailable).Plus(One(pods[i], metricsAvailable))
  {
    assert pods[..i + 1][..i] == pods[..i];
  }

  /** What the totals say of each other: no more are measured or occupy a node than there are. */
  lemma {:induction false} AggregateCounts(pods: seq<PodCost>, metricsAvailable: bool)
    ensures var u := Aggregate(pods, metricsAvailable);
      u.pods == |pods| && u.measured <= u.pods && u.measurable <= u.pods && (u.usageMeasured <==> u.measured > 0)
  {
    if pods != [] { AggregateCounts(pods[..|pods| - 1], metricsAvailable); }
  }

  method NewAggregateUsage(pods: seq<PodCost>, metricsAvailable: bool) returns (usage: AggregateUsage)
    ensures usage == Aggregate(pods, metricsAvailable)
    ensures usage.pods == |pods| && usage.measured <= usage.pods && usage.measurable <= usage.pods
    ensures usage.usageMeasured <==> usage.measured > 0
  {
    AggregateCounts(pods, metricsAvailable);
    usage := Zero(metricsAvailable);
    for i := 0 to |pods|
      invariant usage == Aggregate(pods[..i], metricsAvailable)
    {
      AggregateNext(pods, i, metricsAvailable);
      usage := Include(usage, pods[i]);
    }
    assert pods[..|pods|] == pods;
  }

  /** One turn of the loop over the pods. */
  method Include(before: AggregateUsage, pod: PodCost) returns (usage: AggregateUsage)
    ensures usage == before.Plus(One(pod, before.metricsAvailable))
  {
    usage := before.(pods := before.pods + 1);
    if pod.measured {
      usage := usage.(measured := usage.measured + 1, usageMeasured := true, usage := usage.usage.Plus(pod.usage));
    }
    if !pod.occupiesNode {
      return;
    }
    usage := usage.(measurable := usage.measurable + 1, requests := usage.requests.Plus(pod.requests),
                    limits := usage.limits.Plus(pod.limits));
  }

  lemma PlusLaws(a: AggregateUsage, b: AggregateUsage, c: AggregateUsage)
    requires a.metricsAvailable == b.metricsAvailable == c.metricsAvailable
    ensures a.Plus(b.Plus(c)) == a.Plus(b).Plus(c) && a.Plus(b) == b.Plus(a)
    ensures a.Plus(Zero(a.metricsAvailable)) == a
  {
  }

  lemma {:induction false} AggregateAvailable(pods: seq<PodCost>, metricsAvailable: bool)
    ensures Aggregate(pods, metricsAvailable).metricsAvailable == metricsAvailable
  {
    if pods != [] { AggregateAvailable(pods[..|pods| - 1], metricsAvailable); }
  }

  /** Readings add up: two lists of pods together read as the sum of the two. */
  lemma {:induction false} AggregateAdds(a: seq<PodCost>, b: seq<PodCost>, metricsAvailable: bool)
    ensures Aggregate(a + b, metricsAvailable) == Aggregate(a, metricsAvailable).Plus(Aggregate(b, metricsAvailable))
  {
    AggregateAvailable(a, metricsAvailable);
    if b == [] {
      assert a + b == a;
      PlusLaws(Aggregate(a, metricsAvailable), Zero(metricsAvailable), Zero(metricsAvailable));
    } else {
      var before, last := b[..|b| - 1], b[|b| - 1];
      AggregateAvailable(before, metricsAvailable);
      AggregateAdds(a, before, metricsAvailable);
      assert (a + b)[..|a + b| - 1] == a + before;
      PlusLaws(Aggregate(a, metricsAvailable), Aggregate(before, metricsAvailable), One(last, metricsAvailable));
    }
  }

  // ---- Attribution ----

  datatype Workload = Workload(ns: string, kind: string, name: string, owner: OwnerReference)

  function AttributionKey(ns: string, kind: string, name: string): string { ns + "/" + kind + "/" + name }

  function KeyOf(w: Workload): string { AttributionKey(w.ns, w.kind, w.name) }

  function OwnerKey(w: Workload): string { AttributionKey(w.ns, w.owner.kind, w.owner.name) }

  /** Neither a namespace nor a kind holds a slash, so a key names one object. */
  lemma AttributionKeyIdentifies(ns: string, kind: string, name: string, ns2: string, kind2: string, name2: string)
    requires '/' !in ns && '/' !in kind && '/' !in ns2 && '/' !in kind2
    ensures AttributionKey(ns, kind, name) == AttributionKey(ns2, kind2, name2)
      <==> ns == ns2 && kind == kind2 && name == name2
  {
    KeyParts(ns, kind, name);
    KeyParts(ns2, kind2, name2);
    Text.SeparatorSplits(ns, '/', kind + ['/'] + name, ns2, kind2 + ['/'] + name2);
    Text.SeparatorSplits(kind, '/', name, kind2, name2);
  }

  lemma KeyParts(ns: string, kind: string, name: string)
    ensures AttributionKey(ns, kind, name) == ns + ['/'] + (kind + ['/'] + name)
  {
    assert ns + "/" + kind + "/" + name == ns + "/" + (kind + "/" + name);
  }

  /** Each intermediate's own controller; of two under one key the later decides. */
  function ParentOf(intermediates: seq<Workload>, child: string): Option<string> {
    if intermediates == [] then None
    else
      var last := intermediates[|intermediates| - 1];
      if !last.owner.IsZero() && KeyOf(last) == child then Some(OwnerKey(last))
      else ParentOf(intermediates[..|intermediates| - 1], child)
  }

  function Wanted(workloads: seq<Workload>): set<string> {
    set w | w in workloads :: KeyOf(w)
  }

  /** The controller a pod is charged to: its own when that is in the list, else its
      controller's, one hop up; else nobody. */
  function Charged(wanted: set<string>, intermediates: seq<Workload>, pod: PodCost): Option<string> {
    var controller := Controller(pod.owners);
    if controller.IsZero() then None
    else
      var direct := AttributionKey(pod.ns, controller.kind, controller.name);
      if direct in wanted then Some(direct)
      else
        var parent := ParentOf(intermediates, direct);
        if parent.Some? && parent.value in wanted then parent else None
  }

  /** Whom each pod is charged to. */
  type Charging = PodCost -> Option<string>

  function ChargeBy(wanted: set<string>, intermediates: seq<Workload>): Charging {
    (pod: PodCost) => Charged(wanted, intermediates, pod)
  }

  function ChargedTo(charge: Charging, key: string): PodCost -> bool {
    (pod: PodCost) => charge(pod) == Some(key)
  }

  function ChargedAmong(charge: Charging, keys: set<string>): PodCost -> bool {
    (pod: PodCost) => charge(pod).Some? && charge(pod).value in keys
  }

  function RowName(w: Workload): string { w.ns + "/" + w.name }

  // ---- The method ----

  function Lookup(m: map<string, seq<PodCost>>, key: string): seq<PodCost> {
    if key in m then m[key] else []
  }

  method FindParents(intermediates: seq<Workload>) returns (parentOf: map<string, string>)
    ensures forall child :: (if child in parentOf then Some(parentOf[child]) else None) == ParentOf(intermediates, child)
  {
    parentOf := map[];
    for i := 0 to |intermediates|
      invariant forall child :: (if child in parentOf then Some(parentOf[child]) else None) == ParentOf(intermediates[..i], child)
    {
      assert intermediates[..i + 1][..i] == intermediates[..i];
      var w := intermediates[i];
      if w.owner.IsZero() {
        continue;
      }
      parentOf := parentOf[KeyOf(w) := OwnerKey(w)];
    }
    assert intermediates[..|intermediates|] == intermediates;
  }

  method FindWanted(workloads: seq<Workload>) returns (wanted: set<string>)
    ensures wanted == Wanted(workloads)
  {
    wanted := {};
    for i := 0 to |workloads|
      invariant wanted == Wanted(workloads[..i])
    {
      assert workloads[..i + 1] == workloads[..i] + [workloads[i]];
      wanted := wanted + {KeyOf(workloads[i])};
    }
    assert workloads[..|workloads|] == workloads;
  }

  method Resolve(wanted: set<string>, parentOf: map<string, string>, ghost intermediates: seq<Workload>, pod: PodCost)
    returns (key: Option<string>)
    requires forall child :: (if child in parentOf then Some(parentOf[child]) else None) == ParentOf(intermediates, child)
    ensures key == Charged(wanted, intermediates, pod)
  {
    var controller := Controller(pod.owners);
    if controller.IsZero() {
      return None;
    }
    var direct := AttributionKey(pod.ns, controller.kind, controller.name);
    if direct in wanted {
      return Some(direct);
    }
    if direct in parentOf && parentOf[direct] in wanted {
      return Some(parentOf[direct]);
    }
    return None;
  }

  method Attribute(wanted: set<string>, parentOf: map<string, string>, ghost intermediates: seq<Workload>,
      pods: seq<PodCost>) returns (byWorkload: map<string, seq<PodCost>>)
    requires forall child :: (if child in parentOf then Some(parentOf[child]) else None) == ParentOf(intermediates, child)
    ensures forall key :: Lookup(byWorkload, key) == Filter(pods, ChargedTo(ChargeBy(wanted, intermediates), key))
  {
    byWorkload := map[];
    for i := 0 to |pods|
      invariant forall key :: Lookup(byWorkload, key) == Filter(pods[..i], ChargedTo(ChargeBy(wanted, intermediates), key))
    {
      var key := Resolve(wanted, parentOf, intermediates, pods[i]);
      NextPod(wanted, intermediates, pods, i);
      byWorkload := ChargePod(byWorkload, key, pods[i]);
    }
    assert pods[..|pods|] == pods;
  }

  method ChargePod(before: map<string, seq<PodCost>>, key: Option<string>, pod: PodCost)
    returns (after: map<string, seq<PodCost>>)
    ensures forall k :: Lookup(after, k) == Lookup(before, k) + if key == Some(k) then [pod] else []
  {
    after := before;
    if key.Some? {
      after := after[key.value := Lookup(before, key.value) + [pod]];
    }
  }

  lemma NextPod(wanted: set<string>, intermediates: seq<Workload>, pods: seq<PodCost>, i: nat)
    requires i < |pods|
    ensures forall key :: Filter(pods[..i + 1], ChargedTo(ChargeBy(wanted, intermediates), key))
                          == Filter(pods[..i], ChargedTo(ChargeBy(wanted, intermediates), key))
                             + (if Charged(wanted, intermediates, pods[i]) == Some(key) then [pods[i]] else [])
  {
    assert pods[..i + 1] == pods[..i] + [pods[i]];
    forall key ensures Filter(pods[..i + 1], ChargedTo(ChargeBy(wanted, intermediates), key))
                       == Filter(pods[..i], ChargedTo(ChargeBy(wanted, intermediates), key))
                          + (if Charged(wanted, intermediates, pods[i]) == Some(key) then [pods[i]] else [])
    {
      var keep := ChargedTo(ChargeBy(wanted, intermediates), key);
      FilterAppend(pods[..i], [pods[i]], keep);
      if keep(pods[i]) { FilterAll([pods[i]], keep); } else { FilterNone([pods[i]], keep); }
    }
  }

  /** Each row is the reading of the pods charged to its controller; of two controllers with
      one namespace and name the later has the row. */
  method WorkloadConsumption(workloads: seq<Workload>, pods: seq<PodCost>, intermediates: seq<Workload>,
      metricsAvailable: bool) returns (consumption: map<string, AggregateUsage>)
    ensures forall name :: name in consumption <==> exists w :: w in workloads && RowName(w) == name
    ensures forall i | 0 <= i < |workloads| && (forall j | i < j < |workloads| :: RowName(workloads[j]) != RowName(workloads[i])) ::
      RowName(workloads[i]) in consumption && consumption[RowName(workloads[i])]
        == Aggregate(Filter(pods, ChargedTo(ChargeBy(Wanted(workloads), intermediates), KeyOf(workloads[i]))), metricsAvailable)
  {
    var wanted := FindWanted(workloads);
    var parentOf := FindParents(intermediates);
    var byWorkload := Attribute(wanted, parentOf, intermediates, pods);
    consumption := map[];
    for n := 0 to |workloads|
      invariant forall name :: name in consumption <==> exists w :: w in workloads[..n] && RowName(w) == name
      invariant forall i | 0 <= i < n && (forall j | i < j < n :: RowName(workloads[j]) != RowName(workloads[i])) ::
        RowName(workloads[i]) in consumption && consumption[RowName(workloads[i])]
          == Aggregate(Filter(pods, ChargedTo(ChargeBy(wanted, intermediates), KeyOf(workloads[i]))), metricsAvailable)
    {
      var w := workloads[n];
      assert workloads[..n + 1] == workloads[..n] + [w];
      var usage := NewAggregateUsage(Lookup(byWorkload, KeyOf(w)), metricsAvailable);
      consumption := consumption[RowName(w) := usage];
    }
    assert workloads[..|workloads|] == workloads;
  }

  // ---- Conservation ----

  /** One kind to a list, no namespace or kind with a slash, and no two controllers alike. */
  predicate OneKindDistinct(workloads: seq<Workload>) {
    && (forall i | 0 <= i < |workloads| :: '/' !in workloads[i].ns && '/' !in workloads[i].kind
                                           && workloads[i].kind == workloads[0].kind)
    && (forall i, j | 0 <= i < j < |workloads| :: workloads[i].ns != workloads[j].ns || workloads[i].name != workloads[j].name)
  }

  lemma KeysDistinct(workloads: seq<Workload>, i: nat, j: nat)
    requires OneKindDistinct(workloads) && i < j < |workloads|
    ensures KeyOf(workloads[i]) != KeyOf(workloads[j]) && RowName(workloads[i]) != RowName(workloads[j])
  {
    var a, b := workloads[i], workloads[j];
    AttributionKeyIdentifies(a.ns, a.kind, a.name, b.ns, b.kind, b.name);
    Text.SeparatorSplits(a.ns, '/', a.name, b.ns, b.name);
    assert RowName(a) == a.ns + ['/'] + a.name && RowName(b) == b.ns + ['/'] + b.name;
  }

  /** The rows of all the controllers together. */
  function Rows(workloads: seq<Workload>, charge: Charging, pods: seq<PodCost>, metricsAvailable: bool): AggregateUsage {
    if workloads == [] then Zero(metricsAvailable)
    else Rows(workloads[..|workloads| - 1], charge, pods, metricsAvailable).Plus(
           Aggregate(Filter(pods, ChargedTo(charge, KeyOf(workloads[|workloads| - 1]))), metricsAvailable))
  }

  function Either(p: PodCost -> bool, q: PodCost -> bool): PodCost -> bool { x => p(x) || q(x) }

  /** The reading of the pods that pass, taken one by one. */
  function Reading(pods: seq<PodCost>, keep: PodCost -> bool, metricsAvailable: bool): (u: AggregateUsage)
    ensures u.metricsAvailable == metricsAvailable
  {
    if pods == [] then Zero(metricsAvailable)
    else Share(pods[0], keep(pods[0]), metricsAvailable).Plus(Reading(pods[1..], keep, metricsAvailable))
  }

  function Share(pod: PodCost, counts: bool, metricsAvailable: bool): (u: AggregateUsage)
    ensures u.metricsAvailable == metricsAvailable
  {
    if counts then One(pod, metricsAvailable) else Zero(metricsAvailable)
  }

  lemma {:induction false} ReadingIsAggregate(pods: seq<PodCost>, keep: PodCost -> bool, metricsAvailable: bool)
    ensures Reading(pods, keep, metricsAvailable) == Aggregate(Filter(pods, keep), metricsAvailable)
  {
    if pods != [] {
      var x, rest := pods[0], pods[1..];
      ReadingIsAggregate(rest, keep, metricsAvailable);
      assert Filter(pods, keep) == (if keep(x) then [x] else []) + Filter(rest, keep);
      SplitOne(x, rest, keep, metricsAvailable);
    }
  }

  lemma {:induction false} ReadingSplits(pods: seq<PodCost>, p: PodCost -> bool, q: PodCost -> bool, metricsAvailable: bool)
    requires forall x | x in pods :: !p(x) || !q(x)
    ensures Reading(pods, Either(p, q), metricsAvailable)
      == Reading(pods, p, metricsAvailable).Plus(Reading(pods, q, metricsAvailable))
  {
    if pods == [] {
      PlusLaws(Zero(metricsAvailable), Zero(metricsAvailable), Zero(metricsAvailable));
    } else {
      assert pods[0] in pods && forall x | x in pods[1..] :: x in pods;
      ReadingSplits(pods[1..], p, q, metricsAvailable);
      SplitHead(pods, p, q, metricsAvailable);
    }
  }

  lemma SplitHead(pods: seq<PodCost>, p: PodCost -> bool, q: PodCost -> bool, metricsAvailable: bool)
    requires pods != [] && (!p(pods[0]) || !q(pods[0]))
    requires var a, b := Reading(pods[1..], p, metricsAvailable), Reading(pods[1..], q, metricsAvailable);
      Reading(pods[1..], Either(p, q), metricsAvailable) == a.Plus(b)
    ensures Reading(pods, Either(p, q), metricsAvailable)
      == Reading(pods, p, metricsAvailable).Plus(Reading(pods, q, metricsAvailable))
  {
    PlusMix(pods[0], metricsAvailable, p(pods[0]), q(pods[0]), Reading(pods[1..], p, metricsAvailable),
            Reading(pods[1..], q, metricsAvailable));
  }

  /** Pods split two ways read as the two parts together. */
  lemma SplitReading(pods: seq<PodCost>, p: PodCost -> bool, q: PodCost -> bool, metricsAvailable: bool)
    requires forall x :: !p(x) || !q(x)
    ensures Aggregate(Filter(pods, Either(p, q)), metricsAvailable)
      == Aggregate(Filter(pods, p), metricsAvailable).Plus(Aggregate(Filter(pods, q), metricsAvailable))
  {
    ReadingSplits(pods, p, q, metricsAvailable);
    ReadingIsAggregate(pods, p, metricsAvailable);
    ReadingIsAggregate(pods, q, metricsAvailable);
    ReadingIsAggregate(pods, Either(p, q), metricsAvailable);
  }

  lemma PlusMix(x: PodCost, metricsAvailable: bool, inP: bool, inQ: bool, a: AggregateUsage, b: AggregateUsage)
    requires a.metricsAvailable == b.metricsAvailable == metricsAvailable && (!inP || !inQ)
    ensures Share(x, inP || inQ, metricsAvailable).Plus(a.Plus(b))
      == Share(x, inP, metricsAvailable).Plus(a).Plus(Share(x, inQ, metricsAvailable).Plus(b))
  {
  }

  lemma SplitOne(x: PodCost, rest: seq<PodCost>, keep: PodCost -> bool, metricsAvailable: bool)
    ensures Aggregate(Filter([x] + rest, keep), metricsAvailable)
      == Share(x, keep(x), metricsAvailable).Plus(Aggregate(Filter(rest, keep), metricsAvailable))
  {
    FilterCons(x, rest, keep);
    AggregateAdds(if keep(x) then [x] else [], Filter(rest, keep), metricsAvailable);
    SingleReading(x, metricsAvailable);
  }

  lemma SingleReading(x: PodCost, metricsAvailable: bool)
    ensures Aggregate([x], metricsAvailable) == One(x, metricsAvailable)
  {
    var xs := [x];
    assert xs[..0] == [] && xs[..1] == xs;
    AggregateNext(xs, 0, metricsAvailable);
    PlusLaws(One(x, metricsAvailable), Zero(metricsAvailable), Zero(metricsAvailable));
  }

  lemma {:induction false} SameFilter(pods: seq<PodCost>, p: PodCost -> bool, q: PodCost -> bool)
    requires forall x :: p(x) == q(x)
    ensures Filter(pods, p) == Filter(pods, q)
  {
    if pods != [] { SameFilter(pods[1..], p, q); }
  }

  lemma {:induction false} RowsReading(workloads: seq<Workload>, charge: Charging, pods: seq<PodCost>, metricsAvailable: bool)
    requires forall i, j | 0 <= i < j < |workloads| :: KeyOf(workloads[i]) != KeyOf(workloads[j])
    ensures Rows(workloads, charge, pods, metricsAvailable)
      == Aggregate(Filter(pods, ChargedAmong(charge, Wanted(workloads))), metricsAvailable)
  {
    if workloads == [] {
      assert Wanted(workloads) == {};
      FilterNone(pods, ChargedAmong(charge, {}));
    } else {
      var before, last := workloads[..|workloads| - 1], workloads[|workloads| - 1];
      assert workloads == before + [last];
      RowsReading(before, charge, pods, metricsAvailable);
      LastIsApart(workloads);
      OneMoreKey(Wanted(before), KeyOf(last), charge, pods, metricsAvailable);
    }
  }

  lemma OneMoreKey(keys: set<string>, key: string, charge: Charging, pods: seq<PodCost>, metricsAvailable: bool)
    requires key !in keys
    ensures Aggregate(Filter(pods, ChargedAmong(charge, keys)), metricsAvailable).Plus(
              Aggregate(Filter(pods, ChargedTo(charge, key)), metricsAvailable))
      == Aggregate(Filter(pods, ChargedAmong(charge, keys + {key})), metricsAvailable)
  {
    var p, q := ChargedAmong(charge, keys), ChargedTo(charge, key);
    SplitReading(pods, p, q, metricsAvailable);
    SameFilter(pods, Either(p, q), ChargedAmong(charge, keys + {key}));
  }

  lemma LastIsApart(workloads: seq<Workload>)
    requires workloads != [] && forall i, j | 0 <= i < j < |workloads| :: KeyOf(workloads[i]) != KeyOf(workloads[j])
    ensures var before, last := workloads[..|workloads| - 1], workloads[|workloads| - 1];
      KeyOf(last) !in Wanted(before) && Wanted(workloads) == Wanted(before) + {KeyOf(last)}
  {
    var before, last := workloads[..|workloads| - 1], workloads[|workloads| - 1];
    assert workloads == before + [last];
    forall w | w in before ensures KeyOf(w) != KeyOf(last) {
      var i :| 0 <= i < |before| && before[i] == w;
      assert workloads[i] == w;
    }
  }

  function AnyCharge(charge: Charging): PodCost -> bool {
    (pod: PodCost) => charge(pod).Some?
  }

  /** Attribution conserves: over a list of one kind with distinct controllers, the rows add
      up to the reading of exactly the pods that resolve to one of them. */
  lemma AttributionConserves(workloads: seq<Workload>, intermediates: seq<Workload>, pods: seq<PodCost>, metricsAvailable: bool)
    requires OneKindDistinct(workloads)
    ensures var charge := ChargeBy(Wanted(workloads), intermediates);
      Rows(workloads, charge, pods, metricsAvailable) == Aggregate(Filter(pods, AnyCharge(charge)), metricsAvailable)
  {
    var charge := ChargeBy(Wanted(workloads), intermediates);
    forall i, j | 0 <= i < j < |workloads| ensures KeyOf(workloads[i]) != KeyOf(workloads[j]) {
      KeysDistinct(workloads, i, j);
    }
    RowsReading(workloads, charge, pods, metricsAvailable);
    SameFilter(pods, ChargedAmong(charge, Wanted(workloads)), AnyCharge(charge));
  }

  /** An object's namespace, kind and controller's kind hold no slash. */
  predicate Plain(w: Workload) { '/' !in w.ns && '/' !in w.kind && '/' !in w.owner.kind }

  predicate IsObject(w: Workload, ns: string, kind: string, name: string) {
    w.ns == ns && w.kind == kind && w.name == name
  }

  /** The workload is the pod's own controller. */
  predicate Owns(w: Workload, pod: PodCost) {
    var c := Controller(pod.owners);
    !c.IsZero() && IsObject(w, pod.ns, c.kind, c.name)
  }

  /** The workload is the controller of the pod's own controller. */
  predicate OwnsThrough(w: Workload, m: Workload, pod: PodCost) {
    Owns(m, pod) && !m.owner.IsZero() && IsObject(w, m.ns, m.owner.kind, m.owner.name)
  }

  ghost predicate KeysApart(ws: seq<Workload>) {
    forall i, j | 0 <= i < j < |ws| :: KeyOf(ws[i]) != KeyOf(ws[j])
  }

  /** With one intermediate to a key, the parent is that intermediate's controller. */
  lemma {:induction false} ParentExactlyWhen(intermediates: seq<Workload>, child: string, parent: string)
    requires KeysApart(intermediates)
    ensures ParentOf(intermediates, child) == Some(parent) <==>
      exists m :: m in intermediates && !m.owner.IsZero() && KeyOf(m) == child && OwnerKey(m) == parent
  {
    if intermediates != [] {
      var before, last := intermediates[..|intermediates| - 1], intermediates[|intermediates| - 1];
      assert intermediates == before + [last];
      ParentExactlyWhen(before, child, parent);
      if KeyOf(last) == child {
        forall m | m in before ensures KeyOf(m) != child {
          var i :| 0 <= i < |before| && before[i] == m;
          assert intermediates[i] == m && intermediates[|before|] == last;
        }
      }
    }
  }

  lemma OwnsByKey(w: Workload, pod: PodCost)
    requires Plain(w) && '/' !in pod.ns && '/' !in Controller(pod.owners).kind && !Controller(pod.owners).IsZero()
    ensures var c := Controller(pod.owners); Owns(w, pod) <==> KeyOf(w) == AttributionKey(pod.ns, c.kind, c.name)
  {
    var c := Controller(pod.owners);
    AttributionKeyIdentifies(w.ns, w.kind, w.name, pod.ns, c.kind, c.name);
  }

  lemma OwnsThroughByKey(w: Workload, m: Workload, pod: PodCost)
    requires Plain(w) && Plain(m) && Owns(m, pod) && !m.owner.IsZero()
    ensures OwnsThrough(w, m, pod) <==> OwnerKey(m) == KeyOf(w)
  {
    AttributionKeyIdentifies(m.ns, m.owner.kind, m.owner.name, w.ns, w.kind, w.name);
  }

  /** Exactly when, told by the objects rather than by their keys: a pod is charged to a
      controller of the list if and only if that is its own controller, or none of the list is
      and that controls the controller it has. */
  lemma ChargedExactlyWhen(workloads: seq<Workload>, intermediates: seq<Workload>, pod: PodCost, w: Workload)
    requires w in workloads && KeysApart(intermediates) && forall v | v in workloads + intermediates :: Plain(v)
    requires '/' !in pod.ns && '/' !in Controller(pod.owners).kind
    ensures Charged(Wanted(workloads), intermediates, pod) == Some(KeyOf(w)) <==>
      || Owns(w, pod)
      || ((forall v | v in workloads :: !Owns(v, pod)) && exists m :: m in intermediates && OwnsThrough(w, m, pod))
  {
    var c := Controller(pod.owners);
    if !c.IsZero() {
      var direct := AttributionKey(pod.ns, c.kind, c.name);
      forall v | v in workloads + intermediates ensures Owns(v, pod) <==> KeyOf(v) == direct {
        OwnsByKey(v, pod);
      }
      assert w in workloads + intermediates;
      assert direct in Wanted(workloads) <==> exists v :: v in workloads && Owns(v, pod) by {
        forall v | v in workloads ensures v in workloads + intermediates {}
      }
      ParentExactlyWhen(intermediates, direct, KeyOf(w));
      forall m | m in intermediates && Owns(m, pod) && !m.owner.IsZero()
        ensures OwnsThrough(w, m, pod) <==> OwnerKey(m) == KeyOf(w)
      {
        assert m in workloads + intermediates;
        OwnsThroughByKey(w, m, pod);
      }
      forall m | m in intermediates ensures m in workloads + intermediates {}
    }
  }
}
