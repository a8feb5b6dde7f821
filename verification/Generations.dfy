/** The generation guard of three caches (app/application). */
module Generations {
  // It is the same in podusage.go, metricsquery.go and traffic.go: a read captures its cluster's
  // generation before it starts, and what it learned lands only if the generation is still the
  // same. The counter is a uint64 and wraps.

  import opened Options
  import Text

  type ClusterId = string

  /** Generations are counted in 64 bits. */
  const WRAP := 0x1_0000_0000_0000_0000

  /** A read in flight: its cluster and the generation it captured. */
  datatype Read = Read(id: ClusterId, generation: nat)

  /** `forgets` counts what the generation counts, without wrapping; `landed` lists the reads
      whose writes are in, since the cluster was last forgotten. */
  datatype State = State(forgets: map<ClusterId, nat>, begun: seq<Read>, landed: map<ClusterId, seq<nat>>)

  const INIT := State(map[], [], map[])

  datatype Event = Begin(id: ClusterId) | Land(r: nat) | Forget(id: ClusterId)

  function Forgets(s: State, id: ClusterId): nat {
    if id in s.forgets then s.forgets[id] else 0
  }

  function Generation(s: State, id: ClusterId): nat { Forgets(s, id) % WRAP }

  function Landed(s: State, id: ClusterId): seq<nat> {
    if id in s.landed then s.landed[id] else []
  }

  predicate Enabled(s: State, e: Event) { e.Land? ==> e.r < |s.begun| }

  /** Whether a write of the read would land now. */
  predicate Lands(s: State, r: nat)
    requires r < |s.begun|
  {
    Generation(s, s.begun[r].id) == s.begun[r].generation
  }

  function Apply(s: State, e: Event): State
    requires Enabled(s, e)
  {
    match e
    case Begin(id) => s.(begun := s.begun + [Read(id, Generation(s, id))])
    case Land(r) =>
      var id := s.begun[r].id;
      if Lands(s, r) then s.(landed := s.landed[id := Landed(s, id) + [r]]) else s
    case Forget(id) => s.(forgets := s.forgets[id := Forgets(s, id) + 1], landed := s.landed - {id})
  }

  ghost predicate Run(s: State, es: seq<Event>, t: State)
    decreases |es|
  {
    if es == [] then s == t
    else Enabled(s, es[0]) && Run(Apply(s, es[0]), es[1..], t)
  }

  function ForgetsIn(es: seq<Event>, id: ClusterId): nat {
    if es == [] then 0 else (if es[0] == Forget(id) then 1 else 0) + ForgetsIn(es[1..], id)
  }

  lemma {:induction false} ForgetsCounted(s: State, es: seq<Event>, t: State, id: ClusterId)
    requires Run(s, es, t)
    ensures Forgets(t, id) == Forgets(s, id) + ForgetsIn(es, id)
    decreases |es|
  {
    if es != [] {
      ForgetsCounted(Apply(s, es[0]), es[1..], t, id);
    }
  }

  /** Wrapped, two counts agree exactly when they are a whole number of wraps apart. */
  lemma SameGeneration(before: nat, after: nat)
    requires before <= after
    ensures before % WRAP == after % WRAP <==> (after - before) % WRAP == 0
  {
    var p, q := before / WRAP, after / WRAP;
    assert before == p * WRAP + before % WRAP && after == q * WRAP + after % WRAP;
    if before % WRAP == after % WRAP {
      assert after - before == (q - p) * WRAP;
    } else {
      assert after - before == (q - p) * WRAP + (after % WRAP - before % WRAP);
    }
  }

  /** The read keeps what it captured, and what landed of it did so with no forget since,
      or a whole number of wraps of them. */
  ghost predicate Traced(s: State, r: nat, id: ClusterId, captured: nat) {
    && r < |s.begun| && s.begun[r] == Read(id, captured % WRAP) && captured <= Forgets(s, id)
    && (r in Landed(s, id) ==> (Forgets(s, id) - captured) % WRAP == 0)
  }

  lemma {:induction false} TracedRun(s: State, es: seq<Event>, t: State, r: nat, id: ClusterId, captured: nat)
    requires Traced(s, r, id, captured) && Run(s, es, t)
    ensures Traced(t, r, id, captured)
    decreases |es|
  {
    if es != [] {
      TracedRun(Apply(s, es[0]), es[1..], t, r, id, captured);
    }
  }

  /** What has landed for a cluster are reads of it that have begun. */
  ghost predicate Known(s: State) {
    forall id, r: nat {:trigger r in Landed(s, id)} | r in Landed(s, id) :: r < |s.begun| && s.begun[r].id == id
  }

  lemma KnownStep(s: State, e: Event)
    requires Known(s) && Enabled(s, e)
    ensures Known(Apply(s, e))
  {
    var t := Apply(s, e);
    forall id, r: nat | r in Landed(t, id) ensures r < |t.begun| && t.begun[r].id == id {
      assert r in Landed(s, id) || e == Land(r);
    }
  }

  lemma {:induction false} KnownRun(s: State, es: seq<Event>, t: State)
    requires Known(s) && Run(s, es, t)
    ensures Known(t)
    decreases |es|
  {
    if es != [] {
      KnownStep(s, es[0]);
      KnownRun(Apply(s, es[0]), es[1..], t);
    }
  }

  lemma {:induction false} RunSplit(s: State, before: seq<Event>, after: seq<Event>, t: State) returns (middle: State)
    requires Run(s, before + after, t)
    ensures Run(s, before, middle) && Run(middle, after, t)
    decreases |before|
  {
    if before == [] {
      assert before + after == after;
      middle := s;
    } else {
      assert (before + after)[1..] == before[1..] + after;
      middle := RunSplit(Apply(s, before[0]), before[1..], after, t);
    }
  }

  function Begins(es: seq<Event>): nat {
    if es == [] then 0 else (if es[0].Begin? then 1 else 0) + Begins(es[1..])
  }

  /** Where in a run a read began. */
  lemma {:induction false} Beginning(s: State, es: seq<Event>, t: State, r: nat)
    returns (before: seq<Event>, id: ClusterId, after: seq<Event>)
    requires Run(s, es, t) && |s.begun| <= r < |t.begun|
    ensures es == before + ([Begin(id)] + after) && |s.begun| + Begins(before) == r && t.begun[r].id == id
    decreases |es|
  {
    if es[0].Begin? && r == |s.begun| {
      before, id, after := [], es[0].id, es[1..];
      ReadKept(Apply(s, es[0]), es[1..], t, r);
    } else {
      before, id, after := Beginning(Apply(s, es[0]), es[1..], t, r);
      before := [es[0]] + before;
      assert before[1..] == es[1..][..|before| - 1];
    }
  }

  /** In any run of overlapping reads and forgets: what is stored for a cluster comes from a
      read of it, and since that read began the cluster has been forgotten a whole number of
      wraps of times, which short of 2^64 forgets is never. A late writer is inert. */
  lemma StoredSinceLastForget(es: seq<Event>, t: State, id: ClusterId, r: nat)
    returns (before: seq<Event>, after: seq<Event>)
    requires Run(INIT, es, t) && r in Landed(t, id)
    ensures es == before + ([Begin(id)] + after) && Begins(before) == r
    ensures ForgetsIn(after, id) % WRAP == 0 && (ForgetsIn(after, id) < WRAP ==> ForgetsIn(after, id) == 0)
  {
    KnownRun(INIT, es, t);
    var c;
    before, c, after := Beginning(INIT, es, t, r);
    var s := RunSplit(INIT, before, [Begin(id)] + after, t);
    BeginsCounted(INIT, before, s);
    KnownRun(INIT, before, s);
    StoredSince(s, id, after, t);
  }

  lemma StoredSince(s: State, id: ClusterId, after: seq<Event>, t: State)
    requires Run(s, [Begin(id)] + after, t) && |s.begun| in Landed(t, id) && Known(s)
    ensures ForgetsIn(after, id) % WRAP == 0
  {
    var r, u := |s.begun|, Apply(s, Begin(id));
    assert ([Begin(id)] + after)[1..] == after;
    assert Traced(u, r, id, Forgets(s, id));
    TracedRun(u, after, t, r, id, Forgets(s, id));
    ForgetsCounted(u, after, t, id);
  }

  lemma {:induction false} BeginsCounted(s: State, es: seq<Event>, t: State)
    requires Run(s, es, t)
    ensures |t.begun| == |s.begun| + Begins(es)
    decreases |es|
  {
    if es != [] {
      BeginsCounted(Apply(s, es[0]), es[1..], t);
    }
  }

  /** Exactly when a read's write lands: when the forgets of its cluster since it began are a
      whole number of wraps. */
  lemma LandsExactlyWhen(s: State, id: ClusterId, es: seq<Event>, t: State)
    requires Run(Apply(s, Begin(id)), es, t)
    ensures |s.begun| < |t.begun| && (Lands(t, |s.begun|) <==> ForgetsIn(es, id) % WRAP == 0)
  {
    var u := Apply(s, Begin(id));
    ForgetsCounted(u, es, t, id);
    ReadKept(u, es, t, |s.begun|);
    SameGeneration(Forgets(s, id), Forgets(t, id));
  }

  lemma {:induction false} ReadKept(s: State, es: seq<Event>, t: State, r: nat)
    requires r < |s.begun| && Run(s, es, t)
    ensures r < |t.begun| && t.begun[r] == s.begun[r]
    decreases |es|
  {
    if es != [] {
      ReadKept(Apply(s, es[0]), es[1..], t, r);
    }
  }

  // ---- A cache behind the guard ----

  datatype Entry<V> = Entry(at: int, generation: nat, backend: string, value: V)

  function Fetch<V>(entries: map<ClusterId, Entry<V>>, ttl: V -> int, id: ClusterId, backend: string, now: int)
    : Option<V>
  {
    if id in entries && entries[id].backend == backend && now - entries[id].at <= ttl(entries[id].value)
    then Some(entries[id].value) else None
  }

  /** The read whose write landed last. */
  ghost function Newest(s: State, id: ClusterId): nat
    requires Landed(s, id) != []
  {
    Landed(s, id)[|Landed(s, id)| - 1]
  }

  /** The cache of node checks and the cache of source probes: one entry for each cluster,
      with the backend it was asked of. How long an entry stands depends on what it holds.
      `brought` is history: what each read last brought to the cache. */
  class GuardedCache<V> {
    const ttl: V -> int
    var entries: map<ClusterId, Entry<V>>
    var generations: map<ClusterId, nat>
    ghost var model: State
    ghost var brought: map<nat, Entry<V>>

    /** An entry is what the read that landed last brought. */
    ghost predicate Valid()
      reads this
    {
      && (forall id :: (if id in generations then generations[id] else 0) == Generation(model, id))
      && (forall id | id in entries :: entries[id].generation == Generation(model, id))
      && (forall id | id in entries :: BroughtByNewest(id))
      && Known(model)
    }

    ghost predicate BroughtByNewest(id: ClusterId)
      reads this
      requires id in entries
    {
      Landed(model, id) != [] && Newest(model, id) in brought && brought[Newest(model, id)] == entries[id]
    }

    constructor (ttl: V -> int)
      ensures Valid() && model == INIT && entries == map[] && brought == map[] && this.ttl == ttl
    {
      this.ttl := ttl;
      entries, generations, model, brought := map[], map[], INIT, map[];
    }

    /** Taken before the read, handed back with what it learned. */
    method Capture(id: ClusterId) returns (generation: nat, ghost read: nat)
      requires Valid()
      modifies this`model
      ensures Valid() && model == Apply(old(model), Begin(id))
      ensures read == |old(model).begun| && model.begun[read] == Read(id, generation)
    {
      generation := if id in generations then generations[id] else 0;
      read := |model.begun|;
      KnownStep(model, Begin(id));
      model := Apply(model, Begin(id));
    }

    /** Serves what the read that landed last for the cluster brought, and that only for its own
        backend and within its time. */
    method Get(id: ClusterId, backend: string, now: int) returns (value: Option<V>)
      requires Valid()
      ensures value == Fetch(entries, ttl, id, backend, now)
      ensures value.Some? ==> Landed(model, id) != [] && Newest(model, id) in brought
      ensures value.Some? ==>
        var e := brought[Newest(model, id)]; value.value == e.value && e.backend == backend && now - e.at <= ttl(e.value)
    {
      assert id in entries ==> BroughtByNewest(id);
      if id !in entries || entries[id].backend != backend || now - entries[id].at > ttl(entries[id].value) {
        return None;
      }
      return Some(entries[id].value);
    }

    /** Stores what a read learned, unless the cluster has been forgotten since. */
    method Put(id: ClusterId, generation: nat, ghost read: nat, backend: string, value: V, now: int)
      requires Valid() && read < |model.begun| && model.begun[read] == Read(id, generation)
      modifies this
      ensures Valid() && generations == old(generations) && model == Apply(old(model), Land(read))
      ensures entries == if Lands(old(model), read) then old(entries)[id := Entry(now, generation, backend, value)]
                         else old(entries)
      ensures brought == if Lands(old(model), read) then old(brought)[read := Entry(now, generation, backend, value)]
                         else old(brought)
    {
      KnownStep(model, Land(read));
      ghost var before := model;
      model := Apply(model, Land(read));
      if (if id in generations then generations[id] else 0) != generation {
        return;
      }
      entries := entries[id := Entry(now, generation, backend, value)];
      brought := brought[read := Entry(now, generation, backend, value)];
      forall c | c in entries ensures BroughtByNewest(c) {
        if c != id { NewestOfAnother(before, model, c, read); }
      }
    }

    method Drop(id: ClusterId)
      requires Valid()
      modifies this
      ensures Valid() && model == Apply(old(model), Forget(id)) && entries == old(entries) - {id}
      ensures brought == old(brought)
    {
      KnownStep(model, Forget(id));
      GenerationAfterForget(model, id);
      model := Apply(model, Forget(id));
      entries := entries - {id};
      generations := generations[id := ((if id in generations then generations[id] else 0) + 1) % WRAP];
    }
  }

  /** Another cluster's newest read is not the one that landed. */
  lemma NewestOfAnother(s: State, t: State, id: ClusterId, read: nat)
    requires Known(s) && read < |s.begun| && s.begun[read].id != id && Landed(s, id) != []
    requires Landed(t, id) == Landed(s, id)
    ensures Newest(t, id) == Newest(s, id) != read
  {
    assert Newest(s, id) in Landed(s, id);
  }

  lemma GenerationAfterForget(s: State, id: ClusterId)
    ensures Generation(Apply(s, Forget(id)), id) == (Generation(s, id) + 1) % WRAP
    ensures forall c | c != id :: Generation(Apply(s, Forget(id)), c) == Generation(s, c)
  {
    var n := Forgets(s, id);
    assert n == (n / WRAP) * WRAP + n % WRAP;
  }

  // ---- The key of a backend ----

  function BackendKey(ns: string, service: string): string { ns + "/" + service }

  /** Two backends share an entry only when they are the same: a namespace holds no slash. */
  lemma BackendKeyIdentifies(ns: string, service: string, ns2: string, service2: string)
    requires '/' !in ns && '/' !in ns2
    ensures BackendKey(ns, service) == BackendKey(ns2, service2) <==> ns == ns2 && service == service2
  {
    Text.SeparatorSplits(ns, '/', service, ns2, service2);
    assert BackendKey(ns, service) == ns + ['/'] + service;
    assert BackendKey(ns2, service2) == ns2 + ['/'] + service2;
  }
}
