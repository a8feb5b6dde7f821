/** Sharing one read (app/application/metricsquery.go, traffic.go). */
module SharedReads {
  // A node check and a source probe are cached behind the generation guard, and callers who miss
  // the cache share one flight for each cluster and backend. The steps are those of a caller,
  // of a flight, and of a disconnect; any interleaving of them is a run.

  import Generations

  type ClusterId = string

  datatype Key = Key(id: ClusterId, backend: string)

  /** A shared read: the generation it was begun with, and whether it has left the table. */
  datatype Flight = Flight(key: Key, generation: nat, done: bool)

  /** Where an answer came from. */
  datatype Source = Cached(from: nat) | Shared(of: nat)

  /** A node check captures the generation before it looks in the cache, a probe after. */
  datatype Phase =
    | Ready(captured: nat)
    | Looking
    | Capturing
    | Joining(generation: nat)
    | Waiting(flight: nat)
    | Got(source: Source)
    | GaveUp

  datatype Caller = Caller(key: Key, phase: Phase)

  datatype Entry = Entry(backend: string, from: nat)

  datatype State = State(
    forgets: map<ClusterId, nat>,
    cache: map<ClusterId, Entry>,
    table: map<Key, nat>,
    flights: seq<Flight>,
    callers: seq<Caller>)

  const INIT := State(map[], map[], map[], [], [])

  datatype Event =
    | Check(key: Key)
    | Probe(key: Key)
    | Look(k: nat, young: bool)
    | Capture(k: nat)
    | Join(k: nat)
    | Receive(k: nat)
    | GiveUp(k: nat)
    | Put(f: nat)
    | End(f: nat)
    | Forget(id: ClusterId)

  function Forgets(s: State, id: ClusterId): nat {
    if id in s.forgets then s.forgets[id] else 0
  }

  function Generation(s: State, id: ClusterId): nat { Forgets(s, id) % Generations.WRAP }

  predicate Enabled(s: State, e: Event) {
    match e
    case Check(_) => true
    case Probe(_) => true
    case Look(k, _) => k < |s.callers| && (s.callers[k].phase.Ready? || s.callers[k].phase.Looking?)
    case Capture(k) => k < |s.callers| && s.callers[k].phase.Capturing?
    case Join(k) => k < |s.callers| && s.callers[k].phase.Joining?
    case Receive(k) => k < |s.callers| && s.callers[k].phase.Waiting?
                       && s.callers[k].phase.flight < |s.flights| && s.flights[s.callers[k].phase.flight].done
    case GiveUp(k) => k < |s.callers| && s.callers[k].phase.Waiting?
    case Put(f) => f < |s.flights| && !s.flights[f].done
    case End(f) => f < |s.flights| && !s.flights[f].done
    case Forget(_) => true
  }

  function SetPhase(s: State, k: nat, phase: Phase): State
    requires k < |s.callers|
  {
    s.(callers := s.callers[k := s.callers[k].(phase := phase)])
  }

  predicate Hit(s: State, key: Key, young: bool) {
    young && key.id in s.cache && s.cache[key.id].backend == key.backend
  }

  /** A caller joins the flight of its key, or begins it with the generation it captured. */
  function JoinStep(s: State, k: nat): State
    requires k < |s.callers| && s.callers[k].phase.Joining?
  {
    var key, generation := s.callers[k].key, s.callers[k].phase.generation;
    if key in s.table then SetPhase(s, k, Waiting(s.table[key]))
    else SetPhase(s, k, Waiting(|s.flights|)).(flights := s.flights + [Flight(key, generation, false)],
                                               table := s.table[key := |s.flights|])
  }

  function Apply(s: State, e: Event): State
    requires Enabled(s, e)
  {
    match e
    case Check(key) => s.(callers := s.callers + [Caller(key, Ready(Generation(s, key.id)))])
    case Probe(key) => s.(callers := s.callers + [Caller(key, Looking)])
    case Look(k, young) =>
      var c := s.callers[k];
      SetPhase(s, k, if Hit(s, c.key, young) then Got(Cached(s.cache[c.key.id].from))
                     else if c.phase.Ready? then Joining(c.phase.captured) else Capturing)
    case Capture(k) => SetPhase(s, k, Joining(Generation(s, s.callers[k].key.id)))
    case Join(k) => JoinStep(s, k)
    case Receive(k) => SetPhase(s, k, Got(Shared(s.callers[k].phase.flight)))
    case GiveUp(k) => SetPhase(s, k, GaveUp)
    case Put(f) =>
      var id := s.flights[f].key.id;
      if Generation(s, id) != s.flights[f].generation then s
      else s.(cache := s.cache[id := Entry(s.flights[f].key.backend, f)])
    case End(f) => s.(flights := s.flights[f := s.flights[f].(done := true)], table := s.table - {s.flights[f].key})
    case Forget(id) => s.(forgets := s.forgets[id := Forgets(s, id) + 1], cache := s.cache - {id})
  }

  ghost predicate Run(s: State, es: seq<Event>, t: State)
    decreases |es|
  {
    if es == [] then s == t
    else Enabled(s, es[0]) && Run(Apply(s, es[0]), es[1..], t)
  }

  // ---- What every step keeps ----

  predicate InTable(s: State, f: nat)
    requires f < |s.flights|
  {
    s.flights[f].key in s.table && s.table[s.flights[f].key] == f
  }

  predicate Flew(s: State, f: nat, key: Key) { f < |s.flights| && s.flights[f].key == key }

  predicate PhaseKept(s: State, c: Caller) {
    match c.phase
    case Waiting(f) => Flew(s, f, c.key)
    case Got(Cached(f)) => Flew(s, f, c.key)
    case Got(Shared(f)) => Flew(s, f, c.key) && s.flights[f].done
    case _ => true
  }

  /** The table holds exactly the flights that are not done; what is cached, awaited and given
      is of its own key. */
  ghost predicate Inv(s: State) {
    && (forall key | key in s.table :: Flew(s, s.table[key], key) && !s.flights[s.table[key]].done)
    && (forall f: nat | f < |s.flights| && !s.flights[f].done :: InTable(s, f))
    && (forall id | id in s.cache :: Flew(s, s.cache[id].from, Key(id, s.cache[id].backend)))
    && (forall k: nat | k < |s.callers| :: PhaseKept(s, s.callers[k]))
  }

  /** A step of one caller that leaves the flights alone, or arrives. */
  lemma CallerStep(s: State, t: State)
    requires Inv(s) && t == s.(callers := t.callers) && |s.callers| <= |t.callers|
    requires forall k: nat | k < |t.callers| :: (k < |s.callers| && t.callers[k] == s.callers[k]) || PhaseKept(s, t.callers[k])
    ensures Inv(t)
  {
    forall f: nat | f < |t.flights| && !t.flights[f].done ensures InTable(t, f) {
      assert InTable(s, f);
    }
    forall k: nat | k < |t.callers| ensures PhaseKept(t, t.callers[k]) {
      if k < |s.callers| { assert PhaseKept(s, s.callers[k]); }
    }
  }

  lemma JoinKeeps(s: State, j: nat)
    requires Inv(s) && Enabled(s, Join(j))
    ensures Inv(JoinStep(s, j))
  {
    var t := JoinStep(s, j);
    forall f: nat | f < |t.flights| && !t.flights[f].done ensures InTable(t, f) {
      if f < |s.flights| { assert InTable(s, f); }
    }
    forall k: nat | k < |t.callers| ensures PhaseKept(t, t.callers[k]) {
      if k < |s.callers| { assert PhaseKept(s, s.callers[k]); }
    }
  }

  lemma FlightStep(s: State, e: Event)
    requires Inv(s) && Enabled(s, e) && (e.Put? || e.End? || e.Forget?)
    ensures Inv(Apply(s, e))
  {
    var t := Apply(s, e);
    forall f: nat | f < |t.flights| && !t.flights[f].done ensures InTable(t, f) {
      assert InTable(s, f);
    }
    forall k: nat | k < |t.callers| ensures PhaseKept(t, t.callers[k]) {
      assert PhaseKept(s, s.callers[k]);
    }
    if e.End? { assert InTable(s, e.f); }
  }

  /** Every step keeps the invariant. */
  lemma Step(s: State, e: Event)
    requires Inv(s) && Enabled(s, e)
    ensures Inv(Apply(s, e))
  {
    match e
    case Put(_) => FlightStep(s, e);
    case End(_) => FlightStep(s, e);
    case Forget(_) => FlightStep(s, e);
    case Join(k) => JoinKeeps(s, k);
    case _ => CallerStep(s, Apply(s, e));
  }

  lemma {:induction false} RunKeeps(s: State, es: seq<Event>, t: State)
    requires Inv(s) && Run(s, es, t)
    ensures Inv(t)
    decreases |es|
  {
    if es != [] {
      Step(s, es[0]);
      RunKeeps(Apply(s, es[0]), es[1..], t);
    }
  }

  ghost predicate Reachable(s: State) {
    exists es: seq<Event> :: Run(INIT, es, s)
  }

  lemma ReachableInv(s: State)
    requires Reachable(s)
    ensures Inv(s)
  {
    var es: seq<Event> :| Run(INIT, es, s);
    RunKeeps(INIT, es, s);
  }

  /** At most one read of a cluster and backend is in flight, and whoever is given an answer is
      given one of its own cluster and backend. */
  lemma OneFlightForEachKey(s: State, f: nat, g: nat, k: nat)
    requires Reachable(s)
    ensures Flying(s, f) && Flying(s, g) && s.flights[f].key == s.flights[g].key ==> f == g
    ensures k < |s.callers| && s.callers[k].phase.Got? ==>
      Flew(s, Given(s.callers[k].phase.source), s.callers[k].key)
  {
    ReachableInv(s);
    if Flying(s, f) { assert InTable(s, f); }
    if Flying(s, g) { assert InTable(s, g); }
    if k < |s.callers| { assert PhaseKept(s, s.callers[k]); }
  }

  predicate Flying(s: State, f: nat) { f < |s.flights| && !s.flights[f].done }

  function Given(source: Source): nat { if source.Cached? then source.from else source.of }

  // ---- Callers who arrive after a disconnect ----

  /** Whatever the caller waits for or was given was begun at `n` or later. */
  predicate NotBefore(p: Phase, n: nat) {
    match p
    case Waiting(f) => n <= f
    case Got(source) => n <= Given(source)
    case _ => true
  }

  /** Every flight of the cluster from before `n` is over, and nothing it brought is cached. */
  ghost predicate Since(s: State, id: ClusterId, n: nat) {
    && n <= |s.flights|
    && (forall f: nat | f < n && s.flights[f].key.id == id :: s.flights[f].done)
    && (id in s.cache ==> n <= s.cache[id].from)
  }

  ghost predicate Newcomers(s: State, id: ClusterId, n: nat, first: nat) {
    && first <= |s.callers|
    && forall k: nat | first <= k < |s.callers| && s.callers[k].key.id == id :: NotBefore(s.callers[k].phase, n)
  }

  lemma NewcomersStep(s: State, e: Event, id: ClusterId, n: nat, first: nat)
    requires Inv(s) && Enabled(s, e) && Since(s, id, n) && Newcomers(s, id, n, first)
    ensures Since(Apply(s, e), id, n) && Newcomers(Apply(s, e), id, n, first)
  {
    var t := Apply(s, e);
    forall k: nat | first <= k < |t.callers| && t.callers[k].key.id == id ensures NotBefore(t.callers[k].phase, n) {
      if k < |s.callers| { assert NotBefore(s.callers[k].phase, n); }
    }
  }

  lemma {:induction false} NewcomersRun(s: State, es: seq<Event>, t: State, id: ClusterId, n: nat, first: nat)
    requires Inv(s) && Run(s, es, t) && Since(s, id, n) && Newcomers(s, id, n, first)
    ensures Newcomers(t, id, n, first)
    decreases |es|
  {
    if es != [] {
      NewcomersStep(s, es[0], id, n, first);
      Step(s, es[0]);
      NewcomersRun(Apply(s, es[0]), es[1..], t, id, n, first);
    }
  }

  /** Some run from here gives a caller yet to arrive an answer begun before now. */
  ghost predicate CanGiveStale(s: State, id: ClusterId) {
    exists es: seq<Event>, t, k: nat :: Run(s, es, t) && |s.callers| <= k < |t.callers|
      && t.callers[k].key.id == id && t.callers[k].phase.Got? && !NotBefore(t.callers[k].phase, |s.flights|)
  }

  /** The next caller misses the cache, joins the flight, and is given what it ends with. */
  lemma FlightReachesNewcomer(s: State, key: Key)
    requires Inv(s) && key in s.table && key.id !in s.cache
    ensures CanGiveStale(s, key.id)
  {
    var k, f := |s.callers|, s.table[key];
    assert Run(s, [], s);
    var es, t := Then(s, [], s, Check(key));
    es, t := Then(s, es, t, Look(k, true));
    es, t := Then(s, es, t, Join(k));
    es, t := Then(s, es, t, End(f));
    es, t := Then(s, es, t, Receive(k));
    assert t.callers[k] == Caller(key, Got(Shared(f)));
  }

  lemma Then(s: State, es: seq<Event>, u: State, e: Event) returns (more: seq<Event>, t: State)
    requires Run(s, es, u) && Enabled(u, e)
    ensures more == es + [e] && t == Apply(u, e) && Run(s, more, t)
  {
    RunExtends(s, es, u, e);
    more, t := es + [e], Apply(u, e);
  }

  lemma {:induction false} RunExtends(s: State, es: seq<Event>, t: State, e: Event)
    requires Run(s, es, t) && Enabled(t, e)
    ensures Run(s, es + [e], Apply(t, e))
    decreases |es|
  {
    if es == [] {
      assert [e][1..] == [];
    } else {
      RunExtends(Apply(s, es[0]), es[1..], t, e);
      assert (es + [e])[1..] == es[1..] + [e];
    }
  }

  /** Exactly when: a caller who arrives after a disconnect can be given an answer begun before
      it if and only if some read of the cluster was in flight, whatever its generation: the
      guard keeps such an answer out of the cache, not out of the flight. */
  lemma JoinedExactlyWhen(s: State, id: ClusterId)
    requires Reachable(s)
    ensures CanGiveStale(Apply(s, Forget(id)), id) <==> exists key :: key in s.table && key.id == id
  {
    ReachableInv(s);
    var t := Apply(s, Forget(id));
    Step(s, Forget(id));
    if key :| key in s.table && key.id == id {
      FlightReachesNewcomer(t, key);
    } else {
      forall f: nat | f < |t.flights| && t.flights[f].key.id == id ensures t.flights[f].done {
        assert s.flights[f].done || InTable(s, f);
      }
      forall es: seq<Event>, u | Run(t, es, u) ensures Newcomers(u, id, |t.flights|, |t.callers|) {
        NewcomersRun(t, es, u, id, |t.flights|, |t.callers|);
      }
    }
  }
}
