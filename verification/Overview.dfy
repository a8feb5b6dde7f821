/** Shared assessments (app/application/overview.go). */
module OverviewProtocol {
  // A cache and a table of assessments in flight under one mutex, and callers that lead one or
  // wait for one. Each critical section is one step, and so is everything a caller does between.

  import opened Options

  type ClusterId = string

  /** Identities: an overviewCall pointer, and one call of OverviewWithin. */
  type AssessmentId = nat

  datatype Answer = Overview(value: string) | Failure(error: string) | NotConnected | GaveUp

  /** An assessment: who runs it, what it came to, and whether its channel is closed. */
  datatype Assessment = Assessment(cluster: ClusterId, leader: nat, answer: Option<Answer>, done: bool)

  datatype Phase =
    | Arriving
    | Refused
    | Looking
    | Assessing(leads: AssessmentId)
    | Filing(leads: AssessmentId)
    | Closing(leads: AssessmentId)
    | Waiting(awaits: AssessmentId)
    | Returned(answer: Answer, source: Source)

  /** Where an answer came from. */
  datatype Source = Cached(at: int, asked: int, from: AssessmentId) | Led(of: AssessmentId) | Shared(of: AssessmentId) | Own

  datatype Caller = Caller(cluster: ClusterId, maxAge: int, phase: Phase)

  datatype Entry = Entry(at: int, value: string, from: AssessmentId)

  datatype State = State(
    cache: map<ClusterId, Entry>,
    inflight: map<ClusterId, AssessmentId>,
    assessments: seq<Assessment>,
    callers: seq<Caller>,
    clock: int)

  function Init(clock: int): State { State(map[], map[], [], [], clock) }

  datatype Event =
    | Arrive(id: ClusterId, maxAge: int)
    | CheckRegistry(k: nat, open: bool)
    | Refuse(k: nat)
    | Look(k: nat, now: int)
    | Assess(k: nat, answer: Answer)
    | File(k: nat, now: int)
    | CloseDone(k: nat)
    | Receive(k: nat)
    | GiveUp(k: nat)
    | Invalidate(id: ClusterId)

  predicate Enabled(s: State, e: Event) {
    match e
    case Arrive(_, _) => true
    case CheckRegistry(k, _) => k < |s.callers| && s.callers[k].phase.Arriving?
    case Refuse(k) => k < |s.callers| && s.callers[k].phase.Refused?
    case Look(k, now) => k < |s.callers| && s.callers[k].phase.Looking? && s.clock <= now
    case Assess(k, answer) => k < |s.callers| && s.callers[k].phase.Assessing?
                              && s.callers[k].phase.leads < |s.assessments| && (answer.Overview? || answer.Failure?)
    case File(k, now) => k < |s.callers| && s.callers[k].phase.Filing? && s.clock <= now
                         && s.callers[k].phase.leads < |s.assessments| && s.assessments[s.callers[k].phase.leads].answer.Some?
    case CloseDone(k) => k < |s.callers| && s.callers[k].phase.Closing?
                         && s.callers[k].phase.leads < |s.assessments| && s.assessments[s.callers[k].phase.leads].answer.Some?
    case Receive(k) => k < |s.callers| && s.callers[k].phase.Waiting? && s.callers[k].phase.awaits < |s.assessments|
                       && s.assessments[s.callers[k].phase.awaits].done
                       && s.assessments[s.callers[k].phase.awaits].answer.Some?
    case GiveUp(k) => k < |s.callers| && s.callers[k].phase.Waiting?
    case Invalidate(_) => true
  }

  function SetPhase(s: State, k: nat, phase: Phase): State
    requires k < |s.callers|
  {
    s.(callers := s.callers[k := s.callers[k].(phase := phase)])
  }

  predicate Fresh(s: State, k: nat, now: int)
    requires k < |s.callers|
  {
    var id, maxAge := s.callers[k].cluster, s.callers[k].maxAge;
    id in s.cache && maxAge > 0 && now - s.cache[id].at <= maxAge
  }

  /** The first critical section: the cache, then the assessment in flight, then a new one. */
  function LookStep(s: State, k: nat, now: int): State
    requires k < |s.callers|
  {
    var id := s.callers[k].cluster;
    if Fresh(s, k, now) then
      var entry := s.cache[id];
      SetPhase(s, k, Returned(Overview(entry.value), Cached(entry.at, now, entry.from))).(clock := now)
    else if id in s.inflight then SetPhase(s, k, Waiting(s.inflight[id])).(clock := now)
    else
      SetPhase(s, k, Assessing(|s.assessments|)).(
        assessments := s.assessments + [Assessment(id, k, None, false)],
        inflight := s.inflight[id := |s.assessments|], clock := now)
  }

  /** The second: the assessment is no longer in flight, and a good one is kept. */
  function FileStep(s: State, k: nat, now: int): State
    requires Enabled(s, File(k, now))
  {
    var id, a := s.callers[k].cluster, s.callers[k].phase.leads;
    var answer := s.assessments[a].answer.value;
    SetPhase(s, k, Closing(a)).(inflight := s.inflight - {id}, clock := now,
      cache := if answer.Overview? then s.cache[id := Entry(now, answer.value, a)] else s.cache)
  }

  function Apply(s: State, e: Event): State
    requires Enabled(s, e)
  {
    match e
    case Arrive(id, maxAge) => s.(callers := s.callers + [Caller(id, maxAge, Arriving)])
    case CheckRegistry(k, open) => SetPhase(s, k, if open then Looking else Refused)
    case Refuse(k) => SetPhase(s, k, Returned(NotConnected, Own)).(cache := s.cache - {s.callers[k].cluster})
    case Look(k, now) => LookStep(s, k, now)
    case Assess(k, answer) =>
      var a := s.callers[k].phase.leads;
      SetPhase(s, k, Filing(a)).(assessments := s.assessments[a := s.assessments[a].(answer := Some(answer))])
    case File(k, now) => FileStep(s, k, now)
    case CloseDone(k) =>
      var a := s.callers[k].phase.leads;
      SetPhase(s, k, Returned(s.assessments[a].answer.value, Led(a))).(
        assessments := s.assessments[a := s.assessments[a].(done := true)])
    case Receive(k) =>
      var a := s.callers[k].phase.awaits;
      SetPhase(s, k, Returned(s.assessments[a].answer.value, Shared(a)))
    case GiveUp(k) => SetPhase(s, k, Returned(GaveUp, Own))
    case Invalidate(id) => s.(cache := s.cache - {id})
  }

  ghost predicate Run(s: State, es: seq<Event>, t: State)
    decreases |es|
  {
    if es == [] then s == t
    else Enabled(s, es[0]) && Run(Apply(s, es[0]), es[1..], t)
  }

  // ---- What every step keeps ----

  predicate Leads(c: Caller, a: AssessmentId) {
    match c.phase
    case Assessing(b) => a == b
    case Filing(b) => a == b
    case Closing(b) => a == b
    case _ => false
  }

  /** Under way: led by a caller that has not filed it. */
  predicate UnderWay(c: Caller, a: AssessmentId) {
    match c.phase
    case Assessing(b) => a == b
    case Filing(b) => a == b
    case _ => false
  }

  predicate LeaderKept(s: State, k: nat, a: AssessmentId)
    requires k < |s.callers|
  {
    && a < |s.assessments| && s.assessments[a].cluster == s.callers[k].cluster && s.assessments[a].leader == k
    && !s.assessments[a].done
    && (s.callers[k].phase.Assessing? <==> s.assessments[a].answer.None?)
    && (!s.callers[k].phase.Closing? ==>
          s.callers[k].cluster in s.inflight && s.inflight[s.callers[k].cluster] == a)
  }

  predicate Settled(s: State, a: AssessmentId, id: ClusterId, answer: Answer) {
    a < |s.assessments| && s.assessments[a].cluster == id && s.assessments[a].answer == Some(answer)
  }

  predicate SourceKept(s: State, c: Caller, answer: Answer, source: Source) {
    match source
    case Cached(at, asked, from) => c.maxAge > 0 && asked - at <= c.maxAge && at <= asked <= s.clock
                                    && Settled(s, from, c.cluster, answer)
    case Led(a) => Settled(s, a, c.cluster, answer) && s.assessments[a].done
    case Shared(a) => Settled(s, a, c.cluster, answer) && s.assessments[a].done
    case Own => true
  }

  predicate CallerKept(s: State, k: nat)
    requires k < |s.callers|
  {
    var c := s.callers[k];
    match c.phase
    case Assessing(a) => LeaderKept(s, k, a)
    case Filing(a) => LeaderKept(s, k, a)
    case Closing(a) => LeaderKept(s, k, a)
    case Waiting(a) => a < |s.assessments| && s.assessments[a].cluster == c.cluster
    case Returned(answer, source) => SourceKept(s, c, answer, source)
    case _ => true
  }

  ghost predicate Callers(s: State) {
    forall k: nat | k < |s.callers| :: CallerKept(s, k)
  }

  /** An assessment not yet done has its leader at work on it; one that is done has an answer. */
  predicate AssessmentKept(s: State, a: AssessmentId)
    requires a < |s.assessments|
  {
    var x := s.assessments[a];
    if x.done then x.answer.Some? else x.leader < |s.callers| && Leads(s.callers[x.leader], a)
  }

  /** What is in flight is the cluster's, and its leader has not filed it. */
  predicate FlightKept(s: State, id: ClusterId)
    requires id in s.inflight
  {
    var a := s.inflight[id];
    && a < |s.assessments| && s.assessments[a].cluster == id
    && s.assessments[a].leader < |s.callers| && UnderWay(s.callers[s.assessments[a].leader], a)
  }

  ghost predicate Assessments(s: State) {
    && (forall a: nat | a < |s.assessments| :: AssessmentKept(s, a))
    && (forall id | id in s.inflight :: FlightKept(s, id))
  }

  /** What is cached is what an assessment of the cluster came to. */
  predicate Cache(s: State) {
    forall id | id in s.cache :: s.cache[id].at <= s.clock && Settled(s, s.cache[id].from, id, Overview(s.cache[id].value))
  }

  ghost predicate Inv(s: State) { Callers(s) && Assessments(s) && Cache(s) }

  // ---- The steps keep it ----

  /** One caller moved on; no answer was lost. */
  ghost predicate Moved(s: State, t: State, k: nat) {
    && k < |s.callers| && |t.callers| == |s.callers| && t.callers[k].cluster == s.callers[k].cluster
    && (forall m: nat | m < |s.callers| && m != k :: t.callers[m] == s.callers[m])
    && |s.assessments| <= |t.assessments| && s.clock <= t.clock
    && (forall a: nat | a < |s.assessments| ::
          t.assessments[a].cluster == s.assessments[a].cluster && t.assessments[a].leader == s.assessments[a].leader
          && (s.assessments[a].answer.Some? ==> t.assessments[a].answer == s.assessments[a].answer)
          && (s.assessments[a].done ==> t.assessments[a].done))
  }

  /** The callers that did not move are still right, when the assessments they lead did not
      change and their clusters' flights did not end. */
  lemma OthersKept(s: State, t: State, k: nat)
    requires Moved(s, t, k) && Callers(s)
    requires forall a: nat | a < |s.assessments| && s.assessments[a].leader != k :: t.assessments[a] == s.assessments[a]
    requires forall id | id in s.inflight && s.inflight[id] < |s.assessments| && s.assessments[s.inflight[id]].leader != k ::
      id in t.inflight && t.inflight[id] == s.inflight[id]
    ensures forall m: nat | m < |t.callers| && m != k :: CallerKept(t, m)
  {
    forall m: nat | m < |t.callers| && m != k ensures CallerKept(t, m) {
      assert CallerKept(s, m);
    }
  }

  lemma ArriveKeeps(s: State, id: ClusterId, maxAge: int)
    requires Inv(s)
    ensures Inv(Apply(s, Arrive(id, maxAge)))
  {
    var t := Apply(s, Arrive(id, maxAge));
    forall k: nat | k < |t.callers| ensures CallerKept(t, k) {
      if k < |s.callers| { assert CallerKept(s, k); }
    }
    forall a: nat | a < |t.assessments| ensures AssessmentKept(t, a) {
      assert AssessmentKept(s, a);
    }
    forall id | id in t.inflight ensures FlightKept(t, id) {
      assert FlightKept(s, id);
    }
  }

  lemma InvalidateKeeps(s: State, id: ClusterId)
    requires Inv(s)
    ensures Inv(Apply(s, Invalidate(id)))
  {
    var t := Apply(s, Invalidate(id));
    forall k: nat | k < |t.callers| ensures CallerKept(t, k) {
      assert CallerKept(s, k);
    }
    forall a: nat | a < |t.assessments| ensures AssessmentKept(t, a) {
      assert AssessmentKept(s, a);
    }
    forall c | c in t.inflight ensures FlightKept(t, c) {
      assert FlightKept(s, c);
    }
  }

  /** A step of a caller that leads nothing, before or after, and changes nothing shared but
      what it drops from the cache. */
  lemma QuietKeeps(s: State, t: State, k: nat)
    requires Inv(s) && Moved(s, t, k) && t.assessments == s.assessments && t.inflight == s.inflight
    requires forall a :: !Leads(s.callers[k], a) && !Leads(t.callers[k], a)
    requires CallerKept(t, k)
    requires t.cache.Keys <= s.cache.Keys && forall id | id in t.cache :: t.cache[id] == s.cache[id]
    ensures Inv(t)
  {
    OthersKept(s, t, k);
    forall a: nat | a < |t.assessments| ensures AssessmentKept(t, a) {
      assert AssessmentKept(s, a);
    }
    forall id | id in t.inflight ensures FlightKept(t, id) {
      assert FlightKept(s, id);
      assert Leads(s.callers[s.assessments[s.inflight[id]].leader], s.inflight[id]);
    }
  }

  lemma LookKeeps(s: State, k: nat, now: int)
    requires Inv(s) && Enabled(s, Look(k, now))
    ensures Inv(LookStep(s, k, now))
  {
    var t, id := LookStep(s, k, now), s.callers[k].cluster;
    if Fresh(s, k, now) || id in s.inflight {
      assert id in s.inflight ==> FlightKept(s, id);
      QuietKeeps(s, t, k);
    } else {
      LeadKeeps(s, k, now);
    }
  }

  /** A caller that finds nothing becomes the leader of a new assessment. */
  lemma LeadKeeps(s: State, k: nat, now: int)
    requires Inv(s) && Enabled(s, Look(k, now)) && !Fresh(s, k, now) && s.callers[k].cluster !in s.inflight
    ensures Inv(LookStep(s, k, now))
  {
    var t := LookStep(s, k, now);
    forall a: nat | a < |t.assessments| ensures AssessmentKept(t, a) {
      if a < |s.assessments| { assert AssessmentKept(s, a); }
    }
    forall id | id in t.inflight ensures FlightKept(t, id) {
      if id in s.inflight { assert FlightKept(s, id); }
    }
    assert CallerKept(t, k);
    OthersKept(s, t, k);
  }

  lemma AssessKeeps(s: State, k: nat, answer: Answer)
    requires Inv(s) && Enabled(s, Assess(k, answer))
    ensures Inv(Apply(s, Assess(k, answer)))
  {
    var t := Apply(s, Assess(k, answer));
    assert CallerKept(s, k);
    forall a: nat | a < |t.assessments| ensures AssessmentKept(t, a) {
      assert AssessmentKept(s, a);
    }
    forall id | id in t.inflight ensures FlightKept(t, id) {
      assert FlightKept(s, id);
    }
    assert CallerKept(t, k);
    OthersKept(s, t, k);
  }

  lemma FileKeeps(s: State, k: nat, now: int)
    requires Inv(s) && Enabled(s, File(k, now))
    ensures Inv(Apply(s, File(k, now)))
  {
    var t := Apply(s, File(k, now));
    assert CallerKept(s, k);
    forall a: nat | a < |t.assessments| ensures AssessmentKept(t, a) {
      assert AssessmentKept(s, a);
    }
    forall id | id in t.inflight ensures FlightKept(t, id) {
      assert FlightKept(s, id);
    }
    assert CallerKept(t, k);
    forall id | id in s.inflight && id !in t.inflight ensures s.assessments[s.inflight[id]].leader == k {
      assert FlightKept(s, id);
    }
    OthersKept(s, t, k);
  }

  lemma CloseDoneKeeps(s: State, k: nat)
    requires Inv(s) && Enabled(s, CloseDone(k))
    ensures Inv(Apply(s, CloseDone(k)))
  {
    var t := Apply(s, CloseDone(k));
    assert CallerKept(s, k);
    forall a: nat | a < |t.assessments| ensures AssessmentKept(t, a) {
      assert AssessmentKept(s, a);
    }
    forall id | id in t.inflight ensures FlightKept(t, id) {
      assert FlightKept(s, id);
    }
    assert CallerKept(t, k);
    OthersKept(s, t, k);
  }

  /** Every step keeps the invariant. */
  lemma Step(s: State, e: Event)
    requires Inv(s) && Enabled(s, e)
    ensures Inv(Apply(s, e))
  {
    match e
    case Arrive(id, maxAge) => ArriveKeeps(s, id, maxAge);
    case Invalidate(id) => InvalidateKeeps(s, id);
    case Look(k, now) => LookKeeps(s, k, now);
    case Assess(k, answer) => AssessKeeps(s, k, answer);
    case File(k, now) => FileKeeps(s, k, now);
    case CloseDone(k) => CloseDoneKeeps(s, k);
    case Receive(k) =>
      assert CallerKept(s, k);
      QuietKeeps(s, Apply(s, e), k);
    case CheckRegistry(k, _) => QuietKeeps(s, Apply(s, e), k);
    case Refuse(k) => QuietKeeps(s, Apply(s, e), k);
    case GiveUp(k) => QuietKeeps(s, Apply(s, e), k);
  }

  // ---- Whole runs ----

  lemma {:induction false} RunKeeps(s: State, es: seq<Event>, t: State)
    requires Inv(s) && Run(s, es, t)
    ensures Inv(t)
    decreases |es|
  {
    if es != [] {
      Step(s, es[0]);
      RunKeeps(Apply(s, es[0]), es[1..], t);
    }
  }

  ghost predicate Reachable(s: State) {
    exists clock, es: seq<Event> :: Run(Init(clock), es, s)
  }

  lemma ReachableInv(s: State)
    requires Reachable(s)
    ensures Inv(s)
  {
    var clock, es: seq<Event> :| Run(Init(clock), es, s);
    RunKeeps(Init(clock), es, s);
  }

  lemma {:induction false} RunExtends(s: State, es: seq<Event>, t: State, e: Event)
    requires Run(s, es, t) && Enabled(t, e)
    ensures Run(s, es + [e], Apply(t, e))
    decreases |es|
  {
    if es == [] {
      assert [e][1..] == [];
    } else {
      RunExtends(Apply(s, es[0]), es[1..], t, e);
      assert (es + [e])[1..] == es[1..] + [e];
    }
  }

  lemma ReachableStep(s: State, e: Event)
    requires Reachable(s) && Enabled(s, e)
    ensures Reachable(Apply(s, e))
  {
    var clock, es: seq<Event> :| Run(Init(clock), es, s);
    RunExtends(Init(clock), es, s, e);
  }

  /** At most one shared assessment of a cluster is under way. */
  lemma OneAssessmentPerCluster(s: State, k: nat, m: nat, a: AssessmentId, b: AssessmentId)
    requires Reachable(s) && OpenLeader(s, a, k) && OpenLeader(s, b, m)
    requires s.callers[k].cluster == s.callers[m].cluster
    ensures k == m && a == b
  {
    ReachableInv(s);
    assert CallerKept(s, k) && CallerKept(s, m);
  }

  predicate OpenLeader(s: State, a: AssessmentId, k: nat) {
    k < |s.callers| && UnderWay(s.callers[k], a)
  }

  /** A waiter that is not cancelled returns the leader's own answer, and so does the leader:
      two callers that return from one assessment return the same. */
  lemma WaitersShareTheAnswer(s: State, k: nat, m: nat, a: AssessmentId)
    requires Reachable(s) && k < |s.callers| && m < |s.callers|
    requires s.callers[k].phase.Returned? && (s.callers[k].phase.source == Led(a) || s.callers[k].phase.source == Shared(a))
    requires s.callers[m].phase.Returned? && (s.callers[m].phase.source == Led(a) || s.callers[m].phase.source == Shared(a))
    ensures s.callers[k].phase.answer == s.callers[m].phase.answer && s.callers[k].cluster == s.callers[m].cluster
    ensures Settled(s, a, s.callers[k].cluster, s.callers[k].phase.answer)
  {
    ReachableInv(s);
    assert CallerKept(s, k) && CallerKept(s, m);
  }

  /** A cached answer is no older than its caller asked, and is what an assessment of the
      caller's own cluster came to. */
  lemma CachedAnswerIsFresh(s: State, k: nat)
    requires Reachable(s) && k < |s.callers| && s.callers[k].phase.Returned? && s.callers[k].phase.source.Cached?
    ensures var c := s.callers[k]; var src := c.phase.source;
      && c.maxAge > 0 && 0 <= src.asked - src.at <= c.maxAge
      && Settled(s, src.from, c.cluster, c.phase.answer)
  {
    ReachableInv(s);
    assert CallerKept(s, k);
  }

  /** What drops a cluster's entry: a disconnect, or a caller finding the cluster closed. */
  predicate Forgets(s: State, e: Event, id: ClusterId)
    requires Enabled(s, e)
  {
    e == Invalidate(id) || (e.Refuse? && s.callers[e.k].cluster == id)
  }

  ghost predicate NeverForgets(s: State, es: seq<Event>, id: ClusterId)
    decreases |es|
  {
    es == [] || (Enabled(s, es[0]) && !Forgets(s, es[0], id) && NeverForgets(Apply(s, es[0]), es[1..], id))
  }

  /** Between forgets a cluster's entry stays, and its time never moves backwards. */
  lemma {:induction false} CachedTimeNeverMovesBack(s: State, es: seq<Event>, t: State, id: ClusterId)
    requires Inv(s) && Run(s, es, t) && NeverForgets(s, es, id) && id in s.cache
    ensures id in t.cache && s.cache[id].at <= t.cache[id].at
    decreases |es|
  {
    if es != [] {
      Step(s, es[0]);
      CachedTimeNeverMovesBack(Apply(s, es[0]), es[1..], t, id);
    }
  }

  // ---- Assessments that straddle a forget ----

  /** Nothing older than `n` is cached for the cluster, or can still be filed for it. */
  ghost predicate Since(s: State, id: ClusterId, n: nat) {
    && n <= |s.assessments|
    && (id in s.cache ==> n <= s.cache[id].from)
    && (id in s.inflight ==> n <= s.inflight[id])
  }

  lemma SinceStep(s: State, e: Event, id: ClusterId, n: nat)
    requires Inv(s) && Enabled(s, e) && Since(s, id, n)
    ensures Since(Apply(s, e), id, n)
  {
    if e.File? {
      assert CallerKept(s, e.k);
    }
  }

  lemma {:induction false} SinceRun(s: State, es: seq<Event>, t: State, id: ClusterId, n: nat)
    requires Inv(s) && Run(s, es, t) && Since(s, id, n)
    ensures Since(t, id, n)
    decreases |es|
  {
    if es != [] {
      SinceStep(s, es[0], id, n);
      Step(s, es[0]);
      SinceRun(Apply(s, es[0]), es[1..], t, id, n);
    }
  }

  /** Some run from here caches, for the cluster, an assessment begun before now. */
  ghost predicate CanCacheStale(s: State, id: ClusterId) {
    exists es: seq<Event>, t :: Run(s, es, t) && id in t.cache && t.cache[id].from < |s.assessments|
  }

  /** Finishes the assessment in flight, successfully. */
  lemma FinishFlight(s: State, id: ClusterId) returns (es: seq<Event>, t: State)
    requires Inv(s) && id in s.inflight
    requires var a := s.inflight[id]; s.assessments[a].answer.None? || s.assessments[a].answer.value.Overview?
    ensures Run(s, es, t) && id in t.cache && t.cache[id].from == s.inflight[id]
  {
    assert FlightKept(s, id);
    var a := s.inflight[id];
    var k := s.assessments[a].leader;
    assert CallerKept(s, k);
    var u := s;
    es := [];
    if s.callers[k].phase.Assessing? {
      es := [Assess(k, Overview(""))];
      u := Apply(s, es[0]);
      assert es[1..] == [];
      assert Run(s, es, u);
    }
    t := Apply(u, File(k, u.clock));
    RunExtends(s, es, u, File(k, u.clock));
    es := es + [File(k, u.clock)];
  }

  /** A disconnect forgets for good exactly when no assessment is in flight that may yet
      succeed: otherwise one begun before it can still be cached after it. */
  lemma ForgetHoldsExactlyWhen(s: State, id: ClusterId)
    requires Reachable(s)
    ensures id in s.inflight ==> s.inflight[id] < |s.assessments|
    ensures CanCacheStale(Apply(s, Invalidate(id)), id) <==>
      id in s.inflight && (var x := s.assessments[s.inflight[id]].answer; x.None? || x.value.Overview?)
  {
    ReachableInv(s);
    InvalidateKeeps(s, id);
    var t := Apply(s, Invalidate(id));
    if id in s.inflight {
      assert FlightKept(s, id);
      var answer := s.assessments[s.inflight[id]].answer;
      if answer.None? || answer.value.Overview? {
        var es, u := FinishFlight(t, id);
      } else {
        FailedFlightCachesNothing(t, id);
      }
    } else {
      NothingStale(t, id);
    }
  }

  lemma NothingStale(s: State, id: ClusterId)
    requires Inv(s) && Since(s, id, |s.assessments|)
    ensures !CanCacheStale(s, id)
  {
    forall es: seq<Event>, t | Run(s, es, t) ensures id in t.cache ==> t.cache[id].from >= |s.assessments| {
      SinceRun(s, es, t, id, |s.assessments|);
    }
  }

  /** With a failed assessment in flight, nothing of the cluster older than `n` can be cached. */
  ghost predicate FailedSince(s: State, id: ClusterId, n: nat) {
    && n <= |s.assessments|
    && (id in s.cache ==> n <= s.cache[id].from)
    && (id in s.inflight ==> n <= s.inflight[id] || HasFailed(s, s.inflight[id]))
  }

  predicate HasFailed(s: State, a: AssessmentId) {
    a < |s.assessments| && s.assessments[a].answer.Some? && !s.assessments[a].answer.value.Overview?
  }

  lemma FailedSinceStep(s: State, e: Event, id: ClusterId, n: nat)
    requires Inv(s) && Enabled(s, e) && FailedSince(s, id, n)
    ensures FailedSince(Apply(s, e), id, n)
  {
    if e.File? || e.Assess? || e.CloseDone? {
      assert CallerKept(s, e.k);
    }
  }

  lemma {:induction false} FailedSinceRun(s: State, es: seq<Event>, t: State, id: ClusterId, n: nat)
    requires Inv(s) && Run(s, es, t) && FailedSince(s, id, n)
    ensures FailedSince(t, id, n)
    decreases |es|
  {
    if es != [] {
      FailedSinceStep(s, es[0], id, n);
      Step(s, es[0]);
      FailedSinceRun(Apply(s, es[0]), es[1..], t, id, n);
    }
  }

  lemma FailedFlightCachesNothing(s: State, id: ClusterId)
    requires Inv(s) && FailedSince(s, id, |s.assessments|)
    ensures !CanCacheStale(s, id)
  {
    forall es: seq<Event>, t | Run(s, es, t) ensures id in t.cache ==> t.cache[id].from >= |s.assessments| {
      FailedSinceRun(s, es, t, id, |s.assessments|);
    }
  }

  /** The leader's next step towards closing its assessment. */
  function Onward(s: State, m: nat): Event
    requires m < |s.callers|
  {
    match s.callers[m].phase
    case Assessing(_) => Assess(m, Failure(""))
    case Filing(_) => File(m, s.clock)
    case _ => CloseDone(m)
  }

  function Ahead(c: Caller): nat {
    if c.phase.Assessing? then 3 else if c.phase.Filing? then 2 else 1
  }

  lemma OnwardStep(s: State, m: nat, a: AssessmentId, k: nat)
    requires Inv(s) && m < |s.callers| && Leads(s.callers[m], a)
    requires k < |s.callers| && s.callers[k].phase == Waiting(a)
    ensures Enabled(s, Onward(s, m))
    ensures var t := Apply(s, Onward(s, m));
      && m < |t.callers| && k < |t.callers| && t.callers[k] == s.callers[k]
      && if s.callers[m].phase.Closing? then Enabled(t, Receive(k))
         else Leads(t.callers[m], a) && Ahead(t.callers[m]) < Ahead(s.callers[m])
  {
    assert CallerKept(s, m) && CallerKept(s, k);
  }

  lemma {:induction false} LeaderCanClose(s: State, m: nat, a: AssessmentId, k: nat) returns (es: seq<Event>, t: State)
    requires Inv(s) && m < |s.callers| && Leads(s.callers[m], a)
    requires k < |s.callers| && s.callers[k].phase == Waiting(a)
    ensures Run(s, es, t) && Enabled(t, Receive(k)) && |es| <= Ahead(s.callers[m]) && t.callers[k] == s.callers[k] && Inv(t)
    ensures forall e | e in es :: (e.Assess? || e.File? || e.CloseDone?) && e.k == m
    decreases Ahead(s.callers[m])
  {
    var e := Onward(s, m);
    OnwardStep(s, m, a, k);
    Step(s, e);
    if s.callers[m].phase.Closing? {
      es, t := [e], Apply(s, e);
      assert es[1..] == [];
    } else {
      var rest;
      rest, t := LeaderCanClose(Apply(s, e), m, a, k);
      es := [e] + rest;
      assert es[1..] == rest;
    }
  }

  /** A waiter can always come back, within three steps of its leader's own. */
  lemma WaiterCanReturn(s: State, k: nat) returns (es: seq<Event>, t: State, m: nat)
    requires Reachable(s) && k < |s.callers| && s.callers[k].phase.Waiting?
    ensures Run(s, es, t) && Enabled(t, Receive(k)) && |es| <= 3
    ensures var a := s.callers[k].phase.awaits; a < |s.assessments| && m == s.assessments[a].leader
    ensures forall e | e in es :: (e.Assess? || e.File? || e.CloseDone?) && e.k == m
  {
    ReachableInv(s);
    assert CallerKept(s, k);
    m := s.assessments[s.callers[k].phase.awaits].leader;
    es, t := WaiterComesBack(s, k);
  }

  lemma WaiterComesBack(s: State, k: nat) returns (es: seq<Event>, t: State)
    requires Inv(s) && k < |s.callers| && s.callers[k].phase.Waiting? && s.callers[k].phase.awaits < |s.assessments|
    ensures Run(s, es, t) && Enabled(t, Receive(k)) && |es| <= 3 && t.callers[k] == s.callers[k] && Inv(t)
    ensures var m := s.assessments[s.callers[k].phase.awaits].leader;
      forall e | e in es :: (e.Assess? || e.File? || e.CloseDone?) && e.k == m
  {
    var a := s.callers[k].phase.awaits;
    var m := s.assessments[a].leader;
    assert AssessmentKept(s, a);
    if s.assessments[a].done {
      es, t := [], s;
    } else {
      es, t := LeaderCanClose(s, m, a, k);
    }
  }

  // ---- Callers who arrive after a forget ----

  /** Whatever the caller leads, waits for or was given was begun at `n` or later. */
  predicate NotBefore(p: Phase, n: nat) {
    match p
    case Assessing(a) => n <= a
    case Filing(a) => n <= a
    case Closing(a) => n <= a
    case Waiting(a) => n <= a
    case Returned(_, Cached(_, _, a)) => n <= a
    case Returned(_, Led(a)) => n <= a
    case Returned(_, Shared(a)) => n <= a
    case _ => true
  }

  /** Given an assessment begun before `n`. */
  predicate GivenStale(p: Phase, n: nat) { p.Returned? && !NotBefore(p, n) }

  /** The cluster's callers from `first` on have nothing to do with assessments from before `n`. */
  ghost predicate Newcomers(s: State, id: ClusterId, n: nat, first: nat) {
    && first <= |s.callers|
    && forall k: nat | first <= k < |s.callers| && s.callers[k].cluster == id :: NotBefore(s.callers[k].phase, n)
  }

  lemma NewcomersStep(s: State, e: Event, id: ClusterId, n: nat, first: nat)
    requires Inv(s) && Enabled(s, e) && Since(s, id, n) && Newcomers(s, id, n, first)
    ensures Newcomers(Apply(s, e), id, n, first)
  {
    var t := Apply(s, e);
    forall k: nat | first <= k < |t.callers| && t.callers[k].cluster == id ensures NotBefore(t.callers[k].phase, n) {
      if k < |s.callers| { assert NotBefore(s.callers[k].phase, n); }
    }
  }

  lemma {:induction false} NewcomersRun(s: State, es: seq<Event>, t: State, id: ClusterId, n: nat, first: nat)
    requires Inv(s) && Run(s, es, t) && Since(s, id, n) && Newcomers(s, id, n, first)
    ensures Newcomers(t, id, n, first)
    decreases |es|
  {
    if es != [] {
      NewcomersStep(s, es[0], id, n, first);
      SinceStep(s, es[0], id, n);
      Step(s, es[0]);
      NewcomersRun(Apply(s, es[0]), es[1..], t, id, n, first);
    }
  }

  /** Some run from here gives a caller yet to arrive an assessment of the cluster begun before now. */
  ghost predicate CanGiveStale(s: State, id: ClusterId) {
    exists es: seq<Event>, t, k: nat :: Run(s, es, t) && |s.callers| <= k < |t.callers|
      && t.callers[k].cluster == id && GivenStale(t.callers[k].phase, |s.assessments|)
  }

  /** The next caller finds nothing cached, joins the assessment in flight, and waits for it. */
  lemma JoinsFlight(s: State, id: ClusterId) returns (es: seq<Event>, t: State)
    requires Inv(s) && id in s.inflight && id !in s.cache
    ensures Run(s, es, t) && Inv(t) && |t.callers| == |s.callers| + 1
    ensures t.callers[|s.callers|] == Caller(id, 0, Waiting(s.inflight[id])) && s.inflight[id] < |s.assessments|
  {
    var k := |s.callers|;
    assert FlightKept(s, id);
    es, t := [], s;
    es, t := Then(s, es, t, Arrive(id, 0));
    es, t := Then(s, es, t, CheckRegistry(k, true));
    es, t := Then(s, es, t, Look(k, s.clock));
  }

  lemma Then(s: State, es: seq<Event>, u: State, e: Event) returns (more: seq<Event>, t: State)
    requires Inv(u) && Run(s, es, u) && Enabled(u, e)
    ensures more == es + [e] && t == Apply(u, e) && Run(s, more, t) && Inv(t)
  {
    RunExtends(s, es, u, e);
    Step(u, e);
    more, t := es + [e], Apply(u, e);
  }

  lemma {:induction false} RunJoin(s: State, es: seq<Event>, t: State, fs: seq<Event>, u: State)
    requires Run(s, es, t) && Run(t, fs, u)
    ensures Run(s, es + fs, u)
    decreases |es|
  {
    if es == [] {
      assert es + fs == fs;
    } else {
      RunJoin(Apply(s, es[0]), es[1..], t, fs, u);
      assert (es + fs)[1..] == es[1..] + fs;
    }
  }

  lemma FlightReachesNewcomer(s: State, id: ClusterId)
    requires Inv(s) && id in s.inflight && id !in s.cache
    ensures CanGiveStale(s, id)
  {
    var k := |s.callers|;
    var es, t := JoinsFlight(s, id);
    assert CallerKept(t, k);
    var fs, u := WaiterComesBack(t, k);
    RunJoin(s, es, t, fs, u);
    var gs, v := Then(s, es + fs, u, Receive(k));
    assert Run(s, gs, v) && GivenStale(v.callers[k].phase, |s.assessments|);
  }

  /** Exactly when: a caller who arrives after a disconnect can be given an assessment begun
      before it if and only if one is in flight, be it bound to fail or not. */
  lemma ArrivalExactlyWhen(s: State, id: ClusterId)
    requires Reachable(s)
    ensures CanGiveStale(Apply(s, Invalidate(id)), id) <==> id in s.inflight
  {
    ReachableInv(s);
    InvalidateKeeps(s, id);
    var t := Apply(s, Invalidate(id));
    if id in s.inflight {
      FlightReachesNewcomer(t, id);
    } else {
      forall es: seq<Event>, u | Run(t, es, u) ensures Newcomers(u, id, |t.assessments|, |t.callers|) {
        NewcomersRun(t, es, u, id, |t.assessments|, |t.callers|);
      }
    }
  }
}
