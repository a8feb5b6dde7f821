/** The per-pod usage history (app/application/podusage.go). */
module UsageRing {
  // A bounded series for each pod, kept in place, against the unbounded log it stands for. Times
  // are nanoseconds.

  import opened Options
  import opened Generations
  import opened Sequences

  const SECOND := 1_000_000_000
  const MIN_USAGE_SPACING := 2 * SECOND
  const SWEEP_USAGE_EVERY := 300 * SECOND
  const USAGE_RING_MAX_AGE := 3600 * SECOND
  const USAGE_RING_CAPACITY := 200

  datatype UsagePoint = UsagePoint(at: int, cpuMilli: int, memoryBytes: int)

  datatype PodKey = PodKey(cluster: ClusterId, ns: string, name: string)

  datatype PodUsage = PodUsage(key: PodKey, measured: bool, cpuMilli: int, memoryBytes: int)

  type Series = seq<UsagePoint>

  function At(m: map<PodKey, Series>, key: PodKey): Series {
    if key in m then m[key] else []
  }

  predicate Close(series: Series, p: UsagePoint) {
    series != [] && p.at - series[|series| - 1].at < MIN_USAGE_SPACING
  }

  /** The unbounded log: reads of one tick are one point. */
  function Coalesced(log: Series, p: UsagePoint): Series {
    if Close(log, p) then log[..|log| - 1] + [p] else log + [p]
  }

  /** What is kept: at capacity, the oldest goes. */
  function Bounded(series: Series, p: UsagePoint): Series {
    if Close(series, p) then series[..|series| - 1] + [p]
    else if |series| >= USAGE_RING_CAPACITY then series[|series| - USAGE_RING_CAPACITY + 1..] + [p]
    else series + [p]
  }

  /** Consecutive points are apart, and so in order of time. */
  predicate Spaced(log: Series) {
    forall i, j | 0 <= i < j < |log| :: log[i].at + MIN_USAGE_SPACING <= log[j].at
  }

  predicate UpTo(log: Series, clock: int) {
    log != [] ==> log[|log| - 1].at <= clock
  }

  /** The series is the end of its log. */
  predicate EndOf(series: Series, log: Series) {
    |series| <= USAGE_RING_CAPACITY && |series| <= |log| && series == log[|log| - |series|..]
  }

  /** And is full, or what it lacks is too old to be served. */
  ghost predicate Refines(series: Series, log: Series, clock: int) {
    && EndOf(series, log)
    && (|series| == USAGE_RING_CAPACITY
        || forall i | 0 <= i < |log| - |series| :: log[i].at + USAGE_RING_MAX_AGE <= clock)
  }

  ghost predicate Kept(series: Series, log: Series, clock: int) {
    Refines(series, log, clock) && Spaced(log) && UpTo(log, clock)
  }

  /** A reading taken at `now` leaves the log spaced: it does not take the place of the last
      point so early that it comes right after the one before. */
  predicate Fits(log: Series, now: int) {
    |log| > 1 && now - log[|log| - 1].at < MIN_USAGE_SPACING ==> log[|log| - 2].at + MIN_USAGE_SPACING <= now
  }

  /** Exactly when: a point, whenever it was taken, leaves the log spaced if and only if it fits. */
  lemma SpacingExactlyWhen(log: Series, p: UsagePoint)
    requires Spaced(log)
    ensures Spaced(Coalesced(log, p)) <==> Fits(log, p.at)
  {
    var all := Coalesced(log, p);
    if Fits(log, p.at) && |all| > 1 {
      forall i | 0 <= i < |all| - 1 ensures all[i].at + MIN_USAGE_SPACING <= p.at {
        assert all[i].at <= all[|all| - 2].at;
      }
    }
    if !Fits(log, p.at) {
      assert all[|all| - 2].at + MIN_USAGE_SPACING > all[|all| - 1].at;
    }
  }

  /** One caller can overtake another between taking the time and filing: a reading of 1.9
      seconds filed after one of 2 seconds takes its place, right after the one of 0. */
  lemma OvertakenReadingCrowds(a: UsagePoint, b: UsagePoint, c: UsagePoint)
    requires a.at == 0 && b.at == 2 * SECOND && c.at == 2 * SECOND - SECOND / 10
    ensures Coalesced([a], b) == [a, b] && Spaced([a, b]) && !Fits([a, b], c.at)
    ensures Coalesced([a, b], c) == [a, c] && !Spaced([a, c])
  {
    assert [a, b][..1] == [a];
    assert [a, c][0].at + MIN_USAGE_SPACING > [a, c][1].at;
  }

  /** Filing a point, in order or not, keeps the bounded series the end of the unbounded log. */
  lemma BoundedEnds(series: Series, log: Series, p: UsagePoint)
    requires EndOf(series, log)
    ensures EndOf(Bounded(series, p), Coalesced(log, p))
  {
    if series == [] {
    } else if Close(series, p) {
      ReplaceLast(series, log, p);
    } else {
      AddLast(series, log, p);
    }
  }

  /** And what it lacks too old to be served, when the point fits. */
  lemma BoundedKeeps(series: Series, log: Series, clock: int, p: UsagePoint)
    requires Kept(series, log, clock) && p.at <= clock && Fits(log, p.at)
    ensures Kept(Bounded(series, p), Coalesced(log, p), clock)
  {
    SpacingExactlyWhen(log, p);
    BoundedRefines(series, log, clock, p);
  }

  lemma BoundedRefines(series: Series, log: Series, clock: int, p: UsagePoint)
    requires Refines(series, log, clock)
    ensures Refines(Bounded(series, p), Coalesced(log, p), clock)
  {
    BoundedEnds(series, log, p);
    BoundedLacks(series, log, p);
  }

  /** A series that is not full after a point is filed lacks no more of its log than before. */
  lemma BoundedLacks(series: Series, log: Series, p: UsagePoint)
    requires EndOf(series, log)
    ensures var more, all := Bounded(series, p), Coalesced(log, p);
      |more| < USAGE_RING_CAPACITY && |more| <= |all| ==>
        |series| < USAGE_RING_CAPACITY && |all| - |more| <= |log| - |series|
        && forall i | 0 <= i < |all| - |more| :: all[i] == log[i]
  {
  }

  lemma ReplaceLast(series: Series, log: Series, p: UsagePoint)
    requires 0 < |series| <= |log| && series == log[|log| - |series|..]
    ensures var more, all := series[..|series| - 1] + [p], log[..|log| - 1] + [p];
      |all| == |log| && more == all[|all| - |more|..]
  {
  }

  lemma AddLast(series: Series, log: Series, p: UsagePoint)
    requires |series| <= |log| && series == log[|log| - |series|..] && |series| <= USAGE_RING_CAPACITY
    ensures var all := log + [p];
      && series + [p] == all[|all| - |series| - 1..]
      && (|series| == USAGE_RING_CAPACITY ==>
            series[1..] + [p] == all[|all| - USAGE_RING_CAPACITY..])
  {
    var all := log + [p];
    assert all[|all| - |series| - 1..] == log[|log| - |series|..] + [p];
    if |series| == USAGE_RING_CAPACITY {
      assert all[|all| - USAGE_RING_CAPACITY..] == log[|log| - |series| + 1..] + [p];
    }
  }

  predicate Old(series: Series, now: int) {
    series == [] || now - series[|series| - 1].at > USAGE_RING_MAX_AGE
  }

  /** A series swept away because nothing has measured its pod is no loss. */
  lemma SweepKeeps(series: Series, log: Series, clock: int, now: int)
    requires Kept(series, log, clock) && now <= clock
    ensures Old(series, now) ==> Kept([], log, clock)
  {
    if Old(series, now) && series != [] {
      assert series[|series| - 1] == log[|log| - 1];
      forall i | 0 <= i < |log| ensures log[i].at + USAGE_RING_MAX_AGE <= clock {
        assert log[i].at <= log[|log| - 1].at;
      }
    }
    assert log[|log|..] == [];
  }

  // ---- What is served ----

  function Younger(now: int): UsagePoint -> bool {
    (p: UsagePoint) => p.at > now - USAGE_RING_MAX_AGE
  }

  function Latest(points: Series, n: nat): Series {
    if |points| <= n then points else points[|points| - n..]
  }

  lemma {:induction false} NoneYounger(points: Series, now: int)
    requires forall i | 0 <= i < |points| :: points[i].at + USAGE_RING_MAX_AGE <= now
    ensures Filter(points, Younger(now)) == []
  {
    if points != [] {
      NoneYounger(points[1..], now);
    }
  }

  lemma {:induction false} AllYounger(points: Series, now: int)
    requires forall i | 0 <= i < |points| :: Younger(now)(points[i])
    ensures Filter(points, Younger(now)) == points
  {
    if points != [] {
      AllYounger(points[1..], now);
    }
  }

  lemma {:induction false} SomeYounger(points: Series, now: int)
    requires Filter(points, Younger(now)) != []
    ensures exists i :: 0 <= i < |points| && Younger(now)(points[i])
  {
    if points != [] && !Younger(now)(points[0]) {
      SomeYounger(points[1..], now);
      var i :| 0 <= i < |points[1..]| && Younger(now)(points[1..][i]);
      assert points[i + 1] == points[1..][i];
    }
  }

  lemma {:induction false} FilterLength(points: Series, now: int)
    ensures |Filter(points, Younger(now))| <= |points|
  {
    if points != [] {
      FilterLength(points[1..], now);
    }
  }

  /** What a bounded, swept series serves is what the whole log would: the latest points
      younger than an hour, as many as the capacity. */
  lemma ServedIsLatest(series: Series, log: Series, clock: int, now: int)
    requires Kept(series, log, clock) && clock <= now
    ensures Filter(series, Younger(now)) == Latest(Filter(log, Younger(now)), USAGE_RING_CAPACITY)
  {
    var gone := log[..|log| - |series|];
    assert log == gone + series;
    FilterAppend(gone, series, Younger(now));
    FilterLength(series, now);
    if |series| < USAGE_RING_CAPACITY {
      NoneYounger(gone, now);
    } else if Filter(gone, Younger(now)) != [] {
      SomeYounger(gone, now);
      var i :| 0 <= i < |gone| && Younger(now)(gone[i]);
      forall k | 0 <= k < |series| ensures Younger(now)(series[k]) {
        assert series[k] == log[|gone| + k] && gone[i] == log[i];
      }
      AllYounger(series, now);
    }
  }

  lemma {:induction false} FilterYounger(points: Series, now: int)
    ensures forall p | p in Filter(points, Younger(now)) :: p in points && Younger(now)(p)
  {
    if points != [] {
      FilterYounger(points[1..], now);
    }
  }

  lemma {:induction false} FilterSpaced(points: Series, now: int)
    requires Spaced(points)
    ensures Spaced(Filter(points, Younger(now)))
    ensures forall p | p in Filter(points, Younger(now)) :: p in points
  {
    if points != [] {
      FilterSpaced(points[1..], now);
      var rest := Filter(points[1..], Younger(now));
      forall j | 0 <= j < |rest| ensures points[0].at + MIN_USAGE_SPACING <= rest[j].at {
        assert rest[j] in points[1..];
      }
    }
  }

  // ---- All the pods ----

  function PointOf(pod: PodUsage, now: int): UsagePoint { UsagePoint(now, pod.cpuMilli, pod.memoryBytes) }

  /** One read's measured pods, filed one after the other. */
  function Filed(m: map<PodKey, Series>, pods: seq<PodUsage>, now: int, step: (Series, UsagePoint) -> Series)
    : map<PodKey, Series>
  {
    if pods == [] then m
    else
      var before, pod := Filed(m, pods[..|pods| - 1], now, step), pods[|pods| - 1];
      if !pod.measured then before
      else before[pod.key := step(At(before, pod.key), PointOf(pod, now))]
  }

  /** The last measured reading of a pod among those of one read. */
  function LastOf(pods: seq<PodUsage>, key: PodKey): Option<PodUsage> {
    if pods == [] then None
    else
      var last := pods[|pods| - 1];
      if last.measured && last.key == key then Some(last) else LastOf(pods[..|pods| - 1], key)
  }

  lemma {:induction false} LastOfMeans(pods: seq<PodUsage>, key: PodKey)
    ensures LastOf(pods, key).Some? <==> exists pod :: pod in pods && pod.measured && pod.key == key
    ensures LastOf(pods, key).Some? ==>
      var pod := LastOf(pods, key).value; pod in pods && pod.measured && pod.key == key
  {
    if pods != [] {
      var before, last := pods[..|pods| - 1], pods[|pods| - 1];
      assert pods == before + [last];
      LastOfMeans(before, key);
    }
  }

  /** A point takes the place of one taken at the same moment. */
  ghost predicate Absorbs(step: (Series, UsagePoint) -> Series) {
    forall series, p: UsagePoint, q: UsagePoint | p.at == q.at :: step(step(series, p), q) == step(series, q)
  }

  lemma CoalescedAbsorbs()
    ensures Absorbs(Coalesced)
  {
    forall log, p: UsagePoint, q: UsagePoint | p.at == q.at ensures Coalesced(Coalesced(log, p), q) == Coalesced(log, q) {
      var once := Coalesced(log, p);
      assert once[..|once| - 1] + [q] == Coalesced(log, q);
    }
  }

  lemma BoundedAbsorbs()
    ensures Absorbs(Bounded)
  {
    forall series, p: UsagePoint, q: UsagePoint | p.at == q.at ensures Bounded(Bounded(series, p), q) == Bounded(series, q) {
      var once := Bounded(series, p);
      assert once[..|once| - 1] + [q] == Bounded(series, q);
    }
  }

  /** Filing a read is, for each pod, filing its last reading. */
  lemma {:induction false} FiledAt(m: map<PodKey, Series>, pods: seq<PodUsage>, now: int,
      step: (Series, UsagePoint) -> Series, key: PodKey)
    requires Absorbs(step)
    ensures var last := LastOf(pods, key);
      At(Filed(m, pods, now, step), key) == if last.None? then At(m, key) else step(At(m, key), PointOf(last.value, now))
  {
    if pods != [] {
      var before, last := pods[..|pods| - 1], pods[|pods| - 1];
      FiledAt(m, before, now, step, key);
      if last.measured && last.key == key && LastOf(before, key).Some? {
        var p, q := PointOf(LastOf(before, key).value, now), PointOf(last, now);
        assert step(step(At(m, key), p), q) == step(At(m, key), q);
      }
    }
  }

  ghost predicate AllEnds(series: map<PodKey, Series>, log: map<PodKey, Series>) {
    forall key :: EndOf(At(series, key), At(log, key))
  }

  ghost predicate AllKept(series: map<PodKey, Series>, log: map<PodKey, Series>, clock: int) {
    forall key :: Kept(At(series, key), At(log, key), clock)
  }

  /** Every reading of the read fits its pod's log. */
  ghost predicate AllFit(log: map<PodKey, Series>, pods: seq<PodUsage>, now: int) {
    forall pod | pod in pods && pod.measured :: Fits(At(log, pod.key), now)
  }

  lemma FiledEnds(series: map<PodKey, Series>, log: map<PodKey, Series>, pods: seq<PodUsage>, now: int)
    requires AllEnds(series, log)
    ensures AllEnds(Filed(series, pods, now, Bounded), Filed(log, pods, now, Coalesced))
  {
    CoalescedAbsorbs();
    BoundedAbsorbs();
    forall key ensures EndOf(At(Filed(series, pods, now, Bounded), key), At(Filed(log, pods, now, Coalesced), key)) {
      FiledAt(series, pods, now, Bounded, key);
      FiledAt(log, pods, now, Coalesced, key);
      assert EndOf(At(series, key), At(log, key));
      if LastOf(pods, key).Some? {
        BoundedEnds(At(series, key), At(log, key), PointOf(LastOf(pods, key).value, now));
      }
    }
  }

  ghost predicate AllSpaced(log: map<PodKey, Series>) {
    forall key :: Spaced(At(log, key))
  }

  /** Exactly when: filing a read leaves every log spaced if and only if every reading fits. */
  lemma FiledSpacedExactlyWhen(log: map<PodKey, Series>, pods: seq<PodUsage>, now: int)
    requires AllSpaced(log)
    ensures AllSpaced(Filed(log, pods, now, Coalesced)) <==> AllFit(log, pods, now)
  {
    var all := Filed(log, pods, now, Coalesced);
    forall key ensures Spaced(At(all, key)) <==> (LastOf(pods, key).Some? ==> Fits(At(log, key), now)) {
      CoalescedAbsorbs();
      FiledAt(log, pods, now, Coalesced, key);
      if LastOf(pods, key).Some? { SpacingExactlyWhen(At(log, key), PointOf(LastOf(pods, key).value, now)); }
    }
    forall pod | pod in pods && pod.measured ensures LastOf(pods, pod.key).Some? {
      LastOfMeans(pods, pod.key);
    }
    if AllFit(log, pods, now) {
      forall key | LastOf(pods, key).Some? ensures Fits(At(log, key), now) {
        LastOfMeans(pods, key);
      }
    }
  }

  /** And then every series goes on refining its log. */
  lemma FiledKeeps(series: map<PodKey, Series>, log: map<PodKey, Series>, clock: int, pods: seq<PodUsage>, now: int)
    requires AllKept(series, log, clock) && now <= clock && AllFit(log, pods, now)
    ensures AllKept(Filed(series, pods, now, Bounded), Filed(log, pods, now, Coalesced), clock)
  {
    forall key ensures Kept(At(Filed(series, pods, now, Bounded), key), At(Filed(log, pods, now, Coalesced), key), clock) {
      OneFiled(series, log, clock, pods, now, key);
    }
  }

  lemma OneFiled(series: map<PodKey, Series>, log: map<PodKey, Series>, clock: int, pods: seq<PodUsage>, now: int,
      key: PodKey)
    requires AllKept(series, log, clock) && now <= clock && AllFit(log, pods, now)
    ensures Kept(At(Filed(series, pods, now, Bounded), key), At(Filed(log, pods, now, Coalesced), key), clock)
  {
    CoalescedAbsorbs();
    BoundedAbsorbs();
    FiledAt(series, pods, now, Bounded, key);
    FiledAt(log, pods, now, Coalesced, key);
    LastOfMeans(pods, key);
    assert Kept(At(series, key), At(log, key), clock);
    if LastOf(pods, key).Some? {
      BoundedKeeps(At(series, key), At(log, key), clock, PointOf(LastOf(pods, key).value, now));
    }
  }

  lemma KeptLater(series: map<PodKey, Series>, log: map<PodKey, Series>, clock: int, now: int)
    requires AllKept(series, log, clock) && clock <= now
    ensures AllKept(series, log, now)
  {
    forall key ensures Kept(At(series, key), At(log, key), now) {
      assert Kept(At(series, key), At(log, key), clock);
    }
  }

  function Swept(series: map<PodKey, Series>, now: int): map<PodKey, Series> {
    map key | key in series && !Old(series[key], now) :: series[key]
  }

  lemma SweptEnds(series: map<PodKey, Series>, log: map<PodKey, Series>, now: int)
    requires AllEnds(series, log)
    ensures AllEnds(Swept(series, now), log)
  {
    forall key ensures EndOf(At(Swept(series, now), key), At(log, key)) {
      assert EndOf(At(series, key), At(log, key));
      assert At(log, key)[|At(log, key)|..] == [];
    }
  }

  lemma SweptKeeps(series: map<PodKey, Series>, log: map<PodKey, Series>, clock: int, now: int)
    requires AllKept(series, log, clock) && now <= clock
    ensures AllKept(Swept(series, now), log, clock)
  {
    forall key ensures Kept(At(Swept(series, now), key), At(log, key), clock) {
      assert Kept(At(series, key), At(log, key), clock);
      SweepKeeps(At(series, key), At(log, key), clock, now);
    }
  }

  function Without(m: map<PodKey, Series>, id: ClusterId): map<PodKey, Series> {
    map key | key in m && key.cluster != id :: m[key]
  }

  lemma WithoutEnds(series: map<PodKey, Series>, log: map<PodKey, Series>, id: ClusterId)
    requires AllEnds(series, log)
    ensures AllEnds(Without(series, id), Without(log, id))
  {
    forall key ensures EndOf(At(Without(series, id), key), At(Without(log, id), key)) {
      assert EndOf(At(series, key), At(log, key));
    }
  }

  lemma WithoutKeeps(series: map<PodKey, Series>, log: map<PodKey, Series>, clock: int, id: ClusterId)
    requires AllKept(series, log, clock)
    ensures AllKept(Without(series, id), Without(log, id), clock)
  {
    forall key ensures Kept(At(Without(series, id), key), At(Without(log, id), key), clock) {
      assert Kept(At(series, key), At(log, key), clock);
    }
  }

  // ---- Where the points come from ----

  /** What a read brought to the ring. */
  datatype Brought = Brought(read: nat, pods: seq<PodUsage>, now: int)

  ghost predicate Brings(b: Brought, key: PodKey, p: UsagePoint) {
    exists pod :: pod in b.pods && pod.measured && pod.key == key && p == PointOf(pod, b.now)
  }

  /** The point was brought by a read whose write is in, since the cluster was last forgotten. */
  ghost predicate Landing(model: State, brought: set<Brought>, key: PodKey, p: UsagePoint) {
    exists b :: b in brought && b.read in Landed(model, key.cluster) && Brings(b, key, p)
  }

  ghost predicate AllLanded(model: State, brought: set<Brought>, log: map<PodKey, Series>) {
    forall key, p: UsagePoint | p in At(log, key) :: Landing(model, brought, key, p)
  }

  lemma FiledLanded(s: State, t: State, brought: set<Brought>, log: map<PodKey, Series>, b: Brought, id: ClusterId)
    requires AllLanded(s, brought, log) && forall pod | pod in b.pods :: pod.key.cluster == id
    requires b.read in Landed(t, id)
    requires forall c, r: nat {:trigger r in Landed(t, c)} | r in Landed(s, c) :: r in Landed(t, c)
    ensures AllLanded(t, brought + {b}, Filed(log, b.pods, b.now, Coalesced))
  {
    forall key, p: UsagePoint | p in At(Filed(log, b.pods, b.now, Coalesced), key)
      ensures Landing(t, brought + {b}, key, p)
    {
      OneLanded(s, t, brought, log, b, id, key, p);
    }
  }

  lemma OneLanded(s: State, t: State, brought: set<Brought>, log: map<PodKey, Series>, b: Brought, id: ClusterId,
      key: PodKey, p: UsagePoint)
    requires AllLanded(s, brought, log) && forall pod | pod in b.pods :: pod.key.cluster == id
    requires b.read in Landed(t, id)
    requires forall c, r: nat {:trigger r in Landed(t, c)} | r in Landed(s, c) :: r in Landed(t, c)
    requires p in At(Filed(log, b.pods, b.now, Coalesced), key)
    ensures Landing(t, brought + {b}, key, p)
  {
    CoalescedAbsorbs();
    FiledAt(log, b.pods, b.now, Coalesced, key);
    LastOfMeans(b.pods, key);
    if p in At(log, key) {
      assert Landing(s, brought, key, p);
      var was :| was in brought && was.read in Landed(s, key.cluster) && Brings(was, key, p);
      assert was in brought + {b} && was.read in Landed(t, key.cluster);
    } else {
      assert p == PointOf(LastOf(b.pods, key).value, b.now);
      assert Brings(b, key, p) && b in brought + {b};
    }
  }

  lemma ForgottenLanded(s: State, brought: set<Brought>, log: map<PodKey, Series>, id: ClusterId)
    requires AllLanded(s, brought, log)
    ensures AllLanded(Apply(s, Forget(id)), brought, Without(log, id))
  {
    var t := Apply(s, Forget(id));
    forall key, p: UsagePoint | p in At(Without(log, id), key) ensures Landing(t, brought, key, p) {
      assert p in At(log, key) && Landed(t, key.cluster) == Landed(s, key.cluster);
      assert Landing(s, brought, key, p);
    }
  }

  lemma BegunLanded(s: State, brought: set<Brought>, log: map<PodKey, Series>, id: ClusterId)
    requires AllLanded(s, brought, log)
    ensures AllLanded(Apply(s, Begin(id)), brought, log)
  {
    var t := Apply(s, Begin(id));
    forall key, p: UsagePoint | p in At(log, key) ensures Landing(t, brought, key, p) {
      assert Landing(s, brought, key, p) && Landed(t, key.cluster) == Landed(s, key.cluster);
    }
  }

  // ---- The object ----

  class PodUsageRing {
    var series: map<PodKey, Series>
    var generation: map<ClusterId, nat>
    var sweptAt: Option<int>
    ghost var log: map<PodKey, Series>
    ghost var clock: int
    ghost var model: State
    ghost var brought: set<Brought>

    ghost predicate Valid()
      reads this
    {
      && AllEnds(series, log)
      && (forall id :: (if id in generation then generation[id] else 0) == Generation(model, id))
      && AllLanded(model, brought, log)
    }

    /** Every log is spaced, and what its series lacks is too old to be served. `clock` is the
        latest time a read has been filed at. */
    ghost predicate Ordered()
      reads this
    {
      AllKept(series, log, clock)
    }

    constructor (clock: int)
      ensures Valid() && Ordered() && model == INIT && log == map[] && brought == {} && this.clock == clock
    {
      series, generation, sweptAt := map[], map[], None;
      log, this.clock, model, brought := map[], clock, INIT, {};
    }

    method GenerationOf(id: ClusterId) returns (gen: nat, ghost read: nat)
      requires Valid()
      modifies this`model
      ensures Valid() && model == Apply(old(model), Begin(id))
      ensures read == |old(model).begun| && model.begun[read] == Read(id, gen)
    {
      gen := if id in generation then generation[id] else 0;
      read := |model.begun|;
      BegunLanded(model, brought, log, id);
      model := Apply(model, Begin(id));
    }

    /** Files the measured pods of one read of a cluster, whenever it took the time. The log gains
        exactly them when the cluster has not been forgotten since the read began, and nothing
        otherwise; it stays ordered exactly when every reading fits. */
    method Record(id: ClusterId, gen: nat, ghost read: nat, pods: seq<PodUsage>, now: int)
      requires Valid() && read < |model.begun| && model.begun[read] == Read(id, gen)
      requires forall pod | pod in pods :: pod.key.cluster == id
      modifies this
      ensures Valid() && clock == (if old(clock) <= now then now else old(clock)) && generation == old(generation)
      ensures model == Apply(old(model), Land(read))
      ensures log == if Lands(old(model), read) then Filed(old(log), pods, now, Coalesced) else old(log)
      ensures brought == if Lands(old(model), read) then old(brought) + {Brought(read, pods, now)} else old(brought)
      ensures old(Ordered()) ==> (Ordered() <==> (Lands(old(model), read) ==> AllFit(old(log), pods, now)))
    {
      Tick(now);
      if (if id in generation then generation[id] else 0) != gen {
        return;
      }
      Bring(id, read, pods, now);
      FileRead(pods, now);
    }

    ghost method Bring(id: ClusterId, read: nat, pods: seq<PodUsage>, now: int)
      requires AllLanded(model, brought, log) && forall pod | pod in pods :: pod.key.cluster == id
      requires read < |model.begun| && model.begun[read].id == id && Lands(model, read)
      modifies this`model, this`brought
      ensures model == Apply(old(model), Land(read)) && brought == old(brought) + {Brought(read, pods, now)}
      ensures AllLanded(model, brought, Filed(log, pods, now, Coalesced))
    {
      var was := model;
      model := Apply(model, Land(read));
      FiledLanded(was, model, brought, log, Brought(read, pods, now), id);
      brought := brought + {Brought(read, pods, now)};
    }

    method FileRead(pods: seq<PodUsage>, now: int)
      requires AllEnds(series, log) && now <= clock
      modifies this`series, this`sweptAt, this`log
      ensures AllEnds(series, log) && log == Filed(old(log), pods, now, Coalesced)
      ensures old(Ordered()) ==> (Ordered() <==> AllFit(old(log), pods, now))
    {
      FiledEnds(series, log, pods, now);
      if Ordered() { OrderedAfter(pods, now); }
      FileAll(pods, now);
      log := Filed(log, pods, now, Coalesced);
      if sweptAt.None? || now - sweptAt.value >= SWEEP_USAGE_EVERY {
        sweptAt := Some(now);
        SweptEnds(series, log, now);
        if Ordered() { SweptKeeps(series, log, clock, now); }
        Sweep(now);
      }
      assert Ordered() ==> AllSpaced(log) by {
        assert Ordered() ==> forall key :: Kept(At(series, key), At(log, key), clock);
      }
    }

    lemma OrderedAfter(pods: seq<PodUsage>, now: int)
      requires Ordered() && now <= clock
      ensures AllSpaced(Filed(log, pods, now, Coalesced)) <==> AllFit(log, pods, now)
      ensures AllFit(log, pods, now) ==>
        AllKept(Filed(series, pods, now, Bounded), Filed(log, pods, now, Coalesced), clock)
    {
      assert forall key :: Kept(At(series, key), At(log, key), clock);
      FiledSpacedExactlyWhen(log, pods, now);
      if AllFit(log, pods, now) { FiledKeeps(series, log, clock, pods, now); }
    }

    ghost method Tick(now: int)
      modifies this`clock
      ensures clock == if old(clock) <= now then now else old(clock)
      ensures old(Ordered()) ==> Ordered()
    {
      if clock <= now {
        if Ordered() { KeptLater(series, log, clock, now); }
        clock := now;
      }
    }

    method FileAll(pods: seq<PodUsage>, now: int)
      modifies this`series
      ensures series == Filed(old(series), pods, now, Bounded)
    {
      for i := 0 to |pods|
        invariant series == Filed(old(series), pods[..i], now, Bounded)
      {
        assert pods[..i + 1][..i] == pods[..i];
        var pod := pods[i];
        if !pod.measured {
          continue;
        }
        File(pod.key, PointOf(pod, now));
      }
      assert pods[..|pods|] == pods;
    }

    method File(key: PodKey, point: UsagePoint)
      modifies this`series
      ensures series == old(series)[key := Bounded(At(old(series), key), point)]
    {
      var points := At(series, key);
      var n := |points|;
      if n > 0 && point.at - points[n - 1].at < MIN_USAGE_SPACING {
        series := series[key := points[n - 1 := point]];
        assert points[n - 1 := point] == points[..n - 1] + [point];
        return;
      }
      if n >= USAGE_RING_CAPACITY {
        points := points[n - USAGE_RING_CAPACITY + 1..];
      }
      series := series[key := points + [point]];
    }

    method Sweep(now: int)
      modifies this`series
      ensures series == Swept(old(series), now)
    {
      var left := series.Keys;
      while left != {}
        invariant left <= old(series).Keys
        invariant series == map key | key in old(series) && (key in left || !Old(old(series)[key], now)) :: old(series)[key]
        decreases left
      {
        var key :| key in left;
        left := left - {key};
        if Old(series[key], now) {
          series := series - {key};
        }
      }
    }

    /** A copy of one pod's latest points younger than an hour, each brought by a read whose write
        is in since the cluster was last forgotten: what the whole log would give, when it is ordered. */
    method Since(key: PodKey, now: int) returns (points: Series)
      requires Valid()
      ensures |points| <= USAGE_RING_CAPACITY
      ensures forall p | p in points :: p in At(log, key) && Younger(now)(p) && Landing(model, brought, key, p)
      ensures Ordered() && clock <= now ==>
        points == Latest(Filter(At(log, key), Younger(now)), USAGE_RING_CAPACITY) && Spaced(points)
    {
      assert EndOf(At(series, key), At(log, key));
      FilterLength(At(series, key), now);
      FilterYounger(At(series, key), now);
      if Ordered() && clock <= now {
        ServedIsLatest(At(series, key), At(log, key), clock, now);
        FilterSpaced(At(log, key), now);
      }
      points := YoungerOf(At(series, key), now);
    }

    static method YoungerOf(kept: Series, now: int) returns (points: Series)
      ensures points == Filter(kept, Younger(now))
    {
      points := [];
      for i := 0 to |kept|
        invariant points == Filter(kept[..i], Younger(now))
      {
        assert kept[..i + 1] == kept[..i] + [kept[i]];
        FilterAppend(kept[..i], [kept[i]], Younger(now));
        if kept[i].at > now - USAGE_RING_MAX_AGE {
          points := points + [kept[i]];
        }
      }
      assert kept[..|kept|] == kept;
    }

    method Drop(id: ClusterId)
      requires Valid()
      modifies this
      ensures Valid() && clock == old(clock) && brought == old(brought) && (old(Ordered()) ==> Ordered())
      ensures model == Apply(old(model), Forget(id)) && log == Without(old(log), id)
    {
      GenerationAfterForget(model, id);
      WithoutEnds(series, log, id);
      if Ordered() { WithoutKeeps(series, log, clock, id); }
      ForgetLog(id);
      generation := generation[id := ((if id in generation then generation[id] else 0) + 1) % WRAP];
      DropSeries(id);
    }

    ghost method ForgetLog(id: ClusterId)
      requires AllLanded(model, brought, log)
      modifies this`model, this`log
      ensures model == Apply(old(model), Forget(id)) && log == Without(old(log), id) && AllLanded(model, brought, log)
    {
      ForgottenLanded(model, brought, log, id);
      model, log := Apply(model, Forget(id)), Without(log, id);
    }

    method DropSeries(id: ClusterId)
      modifies this`series
      ensures series == Without(old(series), id)
    {
      var left := series.Keys;
      while left != {}
        invariant left <= old(series).Keys
        invariant series == map key | key in old(series) && (key in left || key.cluster != id) :: old(series)[key]
        decreases left
      {
        var key :| key in left;
        left := left - {key};
        if key.cluster == id {
          series := series - {key};
        }
      }
    }
  }

  // ---- What coalescing costs ----

  function CoalescedAll(points: Series): Series {
    if points == [] then [] else Coalesced(CoalescedAll(points[..|points| - 1]), points[|points| - 1])
  }

  /** The points of a run of reads that nothing follows within two seconds. */
  function Survivors(points: Series): Series {
    if |points| <= 1 then points
    else (if points[1].at - points[0].at < MIN_USAGE_SPACING then [] else [points[0]]) + Survivors(points[1..])
  }

  lemma {:induction false} SurvivorsNext(points: Series, p: UsagePoint)
    requires points != []
    ensures Survivors(points) != [] && Survivors(points)[|Survivors(points)| - 1] == points[|points| - 1]
    ensures Survivors(points + [p]) == Coalesced(Survivors(points), p)
  {
    var more := points + [p];
    if |points| == 1 {
      assert more == [points[0], p] && more[1..] == [p];
    } else {
      var rest := points[1..];
      SurvivorsNext(rest, p);
      assert more[1..] == rest + [p];
      assert Coalesced(Survivors(points), p)
        == (if points[1].at - points[0].at < MIN_USAGE_SPACING then [] else [points[0]]) + Coalesced(Survivors(rest), p);
    }
  }

  lemma CoalescedNext(points: Series, p: UsagePoint)
    ensures CoalescedAll(points + [p]) == Coalesced(CoalescedAll(points), p)
  {
    assert (points + [p])[..|points|] == points;
  }

  /** The log of a run of reads is the reads that no other follows within two seconds: measured
      more often than that, however long, a pod has a history of a single point. */
  lemma {:induction false} LogIsSurvivors(points: Series)
    ensures CoalescedAll(points) == Survivors(points)
  {
    if |points| == 1 {
      assert points[..0] == [] && points == [points[0]];
    } else if |points| > 1 {
      var before, last := points[..|points| - 1], points[|points| - 1];
      assert points == before + [last];
      LogIsSurvivors(before);
      SurvivorsNext(before, last);
      CoalescedNext(before, last);
    }
  }

  /** Exactly when: a run of reads leaves a single point if and only if each read follows the
      one before within two seconds. */
  lemma {:induction false} OnePointExactlyWhen(points: Series)
    requires points != []
    ensures |Survivors(points)| >= 1 && CoalescedAll(points) == Survivors(points)
    ensures |Survivors(points)| == 1 <==> forall i | 0 < i < |points| :: points[i].at - points[i - 1].at < MIN_USAGE_SPACING
  {
    LogIsSurvivors(points);
    if |points| > 1 {
      var rest := points[1..];
      OnePointExactlyWhen(rest);
      forall i | 0 < i < |rest| ensures rest[i] == points[i + 1] && rest[i - 1] == points[i] {}
      if |Survivors(points)| == 1 {
        forall i | 0 < i < |points| ensures points[i].at - points[i - 1].at < MIN_USAGE_SPACING {
          if i > 1 { assert rest[i - 1].at - rest[i - 2].at < MIN_USAGE_SPACING; }
        }
      } else if |Survivors(rest)| > 1 {
        var i :| 0 < i < |rest| && rest[i].at - rest[i - 1].at >= MIN_USAGE_SPACING;
        assert points[i + 1].at - points[i].at >= MIN_USAGE_SPACING;
      }
    }
  }
}
