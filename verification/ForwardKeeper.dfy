/** Restoring port-forwards (app/application/forwardkeeper.go). */
module ForwardKeeperProtocol {
  // Every critical section under the keeper's mutex is one step, and so is every point where a
  // restore's goroutine, a ClusterDisconnected or a Close can be overtaken: each look at the
  // context, each call into the transport, each deferred cleanup. What the settings, the registry
  // and the transport answer comes with the event. `started` is history: the forwards a
  // background restore asked the transport to start.

  import opened Options

  type ClusterId = string

  /** Identities: a restoreRun pointer, one call of ClusterDisconnected, one of Close. */
  type RunId = nat

  datatype Kept = Kept(target: string, remotePort: int, localPort: int)

  /** Where a restore's goroutine is. From Retiring on it runs its deferred cleanup: cancel,
      drop its own entry, close(done), wait.Done. */
  datatype Phase =
    | Loading
    | AtItem(next: nat)
    | Checking(item: nat)
    | Resolving(item: nat)
    | Rechecking(item: nat)
    | Starting(item: nat)
    | Recording(item: nat)
    | Retiring
    | Unregistering
    | Ending
    | Ended
    | Gone

  datatype Restore = Restore(cluster: ClusterId, kept: seq<Kept>, phase: Phase, cancelled: bool)
  {
    /** Before the critical section that drops the run's own entry. */
    predicate InUse() { !phase.Ending? && !Over() }

    /** `done` is closed. */
    predicate Over() { phase.Ended? || phase.Gone? }
  }

  datatype Stage = Cancelling | Waiting | Returned

  datatype Disconnect = Disconnect(cluster: ClusterId, found: Option<RunId>, stage: Stage)

  datatype Started = Started(run: RunId, item: nat)

  datatype State = State(
    closed: bool,
    cancelled: bool,
    restoring: map<ClusterId, RunId>,
    runs: seq<Restore>,
    waiting: int,
    disconnects: seq<Disconnect>,
    closers: seq<Stage>,
    started: seq<Started>)

  const INIT := State(false, false, map[], [], 0, [], [], [])

  datatype Event =
    | Connected(id: ClusterId)
    | Load(r: RunId, kept: Option<seq<Kept>>)
    | Next(r: RunId, live: bool)
    | Check(r: RunId, open: bool, expired: bool)
    | Resolve(r: RunId, ok: bool)
    | Recheck(r: RunId, open: bool, expired: bool)
    | Start(r: RunId)
    | Record(r: RunId)
    | Retire(r: RunId)
    | Unregister(r: RunId)
    | CloseDone(r: RunId)
    | WaitDone(r: RunId)
    | Disconnected(id: ClusterId)
    | CancelRun(d: nat)
    | AwaitRun(d: nat)
    | Closed
    | CancelAll(c: nat)
    | AwaitAll(c: nat)

  // ---- The steps ----

  /** Whether the run's own context, a child of the keeper's, is over. */
  predicate Cancelled(s: State, r: RunId)
    requires r < |s.runs|
  {
    s.cancelled || s.runs[r].cancelled
  }

  predicate Enabled(s: State, e: Event) {
    match e
    case Connected(_) => true
    case Load(r, _) => r < |s.runs| && s.runs[r].phase.Loading?
    case Next(r, _) => r < |s.runs| && s.runs[r].phase.AtItem?
    case Check(r, _, _) => r < |s.runs| && s.runs[r].phase.Checking?
    case Resolve(r, _) => r < |s.runs| && s.runs[r].phase.Resolving?
    case Recheck(r, _, _) => r < |s.runs| && s.runs[r].phase.Rechecking?
    case Start(r) => r < |s.runs| && s.runs[r].phase.Starting?
    case Record(r) => r < |s.runs| && s.runs[r].phase.Recording?
    case Retire(r) => r < |s.runs| && s.runs[r].phase.Retiring?
    case Unregister(r) => r < |s.runs| && s.runs[r].phase.Unregistering?
    case CloseDone(r) => r < |s.runs| && s.runs[r].phase.Ending?
    case WaitDone(r) => r < |s.runs| && s.runs[r].phase.Ended?
    case Disconnected(_) => true
    case CancelRun(d) => d < |s.disconnects| && s.disconnects[d].stage.Cancelling? && s.disconnects[d].found.Some?
                         && s.disconnects[d].found.value < |s.runs|
    case AwaitRun(d) => d < |s.disconnects| && s.disconnects[d].stage.Waiting? && s.disconnects[d].found.Some?
                        && s.disconnects[d].found.value < |s.runs| && s.runs[s.disconnects[d].found.value].Over()
    case Closed => true
    case CancelAll(c) => c < |s.closers| && s.closers[c].Cancelling?
    case AwaitAll(c) => c < |s.closers| && s.closers[c].Waiting? && s.waiting == 0
  }

  function SetPhase(s: State, r: RunId, phase: Phase): State
    requires r < |s.runs|
  {
    s.(runs := s.runs[r := s.runs[r].(phase := phase)])
  }

  /** The loop head: the list is done, the context is over, or the port is live already. */
  function NextPhase(s: State, r: RunId, live: bool): Phase
    requires r < |s.runs| && s.runs[r].phase.AtItem?
  {
    var next := s.runs[r].phase.next;
    if next >= |s.runs[r].kept| || Cancelled(s, r) then Retiring
    else if live then AtItem(next + 1)
    else Checking(next)
  }

  function Apply(s: State, e: Event): State
    requires Enabled(s, e)
  {
    match e
    case Connected(id) =>
      if s.closed || id in s.restoring then s
      else s.(runs := s.runs + [Restore(id, [], Loading, false)],
              restoring := s.restoring[id := |s.runs|], waiting := s.waiting + 1)
    case Load(r, kept) =>
      if kept.None? then SetPhase(s, r, Retiring)
      else s.(runs := s.runs[r := s.runs[r].(kept := kept.value, phase := AtItem(0))])
    case Next(r, live) => SetPhase(s, r, NextPhase(s, r, live))
    case Check(r, open, expired) =>
      var item := s.runs[r].phase.item;
      SetPhase(s, r, if !open || expired || Cancelled(s, r) then Recording(item) else Resolving(item))
    case Resolve(r, ok) =>
      var item := s.runs[r].phase.item;
      SetPhase(s, r, if ok then Rechecking(item) else Recording(item))
    case Recheck(r, open, expired) =>
      var item := s.runs[r].phase.item;
      SetPhase(s, r, if !open || expired || Cancelled(s, r) then Recording(item) else Starting(item))
    case Start(r) =>
      var item := s.runs[r].phase.item;
      SetPhase(s, r, Recording(item)).(started := s.started + [Started(r, item)])
    case Record(r) => SetPhase(s, r, AtItem(s.runs[r].phase.item + 1))
    case Retire(r) => s.(runs := s.runs[r := s.runs[r].(cancelled := true, phase := Unregistering)])
    case Unregister(r) =>
      var id := s.runs[r].cluster;
      SetPhase(s, r, Ending).(restoring :=
        if id in s.restoring && s.restoring[id] == r then s.restoring - {id} else s.restoring)
    case CloseDone(r) => SetPhase(s, r, Ended)
    case WaitDone(r) => SetPhase(s, r, Gone).(waiting := s.waiting - 1)
    case Disconnected(id) =>
      s.(disconnects := s.disconnects + [if id in s.restoring then Disconnect(id, Some(s.restoring[id]), Cancelling)
                                         else Disconnect(id, None, Returned)],
         restoring := s.restoring - {id})
    case CancelRun(d) =>
      var r := s.disconnects[d].found.value;
      s.(runs := s.runs[r := s.runs[r].(cancelled := true)],
         disconnects := s.disconnects[d := s.disconnects[d].(stage := Waiting)])
    case AwaitRun(d) => s.(disconnects := s.disconnects[d := s.disconnects[d].(stage := Returned)])
    case Closed => s.(closed := true, closers := s.closers + [Cancelling])
    case CancelAll(c) => s.(cancelled := true, closers := s.closers[c := Waiting])
    case AwaitAll(c) => s.(closers := s.closers[c := Returned])
  }

  ghost predicate Run(s: State, es: seq<Event>, t: State)
    decreases |es|
  {
    if es == [] then s == t
    else Enabled(s, es[0]) && Run(Apply(s, es[0]), es[1..], t)
  }

  // ---- What every step keeps ----

  predicate Registered(s: State, r: RunId) {
    r < |s.runs| && s.runs[r].cluster in s.restoring && s.restoring[s.runs[r].cluster] == r
  }

  predicate FoundBy(s: State, d: nat, r: RunId) {
    d < |s.disconnects| && s.disconnects[d].found == Some(r)
  }

  ghost predicate Taken(s: State, r: RunId) { exists d :: FoundBy(s, d, r) }

  /** A registered run is its cluster's, and has not dropped its entry. */
  ghost predicate Registry(s: State) {
    forall id | id in s.restoring ::
      s.restoring[id] < |s.runs| && s.runs[s.restoring[id]].cluster == id && s.runs[s.restoring[id]].InUse()
  }

  /** A run still at work is registered, or some disconnect has taken it. */
  ghost predicate Held(s: State) {
    forall r: RunId | r < |s.runs| && s.runs[r].InUse() :: Registered(s, r) || Taken(s, r)
  }

  /** A disconnect took its cluster's run out of the registry, cancels it, and comes back
      when it is over. */
  predicate CallKept(s: State, d: nat)
    requires d < |s.disconnects|
  {
    var call := s.disconnects[d];
    if call.found.None? then call.stage.Returned?
    else
      var r := call.found.value;
      && r < |s.runs| && s.runs[r].cluster == call.cluster && !Registered(s, r)
      && (!call.stage.Cancelling? ==> s.runs[r].cancelled)
      && (call.stage.Returned? ==> s.runs[r].Over())
  }

  ghost predicate Calls(s: State) {
    && (forall d: nat | d < |s.disconnects| :: CallKept(s, d))
    && FoundOnce(s)
  }

  ghost predicate FoundOnce(s: State) {
    forall d: nat, c: nat, r | FoundBy(s, d, r) && FoundBy(s, c, r) :: d == c
  }

  function Unfinished(s: State): set<RunId> {
    set r: RunId | r < |s.runs| && !s.runs[r].phase.Gone?
  }

  /** The WaitGroup counts the restores that have not ended; a Close has closed the keeper,
      has cancelled everything before it waits, and comes back when nothing is left. */
  predicate Accounted(s: State) {
    && s.waiting == |Unfinished(s)|
    && (s.closers != [] ==> s.closed)
    && (forall c | 0 <= c < |s.closers| && !s.closers[c].Cancelling? :: s.cancelled)
    && (forall c | 0 <= c < |s.closers| && s.closers[c].Returned? :: s.waiting == 0)
  }

  /** The first item of its list a restore has not asked the transport to start or passed over. */
  function Position(p: Restore): nat {
    match p.phase
    case Loading => 0
    case AtItem(next) => next
    case Checking(item) => item
    case Resolving(item) => item
    case Rechecking(item) => item
    case Starting(item) => item
    case Recording(item) => item + 1
    case _ => |p.kept|
  }

  predicate Placed(p: Restore) {
    && Position(p) <= |p.kept|
    && (p.phase.Checking? || p.phase.Resolving? || p.phase.Rechecking? || p.phase.Starting? ==> Position(p) < |p.kept|)
  }

  ghost predicate History(s: State) {
    && (forall r: RunId | r < |s.runs| :: Placed(s.runs[r]))
    && (forall i | 0 <= i < |s.started| :: s.started[i].run < |s.runs|
          && s.started[i].item < Position(s.runs[s.started[i].run]))
    && (forall i, j | 0 <= i < j < |s.started| && s.started[i].run == s.started[j].run ::
          s.started[i].item < s.started[j].item)
  }

  ghost predicate Inv(s: State) {
    Registry(s) && Held(s) && Calls(s) && Accounted(s) && History(s)
  }

  // ---- Steps of one run ----

  /** The run moved on; nothing else did. */
  ghost predicate Moved(s: State, t: State, r: RunId, p: Restore) {
    && r < |s.runs| && t.runs == s.runs[r := p]
    && t.restoring == s.restoring && t.disconnects == s.disconnects
    && p.cluster == s.runs[r].cluster
    && p.InUse() == s.runs[r].InUse()
    && (s.runs[r].Over() ==> p.Over()) && (s.runs[r].cancelled ==> p.cancelled)
  }

  lemma SameCalls(s: State, t: State)
    requires FoundOnce(s) && |t.disconnects| == |s.disconnects|
    requires forall d | 0 <= d < |s.disconnects| :: t.disconnects[d].found == s.disconnects[d].found
    ensures FoundOnce(t) && forall r :: Taken(t, r) <==> Taken(s, r)
  {
    forall d: nat, r ensures FoundBy(s, d, r) <==> FoundBy(t, d, r) {}
  }

  lemma HeldAfterMove(s: State, t: State, r: RunId, p: Restore)
    requires Moved(s, t, r, p) && Registry(s) && Held(s) && Calls(s)
    ensures Registry(t) && Held(t) && Calls(t)
  {
    SameCalls(s, t);
    forall q: RunId | q < |t.runs| && t.runs[q].InUse() ensures Registered(t, q) || Taken(t, q) {
      assert s.runs[q].InUse();
    }
    forall d: nat | d < |t.disconnects| ensures CallKept(t, d) {
      assert CallKept(s, d);
    }
  }

  lemma HistoryAfterMove(s: State, t: State, r: RunId, p: Restore)
    requires Moved(s, t, r, p) && History(s) && t.started == s.started
    requires Placed(p) && Position(s.runs[r]) <= Position(p)
    ensures History(t)
  {
  }

  lemma HistoryAfterStart(s: State, r: RunId)
    requires History(s) && Enabled(s, Start(r))
    ensures History(Apply(s, Start(r)))
  {
    var t := Apply(s, Start(r));
    var n := |s.started|;
    assert Placed(s.runs[r]);
    forall i, j | 0 <= i < j < |t.started| && t.started[i].run == t.started[j].run
      ensures t.started[i].item < t.started[j].item
    {
      assert t.started[i] == s.started[i];
      assert j < n ==> t.started[j] == s.started[j];
    }
  }

  lemma AccountedAfterMove(s: State, t: State, r: RunId, p: Restore)
    requires Moved(s, t, r, p) && Accounted(s)
    requires t.closed == s.closed && t.cancelled == s.cancelled && t.closers == s.closers
    requires !s.runs[r].phase.Gone?
    requires t.waiting == s.waiting - if p.phase.Gone? then 1 else 0
    ensures Accounted(t)
  {
    UnfinishedAfterMove(s, t, r, p);
  }

  lemma UnfinishedAfterMove(s: State, t: State, r: RunId, p: Restore)
    requires r < |s.runs| && t.runs == s.runs[r := p] && !s.runs[r].phase.Gone?
    ensures |Unfinished(t)| == |Unfinished(s)| - if p.phase.Gone? then 1 else 0
  {
    if p.phase.Gone? {
      assert Unfinished(s) == Unfinished(t) + {r};
    } else {
      assert Unfinished(s) == Unfinished(t);
    }
  }

  predicate OwnStep(e: Event, r: RunId) {
    match e
    case Load(q, _) => q == r
    case Next(q, _) => q == r
    case Check(q, _, _) => q == r
    case Resolve(q, _) => q == r
    case Recheck(q, _, _) => q == r
    case Start(q) => q == r
    case Record(q) => q == r
    case Retire(q) => q == r
    case Unregister(q) => q == r
    case CloseDone(q) => q == r
    case WaitDone(q) => q == r
    case _ => false
  }

  lemma OwnStepMoves(s: State, e: Event, r: RunId)
    requires Enabled(s, e) && OwnStep(e, r) && !e.Unregister? && Placed(s.runs[r])
    ensures var t := Apply(s, e); r < |t.runs| && Moved(s, t, r, t.runs[r])
    ensures var p := Apply(s, e).runs[r]; Placed(p) && Position(s.runs[r]) <= Position(p)
  {
    OwnStepPlaces(s, e, r);
  }

  lemma OwnStepPlaces(s: State, e: Event, r: RunId)
    requires Enabled(s, e) && OwnStep(e, r) && Placed(s.runs[r])
    ensures r < |Apply(s, e).runs|
    ensures var p := Apply(s, e).runs[r]; Placed(p) && Position(s.runs[r]) <= Position(p)
  {
  }

  lemma OwnStepCounts(s: State, e: Event, r: RunId)
    requires Enabled(s, e) && OwnStep(e, r) && !e.Unregister?
    ensures var t := Apply(s, e);
      && t.closed == s.closed && t.cancelled == s.cancelled && t.closers == s.closers
      && !s.runs[r].phase.Gone?
      && |t.runs| == |s.runs|
      && t.waiting == s.waiting - (if t.runs[r].phase.Gone? then 1 else 0)
      && (!e.Start? ==> t.started == s.started)
  {
  }

  lemma OwnStepKeeps(s: State, e: Event, r: RunId)
    requires Inv(s) && Enabled(s, e) && OwnStep(e, r) && !e.Unregister?
    ensures Inv(Apply(s, e))
  {
    OwnStepCounts(s, e, r);
    OwnStepMoves(s, e, r);
    if e.Start? {
      HistoryAfterStart(s, r);
    }
    AfterMove(s, Apply(s, e), r);
  }

  lemma AfterMove(s: State, t: State, r: RunId)
    requires Inv(s) && r < |t.runs| && Moved(s, t, r, t.runs[r])
    requires t.closed == s.closed && t.cancelled == s.cancelled && t.closers == s.closers
    requires !s.runs[r].phase.Gone? && t.waiting == s.waiting - if t.runs[r].phase.Gone? then 1 else 0
    requires Placed(t.runs[r]) && Position(s.runs[r]) <= Position(t.runs[r])
    requires t.started == s.started || History(t)
    ensures Inv(t)
  {
    HeldAfterMove(s, t, r, t.runs[r]);
    AccountedAfterMove(s, t, r, t.runs[r]);
    if t.started == s.started {
      HistoryAfterMove(s, t, r, t.runs[r]);
    }
  }

  lemma UnregisterKeeps(s: State, r: RunId)
    requires Inv(s) && Enabled(s, Unregister(r))
    ensures Inv(Apply(s, Unregister(r)))
  {
    var t := Apply(s, Unregister(r));
    assert Placed(s.runs[r]);
    assert Unfinished(s) == Unfinished(t);
    HeldAfterUnregister(s, r);
    SameCalls(s, t);
    forall d: nat | d < |t.disconnects| ensures CallKept(t, d) {
      assert CallKept(s, d);
    }
  }

  lemma HeldAfterUnregister(s: State, r: RunId)
    requires Held(s) && Registry(s) && Calls(s) && Enabled(s, Unregister(r))
    ensures Held(Apply(s, Unregister(r)))
  {
    var t := Apply(s, Unregister(r));
    SameCalls(s, t);
    forall q: RunId | q < |t.runs| && t.runs[q].InUse() ensures Registered(t, q) || Taken(t, q) {
      assert s.runs[q].InUse();
    }
  }

  lemma HeldAfterConnected(s: State, id: ClusterId)
    requires Held(s) && Calls(s) && !s.closed && id !in s.restoring
    ensures Held(Apply(s, Connected(id)))
  {
    var t := Apply(s, Connected(id));
    SameCalls(s, t);
    forall q: RunId | q < |t.runs| && t.runs[q].InUse() ensures Registered(t, q) || Taken(t, q) {
      assert q != |s.runs| ==> s.runs[q].InUse();
    }
  }

  lemma CallsAfterConnected(s: State, id: ClusterId)
    requires Calls(s) && !s.closed && id !in s.restoring
    ensures Calls(Apply(s, Connected(id)))
  {
    var t := Apply(s, Connected(id));
    SameCalls(s, t);
    forall d: nat | d < |t.disconnects| ensures CallKept(t, d) {
      assert CallKept(s, d);
    }
  }

  lemma ConnectedKeeps(s: State, id: ClusterId)
    requires Inv(s) && !s.closed && id !in s.restoring
    ensures Inv(Apply(s, Connected(id)))
  {
    assert Unfinished(Apply(s, Connected(id))) == Unfinished(s) + {|s.runs|};
    HeldAfterConnected(s, id);
    CallsAfterConnected(s, id);
  }

  /** A disconnect takes the registered run, which no disconnect took before. */
  lemma CallsAfterDisconnected(s: State, id: ClusterId)
    requires Calls(s) && Registry(s)
    ensures Calls(Apply(s, Disconnected(id)))
  {
    var t := Apply(s, Disconnected(id));
    var n := |s.disconnects|;
    forall d: nat | d < |t.disconnects| ensures CallKept(t, d) {
      assert d < n ==> CallKept(s, d);
    }
    forall d: nat, r | d < n && FoundBy(t, d, r) ensures FoundBy(s, d, r) && !FoundBy(t, n, r) {
      assert CallKept(s, d);
    }
  }

  lemma DisconnectedKeeps(s: State, id: ClusterId)
    requires Inv(s)
    ensures Inv(Apply(s, Disconnected(id)))
  {
    var t := Apply(s, Disconnected(id));
    assert Unfinished(t) == Unfinished(s);
    CallsAfterDisconnected(s, id);
    forall q: RunId | q < |t.runs| && t.runs[q].InUse() ensures Registered(t, q) || Taken(t, q) {
      assert s.runs[q].InUse();
      if Taken(s, q) {
        var d :| FoundBy(s, d, q);
        assert FoundBy(t, d, q);
      } else if s.runs[q].cluster == id {
        assert FoundBy(t, |s.disconnects|, q);
      }
    }
  }

  lemma CallKeeps(s: State, e: Event)
    requires Inv(s) && Enabled(s, e) && (e.CancelRun? || e.AwaitRun?)
    ensures Inv(Apply(s, e))
  {
    var t := Apply(s, e);
    assert Unfinished(t) == Unfinished(s);
    SameCalls(s, t);
    forall q: RunId | q < |t.runs| && t.runs[q].InUse() ensures Registered(t, q) || Taken(t, q) {
      assert s.runs[q].InUse();
    }
    forall d: nat | d < |t.disconnects| ensures CallKept(t, d) {
      assert CallKept(s, d);
    }
  }

  lemma CloserKeeps(s: State, e: Event)
    requires Inv(s) && Enabled(s, e) && (e.Closed? || e.CancelAll? || e.AwaitAll?)
    ensures Inv(Apply(s, e))
  {
    var t := Apply(s, e);
    assert Unfinished(t) == Unfinished(s);
    SameCalls(s, t);
    forall q: RunId | q < |t.runs| && t.runs[q].InUse() ensures Registered(t, q) || Taken(t, q) {
      assert s.runs[q].InUse();
    }
    forall d: nat | d < |t.disconnects| ensures CallKept(t, d) {
      assert CallKept(s, d);
    }
  }

  /** Every step keeps the invariant. */
  lemma Step(s: State, e: Event)
    requires Inv(s) && Enabled(s, e)
    ensures Inv(Apply(s, e))
  {
    match e
    case Connected(id) =>
      if !s.closed && id !in s.restoring { ConnectedKeeps(s, id); }
    case Disconnected(id) => DisconnectedKeeps(s, id);
    case CancelRun(_) => CallKeeps(s, e);
    case AwaitRun(_) => CallKeeps(s, e);
    case Closed => CloserKeeps(s, e);
    case CancelAll(_) => CloserKeeps(s, e);
    case AwaitAll(_) => CloserKeeps(s, e);
    case Unregister(r) => UnregisterKeeps(s, r);
    case _ => OwnStepKeeps(s, e, e.r);
  }

  // ---- Whole runs ----

  lemma {:induction false} RunKeeps(s: State, es: seq<Event>, t: State)
    requires Inv(s) && Run(s, es, t)
    ensures Inv(t)
    decreases |es|
  {
    if es != [] {
      Step(s, es[0]);
      RunKeeps(Apply(s, es[0]), es[1..], t);
    }
  }

  ghost predicate Reachable(s: State) { exists es: seq<Event> :: Run(INIT, es, s) }

  lemma ReachableInv(s: State)
    requires Reachable(s)
    ensures Inv(s)
  {
    var es: seq<Event> :| Run(INIT, es, s);
    assert Unfinished(INIT) == {};
    RunKeeps(INIT, es, s);
  }

  lemma {:induction false} RunExtends(s: State, es: seq<Event>, t: State, e: Event)
    requires Run(s, es, t) && Enabled(t, e)
    ensures Run(s, es + [e], Apply(t, e))
    decreases |es|
  {
    if es == [] {
      assert [e][1..] == [];
    } else {
      RunExtends(Apply(s, es[0]), es[1..], t, e);
      assert (es + [e])[1..] == es[1..] + [e];
    }
  }

  lemma ReachableStep(s: State, e: Event)
    requires Reachable(s) && Enabled(s, e)
    ensures Reachable(Apply(s, e))
  {
    var es: seq<Event> :| Run(INIT, es, s);
    RunExtends(INIT, es, s, e);
  }

  /** What is registered is its cluster's own run, at work: never one that is over. */
  lemma RegisteredRunIsAtWork(s: State, id: ClusterId)
    requires Reachable(s) && id in s.restoring
    ensures var r := s.restoring[id]; r < |s.runs| && s.runs[r].cluster == id && s.runs[r].InUse()
  {
    ReachableInv(s);
  }

  /** At most one restore of a cluster is at work that no disconnect has taken. */
  lemma OneRestorePerCluster(s: State, q: RunId, r: RunId)
    requires Reachable(s) && q < |s.runs| && r < |s.runs| && q != r && s.runs[q].cluster == s.runs[r].cluster
    requires s.runs[q].InUse() && s.runs[r].InUse()
    ensures Taken(s, q) || Taken(s, r)
  {
    ReachableInv(s);
  }

  /** A finishing run drops no entry but its own: a successor's stays until a disconnect
      takes it or it finishes itself. */
  lemma SuccessorKeepsItsEntry(s: State, e: Event, id: ClusterId)
    requires Enabled(s, e) && id in s.restoring && e != Disconnected(id) && e != Unregister(s.restoring[id])
    ensures id in Apply(s, e).restoring && Apply(s, e).restoring[id] == s.restoring[id]
  {
  }

  /** How often a run is seen starting a forward. */
  function Starts(es: seq<Event>, r: RunId): nat {
    if es == [] then 0 else (if es[0] == Start(r) then 1 else 0) + Starts(es[1..], r)
  }

  /** Starts a run has left once its context is over: the one whose checks it has passed. */
  function Left(s: State, r: RunId): nat
    requires r < |s.runs|
  {
    if s.runs[r].phase.Starting? then 1 else 0
  }

  lemma CancelledStep(s: State, e: Event, r: RunId)
    requires Enabled(s, e) && r < |s.runs| && Cancelled(s, r)
    ensures var t := Apply(s, e);
      r < |t.runs| && Cancelled(t, r) && Left(t, r) + (if e == Start(r) then 1 else 0) <= Left(s, r)
  {
    if OwnStep(e, r) {
      CancelledOwnStep(s, e, r);
    } else {
      OthersLeaveAlone(s, e, r);
    }
  }

  lemma CancelledOwnStep(s: State, e: Event, r: RunId)
    requires Enabled(s, e) && r < |s.runs| && Cancelled(s, r) && OwnStep(e, r)
    ensures var t := Apply(s, e);
      r < |t.runs| && Cancelled(t, r) && Left(t, r) + (if e == Start(r) then 1 else 0) <= Left(s, r)
  {
  }

  lemma OthersLeaveAlone(s: State, e: Event, r: RunId)
    requires Enabled(s, e) && r < |s.runs| && !OwnStep(e, r)
    ensures var t := Apply(s, e);
      && r < |t.runs| && t.runs[r].phase == s.runs[r].phase && t.runs[r].cluster == s.runs[r].cluster
      && (Cancelled(s, r) ==> Cancelled(t, r))
  {
  }

  /** Once its context is over, a restore starts no forward but the one it had already
      passed both checks for, whatever else goes on. */
  lemma {:induction false} CancelledRestoreStartsAtMostOne(s: State, es: seq<Event>, t: State, r: RunId)
    requires Run(s, es, t) && r < |s.runs| && Cancelled(s, r)
    ensures Starts(es, r) <= Left(s, r)
    decreases |es|
  {
    if es != [] {
      CancelledStep(s, es[0], r);
      CancelledRestoreStartsAtMostOne(Apply(s, es[0]), es[1..], t, r);
    }
  }

  lemma OverStep(s: State, e: Event, r: RunId)
    requires Enabled(s, e) && r < |s.runs| && s.runs[r].Over()
    ensures r < |Apply(s, e).runs| && Apply(s, e).runs[r].Over() && e != Start(r)
  {
    if !OwnStep(e, r) { OthersLeaveAlone(s, e, r); }
  }

  lemma {:induction false} OverStaysOver(s: State, es: seq<Event>, t: State, r: RunId)
    requires Run(s, es, t) && r < |s.runs| && s.runs[r].Over()
    ensures r < |t.runs| && t.runs[r].Over() && Starts(es, r) == 0
    decreases |es|
  {
    if es != [] {
      OverStep(s, es[0], r);
      OverStaysOver(Apply(s, es[0]), es[1..], t, r);
    }
  }

  /** When ClusterDisconnected returns, the run it found is over, and from then on that run
      starts nothing. */
  lemma DisconnectedRunStartsNothing(s: State, d: nat, es: seq<Event>, t: State)
    requires Reachable(s) && d < |s.disconnects| && s.disconnects[d].stage.Returned? && s.disconnects[d].found.Some?
    requires Run(s, es, t)
    ensures var r := s.disconnects[d].found.value;
      && r < |s.runs| && s.runs[r].cluster == s.disconnects[d].cluster && s.runs[r].Over()
      && Starts(es, r) == 0
  {
    ReachableInv(s);
    assert CallKept(s, d);
    OverStaysOver(s, es, t, s.disconnects[d].found.value);
  }

  // ---- A cluster at rest ----

  /** No restore of the cluster is registered, and every disconnect of it has returned. */
  ghost predicate AtRest(s: State, id: ClusterId) {
    && id !in s.restoring
    && forall d: nat | d < |s.disconnects| && s.disconnects[d].cluster == id :: s.disconnects[d].stage.Returned?
  }

  ghost predicate NoneAtWork(s: State, id: ClusterId) {
    forall r: RunId | r < |s.runs| && s.runs[r].cluster == id :: !s.runs[r].InUse()
  }

  lemma AtRestNoneAtWork(s: State, id: ClusterId)
    requires Reachable(s) && AtRest(s, id)
    ensures NoneAtWork(s, id)
  {
    ReachableInv(s);
    forall d: nat, r: RunId | FoundBy(s, d, r) ensures r < |s.runs| && (s.runs[r].cluster == id ==> s.runs[r].Over()) {
      assert CallKept(s, d);
    }
  }

  lemma NoneAtWorkStep(s: State, e: Event, id: ClusterId)
    requires Enabled(s, e) && NoneAtWork(s, id) && e != Connected(id)
    ensures NoneAtWork(Apply(s, e), id)
    ensures forall r: RunId | r < |s.runs| && s.runs[r].cluster == id :: e != Start(r)
  {
    var t := Apply(s, e);
    forall r: RunId | r < |t.runs| && t.runs[r].cluster == id ensures !t.runs[r].InUse() {
      if r < |s.runs| && !OwnStep(e, r) { OthersLeaveAlone(s, e, r); }
    }
  }

  /** Forwards of a cluster that a run of steps starts in the background. */
  ghost predicate StartsFor(s: State, es: seq<Event>, id: ClusterId)
    decreases |es|
  {
    es != [] && Enabled(s, es[0])
    && ((es[0].Start? && s.runs[es[0].r].cluster == id) || StartsFor(Apply(s, es[0]), es[1..], id))
  }

  lemma {:induction false} NoneAtWorkStartsNothing(s: State, es: seq<Event>, t: State, id: ClusterId)
    requires NoneAtWork(s, id) && Run(s, es, t) && Connected(id) !in es
    ensures !StartsFor(s, es, id)
    decreases |es|
  {
    if es != [] {
      assert es[0] in es;
      NoneAtWorkStep(s, es[0], id);
      NoneAtWorkStartsNothing(Apply(s, es[0]), es[1..], t, id);
    }
  }

  /** Once every disconnect of a cluster has returned, nothing starts a forward there in the
      background before the cluster is connected again. */
  lemma ClusterAtRestStartsNothing(s: State, es: seq<Event>, t: State, id: ClusterId)
    requires Reachable(s) && AtRest(s, id) && Run(s, es, t) && Connected(id) !in es
    ensures !StartsFor(s, es, id)
  {
    AtRestNoneAtWork(s, id);
    NoneAtWorkStartsNothing(s, es, t, id);
  }

  // ---- Exactly what a disconnect leaves behind ----

  /** Some background start is still ahead of the run: it has passed both checks for one, or
      nothing has cancelled it and its list is not at its end. */
  predicate MayStart(s: State, r: RunId)
    requires r < |s.runs|
  {
    var p := s.runs[r];
    || p.phase.Starting?
    || (!Cancelled(s, r)
        && match p.phase
           case Loading => true
           case AtItem(next) => next < |p.kept|
           case Recording(item) => item + 1 < |p.kept|
           case _ => p.phase.Checking? || p.phase.Resolving? || p.phase.Rechecking?)
  }

  ghost predicate NoneMayStart(s: State, id: ClusterId) {
    forall r: RunId | r < |s.runs| && s.runs[r].cluster == id :: !MayStart(s, r)
  }

  lemma NoneMayStartStep(s: State, e: Event, id: ClusterId)
    requires Enabled(s, e) && NoneMayStart(s, id) && e != Connected(id)
    ensures NoneMayStart(Apply(s, e), id)
    ensures !(e.Start? && s.runs[e.r].cluster == id)
  {
    var t := Apply(s, e);
    forall r: RunId | r < |t.runs| && t.runs[r].cluster == id ensures !MayStart(t, r) {
      if r < |s.runs| {
        if OwnStep(e, r) {
          MayStartOwnStep(s, e, r);
        } else {
          OthersLeaveAlone(s, e, r);
          assert t.runs[r].kept == s.runs[r].kept;
        }
      }
    }
  }

  lemma MayStartOwnStep(s: State, e: Event, r: RunId)
    requires Enabled(s, e) && OwnStep(e, r) && r < |s.runs| && !MayStart(s, r)
    ensures r < |Apply(s, e).runs| && !MayStart(Apply(s, e), r)
  {
  }

  lemma {:induction false} NoneMayStartStartsNothing(s: State, es: seq<Event>, t: State, id: ClusterId)
    requires NoneMayStart(s, id) && Run(s, es, t) && Connected(id) !in es
    ensures !StartsFor(s, es, id)
    decreases |es|
  {
    if es != [] {
      assert es[0] in es;
      NoneMayStartStep(s, es[0], id);
      NoneMayStartStartsNothing(Apply(s, es[0]), es[1..], t, id);
    }
  }

  /** The run's next step towards starting a forward, when everything lets it. */
  function Toward(s: State, r: RunId): Event
    requires r < |s.runs| && MayStart(s, r)
  {
    match s.runs[r].phase
    case Loading => Load(r, Some([Kept("", 0, 0)]))
    case AtItem(_) => Next(r, false)
    case Checking(_) => Check(r, true, false)
    case Resolving(_) => Resolve(r, true)
    case Rechecking(_) => Recheck(r, true, false)
    case Starting(_) => Start(r)
    case _ => Record(r)
  }

  function StepsToStart(p: Restore): nat {
    match p.phase
    case AtItem(_) => 5
    case Checking(_) => 4
    case Resolving(_) => 3
    case Rechecking(_) => 2
    case Starting(_) => 1
    case _ => 6
  }

  lemma TowardStep(s: State, r: RunId)
    requires r < |s.runs| && MayStart(s, r)
    ensures Enabled(s, Toward(s, r))
    ensures var t := Apply(s, Toward(s, r));
      && r < |t.runs| && t.runs[r].cluster == s.runs[r].cluster
      && (!s.runs[r].phase.Starting? ==> MayStart(t, r) && StepsToStart(t.runs[r]) < StepsToStart(s.runs[r]))
  {
  }

  lemma {:induction false} StartCanCome(s: State, r: RunId) returns (es: seq<Event>, t: State)
    requires r < |s.runs| && MayStart(s, r)
    ensures Run(s, es, t) && StartsFor(s, es, s.runs[r].cluster) && forall e | e in es :: !e.Connected?
    decreases StepsToStart(s.runs[r])
  {
    var e := Toward(s, r);
    TowardStep(s, r);
    if s.runs[r].phase.Starting? {
      es, t := [e], Apply(s, e);
      assert es[1..] == [];
    } else {
      var rest;
      rest, t := StartCanCome(Apply(s, e), r);
      es := [e] + rest;
      assert es[1..] == rest;
    }
  }

  /** A forward of the cluster can still be started in the background before it is connected
      again. */
  ghost predicate CanStart(s: State, id: ClusterId) {
    exists es: seq<Event>, t: State :: Run(s, es, t) && Connected(id) !in es && StartsFor(s, es, id)
  }

  /** Exactly when: after a disconnect, or at any other moment, a forward of the cluster can
      still be started in the background if and only if one of its restores has a start ahead
      of it, registered or taken. */
  lemma CanStartExactlyWhen(s: State, id: ClusterId)
    ensures CanStart(s, id) <==> exists r: RunId :: r < |s.runs| && s.runs[r].cluster == id && MayStart(s, r)
  {
    if CanStart(s, id) {
      var es: seq<Event>, t: State :| Run(s, es, t) && Connected(id) !in es && StartsFor(s, es, id);
      if NoneMayStart(s, id) {
        NoneMayStartStartsNothing(s, es, t, id);
      }
    }
    if r: RunId :| r < |s.runs| && s.runs[r].cluster == id && MayStart(s, r) {
      var es, t := StartCanCome(s, r);
      assert Connected(id) !in es;
    }
  }

  // ---- Close ----

  /** Once a Close has returned no restore is left, and none ever starts. */
  lemma {:induction false} NothingAfterClose(s: State, es: seq<Event>, t: State)
    requires Inv(s) && (exists c :: 0 <= c < |s.closers| && s.closers[c].Returned?) && Run(s, es, t)
    ensures |t.runs| == |s.runs| && t.started == s.started && forall r: RunId | r < |t.runs| :: t.runs[r].phase.Gone?
    decreases |es|
  {
    var c :| 0 <= c < |s.closers| && s.closers[c].Returned?;
    NoneUnfinished(s);
    if es != [] {
      Step(s, es[0]);
      ClosedStep(s, es[0], c);
      NothingAfterClose(Apply(s, es[0]), es[1..], t);
    }
  }

  lemma NoneUnfinished(s: State)
    requires Accounted(s) && s.waiting == 0
    ensures forall r: RunId | r < |s.runs| :: s.runs[r].phase.Gone?
  {
    assert Unfinished(s) == {};
    forall r: RunId | r < |s.runs| ensures s.runs[r].phase.Gone? {
      assert r !in Unfinished(s);
    }
  }

  lemma ClosedStep(s: State, e: Event, c: nat)
    requires Inv(s) && c < |s.closers| && s.closers[c].Returned? && Enabled(s, e)
    requires forall r: RunId | r < |s.runs| :: s.runs[r].phase.Gone?
    ensures |Apply(s, e).runs| == |s.runs| && Apply(s, e).started == s.started
    ensures c < |Apply(s, e).closers| && Apply(s, e).closers[c].Returned?
  {
  }

  // ---- Waits that can end ----

  /** The run's own next step towards its end, needing nothing of anybody else. */
  function Onward(s: State, r: RunId): Event
    requires r < |s.runs| && !s.runs[r].phase.Gone?
  {
    match s.runs[r].phase
    case Loading => Load(r, None)
    case AtItem(_) => Next(r, false)
    case Checking(_) => Check(r, false, false)
    case Resolving(_) => Resolve(r, false)
    case Rechecking(_) => Recheck(r, false, false)
    case Starting(_) => Start(r)
    case Recording(_) => Record(r)
    case Retiring => Retire(r)
    case Unregistering => Unregister(r)
    case Ending => CloseDone(r)
    case Ended => WaitDone(r)
  }

  /** Own steps a cancelled run still takes. */
  function Ahead(p: Restore): nat {
    match p.phase
    case Loading => 5
    case AtItem(_) => 5
    case Checking(_) => 7
    case Resolving(_) => 7
    case Rechecking(_) => 7
    case Starting(_) => 7
    case Recording(_) => 6
    case Retiring => 4
    case Unregistering => 3
    case Ending => 2
    case Ended => 1
    case Gone => 0
  }

  lemma OnwardIsOwn(s: State, r: RunId)
    requires r < |s.runs| && !s.runs[r].phase.Gone?
    ensures Enabled(s, Onward(s, r)) && OwnStep(Onward(s, r), r)
  {
  }

  lemma OnwardStep(s: State, r: RunId)
    requires r < |s.runs| && !s.runs[r].phase.Gone? && Cancelled(s, r)
    ensures Enabled(s, Onward(s, r)) && OwnStep(Onward(s, r), r)
    ensures var t := Apply(s, Onward(s, r));
      && r < |t.runs| && Cancelled(t, r) && Ahead(t.runs[r]) < Ahead(s.runs[r])
      && t.disconnects == s.disconnects && t.closers == s.closers && t.cancelled == s.cancelled
  {
    OnwardIsOwn(s, r);
  }

  /** A cancelled run comes to its end by at most seven steps of its own, whatever the
      rest of the program is doing. */
  lemma {:induction false} CancelledRunCanEnd(s: State, r: RunId) returns (es: seq<Event>, t: State)
    requires Inv(s) && r < |s.runs| && Cancelled(s, r)
    ensures Run(s, es, t) && Inv(t) && r < |t.runs| && t.runs[r].phase.Gone?
    ensures |es| <= Ahead(s.runs[r]) && forall e | e in es :: OwnStep(e, r)
    ensures t.disconnects == s.disconnects && t.closers == s.closers && t.cancelled == s.cancelled
    ensures Unfinished(t) == Unfinished(s) - {r}
    decreases Ahead(s.runs[r])
  {
    if s.runs[r].phase.Gone? {
      es, t := [], s;
    } else {
      var e := Onward(s, r);
      OnwardStep(s, r);
      Step(s, e);
      UnfinishedAfter(s, e, r);
      var rest;
      rest, t := CancelledRunCanEnd(Apply(s, e), r);
      es := [e] + rest;
      assert es[1..] == rest;
    }
  }

  lemma UnfinishedAfter(s: State, e: Event, r: RunId)
    requires Enabled(s, e) && OwnStep(e, r)
    ensures Unfinished(Apply(s, e)) - {r} == Unfinished(s) - {r}
  {
  }

  /** A disconnect that is waiting can come back, by steps of the run it waits for alone. */
  lemma DisconnectCanReturn(s: State, d: nat) returns (es: seq<Event>, t: State)
    requires Reachable(s) && d < |s.disconnects| && s.disconnects[d].stage.Waiting?
    ensures Run(s, es, t) && Enabled(t, AwaitRun(d))
    ensures forall e | e in es :: s.disconnects[d].found.Some? && OwnStep(e, s.disconnects[d].found.value)
  {
    ReachableInv(s);
    assert CallKept(s, d);
    es, t := CancelledRunCanEnd(s, s.disconnects[d].found.value);
  }

  lemma {:induction false} RunJoin(s: State, es: seq<Event>, t: State, fs: seq<Event>, u: State)
    requires Run(s, es, t) && Run(t, fs, u)
    ensures Run(s, es + fs, u)
    decreases |es|
  {
    if es == [] {
      assert es + fs == fs;
    } else {
      RunJoin(Apply(s, es[0]), es[1..], t, fs, u);
      assert (es + fs)[1..] == es[1..] + fs;
    }
  }

  lemma {:induction false} AllCanEnd(s: State) returns (es: seq<Event>, t: State)
    requires Inv(s) && s.cancelled
    ensures Run(s, es, t) && t.waiting == 0 && t.closers == s.closers
    ensures forall e | e in es :: exists r :: OwnStep(e, r)
    decreases Unfinished(s)
  {
    if Unfinished(s) == {} {
      es, t := [], s;
    } else {
      var r :| r in Unfinished(s);
      var first, middle := CancelledRunCanEnd(s, r);
      var rest;
      rest, t := AllCanEnd(middle);
      es := first + rest;
      RunJoin(s, first, middle, rest, t);
    }
  }

  /** A Close that is waiting can come back, by steps of the restores alone. */
  lemma CloseCanReturn(s: State, c: nat) returns (es: seq<Event>, t: State)
    requires Reachable(s) && c < |s.closers| && s.closers[c].Waiting?
    ensures Run(s, es, t) && Enabled(t, AwaitAll(c))
    ensures forall e | e in es :: exists r :: OwnStep(e, r)
  {
    ReachableInv(s);
    es, t := AllCanEnd(s);
  }

  // ---- What a restore starts ----

  /** A restore starts each item of its list at most once, and in the list's order. */
  lemma RestoreStartsInOrder(s: State, i: nat, j: nat)
    requires Reachable(s) && i < j < |s.started| && s.started[i].run == s.started[j].run
    ensures s.started[i].item < s.started[j].item
    ensures s.started[j].run < |s.runs| && s.started[j].item < |s.runs[s.started[j].run].kept|
  {
    ReachableInv(s);
  }

  /** Two disconnects of one cluster at once: the second finds no run, comes back at once,
      and the first one's run can still start a forward. */
  lemma SecondDisconnectDoesNotWait(id: ClusterId, kept: Kept) returns (s: State)
    ensures Reachable(s) && |s.disconnects| == 2 && s.disconnects[1] == Disconnect(id, None, Returned)
    ensures !AtRest(s, id) && StartsFor(s, [Start(0)], id)
  {
    assert Run(INIT, [], INIT);
    s := After(INIT, Connected(id));
    s := After(s, Load(0, Some([kept])));
    s := After(s, Next(0, false));
    s := After(s, Check(0, true, false));
    s := After(s, Resolve(0, true));
    s := After(s, Recheck(0, true, false));
    s := After(s, Disconnected(id));
    s := After(s, Disconnected(id));
    assert s.disconnects[0].cluster == id && !s.disconnects[0].stage.Returned?;
  }

  lemma After(s: State, e: Event) returns (t: State)
    requires Reachable(s) && Enabled(s, e)
    ensures t == Apply(s, e) && Reachable(t)
  {
    ReachableStep(s, e);
    t := Apply(s, e);
  }
}
