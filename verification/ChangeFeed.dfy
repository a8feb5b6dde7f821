/** The change feed (app/application/topology.go). */
module ChangeFeedProtocol {
  // Every critical section under the feed's mutex is one step, and so is every move of a timer's
  // goroutine outside it: the timer firing, the question whether the cluster is still open, one
  // call of one subscriber, the deferred WaitGroup.Done. A run is any interleaving of those
  // steps. `accepted` and `delivered` are history: what Changed let in and what subscribers were
  // called with.

  import opened NamespaceScopes
  import Ordering

  type ClusterId = string

  /** Identities: a pendingChange pointer, and a key of the subscriber map. */
  type BatchId = nat
  type Listener = nat

  datatype Drawing = Drawing(scope: NamespaceScope, at: int, number: nat)

  /** An empty list of namespaces means somewhere in the cluster. */
  datatype Change = Change(cluster: ClusterId, namespaces: seq<NamespaceName>)

  /** Where a batch and its timer are. Stopped is Timer.Stop having returned true: the
      callback never runs. Fired to Leaving are the callback, from before flush's
      critical section to the deferred Done. */
  datatype Phase =
    | Armed
    | Stopped
    | Fired
    | Deciding(change: Change, drawing: nat, listeners: set<Listener>)
    | Forgetting(drawing: nat)
    | Announcing(change: Change, todo: set<Listener>)
    | Leaving
    | Finished

  /** What became of a batch's changes: still gathering, or taken out of the pending
      map by the step named. */
  datatype Fate =
    | Gathering
    | Released
    | Closed
    | Unwatched
    | Unheard
    | Declined
    | Flushed(change: Change, scope: NamespaceScope, listeners: set<Listener>)

  datatype Batch = Batch(cluster: ClusterId, namespaces: set<NamespaceName>, anywhere: bool,
                         phase: Phase, fate: Fate, dones: nat)
  {
    predicate Live() { !phase.Stopped? && !phase.Finished? }
  }

  datatype Accepted = Accepted(cluster: ClusterId, ns: NamespaceName, batch: BatchId)
  datatype Delivery = Delivery(batch: BatchId, listener: Listener, change: Change)

  datatype State = State(
    interest: int,
    closed: bool,
    subs: set<Listener>,
    nextSub: nat,
    drawn: map<ClusterId, Drawing>,
    pending: map<ClusterId, BatchId>,
    batches: map<BatchId, Batch>,
    nextBatch: BatchId,
    drawings: nat,
    inFlight: int,
    accepted: seq<Accepted>,
    delivered: seq<Delivery>,
    closeReturned: bool)

  ghost function Init(interest: int): State {
    State(interest, false, {}, 0, map[], map[], map[], 0, 0, 0, [], [], false)
  }

  datatype Event =
    | Watch(id: ClusterId, scope: NamespaceScope, now: int)
    | Release(id: ClusterId)
    | Subscribe
    | Unsubscribe(listener: Listener)
    | Changed(id: ClusterId, ns: NamespaceName, now: int)
    | Fire(b: BatchId)
    | Flush(b: BatchId)
    | AskOpen(b: BatchId, open: bool)
    | ForgetDrawing(b: BatchId)
    | Deliver(b: BatchId, listener: Listener)
    | Done(b: BatchId)
    | CloseSection
    | CloseReturns

  // ---- The steps ----

  ghost predicate Enabled(s: State, e: Event) {
    match e
    case Fire(b) => b in s.batches && s.batches[b].phase.Armed?
    case Flush(b) => b in s.batches && s.batches[b].phase.Fired?
    case AskOpen(b, _) => b in s.batches && s.batches[b].phase.Deciding?
    case ForgetDrawing(b) => b in s.batches && s.batches[b].phase.Forgetting?
    case Deliver(b, k) => b in s.batches && s.batches[b].phase.Announcing? && k in s.batches[b].phase.todo
    case Done(b) => b in s.batches && s.batches[b].phase.Leaving?
    case CloseReturns => s.closed && s.inFlight == 0
    case _ => true
  }

  ghost function SetPhase(s: State, b: BatchId, phase: Phase): State
    requires b in s.batches
  {
    s.(batches := s.batches[b := s.batches[b].(phase := phase)])
  }

  /** Timer.Stop on a batch: true, and one Done, exactly when it had not fired. */
  ghost function StopTimer(p: Batch, fate: Fate): Batch {
    if p.phase.Armed? then p.(phase := Stopped, fate := fate, dones := p.dones + 1) else p.(fate := fate)
  }

  ghost function ReleaseStep(s: State, id: ClusterId): State {
    var s1 := s.(drawn := s.drawn - {id});
    if id in s.pending && s.pending[id] in s.batches then
      var b := s.pending[id];
      s1.(batches := s.batches[b := StopTimer(s.batches[b], Released)],
          inFlight := if s.batches[b].phase.Armed? then s.inFlight - 1 else s.inFlight,
          pending := s.pending - {id})
    else s1
  }

  /** Whether Changed lets a change in. */
  ghost predicate Accepts(s: State, id: ClusterId, ns: NamespaceName, now: int) {
    && !s.closed && s.subs != {} && id in s.drawn
    && now - s.drawn[id].at <= s.interest
    && (ns == NAMESPACE_ALL || s.drawn[id].scope.Includes(ns))
  }

  ghost function Note(p: Batch, ns: NamespaceName): Batch {
    if ns == NAMESPACE_ALL then p.(anywhere := true) else p.(namespaces := p.namespaces + {ns})
  }

  ghost function ChangedStep(s: State, id: ClusterId, ns: NamespaceName, now: int): State {
    if Accepts(s, id, ns, now) then
      if id in s.pending && s.pending[id] in s.batches then
        var b := s.pending[id];
        s.(batches := s.batches[b := Note(s.batches[b], ns)],
           accepted := s.accepted + [Accepted(id, ns, b)])
      else
        var b := s.nextBatch;
        s.(batches := s.batches[b := Note(Batch(id, {}, false, Armed, Gathering, 0), ns)],
           pending := s.pending[id := b],
           nextBatch := b + 1,
           inFlight := s.inFlight + 1,
           accepted := s.accepted + [Accepted(id, ns, b)])
    else if !s.closed && s.subs != {} && id in s.drawn && now - s.drawn[id].at > s.interest then
      s.(drawn := s.drawn - {id})
    else s
  }

  /** What flush says about a batch, given the scope drawn at that moment. */
  ghost function Summary(p: Batch, scope: NamespaceScope): Change {
    Change(p.cluster,
      if p.anywhere then (if scope.all then [] else scope.namespaces)
      else Ordering.SortedElements(p.namespaces))
  }

  ghost function FlushStep(s: State, b: BatchId): State
    requires b in s.batches
  {
    var p := s.batches[b];
    var id := p.cluster;
    if s.closed || id !in s.pending || s.pending[id] != b then SetPhase(s, b, Leaving)
    else
      var s1 := s.(pending := s.pending - {id});
      if id !in s.drawn then s1.(batches := s.batches[b := p.(phase := Leaving, fate := Unwatched)])
      else if s.subs == {} then s1.(batches := s.batches[b := p.(phase := Leaving, fate := Unheard)])
      else
        var d := s.drawn[id];
        var change := Summary(p, d.scope);
        s1.(batches := s.batches[b := p.(phase := Deciding(change, d.number, s.subs),
                                        fate := Flushed(change, d.scope, s.subs))])
  }

  ghost function ForgetStep(s: State, b: BatchId): State
    requires b in s.batches && s.batches[b].phase.Forgetting?
  {
    var p := s.batches[b];
    var s1 := SetPhase(s, b, Leaving);
    if p.cluster in s.drawn && s.drawn[p.cluster].number == p.phase.drawing
    then s1.(drawn := s.drawn - {p.cluster}) else s1
  }

  ghost function DeliverStep(s: State, b: BatchId, k: Listener): State
    requires b in s.batches && s.batches[b].phase.Announcing?
  {
    var Announcing(change, todo) := s.batches[b].phase;
    var s1 := SetPhase(s, b, if todo - {k} == {} then Leaving else Announcing(change, todo - {k}));
    s1.(delivered := s.delivered + [Delivery(b, k, change)])
  }

  ghost function DoneStep(s: State, b: BatchId): State
    requires b in s.batches
  {
    var p := s.batches[b];
    s.(batches := s.batches[b := p.(phase := Finished, dones := p.dones + 1)], inFlight := s.inFlight - 1)
  }

  ghost function Unfired(s: State): set<ClusterId> {
    set id | id in s.pending && s.pending[id] in s.batches && s.batches[s.pending[id]].phase.Armed?
  }

  ghost predicate IsPending(s: State, b: BatchId) {
    b in s.batches && s.batches[b].cluster in s.pending && s.pending[s.batches[b].cluster] == b
  }

  ghost function CloseStep(s: State): State {
    s.(closed := true,
       batches := map b | b in s.batches ::
         if IsPending(s, b) then StopTimer(s.batches[b], Closed) else s.batches[b],
       inFlight := s.inFlight - |Unfired(s)|,
       pending := map[])
  }

  ghost function Apply(s: State, e: Event): State
    requires Enabled(s, e)
  {
    match e
    case Watch(id, scope, now) =>
      if s.closed then s
      else s.(drawings := s.drawings + 1, drawn := s.drawn[id := Drawing(scope, now, s.drawings + 1)])
    case Release(id) => ReleaseStep(s, id)
    case Subscribe => s.(subs := s.subs + {s.nextSub}, nextSub := s.nextSub + 1)
    case Unsubscribe(k) => s.(subs := s.subs - {k})
    case Changed(id, ns, now) => ChangedStep(s, id, ns, now)
    case Fire(b) => SetPhase(s, b, Fired)
    case Flush(b) => FlushStep(s, b)
    case AskOpen(b, open) =>
      var Deciding(change, drawing, listeners) := s.batches[b].phase;
      if open then SetPhase(s, b, Announcing(change, listeners))
      else s.(batches := s.batches[b := s.batches[b].(phase := Forgetting(drawing), fate := Declined)])
    case ForgetDrawing(b) => ForgetStep(s, b)
    case Deliver(b, k) => DeliverStep(s, b, k)
    case Done(b) => DoneStep(s, b)
    case CloseSection => CloseStep(s)
    case CloseReturns => s.(closeReturned := true)
  }

  /** `es` is a run from `s` to `t`. */
  ghost predicate Run(s: State, es: seq<Event>, t: State)
    decreases |es|
  {
    if es == [] then s == t
    else Enabled(s, es[0]) && Run(Apply(s, es[0]), es[1..], t)
  }

  // ---- What every step keeps ----

  ghost function LiveBatches(s: State): set<BatchId> {
    set b | b in s.batches && s.batches[b].Live()
  }

  /** The pending map and the batches agree: a cluster gathers into at most one batch,
      an armed timer is always reachable from the map, and a batch gathers exactly as
      long as the map holds it. */
  ghost predicate PendingAgrees(s: State) {
    && (forall id | id in s.pending :: IsGathering(s, s.pending[id], id))
    && (forall b | b in s.batches :: b < s.nextBatch && (s.batches[b].fate.Gathering? ==> IsPending(s, b)))
    && (s.closed ==> s.pending == map[])
  }

  ghost predicate IsGathering(s: State, b: BatchId, id: ClusterId) {
    b in s.batches && s.batches[b].cluster == id && s.batches[b].fate.Gathering?
  }

  /** The WaitGroup counts the armed timers and the unfinished callbacks, and every batch
      has had exactly the Dones it is owed. */
  ghost predicate Accounted(s: State) {
    && s.inFlight == |LiveBatches(s)|
    && (forall b | b in s.batches :: s.batches[b].dones == if s.batches[b].Live() then 0 else 1)
    && (s.closeReturned ==> s.closed && s.inFlight == 0)
  }

  ghost predicate BatchWellFormed(p: Batch) {
    && (p.anywhere || p.namespaces != {})
    && NAMESPACE_ALL !in p.namespaces
    && (p.phase.Armed? ==> p.fate.Gathering?)
    && (p.fate.Gathering? ==> p.phase.Armed? || p.phase.Fired?)
    && (p.fate.Flushed? ==> p.fate.change == Summary(p, p.fate.scope) && p.fate.listeners != {})
    && (p.phase.Deciding? ==> p.fate.Flushed? && p.phase.change == p.fate.change
                              && p.phase.listeners == p.fate.listeners)
    && (p.phase.Forgetting? ==> p.fate.Declined?)
    && (p.phase.Announcing? ==> p.fate.Flushed? && p.phase.change == p.fate.change
                                && {} < p.phase.todo <= p.fate.listeners)
    && (p.fate.Flushed? ==> p.phase.Deciding? || p.phase.Announcing? || p.phase.Leaving? || p.phase.Finished?)
  }

  ghost predicate WellFormed(s: State) {
    forall b | b in s.batches :: BatchWellFormed(s.batches[b])
  }

  ghost predicate Holds(p: Batch, ns: NamespaceName) {
    if ns == NAMESPACE_ALL then p.anywhere else ns in p.namespaces
  }

  ghost predicate WasAccepted(s: State, b: BatchId, ns: NamespaceName) {
    exists i :: 0 <= i < |s.accepted| && s.accepted[i].batch == b && s.accepted[i].ns == ns
  }

  /** A batch holds exactly the changes accepted into it. */
  ghost predicate Ledger(s: State) {
    && (forall i | 0 <= i < |s.accepted| ::
          s.accepted[i].batch in s.batches && s.batches[s.accepted[i].batch].cluster == s.accepted[i].cluster)
    && (forall i | 0 <= i < |s.accepted| :: Holds(s.batches[s.accepted[i].batch], s.accepted[i].ns))
    && (forall b, ns | b in s.batches && Holds(s.batches[b], ns) :: WasAccepted(s, b, ns))
  }

  ghost function Heard(s: State, b: BatchId): set<Listener> {
    set i | 0 <= i < |s.delivered| && s.delivered[i].batch == b :: s.delivered[i].listener
  }

  /** Who a batch still owes a call, given its phase. */
  ghost function Owed(p: Batch): set<Listener> {
    if !p.fate.Flushed? then {}
    else if p.phase.Deciding? then p.fate.listeners
    else if p.phase.Announcing? then p.phase.todo
    else {}
  }

  /** Deliveries come from flushed batches, carry their one summary, and reach each
      listener at most once; what is not owed any more has been delivered. */
  ghost predicate Delivered(s: State) {
    && (forall i | 0 <= i < |s.delivered| ::
          var d := s.delivered[i];
          d.batch in s.batches && s.batches[d.batch].fate.Flushed?
          && d.change == s.batches[d.batch].fate.change
          && d.listener in s.batches[d.batch].fate.listeners - Owed(s.batches[d.batch]))
    && (forall i, j | 0 <= i < j < |s.delivered| ::
          s.delivered[i].batch != s.delivered[j].batch || s.delivered[i].listener != s.delivered[j].listener)
    && (forall b | b in s.batches && s.batches[b].fate.Flushed? ::
          s.batches[b].fate.listeners - Owed(s.batches[b]) <= Heard(s, b))
  }

  /** Drawing numbers only grow. */
  ghost predicate Numbered(s: State) {
    && (forall id | id in s.drawn :: s.drawn[id].number <= s.drawings)
    && (forall b | b in s.batches && s.batches[b].phase.Deciding? :: s.batches[b].phase.drawing <= s.drawings)
    && (forall b | b in s.batches && s.batches[b].phase.Forgetting? :: s.batches[b].phase.drawing <= s.drawings)
  }

  ghost predicate Inv(s: State) {
    PendingAgrees(s) && Accounted(s) && WellFormed(s) && Ledger(s) && Delivered(s) && Numbered(s)
  }

  lemma InitInv(interest: int)
    ensures Inv(Init(interest))
  {
  }

  /** The step moved one batch on without touching what it gathered. */
  ghost predicate Moved(s: State, t: State, b: BatchId, p: Batch) {
    && b in s.batches && t.batches == s.batches[b := p]
    && p.cluster == s.batches[b].cluster
    && p.namespaces == s.batches[b].namespaces && p.anywhere == s.batches[b].anywhere
  }

  lemma PendingAfterChanged(s: State, id: ClusterId, ns: NamespaceName, now: int)
    requires PendingAgrees(s)
    ensures PendingAgrees(ChangedStep(s, id, ns, now))
  {
    var t := ChangedStep(s, id, ns, now);
    if Accepts(s, id, ns, now) {
      forall c | c in t.pending ensures IsGathering(t, t.pending[c], c) {
        if c in s.pending { assert IsGathering(s, s.pending[c], c); }
      }
    }
  }

  /** Taking a batch out of the pending map, with a fate of its own. */
  lemma PendingAfterRemoval(s: State, t: State, b: BatchId, p: Batch)
    requires PendingAgrees(s) && IsPending(s, b) && Moved(s, t, b, p)
    requires t.pending == s.pending - {s.batches[b].cluster}
    requires t.nextBatch == s.nextBatch && t.closed == s.closed
    requires !p.fate.Gathering?
    ensures PendingAgrees(t)
  {
    forall id | id in t.pending ensures IsGathering(t, t.pending[id], id) {
      assert IsGathering(s, s.pending[id], id);
    }
  }

  lemma PendingAfterClose(s: State)
    requires PendingAgrees(s)
    ensures PendingAgrees(CloseStep(s))
  {
    var t := CloseStep(s);
    forall b | b in t.batches ensures b < t.nextBatch && !t.batches[b].fate.Gathering? {
      assert s.batches[b].fate.Gathering? ==> IsPending(s, b);
    }
  }

  lemma FlushedBatchWellFormed(p: Batch, d: Drawing, subs: set<Listener>)
    requires BatchWellFormed(p) && subs != {}
    ensures BatchWellFormed(p.(phase := Deciding(Summary(p, d.scope), d.number, subs),
                               fate := Flushed(Summary(p, d.scope), d.scope, subs)))
  {
  }

  lemma AcceptedGrows(s: State, t: State, a: Accepted)
    requires t.accepted == s.accepted + [a]
    ensures forall b, ns :: WasAccepted(t, b, ns) <==> WasAccepted(s, b, ns) || (a.batch == b && a.ns == ns)
  {
    var n := |s.accepted|;
    assert t.accepted[n] == a;
    forall b, ns | WasAccepted(s, b, ns) ensures WasAccepted(t, b, ns) {
      var i :| 0 <= i < n && s.accepted[i].batch == b && s.accepted[i].ns == ns;
      assert t.accepted[i] == s.accepted[i];
    }
    forall b, ns | WasAccepted(t, b, ns) ensures WasAccepted(s, b, ns) || (a.batch == b && a.ns == ns) {
      var i :| 0 <= i <= n && t.accepted[i].batch == b && t.accepted[i].ns == ns;
      if i < n { assert s.accepted[i] == t.accepted[i]; }
    }
  }

  lemma LedgerAfterChanged(s: State, id: ClusterId, ns: NamespaceName, now: int)
    requires Ledger(s) && PendingAgrees(s) && WellFormed(s) && Accepts(s, id, ns, now)
    ensures Ledger(ChangedStep(s, id, ns, now))
  {
    var t := ChangedStep(s, id, ns, now);
    var b := t.pending[id];
    AcceptedGrows(s, t, Accepted(id, ns, b));
    forall c, m | c in t.batches && Holds(t.batches[c], m) ensures WasAccepted(t, c, m) {
      if c in s.batches && Holds(s.batches[c], m) {
        assert WasAccepted(s, c, m);
      } else {
        assert c == b && m == ns;
      }
    }
  }

  lemma LedgerAfterMove(s: State, t: State)
    requires Ledger(s) && t.accepted == s.accepted && t.batches.Keys == s.batches.Keys
    requires forall b | b in s.batches ::
      && t.batches[b].cluster == s.batches[b].cluster
      && t.batches[b].namespaces == s.batches[b].namespaces && t.batches[b].anywhere == s.batches[b].anywhere
    ensures Ledger(t)
  {
    forall b, ns | b in t.batches && Holds(t.batches[b], ns) ensures WasAccepted(t, b, ns) {
      assert Holds(s.batches[b], ns);
      assert WasAccepted(s, b, ns);
    }
  }

  /** Steps that call nobody keep the deliveries right as long as no batch's debt shrinks. */
  lemma DeliveredAfterMove(s: State, t: State)
    requires Delivered(s) && t.delivered == s.delivered
    requires forall b | b in s.batches && s.batches[b].fate.Flushed? && Heard(s, b) != {} ::
      b in t.batches && t.batches[b].fate == s.batches[b].fate
    requires forall b | b in s.batches && s.batches[b].fate.Flushed? && b in t.batches && t.batches[b].fate.Flushed? ::
      t.batches[b].fate == s.batches[b].fate && Owed(t.batches[b]) == Owed(s.batches[b])
    requires forall b | b in t.batches && t.batches[b].fate.Flushed? && (b !in s.batches || !s.batches[b].fate.Flushed?) ::
      Owed(t.batches[b]) == t.batches[b].fate.listeners
    ensures Delivered(t)
  {
    forall i | 0 <= i < |t.delivered| ensures s.delivered[i].listener in Heard(s, s.delivered[i].batch) {}
    forall b ensures Heard(t, b) == Heard(s, b) {}
  }

  lemma HeardGrows(s: State, t: State, d: Delivery)
    requires t.delivered == s.delivered + [d]
    ensures forall b :: Heard(t, b) == Heard(s, b) + if d.batch == b then {d.listener} else {}
  {
    var n := |s.delivered|;
    assert t.delivered[n] == d && t.delivered[..n] == s.delivered;
    forall b ensures Heard(t, b) == Heard(s, b) + if d.batch == b then {d.listener} else {} {
      forall x | x in Heard(s, b) ensures x in Heard(t, b) {
        var i :| 0 <= i < n && s.delivered[i].batch == b && s.delivered[i].listener == x;
        assert t.delivered[i] == s.delivered[i];
      }
    }
  }

  lemma DeliveredAfterDeliver(s: State, b: BatchId, k: Listener)
    requires Delivered(s) && WellFormed(s) && Enabled(s, Deliver(b, k))
    ensures Delivered(DeliverStep(s, b, k))
  {
    var t := DeliverStep(s, b, k);
    assert BatchWellFormed(s.batches[b]);
    assert Owed(t.batches[b]) == Owed(s.batches[b]) - {k};
    HeardGrows(s, t, Delivery(b, k, s.batches[b].phase.change));
  }

  lemma CardinalityAfter<T>(a: set<T>, c: set<T>, x: T)
    requires a - {x} == c - {x}
    ensures |c| == |a| + (if x in c then 1 else 0) - (if x in a then 1 else 0)
  {
    var rest := a - {x};
    if x in a { assert a == rest + {x}; } else { assert a == rest; }
    if x in c { assert c == rest + {x}; } else { assert c == rest; }
  }

  lemma LiveAfter(s: State, t: State, b: BatchId)
    requires forall c | c != b :: c in s.batches <==> c in t.batches
    requires forall c | c != b && c in s.batches :: t.batches[c].Live() == s.batches[c].Live()
    ensures |LiveBatches(t)| == |LiveBatches(s)| + (if b in LiveBatches(t) then 1 else 0)
                                - (if b in LiveBatches(s) then 1 else 0)
  {
    CardinalityAfter(LiveBatches(s), LiveBatches(t), b);
  }

  ghost function ArmedIn(s: State, ids: set<ClusterId>): set<BatchId> {
    set b | b in s.batches && s.batches[b].phase.Armed? && s.batches[b].cluster in ids
  }

  /** A cluster has at most one armed timer, and the pending map finds it. */
  lemma {:induction false} ArmedCount(s: State, ids: set<ClusterId>)
    requires PendingAgrees(s) && WellFormed(s) && ids <= Unfired(s)
    ensures |ArmedIn(s, ids)| == |ids|
    decreases |ids|
  {
    if ids == {} {
      assert ArmedIn(s, ids) == {};
    } else {
      var id :| id in ids;
      ArmedCount(s, ids - {id});
      forall b | b in s.batches && s.batches[b].phase.Armed? && s.batches[b].cluster == id
        ensures b == s.pending[id]
      {
        assert BatchWellFormed(s.batches[b]);
      }
      assert IsGathering(s, s.pending[id], id);
      assert ArmedIn(s, ids) == ArmedIn(s, ids - {id}) + {s.pending[id]};
    }
  }

  lemma LiveAfterClose(s: State, b: BatchId)
    requires Accounted(s) && PendingAgrees(s) && WellFormed(s) && b in s.batches
    ensures CloseStep(s).batches[b].Live() <==> s.batches[b].Live() && !s.batches[b].phase.Armed?
    ensures s.batches[b].phase.Armed? ==> s.batches[b].cluster in Unfired(s)
    ensures CloseStep(s).batches[b].dones == if CloseStep(s).batches[b].Live() then 0 else 1
  {
    assert BatchWellFormed(s.batches[b]);
    assert IsPending(s, b) ==> IsGathering(s, b, s.batches[b].cluster);
  }

  lemma LiveSetAfterClose(s: State)
    requires Accounted(s) && PendingAgrees(s) && WellFormed(s)
    ensures LiveBatches(CloseStep(s)) == LiveBatches(s) - ArmedIn(s, Unfired(s))
    ensures ArmedIn(s, Unfired(s)) <= LiveBatches(s)
  {
    forall b | b in s.batches
      ensures b in LiveBatches(CloseStep(s)) <==> b in LiveBatches(s) - ArmedIn(s, Unfired(s))
    {
      LiveAfterClose(s, b);
    }
  }

  /** Close gives back one count for every timer it stopped. */
  lemma AccountedAfterClose(s: State)
    requires Accounted(s) && PendingAgrees(s) && WellFormed(s)
    ensures Accounted(CloseStep(s))
  {
    var t := CloseStep(s);
    ArmedCount(s, Unfired(s));
    LiveSetAfterClose(s);
    forall b | b in t.batches ensures t.batches[b].dones == if t.batches[b].Live() then 0 else 1 {
      LiveAfterClose(s, b);
    }
  }

  // ---- Replacing or adding one batch ----

  lemma WellFormedAfterUpdate(s: State, t: State, b: BatchId, p: Batch)
    requires WellFormed(s) && t.batches == s.batches[b := p] && BatchWellFormed(p)
    ensures WellFormed(t)
  {
  }

  ghost function LiveCount(s: State, b: BatchId): int {
    if b in s.batches && s.batches[b].Live() then 1 else 0
  }

  lemma AccountedAfterUpdate(s: State, t: State, b: BatchId, p: Batch)
    requires Accounted(s) && t.batches == s.batches[b := p]
    requires p.dones == if p.Live() then 0 else 1
    requires t.inFlight == s.inFlight - LiveCount(s, b) + LiveCount(t, b)
    requires t.closed == s.closed && t.closeReturned == s.closeReturned
    requires LiveCount(s, b) == 0 && LiveCount(t, b) == 1 ==> !s.closed
    ensures Accounted(t)
  {
    LiveAfter(s, t, b);
    if LiveCount(s, b) == 1 {
      assert b in LiveBatches(s);
    }
  }

  lemma NumberedAfterUpdate(s: State, t: State, b: BatchId, p: Batch)
    requires Numbered(s) && t.batches == s.batches[b := p]
    requires t.drawings == s.drawings && forall id | id in t.drawn :: id in s.drawn && t.drawn[id] == s.drawn[id]
    requires p.phase.Deciding? || p.phase.Forgetting? ==> p.phase.drawing <= s.drawings
    ensures Numbered(t)
  {
  }

  lemma DeliveredAfterUpdate(s: State, t: State, b: BatchId, p: Batch)
    requires Delivered(s) && t.delivered == s.delivered && t.batches == s.batches[b := p]
    requires b in s.batches && s.batches[b].fate.Flushed? ==>
      p.fate == s.batches[b].fate && Owed(p) == Owed(s.batches[b])
    requires b in s.batches && !s.batches[b].fate.Flushed? && p.fate.Flushed? ==> Owed(p) == p.fate.listeners
    requires b !in s.batches ==> !p.fate.Flushed?
    ensures Delivered(t)
  {
    DeliveredAfterMove(s, t);
  }

  /** A refused announcement was owed to everybody, so nobody has heard it. */
  lemma DeliveredAfterDecline(s: State, t: State, b: BatchId, p: Batch)
    requires Delivered(s) && t.delivered == s.delivered && t.batches == s.batches[b := p]
    requires b in s.batches && s.batches[b].fate.Flushed? && Owed(s.batches[b]) == s.batches[b].fate.listeners
    requires !p.fate.Flushed?
    ensures Delivered(t)
  {
    forall i | 0 <= i < |s.delivered| ensures s.delivered[i].batch != b {
      assert s.delivered[i].listener in
        s.batches[s.delivered[i].batch].fate.listeners - Owed(s.batches[s.delivered[i].batch]);
    }
    assert Heard(s, b) == {};
    DeliveredAfterMove(s, t);
  }

  // ---- One lemma a step ----

  /** Steps that touch neither batches nor history. */
  lemma QuietKeeps(s: State, t: State)
    requires Inv(s)
    requires t == s.(subs := t.subs, nextSub := t.nextSub, drawn := t.drawn, drawings := t.drawings,
                     closeReturned := t.closeReturned)
    requires Numbered(t) && (t.closeReturned ==> t.closed && t.inFlight == 0)
    ensures Inv(t)
  {
    LedgerAfterMove(s, t);
    DeliveredAfterMove(s, t);
    assert LiveBatches(t) == LiveBatches(s);
  }

  lemma WatchKeeps(s: State, id: ClusterId, scope: NamespaceScope, now: int)
    requires Inv(s)
    ensures Inv(Apply(s, Watch(id, scope, now)))
  {
    QuietKeeps(s, Apply(s, Watch(id, scope, now)));
  }

  /** Taking a pending batch out, with a fate of its own and nothing announced yet. */
  lemma RemovalKeeps(s: State, t: State, b: BatchId, p: Batch)
    requires Inv(s) && IsPending(s, b) && s.batches[b].fate.Gathering? && Moved(s, t, b, p) && BatchWellFormed(p)
    requires t.pending == s.pending - {p.cluster} && t.nextBatch == s.nextBatch && t.closed == s.closed
    requires t.accepted == s.accepted && t.delivered == s.delivered && t.closeReturned == s.closeReturned
    requires !p.fate.Gathering? && p.dones == (if p.Live() then 0 else 1) && s.batches[b].Live()
    requires t.inFlight == s.inFlight - if p.Live() then 0 else 1
    requires p.fate.Flushed? ==> Owed(p) == p.fate.listeners
    requires t.drawings == s.drawings && forall id | id in t.drawn :: id in s.drawn && t.drawn[id] == s.drawn[id]
    requires p.phase.Deciding? || p.phase.Forgetting? ==> p.phase.drawing <= s.drawings
    ensures Inv(t)
  {
    PendingAfterRemoval(s, t, b, p);
    AccountedAfterUpdate(s, t, b, p);
    WellFormedAfterUpdate(s, t, b, p);
    LedgerAfterMove(s, t);
    DeliveredAfterUpdate(s, t, b, p);
    NumberedAfterUpdate(s, t, b, p);
  }

  lemma ReleaseKeeps(s: State, id: ClusterId)
    requires Inv(s)
    ensures Inv(ReleaseStep(s, id))
  {
    var t := ReleaseStep(s, id);
    if id in s.pending {
      var b := s.pending[id];
      assert IsGathering(s, b, id);
      assert BatchWellFormed(s.batches[b]);
      RemovalKeeps(s, t, b, StopTimer(s.batches[b], Released));
    } else {
      QuietKeeps(s, t);
    }
  }

  lemma ChangedKeeps(s: State, id: ClusterId, ns: NamespaceName, now: int)
    requires Inv(s)
    ensures Inv(ChangedStep(s, id, ns, now))
  {
    var t := ChangedStep(s, id, ns, now);
    if Accepts(s, id, ns, now) {
      var b := t.pending[id];
      if id in s.pending { assert IsGathering(s, b, id) && BatchWellFormed(s.batches[b]); }
      var p := t.batches[b];
      PendingAfterChanged(s, id, ns, now);
      AccountedAfterUpdate(s, t, b, p);
      WellFormedAfterUpdate(s, t, b, p);
      LedgerAfterChanged(s, id, ns, now);
      DeliveredAfterUpdate(s, t, b, p);
      NumberedAfterUpdate(s, t, b, p);
    } else {
      QuietKeeps(s, t);
    }
  }

  /** A callback moving on by itself: what it gathered and its place in the pending map
      stay as they were. */
  lemma CallbackKeeps(s: State, t: State, b: BatchId, p: Batch)
    requires Inv(s) && Moved(s, t, b, p) && BatchWellFormed(p)
    requires t == s.(batches := t.batches, inFlight := t.inFlight, drawn := t.drawn)
    requires p.fate.Gathering? == s.batches[b].fate.Gathering?
    requires s.batches[b].Live() && p.dones == (if p.Live() then 0 else 1)
    requires t.inFlight == s.inFlight - p.dones
    ensures PendingAgrees(t) && Accounted(t) && WellFormed(t) && Ledger(t)
  {
    LedgerAfterMove(s, t);
    WellFormedAfterUpdate(s, t, b, p);
    AccountedAfterUpdate(s, t, b, p);
    forall id | id in t.pending ensures IsGathering(t, t.pending[id], id) {
      assert IsGathering(s, s.pending[id], id);
    }
  }

  lemma FireKeeps(s: State, b: BatchId)
    requires Inv(s) && Enabled(s, Fire(b))
    ensures Inv(Apply(s, Fire(b)))
  {
    var p := s.batches[b].(phase := Fired);
    assert BatchWellFormed(s.batches[b]);
    var t := Apply(s, Fire(b));
    CallbackKeeps(s, t, b, p);
    DeliveredAfterUpdate(s, t, b, p);
    NumberedAfterUpdate(s, t, b, p);
  }

  /** A stale callback: another step took its batch out of the pending map. */
  lemma StaleFlushKeeps(s: State, b: BatchId)
    requires Inv(s) && Enabled(s, Flush(b)) && (s.closed || !IsPending(s, b))
    ensures Inv(FlushStep(s, b))
  {
    var t := FlushStep(s, b);
    var q := s.batches[b].(phase := Leaving);
    assert BatchWellFormed(s.batches[b]);
    CallbackKeeps(s, t, b, q);
    DeliveredAfterUpdate(s, t, b, q);
    NumberedAfterUpdate(s, t, b, q);
  }

  lemma TakenFlushKeeps(s: State, b: BatchId)
    requires Inv(s) && Enabled(s, Flush(b)) && !s.closed && IsPending(s, b)
    ensures Inv(FlushStep(s, b))
  {
    var t := FlushStep(s, b);
    var p := s.batches[b];
    var q := t.batches[b];
    assert BatchWellFormed(p) && IsGathering(s, b, p.cluster);
    if p.cluster in s.drawn && s.subs != {} {
      FlushedBatchWellFormed(p, s.drawn[p.cluster], s.subs);
    }
    assert BatchWellFormed(q);
    RemovalKeeps(s, t, b, q);
  }

  lemma AskOpenKeeps(s: State, b: BatchId, open: bool)
    requires Inv(s) && Enabled(s, AskOpen(b, open))
    ensures Inv(Apply(s, AskOpen(b, open)))
  {
    var t := Apply(s, AskOpen(b, open));
    var p := t.batches[b];
    assert BatchWellFormed(s.batches[b]);
    CallbackKeeps(s, t, b, p);
    if open { DeliveredAfterUpdate(s, t, b, p); } else { DeliveredAfterDecline(s, t, b, p); }
    NumberedAfterUpdate(s, t, b, p);
  }

  lemma ForgetKeeps(s: State, b: BatchId)
    requires Inv(s) && Enabled(s, ForgetDrawing(b))
    ensures Inv(ForgetStep(s, b))
  {
    var t := ForgetStep(s, b);
    var p := s.batches[b].(phase := Leaving);
    assert BatchWellFormed(s.batches[b]);
    CallbackKeeps(s, t, b, p);
    DeliveredAfterUpdate(s, t, b, p);
    NumberedAfterUpdate(s, t, b, p);
  }

  /** What has been delivered is history, and no part of the accounting. */
  lemma HistoryAside(s: State, t: State)
    requires PendingAgrees(s) && Accounted(s) && WellFormed(s) && Ledger(s) && t == s.(delivered := t.delivered)
    ensures PendingAgrees(t) && Accounted(t) && WellFormed(t) && Ledger(t)
  {
    LedgerAfterMove(s, t);
    assert LiveBatches(t) == LiveBatches(s);
    forall id | id in t.pending ensures IsGathering(t, t.pending[id], id) {
      assert IsGathering(s, s.pending[id], id);
    }
  }

  lemma DeliverKeeps(s: State, b: BatchId, k: Listener)
    requires Inv(s) && Enabled(s, Deliver(b, k))
    ensures Inv(DeliverStep(s, b, k))
  {
    var t := DeliverStep(s, b, k);
    var silent := t.(delivered := s.delivered);
    var p := t.batches[b];
    assert BatchWellFormed(s.batches[b]);
    CallbackKeeps(s, silent, b, p);
    HistoryAside(silent, t);
    NumberedAfterUpdate(s, t, b, p);
    DeliveredAfterDeliver(s, b, k);
  }

  lemma DoneKeeps(s: State, b: BatchId)
    requires Inv(s) && Enabled(s, Done(b))
    ensures Inv(DoneStep(s, b))
  {
    var t := DoneStep(s, b);
    var p := t.batches[b];
    assert BatchWellFormed(s.batches[b]);
    CallbackKeeps(s, t, b, p);
    DeliveredAfterUpdate(s, t, b, p);
    NumberedAfterUpdate(s, t, b, p);
  }

  lemma WellFormedAfterClose(s: State)
    requires WellFormed(s) && PendingAgrees(s)
    ensures WellFormed(CloseStep(s))
  {
    var t := CloseStep(s);
    forall b | b in t.batches ensures BatchWellFormed(t.batches[b]) {
      assert BatchWellFormed(s.batches[b]);
      assert IsPending(s, b) ==> IsGathering(s, b, s.batches[b].cluster);
    }
  }

  lemma DeliveredAfterClose(s: State)
    requires Delivered(s) && PendingAgrees(s)
    ensures Delivered(CloseStep(s))
  {
    forall b | b in s.batches && s.batches[b].fate.Flushed?
      ensures CloseStep(s).batches[b] == s.batches[b]
    {
      assert IsPending(s, b) ==> IsGathering(s, b, s.batches[b].cluster);
    }
    DeliveredAfterMove(s, CloseStep(s));
  }

  lemma NumberedAfterClose(s: State)
    requires Numbered(s)
    ensures Numbered(CloseStep(s))
  {
  }

  lemma CloseKeeps(s: State)
    requires Inv(s)
    ensures Inv(CloseStep(s))
  {
    PendingAfterClose(s);
    AccountedAfterClose(s);
    WellFormedAfterClose(s);
    LedgerAfterMove(s, CloseStep(s));
    DeliveredAfterClose(s);
    NumberedAfterClose(s);
  }

  /** Every step of every interleaving keeps the invariant. */
  lemma Step(s: State, e: Event)
    requires Inv(s) && Enabled(s, e)
    ensures Inv(Apply(s, e))
  {
    match e {
      case Watch(id, scope, now) => WatchKeeps(s, id, scope, now);
      case Release(id) => ReleaseKeeps(s, id);
      case Subscribe => QuietKeeps(s, Apply(s, e));
      case Unsubscribe(k) => QuietKeeps(s, Apply(s, e));
      case Changed(id, ns, now) => ChangedKeeps(s, id, ns, now);
      case Fire(b) => FireKeeps(s, b);
      case Flush(b) => if !s.closed && IsPending(s, b) { TakenFlushKeeps(s, b); } else { StaleFlushKeeps(s, b); }
      case AskOpen(b, open) => AskOpenKeeps(s, b, open);
      case ForgetDrawing(b) => ForgetKeeps(s, b);
      case Deliver(b, k) => DeliverKeeps(s, b, k);
      case Done(b) => DoneKeeps(s, b);
      case CloseSection => CloseKeeps(s);
      case CloseReturns => QuietKeeps(s, Apply(s, e));
    }
  }

  // ---- Whole runs ----

  lemma {:induction false} RunKeeps(s: State, es: seq<Event>, t: State)
    requires Inv(s) && Run(s, es, t)
    ensures Inv(t)
    decreases |es|
  {
    if es != [] {
      Step(s, es[0]);
      RunKeeps(Apply(s, es[0]), es[1..], t);
    }
  }

  ghost predicate Reachable(interest: int, s: State) {
    exists es :: Run(Init(interest), es, s)
  }

  lemma ReachableInv(interest: int, s: State)
    requires Reachable(interest, s)
    ensures Inv(s)
  {
    InitInv(interest);
    var es :| Run(Init(interest), es, s);
    RunKeeps(Init(interest), es, s);
  }

  lemma ReachableStep(interest: int, s: State, e: Event)
    requires Reachable(interest, s) && Enabled(s, e)
    ensures Reachable(interest, Apply(s, e))
  {
    var es :| Run(Init(interest), es, s);
    var t := Apply(s, e);
    assert [e][1..] == [] && Run(t, [], t);
    RunJoin(Init(interest), es, s, [e], t);
  }

  lemma PendingIsGathering(interest: int, s: State, id: ClusterId)
    requires Reachable(interest, s) && id in s.pending
    ensures IsGathering(s, s.pending[id], id)
  {
    ReachableInv(interest, s);
  }

  /** The WaitGroup is balanced in every reachable state: it counts the armed timers and
      unfinished callbacks, it is never negative, and no batch is ever given two Dones. */
  lemma WaitGroupBalanced(interest: int, s: State)
    requires Reachable(interest, s)
    ensures s.inFlight == |LiveBatches(s)| >= 0
    ensures forall b | b in s.batches :: s.batches[b].dones <= 1
    ensures forall b | b in s.batches :: s.batches[b].dones == 0 <==> b in LiveBatches(s)
  {
    ReachableInv(interest, s);
  }

  /** A change in the cluster at `ns` is told by an announcement naming it or naming none. */
  ghost predicate Covers(change: Change, ns: NamespaceName) {
    change.namespaces == [] || ns in change.namespaces
  }

  /** An announcement covers every change its batch gathered that lies in the scope drawn
      when it was flushed, and a change somewhere in the cluster covers that whole scope.
      Without one of those, it names nothing that did not change. */
  lemma AnnouncementCovers(interest: int, s: State, d: Delivery, a: Accepted)
    requires Reachable(interest, s) && d in s.delivered
    requires a in s.accepted && a.batch == d.batch
    ensures d.batch in s.batches && s.batches[d.batch].fate.Flushed? && d.change.cluster == a.cluster
    ensures var scope := s.batches[d.batch].fate.scope;
      && (a.ns != NAMESPACE_ALL && scope.Includes(a.ns) ==> Covers(d.change, a.ns))
      && (a.ns == NAMESPACE_ALL ==> forall m | scope.Includes(m) :: Covers(d.change, m))
    ensures !WasAccepted(s, d.batch, NAMESPACE_ALL) ==>
      forall m | m != NAMESPACE_ALL :: Covers(d.change, m) <==> WasAccepted(s, d.batch, m)
  {
    ReachableInv(interest, s);
    var p := s.batches[d.batch];
    assert BatchWellFormed(p);
    if !WasAccepted(s, d.batch, NAMESPACE_ALL) {
      assert !Holds(p, NAMESPACE_ALL);
      var some :| some in p.namespaces;
      assert some in p.fate.change.namespaces;
      forall m | m != NAMESPACE_ALL ensures Covers(d.change, m) <==> WasAccepted(s, d.batch, m) {
        assert Holds(p, m) ==> WasAccepted(s, d.batch, m);
      }
    }
  }

  /** No accepted change is lost and none is announced twice: its batch is still gathering
      under an unstopped timer, or was taken by one named step; a flushed batch is told
      exactly once, with one summary, to each listener subscribed at the flush and not yet
      owed, and a batch that met any other fate is told to nobody. */
  lemma NoBatchLostOrRepeated(interest: int, s: State, a: Accepted)
    requires Reachable(interest, s) && a in s.accepted
    ensures a.batch in s.batches
    ensures var p := s.batches[a.batch];
      && p.cluster == a.cluster && Holds(p, a.ns)
      && (p.fate.Gathering? <==> IsPending(s, a.batch))
      && (p.fate.Gathering? ==> (p.phase.Armed? || p.phase.Fired?) && !s.closed)
      && (p.fate.Flushed? ==> Heard(s, a.batch) == p.fate.listeners - Owed(p))
      && (p.fate.Flushed? && !p.Live() ==> Heard(s, a.batch) == p.fate.listeners)
      && (!p.fate.Flushed? ==> Heard(s, a.batch) == {})
    ensures forall i, j | 0 <= i < j < |s.delivered| && s.delivered[i].batch == s.delivered[j].batch ::
      s.delivered[i].change == s.delivered[j].change && s.delivered[i].listener != s.delivered[j].listener
  {
    ReachableInv(interest, s);
    var p := s.batches[a.batch];
    assert BatchWellFormed(p);
    assert IsPending(s, a.batch) ==> IsGathering(s, a.batch, p.cluster);
    forall i | 0 <= i < |s.delivered| && s.delivered[i].batch == a.batch
      ensures p.fate.Flushed? && s.delivered[i].listener in p.fate.listeners - Owed(p)
    {
    }
  }

  /** Which batch's timer goroutine a step belongs to. */
  ghost predicate CallbackOf(e: Event, b: BatchId) {
    match e
    case Fire(c) => c == b
    case Flush(c) => c == b
    case AskOpen(c, _) => c == b
    case ForgetDrawing(c) => c == b
    case Deliver(c, _) => c == b
    case Done(c) => c == b
    case _ => false
  }

  /** A callback touches its own batch only: whatever a stale one does, a successor stays
      pending, with its timer and its changes. */
  lemma CallbackLeavesOthers(s: State, e: Event, b: BatchId, c: BatchId)
    requires Enabled(s, e) && CallbackOf(e, b) && c in s.batches && c != b
    ensures c in Apply(s, e).batches && Apply(s, e).batches[c] == s.batches[c]
    ensures IsPending(Apply(s, e), c) <==> IsPending(s, c)
    ensures Apply(s, e).closed == s.closed && Apply(s, e).batches.Keys == s.batches.Keys
  {
    var t := Apply(s, e);
    assert t.batches == s.batches[b := t.batches[b]];
    assert t.pending == s.pending || (IsPending(s, b) && t.pending == s.pending - {s.batches[b].cluster});
  }

  /** Nothing the feed owns happens after Close has returned. */
  lemma {:induction false} SilentAfterClose(s: State, es: seq<Event>, t: State, i: nat)
    requires Inv(s) && s.closeReturned && Run(s, es, t) && i < |es|
    ensures forall b :: !CallbackOf(es[i], b)
    decreases |es|
  {
    QuiescentStep(s, es[0]);
    Step(s, es[0]);
    if i > 0 {
      SilentAfterClose(Apply(s, es[0]), es[1..], t, i - 1);
    }
  }

  lemma QuiescentStep(s: State, e: Event)
    requires Inv(s) && s.closeReturned && Enabled(s, e)
    ensures Apply(s, e).closeReturned
    ensures forall b :: !CallbackOf(e, b)
  {
    assert LiveBatches(s) == {};
    forall b ensures !CallbackOf(e, b) {
      assert b !in LiveBatches(s);
    }
  }

  lemma {:induction false} RunSplit(s: State, es: seq<Event>, t: State, i: nat) returns (m: State)
    requires Run(s, es, t) && i <= |es|
    ensures Run(s, es[..i], m) && Run(m, es[i..], t)
    decreases |es|
  {
    if i == 0 {
      m := s;
      assert es[..0] == [] && es[0..] == es;
    } else {
      m := RunSplit(Apply(s, es[0]), es[1..], t, i - 1);
      assert es[..i][0] == es[0] && es[..i][1..] == es[1..][..i - 1] && es[1..][i - 1..] == es[i..];
    }
  }

  lemma {:induction false} RunJoin(s: State, es: seq<Event>, m: State, fs: seq<Event>, t: State)
    requires Run(s, es, m) && Run(m, fs, t)
    ensures Run(s, es + fs, t)
    decreases |es|
  {
    if es == [] {
      assert es + fs == fs;
    } else {
      RunJoin(Apply(s, es[0]), es[1..], m, fs, t);
      assert (es + fs)[0] == es[0] && (es + fs)[1..] == es[1..] + fs;
    }
  }

  /** Once Close returns no subscriber is ever called again, no timer fires and no callback
      is left to end, in any run. */
  lemma NothingAfterCloseReturns(interest: int, es: seq<Event>, t: State, i: nat, j: nat)
    requires Run(Init(interest), es, t) && i < j < |es| && es[i].CloseReturns?
    ensures forall b :: !CallbackOf(es[j], b)
  {
    var m := RunSplit(Init(interest), es, t, i);
    InitInv(interest);
    RunKeeps(Init(interest), es[..i], m);
    Step(m, es[i]);
    var n := Apply(m, es[i]);
    assert es[i..][1..] == es[i + 1..];
    SilentAfterClose(n, es[i + 1..], t, j - i - 1);
  }

  /** Steps a callback still has to take once the feed is closed. */
  ghost function Remaining(p: Batch): nat {
    match p.phase
    case Deciding(_, _, _) => 3
    case Forgetting(_) => 2
    case Announcing(_, todo) => 1 + |todo|
    case Leaving => 1
    case Fired => 2
    case _ => 0
  }

  ghost function NextStep(s: State, b: BatchId): Event
    requires Inv(s) && s.closed && b in LiveBatches(s)
    ensures CallbackOf(NextStep(s, b), b) && Enabled(s, NextStep(s, b))
  {
    assert BatchWellFormed(s.batches[b]);
    match s.batches[b].phase
    case Fired => Flush(b)
    case Deciding(_, _, _) => AskOpen(b, false)
    case Forgetting(_) => ForgetDrawing(b)
    case Announcing(_, todo) => var k :| k in todo; Deliver(b, k)
    case Leaving => Done(b)
  }

  lemma NextStepProgress(s: State, b: BatchId)
    requires Inv(s) && s.closed && b in LiveBatches(s)
    ensures var n := Apply(s, NextStep(s, b));
      && Inv(n) && n.closed && b in n.batches
      && (if n.batches[b].Live() then LiveBatches(n) == LiveBatches(s) && Remaining(n.batches[b]) < Remaining(s.batches[b])
          else LiveBatches(n) == LiveBatches(s) - {b})
  {
    var e := NextStep(s, b);
    Step(s, e);
    CallbackProgress(s, e, b);
    OthersStay(s, e, b);
    LiveAfterCallback(s, Apply(s, e), b);
  }

  lemma OthersStay(s: State, e: Event, b: BatchId)
    requires Enabled(s, e) && CallbackOf(e, b)
    ensures Apply(s, e).batches.Keys == s.batches.Keys
    ensures forall c | c in s.batches && c != b :: Apply(s, e).batches[c] == s.batches[c]
  {
    forall c | c in s.batches && c != b
      ensures c in Apply(s, e).batches && Apply(s, e).batches[c] == s.batches[c]
    {
      CallbackLeavesOthers(s, e, b, c);
    }
  }

  lemma LiveAfterCallback(s: State, n: State, b: BatchId)
    requires b in LiveBatches(s) && n.batches.Keys == s.batches.Keys
    requires forall c | c in s.batches && c != b :: n.batches[c] == s.batches[c]
    ensures LiveBatches(n) == if n.batches[b].Live() then LiveBatches(s) else LiveBatches(s) - {b}
  {
  }

  lemma CallbackProgress(s: State, e: Event, b: BatchId)
    requires Enabled(s, e) && CallbackOf(e, b) && !e.Fire? && s.closed
    requires e.AskOpen? ==> !e.open
    ensures var n := Apply(s, e);
      && n.closed && n.batches.Keys == s.batches.Keys
      && (!n.batches[b].Live() || Remaining(n.batches[b]) < Remaining(s.batches[b]))
  {
  }

  lemma {:induction false} FinishBatch(s: State, b: BatchId) returns (es: seq<Event>, t: State)
    requires Inv(s) && s.closed && b in LiveBatches(s)
    ensures Run(s, es, t) && Inv(t) && t.closed
    ensures LiveBatches(t) == LiveBatches(s) - {b}
    ensures forall e | e in es :: CallbackOf(e, b)
    decreases Remaining(s.batches[b])
  {
    var e := NextStep(s, b);
    var n := Apply(s, e);
    NextStepProgress(s, b);
    var rest: seq<Event>;
    if n.batches[b].Live() {
      rest, t := FinishBatch(n, b);
    } else {
      rest, t := [], n;
    }
    es := [e] + rest;
    assert es[1..] == rest;
  }

  /** Close cannot hang on the feed itself: from any closed state some order of the
      callbacks still running, and of nothing else, brings the WaitGroup to zero. */
  lemma {:induction false} CloseCanReturn(s: State) returns (es: seq<Event>, t: State)
    requires Inv(s) && s.closed
    ensures Run(s, es, t) && Enabled(t, CloseReturns)
    ensures forall e | e in es :: exists b :: CallbackOf(e, b)
    decreases |LiveBatches(s)|
  {
    if LiveBatches(s) == {} {
      es, t := [], s;
    } else {
      var b :| b in LiveBatches(s);
      var first, m := FinishBatch(s, b);
      var rest;
      rest, t := CloseCanReturn(m);
      RunJoin(s, first, m, rest, t);
      es := first + rest;
    }
  }

  /** A drawing number once passed never comes back. */
  lemma {:induction false} NumbersDoNotReturn(s: State, es: seq<Event>, t: State, id: ClusterId, n: nat)
    requires Run(s, es, t) && n <= s.drawings && (id in s.drawn ==> s.drawn[id].number != n)
    ensures id in t.drawn ==> t.drawn[id].number != n
    decreases |es|
  {
    if es != [] {
      NumberStep(s, es[0], id, n);
      NumbersDoNotReturn(Apply(s, es[0]), es[1..], t, id, n);
    }
  }

  lemma NumberStep(s: State, e: Event, id: ClusterId, n: nat)
    requires Enabled(s, e) && n <= s.drawings && (id in s.drawn ==> s.drawn[id].number != n)
    ensures id in Apply(s, e).drawn ==> Apply(s, e).drawn[id].number != n
    ensures n <= Apply(s, e).drawings
  {
    match e {
      case Watch(_, _, _) =>
      case Release(_) =>
      case Changed(_, _, _) =>
      case Flush(_) =>
      case _ =>
    }
  }

  /** A batch past its flush, with the drawing number it read there. */
  ghost predicate PastFlush(s: State, b: BatchId, id: ClusterId, n: nat) {
    && b in s.batches && s.batches[b].cluster == id && !s.batches[b].fate.Gathering?
    && !s.batches[b].phase.Fired? && !s.batches[b].phase.Armed?
    && (s.batches[b].phase.Deciding? || s.batches[b].phase.Forgetting? ==> s.batches[b].phase.drawing == n)
  }

  lemma PastFlushStep(s: State, e: Event, b: BatchId, id: ClusterId, n: nat)
    requires PendingAgrees(s) && Enabled(s, e) && PastFlush(s, b, id, n)
    ensures PastFlush(Apply(s, e), b, id, n)
  {
    assert IsPending(s, b) ==> IsGathering(s, b, id);
    match e {
      case Changed(c, ns, now) => PastFlushOthers(s, e, b, id, n);
      case Release(c) => PastFlushOthers(s, e, b, id, n);
      case CloseSection => PastFlushOthers(s, e, b, id, n);
      case Fire(c) => PastFlushCallback(s, e, c, b, id, n);
      case Flush(c) => PastFlushCallback(s, e, c, b, id, n);
      case AskOpen(c, _) => PastFlushCallback(s, e, c, b, id, n);
      case ForgetDrawing(c) => PastFlushCallback(s, e, c, b, id, n);
      case Deliver(c, _) => PastFlushCallback(s, e, c, b, id, n);
      case Done(c) => PastFlushCallback(s, e, c, b, id, n);
      case _ =>
    }
  }

  lemma PastFlushOthers(s: State, e: Event, b: BatchId, id: ClusterId, n: nat)
    requires PendingAgrees(s) && PastFlush(s, b, id, n) && !IsPending(s, b)
    requires e.Changed? || e.Release? || e.CloseSection?
    ensures PastFlush(Apply(s, e), b, id, n)
  {
    match e {
      case Changed(c, _, _) =>
        assert c in s.pending ==> IsGathering(s, s.pending[c], c);
        assert b < s.nextBatch;
      case Release(c) => assert c in s.pending ==> IsGathering(s, s.pending[c], c);
      case CloseSection =>
    }
  }

  lemma PastFlushCallback(s: State, e: Event, c: BatchId, b: BatchId, id: ClusterId, n: nat)
    requires Enabled(s, e) && CallbackOf(e, c) && PastFlush(s, b, id, n)
    ensures PastFlush(Apply(s, e), b, id, n)
  {
    if c != b { CallbackLeavesOthers(s, e, c, b); }
  }

  lemma {:induction false} PastFlushRun(s: State, es: seq<Event>, t: State, b: BatchId, id: ClusterId, n: nat)
    requires Inv(s) && Run(s, es, t) && PastFlush(s, b, id, n)
    ensures PastFlush(t, b, id, n)
    decreases |es|
  {
    if es != [] {
      Step(s, es[0]);
      PastFlushStep(s, es[0], b, id, n);
      PastFlushRun(Apply(s, es[0]), es[1..], t, b, id, n);
    }
  }

  /** A flush that found its cluster closed forgets only the drawing it read: a cluster
      drawn again in the meantime, whatever else ran, keeps its new drawing. */
  lemma RedrawnClusterStaysWatched(s: State, scope: NamespaceScope, now: int, es: seq<Event>, t: State, b: BatchId)
    requires Inv(s) && !s.closed && b in s.batches
    requires s.batches[b].phase.Deciding? || s.batches[b].phase.Forgetting?
    requires Run(Apply(s, Watch(s.batches[b].cluster, scope, now)), es, t)
    requires Enabled(t, ForgetDrawing(b))
    ensures Apply(t, ForgetDrawing(b)).drawn == t.drawn
  {
    var id, n := s.batches[b].cluster, s.batches[b].phase.drawing;
    var w := Apply(s, Watch(id, scope, now));
    assert BatchWellFormed(s.batches[b]);
    WatchKeeps(s, id, scope, now);
    NumbersDoNotReturn(w, es, t, id, n);
    PastFlushRun(w, es, t, b, id, n);
  }
}
