/** The ChangeFeed object of app/application/topology.go. `batches` stands for the pending changes
    its pointers name, and `inFlight` for its WaitGroup; the ghost fields are history. Each method is
    a critical section, proved to make the transition the protocol names. */
module ChangeFeedObject {
  import opened NamespaceScopes
  import opened ChangeFeedProtocol
  import Ordering

  /** The clusters whose timers a Close that has reached the clusters of `left` has stopped. */
  ghost function StoppedSoFar(s: State, left: set<ClusterId>): set<ClusterId> {
    Unfired(s) - left
  }

  ghost function ClosedSoFar(s: State, left: set<ClusterId>): map<BatchId, Batch> {
    map b | b in s.batches ::
      if IsPending(s, b) && s.batches[b].cluster !in left then StopTimer(s.batches[b], Closed) else s.batches[b]
  }

  lemma NothingClosedYet(s: State)
    ensures ClosedSoFar(s, s.pending.Keys) == s.batches
    ensures StoppedSoFar(s, s.pending.Keys) == {}
    ensures StoppedSoFar(s, {}) == Unfired(s)
  {
  }

  lemma CloseOne(interest: int, s: State, left: set<ClusterId>, id: ClusterId)
    requires Reachable(interest, s) && id in left && id in s.pending
    ensures s.pending[id] in s.batches
    ensures |StoppedSoFar(s, left - {id})|
      == |StoppedSoFar(s, left)| + if s.batches[s.pending[id]].phase.Armed? then 1 else 0
    ensures ClosedSoFar(s, left - {id})
      == ClosedSoFar(s, left)[s.pending[id] := StopTimer(s.batches[s.pending[id]], Closed)]
    ensures ClosedSoFar(s, left)[s.pending[id]] == s.batches[s.pending[id]]
  {
    var b := s.pending[id];
    PendingIsGathering(interest, s, id);
    assert StoppedSoFar(s, left - {id}) ==
      if s.batches[b].phase.Armed? then StoppedSoFar(s, left) + {id} else StoppedSoFar(s, left);
    forall c | c in s.batches && c != b
      ensures ClosedSoFar(s, left - {id})[c] == ClosedSoFar(s, left)[c]
    {
      assert IsPending(s, c) && s.batches[c].cluster == id ==> c == b;
    }
  }

  class ChangeFeed {
    const interest: int
    var closed: bool
    var subs: set<Listener>
    var nextSub: nat
    var drawn: map<ClusterId, Drawing>
    var pending: map<ClusterId, BatchId>
    var batches: map<BatchId, Batch>
    var nextBatch: BatchId
    var drawings: nat
    var inFlight: int
    ghost var accepted: seq<Accepted>
    ghost var delivered: seq<Delivery>
    ghost var closeReturned: bool

    ghost function Model(): State
      reads this
    {
      State(interest, closed, subs, nextSub, drawn, pending, batches, nextBatch, drawings, inFlight,
            accepted, delivered, closeReturned)
    }

    ghost predicate Valid()
      reads this
    {
      Reachable(interest, Model())
    }

    constructor (interest: int)
      ensures Valid() && Model() == Init(interest)
    {
      this.interest := interest;
      closed, subs, nextSub := false, {}, 0;
      drawn, pending, batches, nextBatch := map[], map[], map[], 0;
      drawings, inFlight := 0, 0;
      accepted, delivered, closeReturned := [], [], false;
      new;
      assert Run(Init(interest), [], Model());
    }

    method Watch(id: ClusterId, scope: NamespaceScope, now: int)
      requires Valid()
      modifies this
      ensures Valid() && Model() == Apply(old(Model()), Event.Watch(id, scope, now))
    {
      ReachableStep(interest, Model(), Event.Watch(id, scope, now));
      if closed { return; }
      drawings := drawings + 1;
      drawn := drawn[id := Drawing(scope, now, drawings)];
    }

    /** Timer.Stop, and the Done it owes when it returns true. */
    method Stop(b: BatchId, fate: Fate)
      requires b in batches
      modifies this`batches, this`inFlight
      ensures batches == old(batches)[b := StopTimer(old(batches[b]), fate)]
      ensures inFlight == old(inFlight) - if old(batches[b]).phase.Armed? then 1 else 0
    {
      var p := batches[b];
      if p.phase.Armed? {
        batches := batches[b := p.(phase := Stopped, fate := fate, dones := p.dones + 1)];
        inFlight := inFlight - 1;
      } else {
        batches := batches[b := p.(fate := fate)];
      }
    }

    method Release(id: ClusterId)
      requires Valid()
      modifies this
      ensures Valid() && Model() == Apply(old(Model()), Event.Release(id))
    {
      ReachableStep(interest, Model(), Event.Release(id));
      drawn := drawn - {id};
      if id in pending {
        PendingIsGathering(interest, old(Model()), id);
        Stop(pending[id], Released);
      }
      pending := pending - {id};
      assert Model() == ReleaseStep(old(Model()), id);
    }

    method Subscribe() returns (key: Listener)
      requires Valid()
      modifies this
      ensures Valid() && Model() == Apply(old(Model()), Event.Subscribe)
      ensures key == old(nextSub)
    {
      ReachableStep(interest, Model(), Event.Subscribe);
      key := nextSub;
      nextSub := nextSub + 1;
      subs := subs + {key};
    }

    method Unsubscribe(key: Listener)
      requires Valid()
      modifies this
      ensures Valid() && Model() == Apply(old(Model()), Event.Unsubscribe(key))
    {
      ReachableStep(interest, Model(), Event.Unsubscribe(key));
      subs := subs - {key};
    }

    method Changed(id: ClusterId, ns: NamespaceName, now: int)
      requires Valid()
      modifies this
      ensures Valid() && Model() == Apply(old(Model()), Event.Changed(id, ns, now))
    {
      ReachableStep(interest, Model(), Event.Changed(id, ns, now));
      if id in pending { PendingIsGathering(interest, Model(), id); }
      if closed || subs == {} || id !in drawn {
        return;
      }
      if now - drawn[id].at > interest {
        drawn := drawn - {id};
        return;
      }
      if ns != NAMESPACE_ALL && !drawn[id].scope.Includes(ns) {
        return;
      }
      assert Accepts(old(Model()), id, ns, now);
      Accept(id, ns);
    }

    /** Puts an accepted change in its cluster's batch, arming a timer for a new one. */
    method Accept(id: ClusterId, ns: NamespaceName)
      requires id in pending ==> pending[id] in batches
      modifies this`batches, this`pending, this`inFlight, this`nextBatch, this`accepted
      ensures forall now | Accepts(old(Model()), id, ns, now) :: Model() == ChangedStep(old(Model()), id, ns, now)
    {
      if id !in pending {
        batches := batches[nextBatch := Batch(id, {}, false, Armed, Gathering, 0)];
        pending := pending[id := nextBatch];
        inFlight := inFlight + 1;
        nextBatch := nextBatch + 1;
      }
      Gather(pending[id], ns);
      accepted := accepted + [Accepted(id, ns, pending[id])];
    }

    method Gather(b: BatchId, ns: NamespaceName)
      requires b in batches
      modifies this`batches
      ensures batches == old(batches)[b := Note(old(batches[b]), ns)]
    {
      var p := batches[b];
      if ns == NAMESPACE_ALL {
        batches := batches[b := p.(anywhere := true)];
      } else {
        batches := batches[b := p.(namespaces := p.namespaces + {ns})];
      }
    }

    /** The namespaces of a batch, collected from the map and sorted. */
    method Collect(names: set<NamespaceName>) returns (sorted: seq<NamespaceName>)
      ensures sorted == Ordering.SortedElements(names)
    {
      var out: seq<NamespaceName>, rest := [], names;
      while rest != {}
        invariant rest <= names && Ordering.Distinct(out)
        invariant forall i | 0 <= i < |out| :: out[i] in names - rest
        invariant forall n | n in names - rest :: n in out
        decreases rest
      {
        var n :| n in rest;
        out := out + [n];
        rest := rest - {n};
      }
      Ordering.SortedElementsOf(out, names);
      sorted := Ordering.SortStrings(out);
    }

    /** flush's critical section. */
    method Flush(b: BatchId)
      requires Valid() && Enabled(Model(), Event.Flush(b))
      modifies this
      ensures Valid() && Model() == Apply(old(Model()), Event.Flush(b))
    {
      ReachableStep(interest, Model(), Event.Flush(b));
      var p := batches[b];
      var id := p.cluster;
      if closed || id !in pending || pending[id] != b {
        batches := batches[b := p.(phase := Leaving)];
        return;
      }
      pending := pending - {id};
      if id !in drawn {
        batches := batches[b := p.(phase := Leaving, fate := Unwatched)];
      } else if subs == {} {
        batches := batches[b := p.(phase := Leaving, fate := Unheard)];
      } else {
        var scope := drawn[id].scope;
        var names: seq<NamespaceName> := [];
        if p.anywhere && !scope.all {
          names := scope.namespaces;
        } else if !p.anywhere {
          names := Collect(p.namespaces);
        }
        var change := Change(id, names);
        assert change == Summary(p, scope);
        batches := batches[b := p.(phase := Deciding(change, drawn[id].number, subs),
                                  fate := Flushed(change, scope, subs))];
      }
    }

    method ForgetDrawing(b: BatchId)
      requires Valid() && Enabled(Model(), Event.ForgetDrawing(b))
      modifies this
      ensures Valid() && Model() == Apply(old(Model()), Event.ForgetDrawing(b))
    {
      ReachableStep(interest, Model(), Event.ForgetDrawing(b));
      var p := batches[b];
      batches := batches[b := p.(phase := Leaving)];
      if p.cluster in drawn && drawn[p.cluster].number == p.phase.drawing {
        drawn := drawn - {p.cluster};
      }
    }

    /** Close's critical section; the Wait after it ends when inFlight is zero. */
    method Close()
      requires Valid()
      modifies this
      ensures Valid() && Model() == Apply(old(Model()), CloseSection)
    {
      ghost var s := Model();
      ReachableStep(interest, s, CloseSection);
      closed := true;
      DropPending(s);
      assert batches == CloseStep(s).batches;
    }

    /** Close part way through: the clusters still pending are as they were in `s`. */
    ghost predicate Dropping(s: State)
      reads this
    {
      && pending.Keys <= s.pending.Keys
      && (forall id | id in pending :: pending[id] == s.pending[id])
      && batches == ClosedSoFar(s, pending.Keys)
      && inFlight == s.inFlight - |StoppedSoFar(s, pending.Keys)|
    }

    method DropOne(ghost s: State, id: ClusterId)
      requires Reachable(interest, s) && Dropping(s) && id in pending
      modifies this`batches, this`pending, this`inFlight
      ensures Dropping(s) && pending.Keys == old(pending.Keys) - {id}
    {
      ghost var left := pending.Keys - {id};
      CloseOne(interest, s, pending.Keys, id);
      Stop(pending[id], Closed);
      pending := pending - {id};
      assert pending.Keys == left;
    }

    /** Stops the timer of every pending batch and empties the map, in any order. */
    method DropPending(ghost s: State)
      requires Reachable(interest, s) && batches == s.batches && pending == s.pending && inFlight == s.inFlight
      modifies this`batches, this`pending, this`inFlight
      ensures pending == map[] && batches == ClosedSoFar(s, {}) && inFlight == s.inFlight - |Unfired(s)|
    {
      NothingClosedYet(s);
      while pending != map[]
        invariant Dropping(s)
        decreases pending.Keys
      {
        var id :| id in pending;
        DropOne(s, id);
      }
      assert pending.Keys == {};
    }
  }
}
