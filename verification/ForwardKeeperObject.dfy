/** The ForwardKeeper object of app/application/forwardkeeper.go, with `runs` for the restores its
    pointers name and `waiting` for its WaitGroup, and the list it keeps in the settings. */
module ForwardKeeperObject {
  import opened Options
  import opened ForwardKeeperProtocol
  import opened Sequences

  /** What the world answers a restore about one kept forward. */
  datatype Answer = Answer(live: bool, open: bool, expired: bool, resolves: bool, stillOpen: bool, nowExpired: bool)
  {
    /** Both checks pass and the target resolves. */
    predicate Reaches() { !live && open && !expired && resolves && stillOpen && !nowExpired }
  }

  /** What a restore left alone starts, from some item on. */
  function StartedFrom(r: RunId, answers: seq<Answer>, item: nat): seq<Started>
    decreases |answers| - item
  {
    if item >= |answers| then []
    else (if answers[item].Reaches() then [Started(r, item)] else []) + StartedFrom(r, answers, item + 1)
  }

  class ForwardKeeper {
    var closed: bool
    var cancelled: bool
    var restoring: map<ClusterId, RunId>
    var runs: seq<Restore>
    var waiting: int
    ghost var disconnects: seq<Disconnect>
    ghost var closers: seq<Stage>
    ghost var started: seq<Started>

    ghost function Model(): State
      reads this
    {
      State(closed, cancelled, restoring, runs, waiting, disconnects, closers, started)
    }

    ghost predicate Valid()
      reads this
    {
      Reachable(Model())
    }

    constructor ()
      ensures Valid() && Model() == INIT
    {
      closed, cancelled, restoring, runs, waiting := false, false, map[], [], 0;
      disconnects, closers, started := [], [], [];
      new;
      assert Run(INIT, [], Model());
    }

    method ClusterConnected(id: ClusterId) returns (run: Option<RunId>)
      requires Valid()
      modifies this
      ensures Valid() && Model() == Apply(old(Model()), Connected(id))
      ensures run.Some? <==> !old(closed) && id !in old(restoring)
      ensures run.Some? ==> run.value == |old(runs)|
    {
      ReachableStep(Model(), Connected(id));
      if closed || id in restoring {
        return None;
      }
      run := Some(|runs|);
      restoring := restoring[id := |runs|];
      runs := runs + [Restore(id, [], Loading, false)];
      waiting := waiting + 1;
    }

    /** ClusterDisconnected's critical section: takes the registered run, if any. */
    method Take(id: ClusterId) returns (run: Option<RunId>, ghost call: nat)
      requires Valid()
      modifies this
      ensures Valid() && Model() == Apply(old(Model()), Disconnected(id))
      ensures call == |old(disconnects)| && disconnects[call].found == run
    {
      ReachableStep(Model(), Disconnected(id));
      call := |disconnects|;
      run := if id in restoring then Some(restoring[id]) else None;
      disconnects := disconnects + [if run.Some? then Disconnect(id, run, Cancelling) else Disconnect(id, None, Returned)];
      restoring := restoring - {id};
    }

    method Move(r: RunId, phase: Phase)
      requires r < |runs|
      modifies this`runs
      ensures runs == old(runs)[r := old(runs)[r].(phase := phase)]
    {
      runs := runs[r := runs[r].(phase := phase)];
    }

    method LoadKept(r: RunId, kept: Option<seq<Kept>>)
      requires Valid() && Enabled(Model(), Load(r, kept))
      modifies this
      ensures Valid() && Model() == Apply(old(Model()), Load(r, kept))
    {
      ReachableStep(Model(), Load(r, kept));
      if kept.None? {
        Move(r, Retiring);
        return;
      }
      runs := runs[r := runs[r].(kept := kept.value, phase := AtItem(0))];
    }

    /** The head of the loop over the kept forwards. */
    method LoopHead(r: RunId, live: bool)
      requires Valid() && Enabled(Model(), Next(r, live))
      modifies this
      ensures Valid() && Model() == Apply(old(Model()), Next(r, live))
    {
      ReachableStep(Model(), Next(r, live));
      var next := runs[r].phase.next;
      if next >= |runs[r].kept| || cancelled || runs[r].cancelled {
        Move(r, Retiring);
      } else if live {
        Move(r, AtItem(next + 1));
      } else {
        Move(r, Checking(next));
      }
    }

    /** start's two looks at the registry and the context: before resolving the target, and
        again before starting the forward. */
    method FirstCheck(r: RunId, open: bool, expired: bool)
      requires Valid() && Enabled(Model(), Check(r, open, expired))
      modifies this
      ensures Valid() && Model() == Apply(old(Model()), Check(r, open, expired))
    {
      ReachableStep(Model(), Check(r, open, expired));
      var item := runs[r].phase.item;
      if !open || expired || cancelled || runs[r].cancelled {
        Move(r, Recording(item));
      } else {
        Move(r, Resolving(item));
      }
    }

    method ResolveTarget(r: RunId, ok: bool)
      requires Valid() && Enabled(Model(), Resolve(r, ok))
      modifies this
      ensures Valid() && Model() == Apply(old(Model()), Resolve(r, ok))
    {
      ReachableStep(Model(), Resolve(r, ok));
      var item := runs[r].phase.item;
      if ok {
        Move(r, Rechecking(item));
      } else {
        Move(r, Recording(item));
      }
    }

    method SecondCheck(r: RunId, open: bool, expired: bool)
      requires Valid() && Enabled(Model(), Recheck(r, open, expired))
      modifies this
      ensures Valid() && Model() == Apply(old(Model()), Recheck(r, open, expired))
    {
      ReachableStep(Model(), Recheck(r, open, expired));
      var item := runs[r].phase.item;
      if !open || expired || cancelled || runs[r].cancelled {
        Move(r, Recording(item));
      } else {
        Move(r, Starting(item));
      }
    }

    method StartForward(r: RunId)
      requires Valid() && Enabled(Model(), Start(r))
      modifies this
      ensures Valid() && Model() == Apply(old(Model()), Start(r))
    {
      ReachableStep(Model(), Start(r));
      var item := runs[r].phase.item;
      Move(r, Recording(item));
      started := started + [Started(r, item)];
    }

    method RecordOutcome(r: RunId)
      requires Valid() && Enabled(Model(), Record(r))
      modifies this
      ensures Valid() && Model() == Apply(old(Model()), Record(r))
    {
      ReachableStep(Model(), Record(r));
      Move(r, AtItem(runs[r].phase.item + 1));
    }

    /** The deferred cleanup, in the order it runs: cancel, drop the run's own entry. */
    method DropOwnEntry(r: RunId)
      requires Valid() && Enabled(Model(), Unregister(r))
      modifies this
      ensures Valid() && Model() == Apply(old(Model()), Unregister(r))
    {
      ReachableStep(Model(), Unregister(r));
      var id := runs[r].cluster;
      if id in restoring && restoring[id] == r {
        restoring := restoring - {id};
      }
      Move(r, Ending);
    }

    /** Close, up to its wait. */
    method Close() returns (ghost call: nat)
      requires Valid()
      modifies this
      ensures Valid() && call == |old(closers)|
      ensures Run(old(Model()), [Closed, CancelAll(call)], Model())
    {
      call := |closers|;
      ReachableStep(Model(), Closed);
      closed := true;
      closers := closers + [Cancelling];
      ghost var t := Model();
      ReachableStep(Model(), CancelAll(call));
      cancelled := true;
      closers := closers[call := Waiting];
      assert Run(t, [CancelAll(call)], Model());
      assert [Closed, CancelAll(call)][1..] == [CancelAll(call)];
    }

    /** start, for one kept forward, left alone: the forward is started exactly when every
        answer lets it and the context is not over. */
    method StartKept(r: RunId, answer: Answer)
      requires Valid() && r < |runs| && runs[r].phase.Checking? && !answer.live
      modifies this
      ensures Valid() && cancelled == old(cancelled) && restoring == old(restoring)
      ensures runs == old(runs)[r := old(runs)[r].(phase := AtItem(old(runs)[r].phase.item + 1))]
      ensures started == old(started) +
        if answer.Reaches() && !Cancelled(old(Model()), r) then [Started(r, old(runs)[r].phase.item)] else []
    {
      FirstCheck(r, answer.open, answer.expired);
      if runs[r].phase.Resolving? {
        ResolveTarget(r, answer.resolves);
      }
      if runs[r].phase.Rechecking? {
        SecondCheck(r, answer.stillOpen, answer.nowExpired);
      }
      if runs[r].phase.Starting? {
        StartForward(r);
      }
      RecordOutcome(r);
    }

    /** One turn of Restore's loop, left alone. */
    method Turn(r: RunId, answers: seq<Answer>)
      requires Valid() && r < |runs| && runs[r].phase.AtItem? && |answers| == |runs[r].kept|
      modifies this
      ensures Valid() && cancelled == old(cancelled) && restoring == old(restoring)
      ensures var next := old(runs)[r].phase.next;
        if next >= |answers| || Cancelled(old(Model()), r)
        then runs == old(runs)[r := old(runs)[r].(phase := Retiring)] && started == old(started)
        else runs == old(runs)[r := old(runs)[r].(phase := AtItem(next + 1))]
             && started == old(started) + if answers[next].Reaches() then [Started(r, next)] else []
    {
      var next := runs[r].phase.next;
      LoopHead(r, next < |answers| && answers[next].live);
      if runs[r].phase.Checking? {
        StartKept(r, answers[next]);
      }
    }

    /** Restore's loop, left alone: it starts exactly the kept forwards that are not live and
        whose way is clear, in order, and none at all under a context that is over. */
    method RestoreAlone(r: RunId, kept: seq<Kept>, answers: seq<Answer>)
      requires Valid() && Enabled(Model(), Load(r, Some(kept))) && |answers| == |kept|
      modifies this
      ensures Valid() && restoring == old(restoring)
      ensures runs == old(runs)[r := old(runs)[r].(kept := kept, phase := Retiring)]
      ensures started == old(started) + if Cancelled(old(Model()), r) then [] else StartedFrom(r, answers, 0)
    {
      ghost var before, over := started, cancelled || runs[r].cancelled;
      LoadKept(r, Some(kept));
      var next := 0;
      while runs[r].phase.AtItem?
        invariant Valid() && r < |runs| && next <= |kept| && (cancelled || old(runs)[r].cancelled) == over
        invariant restoring == old(restoring)
        invariant runs == old(runs)[r := old(runs)[r].(kept := kept, phase := runs[r].phase)]
        invariant runs[r].phase == AtItem(next) || (runs[r].phase == Retiring && (over || next == |kept|))
        invariant if over then started == before
                  else started + StartedFrom(r, answers, next) == before + StartedFrom(r, answers, 0)
        decreases |kept| - next, runs[r].phase.AtItem?
      {
        Turn(r, answers);
        if runs[r].phase.AtItem? {
          next := next + 1;
        }
      }
    }
  }

  // ---- The kept definitions ----

  function OtherPorts(port: int): Kept -> bool { (k: Kept) => k.localPort != port }

  function OnPort(port: int): Kept -> bool { (k: Kept) => k.localPort == port }

  /** A machine has one of each local port. */
  predicate OnePerPort(list: seq<Kept>) {
    forall i, j | 0 <= i < j < |list| :: list[i].localPort != list[j].localPort
  }

  method ReplaceKept(list: seq<Kept>, kept: Kept) returns (out: seq<Kept>)
    ensures out == Filter(list, OtherPorts(kept.localPort)) + [kept]
  {
    out := [];
    for i := 0 to |list|
      invariant out == Filter(list[..i], OtherPorts(kept.localPort))
    {
      assert list[..i + 1] == list[..i] + [list[i]];
      FilterAppend(list[..i], [list[i]], OtherPorts(kept.localPort));
      if list[i].localPort != kept.localPort {
        out := out + [list[i]];
      }
    }
    assert list[..|list|] == list;
    out := out + [kept];
  }

  /** Drops a port's definition; nothing is written for a forward that was never kept. The
      list that is rewritten is the one the settings hold by then. */
  method RemoveKept(loaded: seq<Kept>, current: seq<Kept>, port: int) returns (written: Option<seq<Kept>>)
    ensures written.Some? <==> exists k :: k in loaded && k.localPort == port
    ensures written.Some? ==> written.value == Filter(current, OtherPorts(port))
  {
    var found := false;
    for i := 0 to |loaded|
      invariant found <==> exists k :: k in loaded[..i] && k.localPort == port
    {
      if loaded[i].localPort == port {
        found := true;
        assert loaded[i] in loaded[..i + 1];
      }
    }
    assert loaded[..|loaded|] == loaded;
    if !found {
      return None;
    }
    return Some(Filter(current, OtherPorts(port)));
  }

  /** After a definition is replaced its port has that one definition, and every other port
      has what it had. */
  lemma ReplaceKeptMeans(list: seq<Kept>, kept: Kept, port: int)
    ensures var out := Filter(list, OtherPorts(kept.localPort)) + [kept];
      Filter(out, OnPort(port)) == if port == kept.localPort then [kept] else Filter(list, OnPort(port))
  {
    FilterAppend(Filter(list, OtherPorts(kept.localPort)), [kept], OnPort(port));
    assert [kept][1..] == [];
    OnPortAfter(list, kept.localPort, port);
  }

  lemma ReplaceKeptOnePerPort(list: seq<Kept>, kept: Kept)
    requires OnePerPort(list)
    ensures OnePerPort(Filter(list, OtherPorts(kept.localPort)) + [kept])
  {
    OthersOnePerPort(list, kept.localPort);
    FilterHolds(list, OtherPorts(kept.localPort));
    var others := Filter(list, OtherPorts(kept.localPort));
    assert forall i | 0 <= i < |others| :: others[i] in others;
  }

  /** Keeping a forward and forgetting it again is forgetting it. */
  lemma ForgetAfterKeep(list: seq<Kept>, kept: Kept)
    ensures var others := OtherPorts(kept.localPort);
      Filter(Filter(list, others) + [kept], others) == Filter(list, others)
  {
    var others := OtherPorts(kept.localPort);
    FilterAppend(Filter(list, others), [kept], others);
    assert [kept][1..] == [];
    FilterHolds(list, others);
    FilterAll(Filter(list, others), others);
  }

  /** Taking one port's definitions away leaves every other port's as they were. */
  lemma {:induction false} OnPortAfter(list: seq<Kept>, gone: int, port: int)
    ensures Filter(Filter(list, OtherPorts(gone)), OnPort(port))
      == if port == gone then [] else Filter(list, OnPort(port))
  {
    if list != [] {
      var head := if list[0].localPort != gone then [list[0]] else [];
      var rest := Filter(list[1..], OtherPorts(gone));
      OnPortAfter(list[1..], gone, port);
      FilterAppend(head, rest, OnPort(port));
      if head != [] {
        assert head[1..] == [];
      }
    }
  }

  lemma {:induction false} OthersOnePerPort(list: seq<Kept>, gone: int)
    requires OnePerPort(list)
    ensures OnePerPort(Filter(list, OtherPorts(gone)))
  {
    if list != [] {
      OthersOnePerPort(list[1..], gone);
      FilterHolds(list[1..], OtherPorts(gone));
      assert forall k | k in list[1..] :: k.localPort != list[0].localPort;
    }
  }
}
