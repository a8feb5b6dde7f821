/** Last rows of each cluster (app/application/fleet_podquery.go). */
module PodMemos {
  // A read that brings no rows is shown the last ones its cluster gave, for the same scope.

  import opened Options
  import opened Sequences

  type ClusterId = string

  datatype Status = OK | Partial | Slow | Unreachable | Forbidden | Failed | Unserved

  datatype PodRead = PodRead(cluster: ClusterId, status: Status, items: seq<string>)
  {
    predicate BringsRows() { status.OK? || status.Partial? || (status.Slow? && items != []) }
    predicate KeepsRows() { status.Slow? || status.Unreachable? }
  }

  datatype Kept = Kept(scope: string, pods: seq<string>, at: int)

  datatype PodShare = PodShare(cluster: ClusterId, status: Status, rows: nat, rowsAt: Option<int>, stale: bool)

  datatype Happening = Shared(read: PodRead, scope: string, now: int) | Forgot(id: ClusterId)

  predicate Concerns(h: Happening, id: ClusterId) {
    match h
    case Shared(read, _, _) => read.cluster == id
    case Forgot(c) => c == id
  }

  /** What is kept of a cluster after all that happened. */
  ghost function LastRows(history: seq<Happening>, id: ClusterId): Option<Kept> {
    if history == [] then None
    else
      var before, last := history[..|history| - 1], history[|history| - 1];
      if !Concerns(last, id) then LastRows(before, id)
      else if last.Forgot? then None
      else if last.read.BringsRows() then Some(Kept(last.scope, last.read.items, last.now))
      else if last.read.KeepsRows() then LastRows(before, id)
      else None
  }

  /** Whether the rows brought at `i` still stand at the end: nothing of the cluster since has
      brought others, refused it or forgotten it. */
  ghost predicate StandsSince(history: seq<Happening>, id: ClusterId, i: nat) {
    forall j | i < j < |history| && Concerns(history[j], id) ::
      history[j].Shared? && !history[j].read.BringsRows() && history[j].read.KeepsRows()
  }

  /** What is kept of a cluster is what the last read of it to bring rows brought, for the
      scope it read, with nothing since but reads that are slow or cannot reach it. */
  lemma {:induction false} LastRowsMean(history: seq<Happening>, id: ClusterId) returns (i: nat)
    ensures LastRows(history, id).Some? ==>
      && i < |history| && history[i].Shared? && history[i].read.cluster == id && history[i].read.BringsRows()
      && LastRows(history, id).value == Kept(history[i].scope, history[i].read.items, history[i].now)
      && StandsSince(history, id, i)
  {
    i := 0;
    if history != [] {
      var before, last := history[..|history| - 1], history[|history| - 1];
      if Concerns(last, id) && last.Shared? && last.read.BringsRows() {
        i := |history| - 1;
      } else {
        i := LastRowsMean(before, id);
      }
    }
  }

  /** The rows shown for a read. */
  ghost function RowsFor(history: seq<Happening>, read: PodRead, scope: string): seq<string> {
    var last := LastRows(history, read.cluster);
    if read.BringsRows() then read.items
    else if read.KeepsRows() && last.Some? && last.value.scope == scope then last.value.pods
    else []
  }

  /** When the rows shown for a read were brought. */
  ghost function RowsTime(history: seq<Happening>, read: PodRead, scope: string, now: int): Option<int> {
    var last := LastRows(history, read.cluster);
    if read.BringsRows() then Some(now)
    else if read.KeepsRows() && last.Some? && last.value.scope == scope then Some(last.value.at)
    else None
  }

  /** Rows shown for a cluster and a scope were brought by a read of that cluster and scope. */
  lemma RowsAnswerTheQuestion(history: seq<Happening>, read: PodRead, scope: string) returns (i: nat)
    requires RowsFor(history, read, scope) != [] && !read.BringsRows()
    ensures i < |history| && history[i].Shared? && history[i].read.cluster == read.cluster && history[i].scope == scope
    ensures history[i].read.BringsRows() && RowsFor(history, read, scope) == history[i].read.items
    ensures forall now :: RowsTime(history, read, scope, now) == Some(history[i].now)
    ensures StandsSince(history, read.cluster, i)
  {
    i := LastRowsMean(history, read.cluster);
  }

  class PodMemo {
    var kept: map<ClusterId, Kept>
    ghost var history: seq<Happening>

    ghost predicate Valid()
      reads this
    {
      forall id :: (if id in kept then Some(kept[id]) else None) == LastRows(history, id)
    }

    constructor ()
      ensures Valid() && history == []
    {
      kept, history := map[], [];
    }

    method Share(read: PodRead, scope: string, now: int) returns (share: PodShare, rows: seq<string>)
      requires Valid()
      modifies this
      ensures Valid() && history == old(history) + [Shared(read, scope, now)]
      ensures rows == RowsFor(old(history), read, scope) && share.rows == |rows|
      ensures share.rowsAt == RowsTime(old(history), read, scope, now)
      ensures share.cluster == read.cluster && share.status == read.status
      ensures share.stale <==> rows != [] && !read.BringsRows()
    {
      ghost var before := history;
      history := history + [Shared(read, scope, now)];
      assert history[..|history| - 1] == before;
      assert (if read.cluster in kept then Some(kept[read.cluster]) else None) == LastRows(before, read.cluster);
      share, rows := PodShare(read.cluster, read.status, 0, None, false), [];
      if read.status.OK? || read.status.Partial? || (read.status.Slow? && |read.items| > 0) {
        kept := kept[read.cluster := Kept(scope, read.items, now)];
        share, rows := share.(rows := |read.items|, rowsAt := Some(now)), read.items;
      } else if read.status.Slow? || read.status.Unreachable? {
        if read.cluster in kept && kept[read.cluster].scope == scope {
          var last := kept[read.cluster];
          share, rows := share.(rows := |last.pods|, rowsAt := Some(last.at), stale := |last.pods| > 0), last.pods;
        }
      } else {
        kept := kept - {read.cluster};
      }
    }

    method Forget(id: ClusterId)
      requires Valid()
      modifies this
      ensures Valid() && history == old(history) + [Forgot(id)]
    {
      ghost var before := history;
      history := history + [Forgot(id)];
      assert history[..|history| - 1] == before;
      kept := kept - {id};
    }

    /** Every cluster's share and all of their rows, in tab order. The shares own up to every
        row, and to no other. */
    method MergedPods(listed: seq<PodRead>, scope: string, now: int) returns (shares: seq<PodShare>, pods: seq<string>)
      requires Valid()
      modifies this
      ensures Valid() && history == old(history) + SharedAll(listed, scope, now)
      ensures |shares| == |listed| && RowsIn(shares) == |pods|
      ensures pods == MergedRows(old(history), listed, scope, now)
    {
      shares, pods := [], [];
      for i := 0 to |listed|
        invariant Valid() && history == old(history) + SharedAll(listed[..i], scope, now)
        invariant |shares| == i && RowsIn(shares) == |pods|
        invariant pods == MergedRows(old(history), listed[..i], scope, now)
      {
        assert listed[..i + 1][..i] == listed[..i];
        var share, rows := Share(listed[i], scope, now);
        assert (shares + [share])[..i] == shares;
        shares := shares + [share];
        pods := pods + rows;
      }
      assert listed[..|listed|] == listed;
    }
  }

  ghost function SharedAll(listed: seq<PodRead>, scope: string, now: int): seq<Happening> {
    seq(|listed|, i requires 0 <= i < |listed| => Shared(listed[i], scope, now))
  }

  ghost function MergedRows(history: seq<Happening>, listed: seq<PodRead>, scope: string, now: int): seq<string> {
    if listed == [] then []
    else
      var before := listed[..|listed| - 1];
      MergedRows(history, before, scope, now)
      + RowsFor(history + SharedAll(before, scope, now), listed[|listed| - 1], scope)
  }

  function RowsIn(shares: seq<PodShare>): nat {
    if shares == [] then 0 else RowsIn(shares[..|shares| - 1]) + shares[|shares| - 1].rows
  }
}
