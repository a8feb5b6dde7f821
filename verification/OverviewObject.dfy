/** The OverviewService object: its two tables, with `assessments` for the calls they name. */
module OverviewObject {
  import opened Options
  import opened OverviewProtocol

  class OverviewService {
    var cache: map<ClusterId, Entry>
    var inflight: map<ClusterId, AssessmentId>
    var assessments: seq<Assessment>
    ghost var callers: seq<Caller>
    ghost var clock: int

    ghost function Model(): State
      reads this
    {
      State(cache, inflight, assessments, callers, clock)
    }

    ghost predicate Valid()
      reads this
    {
      Reachable(Model())
    }

    constructor (ghost clock: int)
      ensures Valid() && Model() == Init(clock)
    {
      cache, inflight, assessments := map[], map[], [];
      callers, this.clock := [], clock;
      new;
      assert Run(Init(clock), [], Model());
    }

    /** Where the caller is from now on. */
    ghost method SetPhase(k: nat, phase: Phase)
      requires k < |callers|
      modifies this`callers
      ensures callers == old(callers)[k := old(callers)[k].(phase := phase)]
    {
      callers := callers[k := callers[k].(phase := phase)];
    }

    /** The first critical section, for the caller numbered `k`: an answer recent enough, an
        assessment to wait for, or one to lead. */
    method LookUp(id: ClusterId, maxAge: int, now: int, k: nat)
      returns (held: Option<string>, joined: Option<AssessmentId>, begun: AssessmentId)
      requires Valid() && Enabled(Model(), Look(k, now)) && callers[k].cluster == id && callers[k].maxAge == maxAge
      modifies this
      ensures Valid() && Model() == Apply(old(Model()), Look(k, now))
      ensures held.Some? ==> callers[k].phase.Returned? && callers[k].phase.answer == Overview(held.value)
      ensures held.None? && joined.Some? ==> callers[k].phase == Waiting(joined.value)
      ensures held.None? && joined.None? ==> callers[k].phase == Assessing(begun)
    {
      ReachableStep(Model(), Look(k, now));
      held, joined, begun := None, None, |assessments|;
      if id in cache && maxAge > 0 && now - cache[id].at <= maxAge {
        held := Some(cache[id].value);
        SetPhase(k, Returned(Overview(cache[id].value), Cached(cache[id].at, now, cache[id].from)));
      } else if id in inflight {
        joined := Some(inflight[id]);
        SetPhase(k, Waiting(inflight[id]));
      } else {
        SetPhase(k, Assessing(begun));
        assessments := assessments + [Assessment(id, k, None, false)];
        inflight := inflight[id := begun];
      }
      clock := now;
    }

    /** The second critical section: out of the table, and into the cache when it succeeded. */
    method Keep(id: ClusterId, a: AssessmentId, now: int, ghost k: nat)
      requires Valid() && Enabled(Model(), File(k, now)) && callers[k].cluster == id && callers[k].phase.leads == a
      modifies this
      ensures Valid() && Model() == Apply(old(Model()), File(k, now))
    {
      ReachableStep(Model(), File(k, now));
      inflight := inflight - {id};
      var answer := assessments[a].answer.value;
      if answer.Overview? {
        cache := cache[id := Entry(now, answer.value, a)];
      }
      SetPhase(k, Closing(a));
      clock := now;
    }

    method Forget(id: ClusterId)
      requires Valid()
      modifies this
      ensures Valid() && Model() == Apply(old(Model()), Invalidate(id))
    {
      ReachableStep(Model(), Invalidate(id));
      cache := cache - {id};
    }
  }
}
