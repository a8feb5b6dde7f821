/** The FleetService object of app/application/fleet.go: the map of late answers, one method
    for each operation on it, each proved to make the protocol's transition. */
module FleetServiceObject {
  import opened Options
  import opened FleetLateProtocol

  class FleetService {
    var late: map<string, Held>
    ghost var asked: seq<Read>
    ghost var clock: int

    ghost function Model(): State
      reads this
    {
      State(late, asked, clock)
    }

    ghost predicate Valid()
      reads this
    {
      Reachable(Model())
    }

    constructor (ghost clock: int)
      ensures Valid() && Model() == Init(clock)
    {
      late := map[];
      asked, this.clock := [], clock;
      new;
      assert Run(Init(clock), [], Model());
    }

    /** A read that came in time: whatever an earlier one left is older than it. */
    method DropLate(q: Question, ghost r: nat)
      requires Valid() && Enabled(Model(), InTime(r)) && asked[r].question == q
      modifies this
      ensures Valid() && Model() == Apply(old(Model()), InTime(r))
    {
      ReachableStep(Model(), InTime(r));
      asked := Apply(Model(), InTime(r)).asked;
      late := late - {LateKey(q)};
    }

    /** A read that came in late, numbered `r`. */
    method StoreLate(q: Question, r: nat, now: int)
      requires Valid() && Enabled(Model(), Store(r, now)) && asked[r].question == q
      modifies this
      ensures Valid() && Model() == Apply(old(Model()), Store(r, now))
    {
      ReachableStep(Model(), Store(r, now));
      asked := Apply(Model(), Store(r, now)).asked;
      late := late[LateKey(q) := Held(r, now)];
      clock := now;
    }

    /** What a read over budget is given: the late answer to its question, unless it is old. */
    method TakeLate(q: Question, now: int, ghost r: nat) returns (held: Option<Held>)
      requires Valid() && Enabled(Model(), Take(r, now)) && asked[r].question == q
      modifies this
      ensures Valid() && Model() == Apply(old(Model()), Take(r, now))
      ensures held.Some? <==> asked[r].phase.source.Late?
      ensures held.Some? ==> asked[r].phase.source == Late(held.value.of, held.value.at, now)
    {
      ReachableStep(Model(), Take(r, now));
      asked := TakeStep(Model(), r, now).asked;
      var key := LateKey(q);
      held := None;
      if key in late {
        if now - late[key].at <= LATE_ANSWER_TTL {
          held := Some(late[key]);
        }
        late := late - {key};
      }
      assert late == old(late) - {key};
      clock := now;
    }

    method Invalidate(id: ClusterId)
      requires Valid() && Enabled(Model(), Event.Invalidate(id))
      modifies this
      ensures Valid() && Model() == Apply(old(Model()), Event.Invalidate(id))
    {
      ReachableStep(Model(), Event.Invalidate(id));
      var left := late.Keys;
      while left != {}
        invariant left <= old(late).Keys && asked == old(asked) && clock == old(clock)
        invariant late == map key | key in old(late) && (key in left || !(Prefix(id) <= key)) :: old(late)[key]
        decreases left
      {
        var key :| key in left;
        left := left - {key};
        if Prefix(id) <= key {
          late := late - {key};
        }
      }
      assert late == Apply(old(Model()), Event.Invalidate(id)).late;
    }

    method SweepLate(now: int)
      requires Valid() && Enabled(Model(), Sweep(now))
      modifies this
      ensures Valid() && Model() == Apply(old(Model()), Sweep(now))
    {
      ReachableStep(Model(), Sweep(now));
      var left := late.Keys;
      while left != {}
        invariant left <= old(late).Keys && asked == old(asked) && clock == old(clock)
        invariant late == map key | key in old(late)
          && (key in left || now - old(late)[key].at <= LATE_ANSWER_TTL) :: old(late)[key]
        decreases left
      {
        var key :| key in left;
        left := left - {key};
        if now - late[key].at > LATE_ANSWER_TTL {
          late := late - {key};
        }
      }
      clock := now;
      assert late == Apply(old(Model()), Sweep(now)).late;
    }
  }
}
