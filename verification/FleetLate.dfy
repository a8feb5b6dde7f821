/** Late answers across clusters (app/application/fleet.go). */
module FleetLateProtocol {
  // A read that outlives its budget leaves what it comes back with for the next read of the same
  // question. Each operation on the shared map is one step, and so is everything a read does
  // between.

  import opened Options
  import Text

  type ClusterId = string

  const SECOND := 1_000_000_000
  const LATE_ANSWER_TTL := 120 * SECOND

  /** Which cluster, which read, and which scope, by its key. */
  datatype Question = Question(cluster: ClusterId, name: string, scope: string)

  function Prefix(id: ClusterId): string { id + "|" }

  function LateKey(q: Question): string { q.cluster + "|" + q.name + "|" + q.scope }

  /** Neither a cluster id nor a read's name holds the separator. */
  predicate Askable(q: Question) { '|' !in q.cluster && '|' !in q.name }

  /** Distinct questions never share an answer. */
  lemma LateKeyIdentifies(p: Question, q: Question)
    requires Askable(p) && Askable(q)
    ensures LateKey(p) == LateKey(q) <==> p == q
  {
    KeyParts(p);
    KeyParts(q);
    Text.SeparatorSplits(p.cluster, '|', p.name + ['|'] + p.scope, q.cluster, q.name + ['|'] + q.scope);
    Text.SeparatorSplits(p.name, '|', p.scope, q.name, q.scope);
  }

  lemma KeyParts(q: Question)
    ensures LateKey(q) == q.cluster + ['|'] + (q.name + ['|'] + q.scope)
  {
    Text.Regroup(q.cluster + "|", q.name, "|" + q.scope);
    assert q.cluster + "|" + q.name + "|" + q.scope == (q.cluster + "|") + q.name + ("|" + q.scope);
    assert q.name + ("|" + q.scope) == q.name + ['|'] + q.scope;
  }

  /** A cluster's prefix picks out its own questions and no others. */
  lemma PrefixIdentifies(id: ClusterId, q: Question)
    requires '|' !in id && Askable(q)
    ensures Prefix(id) <= LateKey(q) <==> q.cluster == id
  {
    KeyParts(q);
    var key, rest := LateKey(q), q.name + ['|'] + q.scope;
    if Prefix(id) <= key {
      assert key == id + ['|'] + key[|id| + 1..];
      Text.SeparatorSplits(id, '|', key[|id| + 1..], q.cluster, rest);
    }
    if q.cluster == id {
      assert key == Prefix(id) + rest;
    }
  }

  datatype Source = Own | Late(of: nat, at: int, taken: int) | Nothing

  datatype Phase = Waiting | Taking | Shown(source: Source)

  /** One call of readOne: its own read's answer may arrive at any time, `overdue` once the
      budget has run out. */
  datatype Read = Read(question: Question, answered: bool, overdue: bool, stored: bool, phase: Phase)
  {
    /** Its answer may still be stored. */
    predicate Outstanding() { !stored && phase != Shown(Own) }
  }

  datatype Held = Held(of: nat, at: int)

  datatype State = State(late: map<string, Held>, asked: seq<Read>, clock: int)

  function Init(clock: int): State { State(map[], [], clock) }

  datatype Event =
    | Ask(q: Question)
    | Answer(r: nat)
    | InTime(r: nat)
    | Budget(r: nat)
    | Store(r: nat, now: int)
    | Take(r: nat, now: int)
    | Invalidate(id: ClusterId)
    | Sweep(now: int)

  predicate Enabled(s: State, e: Event) {
    match e
    case Ask(q) => Askable(q)
    case Answer(r) => r < |s.asked| && !s.asked[r].answered
    case InTime(r) => r < |s.asked| && s.asked[r].answered && s.asked[r].phase.Waiting?
    case Budget(r) => r < |s.asked| && s.asked[r].phase.Waiting?
    case Store(r, now) => r < |s.asked| && s.asked[r].answered && s.asked[r].overdue && !s.asked[r].stored && s.clock <= now
    case Take(r, now) => r < |s.asked| && s.asked[r].phase.Taking? && s.clock <= now
    case Invalidate(id) => '|' !in id
    case Sweep(now) => s.clock <= now
  }

  function KeyOf(s: State, r: nat): string
    requires r < |s.asked|
  {
    LateKey(s.asked[r].question)
  }

  function Update(s: State, r: nat, read: Read): State
    requires r < |s.asked|
  {
    s.(asked := s.asked[r := read])
  }

  /** LoadAndDelete, and the age limit on what it finds. */
  function TakeStep(s: State, r: nat, now: int): State
    requires r < |s.asked|
  {
    var key := KeyOf(s, r);
    var source := if key in s.late && now - s.late[key].at <= LATE_ANSWER_TTL
                  then Late(s.late[key].of, s.late[key].at, now) else Nothing;
    Update(s, r, s.asked[r].(phase := Shown(source))).(late := s.late - {key}, clock := now)
  }

  function Apply(s: State, e: Event): State
    requires Enabled(s, e)
  {
    match e
    case Ask(q) => s.(asked := s.asked + [Read(q, false, false, false, Waiting)])
    case Answer(r) => Update(s, r, s.asked[r].(answered := true))
    case InTime(r) => Update(s, r, s.asked[r].(phase := Shown(Own))).(late := s.late - {KeyOf(s, r)})
    case Budget(r) => Update(s, r, s.asked[r].(overdue := true, phase := Taking))
    case Store(r, now) =>
      Update(s, r, s.asked[r].(stored := true)).(late := s.late[KeyOf(s, r) := Held(r, now)], clock := now)
    case Take(r, now) => TakeStep(s, r, now)
    case Invalidate(id) => s.(late := map key | key in s.late && !(Prefix(id) <= key) :: s.late[key])
    case Sweep(now) =>
      s.(late := map key | key in s.late && now - s.late[key].at <= LATE_ANSWER_TTL :: s.late[key], clock := now)
  }

  ghost predicate Run(s: State, es: seq<Event>, t: State)
    decreases |es|
  {
    if es == [] then s == t
    else Enabled(s, es[0]) && Run(Apply(s, es[0]), es[1..], t)
  }

  // ---- What every step keeps ----

  /** What is held came from a read that asked the very question it is held under. */
  predicate HeldKept(s: State, key: string)
    requires key in s.late
  {
    var h := s.late[key];
    h.of < |s.asked| && KeyOf(s, h.of) == key && s.asked[h.of].stored && h.at <= s.clock
  }

  predicate PhaseKept(read: Read) {
    && (read.stored ==> read.answered && read.overdue)
    && (read.overdue <==> !read.phase.Waiting? && read.phase != Shown(Own))
  }

  predicate ReadKept(s: State, r: nat)
    requires r < |s.asked|
  {
    var read := s.asked[r];
    && Askable(read.question) && PhaseKept(read)
    && (read.phase.Shown? && read.phase.source.Late? ==> ShownKept(s, read.question, read.phase.source))
  }

  /** What was handed out answered the same question, was stored, was not old, and is held no more. */
  predicate ShownKept(s: State, q: Question, source: Source)
    requires source.Late?
  {
    && source.of < |s.asked| && s.asked[source.of].question == q && s.asked[source.of].stored
    && 0 <= source.taken - source.at <= LATE_ANSWER_TTL
    && !(LateKey(q) in s.late && s.late[LateKey(q)].of == source.of)
  }

  predicate ShownFrom(s: State, r: nat, of: nat) {
    r < |s.asked| && s.asked[r].phase.Shown? && s.asked[r].phase.source.Late? && s.asked[r].phase.source.of == of
  }

  ghost predicate Inv(s: State) {
    && (forall key | key in s.late :: HeldKept(s, key))
    && (forall r: nat | r < |s.asked| :: ReadKept(s, r))
    && (forall r: nat, m: nat, of: nat | ShownFrom(s, r, of) && ShownFrom(s, m, of) :: r == m)
  }

  lemma AskKeeps(s: State, q: Question)
    requires Inv(s) && Askable(q)
    ensures Inv(Apply(s, Ask(q)))
  {
    var t := Apply(s, Ask(q));
    forall key | key in t.late ensures HeldKept(t, key) {
      assert HeldKept(s, key);
    }
    forall r: nat | r < |t.asked| ensures ReadKept(t, r) {
      if r < |s.asked| { assert ReadKept(s, r); }
    }
    forall r: nat, m: nat, of: nat | ShownFrom(t, r, of) && ShownFrom(t, m, of) ensures r == m {
      assert ShownFrom(s, r, of) && ShownFrom(s, m, of);
    }
  }

  /** A step that hands nothing out: one read moves on, and answers may be dropped. */
  ghost predicate Drops(s: State, t: State) {
    && |t.asked| == |s.asked| && s.clock <= t.clock
    && t.late.Keys <= s.late.Keys && (forall key | key in t.late :: t.late[key] == s.late[key])
    && (forall r: nat | r < |s.asked| :: t.asked[r].question == s.asked[r].question && t.asked[r].stored == s.asked[r].stored
          && (s.asked[r].phase.Shown? ==> t.asked[r].phase == s.asked[r].phase)
          && (t.asked[r].phase.Shown? && t.asked[r].phase.source.Late? ==> s.asked[r].phase.Shown?))
  }

  lemma DropsKeeps(s: State, t: State)
    requires Inv(s) && Drops(s, t)
    requires forall r: nat | r < |t.asked| :: PhaseKept(t.asked[r])
    ensures Inv(t)
  {
    forall key | key in t.late ensures HeldKept(t, key) {
      assert HeldKept(s, key);
    }
    forall r: nat | r < |t.asked| ensures ReadKept(t, r) {
      assert ReadKept(s, r);
    }
    forall r: nat, m: nat, of: nat | ShownFrom(t, r, of) && ShownFrom(t, m, of) ensures r == m {
      assert ShownFrom(s, r, of) && ShownFrom(s, m, of);
    }
  }

  lemma QuietKeeps(s: State, e: Event)
    requires Inv(s) && Enabled(s, e) && (e.Answer? || e.InTime? || e.Budget? || e.Invalidate? || e.Sweep?)
    ensures Inv(Apply(s, e))
  {
    var t := Apply(s, e);
    forall r: nat | r < |t.asked| ensures PhaseKept(t.asked[r]) {
      assert ReadKept(s, r);
    }
    DropsKeeps(s, t);
  }

  lemma StoreKeeps(s: State, r: nat, now: int)
    requires Inv(s) && Enabled(s, Store(r, now))
    ensures Inv(Apply(s, Store(r, now)))
  {
    var t := Apply(s, Store(r, now));
    forall key | key in t.late ensures HeldKept(t, key) {
      if key != KeyOf(s, r) { assert HeldKept(s, key); }
    }
    forall m: nat | m < |t.asked| ensures ReadKept(t, m) {
      assert ReadKept(s, m);
    }
    forall k: nat, m: nat, of: nat | ShownFrom(t, k, of) && ShownFrom(t, m, of) ensures k == m {
      assert ShownFrom(s, k, of) && ShownFrom(s, m, of);
    }
  }

  lemma TakeReadsKept(s: State, r: nat, now: int)
    requires Inv(s) && Enabled(s, Take(r, now))
    ensures forall m: nat | m < |TakeStep(s, r, now).asked| :: ReadKept(TakeStep(s, r, now), m)
  {
    var t := TakeStep(s, r, now);
    var key := KeyOf(s, r);
    if key in s.late {
      assert HeldKept(s, key);
      assert ReadKept(s, s.late[key].of);
      assert ReadKept(s, r);
      LateKeyIdentifies(s.asked[r].question, s.asked[s.late[key].of].question);
    }
    forall m: nat | m < |t.asked| ensures ReadKept(t, m) {
      assert ReadKept(s, m);
    }
  }

  lemma TakeKeeps(s: State, r: nat, now: int)
    requires Inv(s) && Enabled(s, Take(r, now))
    ensures Inv(TakeStep(s, r, now))
  {
    var t := TakeStep(s, r, now);
    TakeReadsKept(s, r, now);
    forall key | key in t.late ensures HeldKept(t, key) {
      assert HeldKept(s, key);
    }
    forall k: nat, m: nat, of: nat | ShownFrom(t, k, of) && ShownFrom(t, m, of) ensures k == m {
      if k != r && m != r {
        assert ShownFrom(s, k, of) && ShownFrom(s, m, of);
      } else if k != r {
        TakenWasNotShown(s, r, now, k, of);
      } else if m != r {
        TakenWasNotShown(s, r, now, m, of);
      }
    }
  }

  /** What is held has been handed to nobody. */
  lemma TakenWasNotShown(s: State, r: nat, now: int, k: nat, of: nat)
    requires Inv(s) && Enabled(s, Take(r, now)) && k != r
    ensures !(ShownFrom(TakeStep(s, r, now), r, of) && ShownFrom(TakeStep(s, r, now), k, of))
  {
    if ShownFrom(s, k, of) {
      assert ReadKept(s, k);
      if KeyOf(s, r) in s.late { assert HeldKept(s, KeyOf(s, r)); }
    }
  }

  /** Every step keeps the invariant. */
  lemma Step(s: State, e: Event)
    requires Inv(s) && Enabled(s, e)
    ensures Inv(Apply(s, e))
  {
    match e
    case Ask(q) => AskKeeps(s, q);
    case Store(r, now) => StoreKeeps(s, r, now);
    case Take(r, now) => TakeKeeps(s, r, now);
    case _ => QuietKeeps(s, e);
  }

  lemma {:induction false} RunKeeps(s: State, es: seq<Event>, t: State)
    requires Inv(s) && Run(s, es, t)
    ensures Inv(t)
    decreases |es|
  {
    if es != [] {
      Step(s, es[0]);
      RunKeeps(Apply(s, es[0]), es[1..], t);
    }
  }

  ghost predicate Reachable(s: State) {
    exists clock, es: seq<Event> :: Run(Init(clock), es, s)
  }

  lemma ReachableInv(s: State)
    requires Reachable(s)
    ensures Inv(s)
  {
    var clock, es: seq<Event> :| Run(Init(clock), es, s);
    RunKeeps(Init(clock), es, s);
  }

  lemma {:induction false} RunExtends(s: State, es: seq<Event>, t: State, e: Event)
    requires Run(s, es, t) && Enabled(t, e)
    ensures Run(s, es + [e], Apply(t, e))
    decreases |es|
  {
    if es == [] {
      assert [e][1..] == [];
    } else {
      RunExtends(Apply(s, es[0]), es[1..], t, e);
      assert (es + [e])[1..] == es[1..] + [e];
    }
  }

  lemma ReachableStep(s: State, e: Event)
    requires Reachable(s) && Enabled(s, e)
    ensures Reachable(Apply(s, e))
  {
    var clock, es: seq<Event> :| Run(Init(clock), es, s);
    RunExtends(Init(clock), es, s, e);
  }

  // ---- What is shown ----

  /** A late answer shown for a question came from a completed read of the same cluster, the
      same read and the same scope, is at most two minutes old, and is shown to one read only. */
  lemma ShownAnswersTheQuestion(s: State, r: nat, of: nat)
    requires Reachable(s) && ShownFrom(s, r, of)
    ensures of < |s.asked| && s.asked[of].question == s.asked[r].question && s.asked[of].answered
    ensures var src := s.asked[r].phase.source; 0 <= src.taken - src.at <= LATE_ANSWER_TTL
    ensures forall m: nat | ShownFrom(s, m, of) :: m == r
  {
    ReachableInv(s);
    assert ReadKept(s, r);
    assert ReadKept(s, of);
  }

  /** A disconnect drops exactly the answers held for its own cluster. */
  lemma InvalidateDropsExactly(s: State, id: ClusterId, key: string)
    requires Reachable(s) && '|' !in id && key in s.late
    ensures s.late[key].of < |s.asked|
    ensures key !in Apply(s, Invalidate(id)).late <==> s.asked[s.late[key].of].question.cluster == id
  {
    ReachableInv(s);
    assert HeldKept(s, key);
    assert ReadKept(s, s.late[key].of);
    PrefixIdentifies(id, s.asked[s.late[key].of].question);
  }

  // ---- Answers that come in after what should have settled the question ----

  /** The questions about one cluster, and the one question. */
  function OfCluster(id: ClusterId): Question -> bool { (q: Question) => q.cluster == id }
  function Being(p: Question): Question -> bool { (q: Question) => q == p }

  /** No answer to such a question from a read begun before `n` is held, or can still be stored. */
  ghost predicate Gone(s: State, such: Question -> bool, n: nat) {
    && n <= |s.asked|
    && NoneHeld(s, such, n)
    && (forall r: nat | r < n && such(s.asked[r].question) :: !s.asked[r].Outstanding())
  }

  ghost predicate NoneHeld(s: State, such: Question -> bool, n: nat) {
    forall key | key in s.late && s.late[key].of < n :: !HeldFor(s, key, such)
  }

  predicate HeldFor(s: State, key: string, such: Question -> bool)
    requires key in s.late
  {
    s.late[key].of < |s.asked| && such(s.asked[s.late[key].of].question)
  }

  /** Some read of such a question, begun since `first`, has been shown an answer from before `n`. */
  ghost predicate ShowsStale(s: State, such: Question -> bool, n: nat, first: nat) {
    exists r: nat, of: nat :: first <= r < |s.asked| && of < n && ShownFrom(s, r, of) && such(s.asked[r].question)
  }

  ghost predicate CanShowStale(s: State, such: Question -> bool, n: nat) {
    exists es: seq<Event>, t :: Run(s, es, t) && ShowsStale(t, such, n, |s.asked|)
  }

  lemma GoneStep(s: State, e: Event, such: Question -> bool, n: nat, first: nat)
    requires Inv(s) && Enabled(s, e) && Gone(s, such, n)
    ensures Gone(Apply(s, e), such, n)
    ensures !ShowsStale(s, such, n, first) ==> !ShowsStale(Apply(s, e), such, n, first)
  {
    var t := Apply(s, e);
    if e.Store? { assert ReadKept(s, e.r); }
    forall key | key in t.late && t.late[key].of < n ensures !HeldFor(t, key, such) {
      if key in s.late && t.late[key] == s.late[key] { assert !HeldFor(s, key, such); }
    }
    if !ShowsStale(s, such, n, first) {
      forall r: nat, of: nat | first <= r < |t.asked| && of < n && ShownFrom(t, r, of) ensures !such(t.asked[r].question) {
        GoneShows(s, e, such, n, first, r, of);
      }
    }
  }

  lemma GoneShows(s: State, e: Event, such: Question -> bool, n: nat, first: nat, r: nat, of: nat)
    requires Inv(s) && Enabled(s, e) && Gone(s, such, n) && !ShowsStale(s, such, n, first)
    requires first <= r < |Apply(s, e).asked| && of < n && ShownFrom(Apply(s, e), r, of)
    ensures !such(Apply(s, e).asked[r].question)
  {
    if r < |s.asked| && !ShownFrom(s, r, of) {
      var key := KeyOf(s, r);
      assert e.Take? && e.r == r && key in s.late && s.late[key].of == of;
      assert HeldKept(s, key) && ReadKept(s, r) && ReadKept(s, of);
      LateKeyIdentifies(s.asked[r].question, s.asked[of].question);
      assert !HeldFor(s, key, such);
    }
  }

  lemma {:induction false} GoneRun(s: State, es: seq<Event>, t: State, such: Question -> bool, n: nat, first: nat)
    requires Inv(s) && Run(s, es, t) && Gone(s, such, n) && !ShowsStale(s, such, n, first)
    ensures !ShowsStale(t, such, n, first)
    decreases |es|
  {
    if es != [] {
      GoneStep(s, es[0], such, n, first);
      Step(s, es[0]);
      GoneRun(Apply(s, es[0]), es[1..], t, such, n, first);
    }
  }

  /** The outstanding read comes in over budget and is stored, and the next read of its
      question, over budget too, is shown it. */
  lemma OutstandingIsShown(s: State, r: nat, such: Question -> bool, n: nat) returns (es: seq<Event>, t: State)
    requires Inv(s) && r < |s.asked| && r < n && s.asked[r].Outstanding() && such(s.asked[r].question)
    ensures Run(s, es, t) && ShowsStale(t, such, n, |s.asked|)
  {
    var q := s.asked[r].question;
    assert ReadKept(s, r);
    var u;
    es, u := Overdue(s, r);
    var m := |u.asked|;
    es, u := Then(s, es, u, Store(r, u.clock));
    es, u := Then(s, es, u, Ask(q));
    es, u := Then(s, es, u, Budget(m));
    es, t := Then(s, es, u, Take(m, u.clock));
    assert KeyOf(u, m) == LateKey(q) && u.late[LateKey(q)] == Held(r, u.clock);
    assert ShownFrom(t, m, r);
  }

  lemma Then(s: State, es: seq<Event>, u: State, e: Event) returns (more: seq<Event>, t: State)
    requires Run(s, es, u) && Enabled(u, e)
    ensures more == es + [e] && t == Apply(u, e) && Run(s, more, t)
  {
    RunExtends(s, es, u, e);
    more, t := es + [e], Apply(u, e);
  }

  lemma Overdue(s: State, r: nat) returns (es: seq<Event>, t: State)
    requires Inv(s) && r < |s.asked| && s.asked[r].Outstanding()
    ensures Run(s, es, t) && |t.asked| == |s.asked| && t.asked[r].question == s.asked[r].question
    ensures t.asked[r].answered && t.asked[r].overdue && !t.asked[r].stored
  {
    assert ReadKept(s, r);
    es, t := [], s;
    if !t.asked[r].answered {
      es, t := Then(s, es, t, Answer(r));
    }
    if t.asked[r].phase.Waiting? {
      es, t := Then(s, es, t, Budget(r));
    }
  }

  /** With nothing held, an answer from before `n` can still be shown to a read yet to begin
      exactly when some read from before `n` is outstanding. */
  lemma StaleExactlyWhen(s: State, such: Question -> bool, n: nat)
    requires Inv(s) && n <= |s.asked| && NoneHeld(s, such, n)
    ensures CanShowStale(s, such, n) <==>
      exists r: nat :: r < n && such(s.asked[r].question) && s.asked[r].Outstanding()
  {
    if r: nat :| r < n && such(s.asked[r].question) && s.asked[r].Outstanding() {
      var es, u := OutstandingIsShown(s, r, such, n);
    } else {
      forall es: seq<Event>, u | Run(s, es, u) ensures !ShowsStale(u, such, n, |s.asked|) {
        GoneRun(s, es, u, such, n, |s.asked|);
      }
    }
  }

  /** A disconnect keeps the old connection's answers off the new one's rows exactly when no
      read of the cluster is outstanding: one that is can still store its answer, and have it
      shown to a read begun afterwards. */
  lemma DisconnectHoldsExactlyWhen(s: State, id: ClusterId)
    requires Reachable(s) && '|' !in id
    ensures CanShowStale(Apply(s, Invalidate(id)), OfCluster(id), |s.asked|) <==>
      exists r: nat :: r < |s.asked| && s.asked[r].question.cluster == id && s.asked[r].Outstanding()
  {
    ReachableInv(s);
    var t := Apply(s, Invalidate(id));
    Step(s, Invalidate(id));
    forall key | key in t.late ensures !HeldFor(t, key, OfCluster(id)) {
      InvalidateDropsExactly(s, id, key);
    }
    StaleExactlyWhen(t, OfCluster(id), |s.asked|);
  }

  /** An answer in time is the last word on its question exactly when no earlier read of the
      question is outstanding: one that is can still store its older answer, after this one
      cleared the key, and have it shown to a read begun afterwards. */
  lemma InTimeHoldsExactlyWhen(s: State, r: nat)
    requires Reachable(s) && Enabled(s, InTime(r))
    ensures CanShowStale(Apply(s, InTime(r)), Being(s.asked[r].question), r) <==>
      exists m: nat :: m < r && s.asked[m].question == s.asked[r].question && s.asked[m].Outstanding()
  {
    ReachableInv(s);
    var t := Apply(s, InTime(r));
    Step(s, InTime(r));
    forall key | key in t.late ensures !HeldFor(t, key, Being(s.asked[r].question)) {
      assert HeldKept(t, key);
    }
    StaleExactlyWhen(t, Being(s.asked[r].question), r);
    assert forall m: nat | m < r :: t.asked[m] == s.asked[m];
  }
}
