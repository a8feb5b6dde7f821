/** Reducing a cluster's samples to what a chart can draw (app/domain/history.go). Go's integer
    division truncates towards zero, so the means are bounded with that division. The program
    rounds the boundaries between buckets in binary floating point; here they are rounded by any
    function, and what holds for which rounding is what is proved. */
module History {
  import opened Ordering

  /** Go's integer division, which truncates towards zero. */
  function Quotient(a: int, n: nat): int
    requires n > 0
  {
    if a >= 0 then a / n else -((-a) / n)
  }

  lemma Scaled(n: nat, x: int, y: int)
    requires x <= y
    ensures n * x <= n * y
  {
  }

  lemma Division(a: nat, n: nat)
    requires n > 0
    ensures n * (a / n) <= a < n * (a / n) + n
  {
    assert a == n * (a / n) + a % n;
  }

  /** Rounding down is the only whole number within reach. */
  lemma DivisionIs(a: nat, n: nat, q: int)
    requires n > 0 && n * q <= a < n * q + n
    ensures a / n == q
  {
    Division(a, n);
    if q < a / n { Scaled(n, q + 1, a / n); }
    if a / n < q { Scaled(n, a / n + 1, q); }
  }

  lemma DivisionBetween(a: nat, n: nat, lo: int, hi: int)
    requires n > 0 && n * lo <= a <= n * hi
    ensures lo <= a / n <= hi
  {
    Division(a, n);
    if hi < a / n { Scaled(n, hi + 1, a / n); }
    if a / n < lo { Scaled(n, a / n + 1, lo); }
  }

  lemma QuotientBetween(a: int, n: nat, lo: int, hi: int)
    requires n > 0 && n * lo <= a <= n * hi
    ensures lo <= Quotient(a, n) <= hi
  {
    if a >= 0 {
      DivisionBetween(a, n, lo, hi);
    } else {
      assert n * (-hi) == -(n * hi) && n * (-lo) == -(n * lo);
      DivisionBetween(-a, n, -hi, -lo);
    }
  }

  lemma DivisionMonotone(a: nat, b: nat, n: nat)
    requires n > 0 && a <= b
    ensures a / n <= b / n
  {
    Division(a, n);
    Division(b, n);
    if b / n < a / n { Scaled(n, b / n + 1, a / n); }
  }

  lemma QuotientSign(a: int, n: nat)
    requires n > 0
    ensures a >= 0 ==> Quotient(a, n) >= 0
    ensures a < 0 ==> Quotient(a, n) <= 0
  {
    if a >= 0 {
      Division(a, n);
      if a / n < 0 { Scaled(n, a / n, -1); }
    } else {
      Division(-a, n);
      if (-a) / n < 0 { Scaled(n, (-a) / n, -1); }
    }
  }

  lemma QuotientMonotone(a: int, b: int, n: nat)
    requires n > 0 && a <= b
    ensures Quotient(a, n) <= Quotient(b, n)
  {
    if a >= 0 {
      DivisionMonotone(a, b, n);
    } else if b < 0 {
      DivisionMonotone(-b, -a, n);
    } else {
      QuotientSign(a, n);
      QuotientSign(b, n);
    }
  }

  datatype Figures = Figures(cpuRequests: int, cpuAllocatable: int, memoryRequests: int, memoryAlloc: int,
                             podsScheduled: int, podsNotReady: int, nodesReady: int, nodesTotal: int)

  datatype Usage = Usage(cpu: int, memory: int)

  datatype Sample = Sample(at: int, figures: Figures, measured: bool, usage: Usage)

  const NO_FIGURES := Figures(0, 0, 0, 0, 0, 0, 0, 0)
  const NO_USAGE := Usage(0, 0)

  function Plus(a: Figures, b: Figures): Figures {
    Figures(a.cpuRequests + b.cpuRequests, a.cpuAllocatable + b.cpuAllocatable, a.memoryRequests + b.memoryRequests,
            a.memoryAlloc + b.memoryAlloc, a.podsScheduled + b.podsScheduled, a.podsNotReady + b.podsNotReady,
            a.nodesReady + b.nodesReady, a.nodesTotal + b.nodesTotal)
  }

  function Divided(a: Figures, n: nat): Figures
    requires n > 0
  {
    Figures(Quotient(a.cpuRequests, n), Quotient(a.cpuAllocatable, n), Quotient(a.memoryRequests, n),
            Quotient(a.memoryAlloc, n), Quotient(a.podsScheduled, n), Quotient(a.podsNotReady, n),
            Quotient(a.nodesReady, n), Quotient(a.nodesTotal, n))
  }

  function Times(a: Figures, n: nat): Figures {
    Figures(n * a.cpuRequests, n * a.cpuAllocatable, n * a.memoryRequests, n * a.memoryAlloc, n * a.podsScheduled,
            n * a.podsNotReady, n * a.nodesReady, n * a.nodesTotal)
  }

  /** Field by field. */
  predicate AtMost(a: Figures, b: Figures) {
    && a.cpuRequests <= b.cpuRequests && a.cpuAllocatable <= b.cpuAllocatable && a.memoryRequests <= b.memoryRequests
    && a.memoryAlloc <= b.memoryAlloc && a.podsScheduled <= b.podsScheduled && a.podsNotReady <= b.podsNotReady
    && a.nodesReady <= b.nodesReady && a.nodesTotal <= b.nodesTotal
  }

  predicate UsageAtMost(a: Usage, b: Usage) { a.cpu <= b.cpu && a.memory <= b.memory }

  function Total(run: seq<Sample>): Figures {
    if run == [] then NO_FIGURES else Plus(Total(run[..|run| - 1]), run[|run| - 1].figures)
  }

  function Measured(run: seq<Sample>): nat {
    if run == [] then 0 else Measured(run[..|run| - 1]) + if run[|run| - 1].measured then 1 else 0
  }

  function Used(run: seq<Sample>): Usage {
    if run == [] then NO_USAGE
    else
      var before, last := Used(run[..|run| - 1]), run[|run| - 1];
      if last.measured then Usage(before.cpu + last.usage.cpu, before.memory + last.usage.memory) else before
  }

  /** The mean of a run of samples, at the moment of its last. */
  function Mean(run: seq<Sample>): Sample
    requires run != []
  {
    var n := Measured(run);
    Sample(run[|run| - 1].at, Divided(Total(run), |run|), n > 0,
           if n > 0 then Usage(Quotient(Used(run).cpu, n), Quotient(Used(run).memory, n)) else NO_USAGE)
  }

  /** A run has measured usage exactly when some sample of it does. */
  lemma {:induction false} SomeMeasured(run: seq<Sample>)
    ensures Measured(run) > 0 <==> exists s :: s in run && s.measured
  {
    if run != [] {
      var before, last := run[..|run| - 1], run[|run| - 1];
      assert run == before + [last];
      SomeMeasured(before);
    }
  }

  method Average(run: seq<Sample>) returns (mean: Sample)
    requires run != []
    ensures mean == Mean(run)
    ensures mean.measured <==> exists s :: s in run && s.measured
  {
    SomeMeasured(run);
    var total, used, measured: nat := NO_FIGURES, NO_USAGE, 0;
    for i := 0 to |run|
      invariant total == Total(run[..i]) && used == Used(run[..i]) && measured == Measured(run[..i])
    {
      assert run[..i + 1][..i] == run[..i];
      total := Plus(total, run[i].figures);
      if run[i].measured {
        used := Usage(used.cpu + run[i].usage.cpu, used.memory + run[i].usage.memory);
        measured := measured + 1;
      }
    }
    assert run[..|run|] == run;
    mean := Sample(run[|run| - 1].at, Divided(total, |run|), measured > 0, NO_USAGE);
    if measured > 0 {
      mean := mean.(usage := Usage(Quotient(used.cpu, measured), Quotient(used.memory, measured)));
    }
  }

  lemma {:induction false} TotalBetween(run: seq<Sample>, lo: Figures, hi: Figures)
    requires forall s | s in run :: AtMost(lo, s.figures) && AtMost(s.figures, hi)
    ensures AtMost(Times(lo, |run|), Total(run)) && AtMost(Total(run), Times(hi, |run|))
  {
    if run != [] {
      var before, last := run[..|run| - 1], run[|run| - 1];
      assert forall s | s in before :: s in run;
      assert last in run;
      TotalBetween(before, lo, hi);
      TimesNext(lo, |before|);
      TimesNext(hi, |before|);
    }
  }

  lemma TimesNext(a: Figures, n: nat)
    ensures Times(a, n + 1) == Plus(Times(a, n), a)
  {
  }

  /** Each averaged figure lies between the least and the greatest of its bucket. */
  lemma MeanBetween(run: seq<Sample>, lo: Figures, hi: Figures)
    requires run != [] && forall s | s in run :: AtMost(lo, s.figures) && AtMost(s.figures, hi)
    ensures AtMost(lo, Mean(run).figures) && AtMost(Mean(run).figures, hi)
  {
    TotalBetween(run, lo, hi);
    DividedBetween(Total(run), |run|, lo, hi);
  }

  lemma DividedBetween(a: Figures, n: nat, lo: Figures, hi: Figures)
    requires n > 0 && AtMost(Times(lo, n), a) && AtMost(a, Times(hi, n))
    ensures AtMost(lo, Divided(a, n)) && AtMost(Divided(a, n), hi)
  {
    QuotientBetween(a.cpuRequests, n, lo.cpuRequests, hi.cpuRequests);
    QuotientBetween(a.cpuAllocatable, n, lo.cpuAllocatable, hi.cpuAllocatable);
    QuotientBetween(a.memoryRequests, n, lo.memoryRequests, hi.memoryRequests);
    QuotientBetween(a.memoryAlloc, n, lo.memoryAlloc, hi.memoryAlloc);
    QuotientBetween(a.podsScheduled, n, lo.podsScheduled, hi.podsScheduled);
    QuotientBetween(a.podsNotReady, n, lo.podsNotReady, hi.podsNotReady);
    QuotientBetween(a.nodesReady, n, lo.nodesReady, hi.nodesReady);
    QuotientBetween(a.nodesTotal, n, lo.nodesTotal, hi.nodesTotal);
  }

  lemma {:induction false} UsedBetween(run: seq<Sample>, lo: Usage, hi: Usage)
    requires forall s | s in run && s.measured :: UsageAtMost(lo, s.usage) && UsageAtMost(s.usage, hi)
    ensures var n := Measured(run);
      && n * lo.cpu <= Used(run).cpu <= n * hi.cpu && n * lo.memory <= Used(run).memory <= n * hi.memory
  {
    if run != [] {
      var before, last := run[..|run| - 1], run[|run| - 1];
      assert forall s | s in before :: s in run;
      assert last in run;
      UsedBetween(before, lo, hi);
      if last.measured {
        OneMore(Measured(before), lo.cpu, Used(before).cpu, hi.cpu, last.usage.cpu);
        OneMore(Measured(before), lo.memory, Used(before).memory, hi.memory, last.usage.memory);
      }
    }
  }

  lemma OneMore(n: nat, lo: int, total: int, hi: int, x: int)
    requires n * lo <= total <= n * hi && lo <= x <= hi
    ensures (n + 1) * lo <= total + x <= (n + 1) * hi
  {
  }

  /** Usage lies between the least and the greatest of the samples that measured it, however
      many did not. */
  lemma MeanUsageBetween(run: seq<Sample>, lo: Usage, hi: Usage)
    requires exists s :: s in run && s.measured
    requires forall s | s in run && s.measured :: UsageAtMost(lo, s.usage) && UsageAtMost(s.usage, hi)
    ensures Mean(run).measured && UsageAtMost(lo, Mean(run).usage) && UsageAtMost(Mean(run).usage, hi)
  {
    SomeMeasured(run);
    UsedBetween(run, lo, hi);
    QuotientBetween(Used(run).cpu, Measured(run), lo.cpu, hi.cpu);
    QuotientBetween(Used(run).memory, Measured(run), lo.memory, hi.memory);
  }

  lemma {:induction false} TotalNodes(run: seq<Sample>)
    requires forall s | s in run :: s.figures.nodesReady <= s.figures.nodesTotal
    ensures Total(run).nodesReady <= Total(run).nodesTotal
  {
    if run != [] {
      assert forall s | s in run[..|run| - 1] :: s in run;
      assert run[|run| - 1] in run;
      TotalNodes(run[..|run| - 1]);
    }
  }

  /** Averaging never reports more nodes ready than there are. */
  lemma MeanNodes(run: seq<Sample>)
    requires run != [] && forall s | s in run :: s.figures.nodesReady <= s.figures.nodesTotal
    ensures Mean(run).figures.nodesReady <= Mean(run).figures.nodesTotal
  {
    TotalNodes(run);
    QuotientMonotone(Total(run).nodesReady, Total(run).nodesTotal, |run|);
  }

  // ---- Buckets ----

  /** The boundaries between the buckets, as `edge` rounds them. */
  function Cuts(edge: nat -> nat, limit: nat): (cuts: seq<nat>)
    ensures |cuts| == limit + 1 && forall i | 0 <= i <= limit :: cuts[i] == edge(i)
  {
    seq(limit + 1, i requires 0 <= i <= limit => edge(i))
  }

  function Part(i: nat, length: nat, limit: nat): nat
    requires limit > 0
  {
    i * length / limit
  }

  /** The parts of the length, rounded down: what binary floating point comes close to. */
  function Exact(length: nat, limit: nat): nat -> nat
    requires limit > 0
  {
    (i: nat) => Part(i, length, limit)
  }

  ghost predicate Rising(cuts: seq<nat>) {
    && cuts != [] && cuts[0] == 0
    && forall i, j | 0 <= i <= j < |cuts| :: cuts[i] <= cuts[j]
  }

  function End(cut: nat, length: nat): nat {
    if cut <= length then cut else length
  }

  /** One bucket, left out when it would be empty. */
  function Bucket(s: seq<Sample>, start: nat, cut: nat): (r: seq<seq<Sample>>)
    ensures forall i | 0 <= i < |r| :: r[i] != []
  {
    if start >= End(cut, |s|) then [] else [s[start..End(cut, |s|)]]
  }

  /** The non-empty buckets among the first `n`. */
  function Buckets(s: seq<Sample>, cuts: seq<nat>, n: nat): (r: seq<seq<Sample>>)
    requires n < |cuts|
    ensures forall i | 0 <= i < |r| :: r[i] != []
  {
    if n == 0 then [] else Buckets(s, cuts, n - 1) + Bucket(s, cuts[n - 1], cuts[n])
  }

  function Joined(buckets: seq<seq<Sample>>): seq<Sample> {
    if buckets == [] then [] else Joined(buckets[..|buckets| - 1]) + buckets[|buckets| - 1]
  }

  function Means(buckets: seq<seq<Sample>>): (r: seq<Sample>)
    requires forall i | 0 <= i < |buckets| :: buckets[i] != []
    ensures |r| == |buckets| && forall i | 0 <= i < |r| :: r[i] == Mean(buckets[i])
  {
    seq(|buckets|, i requires 0 <= i < |buckets| => Mean(buckets[i]))
  }

  /** What one more bucket adds to what the buckets before it hold. */
  lemma BucketFollows(s: seq<Sample>, before: seq<seq<Sample>>, start: nat, cut: nat)
    requires start <= cut && Joined(before) == s[..End(start, |s|)]
    ensures Joined(before + Bucket(s, start, cut)) == s[..End(cut, |s|)]
  {
    var end := End(cut, |s|);
    if start >= end {
      assert before + [] == before;
    } else {
      assert s[..start] + s[start..end] == s[..end];
    }
  }

  /** Whatever rising boundaries are used, the buckets follow each other without gap or
      overlap and hold, in order, every sample up to the last boundary. */
  lemma {:induction false} BucketsFollow(s: seq<Sample>, cuts: seq<nat>, n: nat)
    requires Rising(cuts) && n < |cuts|
    ensures Joined(Buckets(s, cuts, n)) == s[..End(cuts[n], |s|)]
  {
    if n > 0 {
      BucketsFollow(s, cuts, n - 1);
      BucketFollows(s, Buckets(s, cuts, n - 1), cuts[n - 1], cuts[n]);
    }
  }

  /** Exactly when: rising boundaries leave no sample out if and only if the last one does not
      fall short of the series. */
  lemma EverySampleExactlyWhen(s: seq<Sample>, cuts: seq<nat>)
    requires Rising(cuts)
    ensures Joined(Buckets(s, cuts, |cuts| - 1)) == s <==> cuts[|cuts| - 1] >= |s|
  {
    BucketsFollow(s, cuts, |cuts| - 1);
    assert s[..|s|] == s;
  }

  method Downsample(s: seq<Sample>, limit: int, edge: nat -> nat) returns (r: seq<Sample>)
    ensures limit <= 0 || |s| <= limit ==> r == s
    ensures 0 < limit < |s| ==> r == Means(Buckets(s, Cuts(edge, limit), limit))
  {
    if limit <= 0 || |s| <= limit {
      return s;
    }
    r := [];
    ghost var cuts := Cuts(edge, limit);
    for i := 0 to limit
      invariant r == Means(Buckets(s, cuts, i))
    {
      var start, cut := edge(i), edge(i + 1);
      assert start == cuts[i] && cut == cuts[i + 1];
      var end := if cut <= |s| then cut else |s|;
      if start >= end {
        continue;
      }
      var mean := Average(s[start..end]);
      r := r + [mean];
    }
  }

  lemma ExactRises(length: nat, limit: nat)
    requires limit > 0
    ensures Rising(Cuts(Exact(length, limit), limit)) && Exact(length, limit)(limit) == length
  {
    var cuts := Cuts(Exact(length, limit), limit);
    forall i, j | 0 <= i <= j <= limit ensures cuts[i] <= cuts[j] {
      Scaled(length, i, j);
      DivisionMonotone(i * length, j * length, limit);
    }
    DivisionIs(limit * length, limit, length);
    DivisionIs(0, limit, 0);
  }

  /** With more samples than buckets, every bucket has a sample. */
  lemma PartsApart(length: nat, limit: nat, i: nat)
    requires 0 < limit <= length
    ensures Part(i, length, limit) < Part(i + 1, length, limit)
  {
    var a, b := i * length, (i + 1) * length;
    assert b == a + length;
    Division(a, limit);
    Division(b, limit);
    if b / limit <= a / limit { Scaled(limit, b / limit, a / limit); }
  }

  predicate InOrder(s: seq<Sample>) { forall i, j | 0 <= i < j < |s| :: s[i].at <= s[j].at }

  /** No bucket between the boundaries is empty. */
  ghost predicate Apart(cuts: seq<nat>, n: nat, length: nat)
    requires n < |cuts|
  {
    forall i | 0 <= i < n :: cuts[i] < End(cuts[i + 1], length)
  }

  lemma InOrderNext(r: seq<Sample>, mean: Sample)
    requires InOrder(r) && (r != [] ==> r[|r| - 1].at <= mean.at)
    ensures InOrder(r + [mean])
  {
    forall i | 0 <= i < |r| ensures r[i].at <= mean.at {
      assert r[i].at <= r[|r| - 1].at;
    }
  }

  /** The means of the buckets up to the `n`-th boundary end when the last sample before it was
      taken, keep the order of time, and are as many as the buckets exactly when none is empty. */
  ghost predicate Follow(s: seq<Sample>, cuts: seq<nat>, n: nat, r: seq<Sample>)
    requires n < |cuts|
  {
    var end := End(cuts[n], |s|);
    && (if end == 0 then r == [] else r != [] && r[|r| - 1].at == s[end - 1].at)
    && (InOrder(s) ==> InOrder(r))
    && |r| <= n && (|r| == n <==> Apart(cuts, n, |s|))
  }

  lemma FollowNext(s: seq<Sample>, cuts: seq<nat>, n: nat, r: seq<Sample>)
    requires Rising(cuts) && n + 1 < |cuts| && Follow(s, cuts, n, r) && cuts[n] < End(cuts[n + 1], |s|)
    ensures Follow(s, cuts, n + 1, r + [Mean(s[cuts[n]..End(cuts[n + 1], |s|)])])
  {
    var mean := Mean(s[cuts[n]..End(cuts[n + 1], |s|)]);
    assert mean.at == s[End(cuts[n + 1], |s|) - 1].at;
    assert Apart(cuts, n + 1, |s|) <==> Apart(cuts, n, |s|);
    if InOrder(s) { InOrderNext(r, mean); }
  }

  lemma FollowSkip(s: seq<Sample>, cuts: seq<nat>, n: nat, r: seq<Sample>)
    requires Rising(cuts) && n + 1 < |cuts| && Follow(s, cuts, n, r) && cuts[n] >= End(cuts[n + 1], |s|)
    ensures Follow(s, cuts, n + 1, r)
  {
    assert cuts[n] <= cuts[n + 1];
    assert !Apart(cuts, n + 1, |s|);
  }

  lemma MeansNext(buckets: seq<seq<Sample>>, b: seq<Sample>)
    requires b != [] && forall i | 0 <= i < |buckets| :: buckets[i] != []
    ensures Means(buckets + [b]) == Means(buckets) + [Mean(b)]
  {
  }

  lemma BucketsNext(s: seq<Sample>, cuts: seq<nat>, n: nat)
    requires n + 1 < |cuts|
    ensures Buckets(s, cuts, n + 1) == if cuts[n] < End(cuts[n + 1], |s|)
                                       then Buckets(s, cuts, n) + [s[cuts[n]..End(cuts[n + 1], |s|)]]
                                       else Buckets(s, cuts, n)
  {
  }

  lemma {:induction false} MeansFollow(s: seq<Sample>, cuts: seq<nat>, n: nat)
    requires Rising(cuts) && n < |cuts|
    ensures Follow(s, cuts, n, Means(Buckets(s, cuts, n)))
  {
    if n > 0 {
      var m := n - 1;
      MeansFollow(s, cuts, m);
      BucketsNext(s, cuts, m);
      if cuts[m] < End(cuts[m + 1], |s|) {
        FollowNext(s, cuts, m, Means(Buckets(s, cuts, m)));
        MeansNext(Buckets(s, cuts, m), s[cuts[m]..End(cuts[m + 1], |s|)]);
      } else {
        FollowSkip(s, cuts, m, Means(Buckets(s, cuts, m)));
      }
    }
  }

  /** However the boundaries are rounded, as long as they rise: the series keeps its order of
      time, every sample is in a bucket exactly when the last boundary does not fall short, and
      there are as many points as asked for exactly when no two boundaries meet. */
  lemma DownsampleExactlyWhen(s: seq<Sample>, limit: nat, edge: nat -> nat)
    requires 0 < limit < |s| && Rising(Cuts(edge, limit))
    ensures var cuts := Cuts(edge, limit); var buckets := Buckets(s, cuts, limit); var r := Means(buckets);
      && (Joined(buckets) == s <==> edge(limit) >= |s|)
      && (|r| == limit <==> Apart(cuts, limit, |s|)) && |r| <= limit
      && (InOrder(s) ==> InOrder(r))
  {
    var cuts := Cuts(edge, limit);
    EverySampleExactlyWhen(s, cuts);
    MeansFollow(s, cuts, limit);
  }

  /** With exact boundaries, downsampling cuts the series into exactly as many runs as asked
      for, none empty, one after the other, every sample in one of them; it keeps the order of
      time and ends at the moment the series ends. */
  lemma DownsamplePartitions(s: seq<Sample>, limit: nat)
    requires 0 < limit < |s|
    ensures var buckets := Buckets(s, Cuts(Exact(|s|, limit), limit), limit); var r := Means(buckets);
      && |r| == limit && Joined(buckets) == s
      && r[limit - 1].at == s[|s| - 1].at
      && (InOrder(s) ==> InOrder(r))
  {
    var cuts := Cuts(Exact(|s|, limit), limit);
    ExactRises(|s|, limit);
    EverySampleExactlyWhen(s, cuts);
    MeansFollow(s, cuts, limit);
    forall i | 0 <= i < limit ensures cuts[i] < End(cuts[i + 1], |s|) {
      PartsApart(|s|, limit, i);
      assert cuts[i + 1] <= cuts[limit];
    }
  }
}
