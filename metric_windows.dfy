/**
 * The dashboard's per-metric sample windows and rolling-baseline series, as
 * the pure updater closures that `push_stat` and the `init_stats` branch of
 * the message handler hand to React's state setters.
 */
module MetricWindows {
  import opened Wrappers
  import opened Seqs
  import opened Telemetry

  /** Samples older than this many seconds are dropped from a window. */
  const Retention: real := 600.0
  /** A window and a baseline series keep at most this many entries. */
  const MaxSamples: nat := 600

  /** One baseline point: the rolling mean recorded when a sample arrived. */
  datatype Point = Point(timestamp: real, value: real)

  predicate IsFresh(s: Stat, now: real)
  {
    now - s.timestamp <= Retention
  }

  function FreshAt(now: real): Stat -> bool
  {
    s => IsFresh(s, now)
  }

  /**
   * The window after admitting `s` at wall-clock time `now`: append, keep
   * the samples whose age is at most 600 s, then keep the last 600.
   */
  function Admit(prev: seq<Stat>, s: Stat, now: real): seq<Stat>
  {
    LastN(Filter(prev + [s], FreshAt(now)), MaxSamples)
  }

  /**
   * After admission the window holds at most 600 samples, none older than
   * 600 s, all of them from the old window or the new sample: the newest
   * 600 fresh ones of `prev + [s]` (all of them if there are fewer), in
   * order; a fresh `s` is the newest entry.
   */
  lemma AdmitSpec(prev: seq<Stat>, s: Stat, now: real)
    ensures var r := Admit(prev, s, now);
      && |r| <= MaxSamples
      && (forall i :: 0 <= i < |r| ==> now - r[i].timestamp <= Retention)
      && (forall x :: x in r ==> x in prev || x == s)
      && (IsFresh(s, now) ==> r != [] && r[|r| - 1] == s)
      && var kept := Filter(prev + [s], FreshAt(now));
         |r| == (if |kept| < MaxSamples then |kept| else MaxSamples) && r == kept[|kept| - |r|..]
  {
    var kept := Filter(prev + [s], FreshAt(now));
    FilterAllKept(prev + [s], FreshAt(now));
    forall x | x in LastN(kept, MaxSamples) ensures x in prev || x == s {
      FilterMembership(prev + [s], FreshAt(now), x);
    }
    assert (prev + [s])[..|prev + [s]| - 1] == prev;
  }

  /** The window keeps arrival order: it is a subsequence of the old window followed by the new sample. */
  lemma AdmitKeepsArrivalOrder(prev: seq<Stat>, s: Stat, now: real)
    ensures IsSubsequence(Admit(prev, s, now), prev + [s])
  {
    var kept := Filter(prev + [s], FreshAt(now));
    FilterIsSubsequence(prev + [s], FreshAt(now));
    SuffixOfSubsequence(kept, prev + [s], |kept| - |Admit(prev, s, now)|);
  }

  lemma {:induction false} SuffixOfSubsequence<T>(a: seq<T>, b: seq<T>, k: nat)
    requires k <= |a| && IsSubsequence(a, b)
    ensures IsSubsequence(a[k..], b)
    decreases |b|
  {
    if k < |a| {
      var a', b' := a[..|a| - 1], b[..|b| - 1];
      assert a[k..][..|a[k..]| - 1] == a'[k..];
      if a[|a| - 1] == b[|b| - 1] {
        SuffixOfSubsequence(a', b', k);
      } else {
        SuffixOfSubsequence(a, b', k);
      }
    }
  }

  /**
   * In the steady state (every old sample still fresh, room left, the new
   * sample fresh) admission is a plain append.
   */
  lemma AdmitAppends(prev: seq<Stat>, s: Stat, now: real)
    requires forall i :: 0 <= i < |prev| ==> IsFresh(prev[i], now)
    requires |prev| < MaxSamples && IsFresh(s, now)
    ensures Admit(prev, s, now) == prev + [s]
  {
    AllFreshFilter(prev + [s], now);
  }

  lemma {:induction false} AllFreshFilter(xs: seq<Stat>, now: real)
    requires forall i :: 0 <= i < |xs| ==> IsFresh(xs[i], now)
    ensures Filter(xs, FreshAt(now)) == xs
  {
    if xs != [] {
      AllFreshFilter(xs[..|xs| - 1], now);
    }
  }

  /** A sample older than 600 s at admission time never enters the window. */
  lemma StaleSampleIsNotRetained(prev: seq<Stat>, s: Stat, now: real)
    requires now - s.timestamp > Retention
    ensures s !in Admit(prev, s, now)
  {
    AdmitSpec(prev, s, now);
  }

  /** The window after a batch of samples of its metric, admitted one after another. */
  function AdmitAll(w: seq<Stat>, batch: seq<Stat>, now: real): seq<Stat>
  {
    if batch == [] then w else Admit(AdmitAll(w, batch[..|batch| - 1], now), batch[|batch| - 1], now)
  }

  lemma AdmitAllSnoc(w: seq<Stat>, xs: seq<Stat>, x: Stat, now: real)
    ensures AdmitAll(w, xs + [x], now) == Admit(AdmitAll(w, xs, now), x, now)
  {
    assert (xs + [x])[..|xs + [x]| - 1] == xs;
  }

  lemma {:induction false} AdmitAllAppend(w: seq<Stat>, xs: seq<Stat>, ys: seq<Stat>, now: real)
    ensures AdmitAll(w, xs + ys, now) == AdmitAll(AdmitAll(w, xs, now), ys, now)
    decreases |ys|
  {
    if ys == [] {
      assert xs + ys == xs;
    } else {
      assert (xs + ys)[..|xs + ys| - 1] == xs + ys[..|ys| - 1];
      AdmitAllAppend(w, xs, ys[..|ys| - 1], now);
    }
  }

  function Values(w: seq<Stat>): (r: seq<real>)
    ensures |r| == |w| && forall i :: 0 <= i < |w| ==> r[i] == w[i].value
  {
    if w == [] then [] else Values(w[..|w| - 1]) + [w[|w| - 1].value]
  }

  /**
   * The baseline point recorded for `s`: the mean of the values of the window
   * as it was when the updater closure was created (`render`), plus `s.value`.
   * The closure falls back to `s.value` when that list is empty, which it never is.
   */
  function BaselinePoint(s: Stat, render: seq<Stat>): Point
  {
    var all := Values(render) + [s.value];
    Point(s.timestamp, if |all| > 0 then Mean(all) else s.value)
  }

  /** The baseline series after one sample: append its point, keep the last 600; never filtered by age. */
  function NextBaseline(prev: seq<Point>, s: Stat, render: seq<Stat>): seq<Point>
  {
    LastN(prev + [BaselinePoint(s, render)], MaxSamples)
  }

  /**
   * One sample adds exactly one point, its own, at the end; the older points
   * are the newest of the previous series, and the series stays within 600.
   */
  lemma NextBaselineSpec(prev: seq<Point>, s: Stat, render: seq<Stat>)
    ensures var r := NextBaseline(prev, s, render);
      && |r| <= MaxSamples && r != []
      && r[|r| - 1] == BaselinePoint(s, render)
      && (|prev| < MaxSamples ==> r == prev + [BaselinePoint(s, render)])
      && r[..|r| - 1] == prev[|prev| - (|r| - 1)..]
  {
    var r := NextBaseline(prev, s, render);
    assert r[..|r| - 1] == prev[|prev| - (|r| - 1)..];
  }

  /** The baseline series after a batch of samples whose closures all captured the same `render` window. */
  function ExtendBaseline(b: seq<Point>, batch: seq<Stat>, render: seq<Stat>): seq<Point>
  {
    if batch == [] then b else NextBaseline(ExtendBaseline(b, batch[..|batch| - 1], render), batch[|batch| - 1], render)
  }

  lemma ExtendBaselineSnoc(b: seq<Point>, xs: seq<Stat>, x: Stat, render: seq<Stat>)
    ensures ExtendBaseline(b, xs + [x], render) == NextBaseline(ExtendBaseline(b, xs, render), x, render)
  {
    assert (xs + [x])[..|xs + [x]| - 1] == xs;
  }

  lemma {:induction false} ExtendBaselineAppend(b: seq<Point>, xs: seq<Stat>, ys: seq<Stat>, render: seq<Stat>)
    ensures ExtendBaseline(b, xs + ys, render) == ExtendBaseline(ExtendBaseline(b, xs, render), ys, render)
    decreases |ys|
  {
    if ys == [] {
      assert xs + ys == xs;
    } else {
      assert (xs + ys)[..|xs + ys| - 1] == xs + ys[..|ys| - 1];
      ExtendBaselineAppend(b, xs, ys[..|ys| - 1], render);
    }
  }

  /** With an empty captured window the baseline point is the sample's own value. */
  lemma BaselineOfEmptyWindow(s: Stat)
    ensures BaselinePoint(s, []).value == s.value
  {
    assert Values([]) + [s.value] == [s.value];
    assert [s.value][..0] == [];
    assert Sum([s.value]) == s.value;
  }

  /** The baseline value stays within any range holding the captured values and the new value. */
  lemma BaselineWithinRange(s: Stat, render: seq<Stat>, lo: real, hi: real)
    requires lo <= s.value <= hi
    requires forall i :: 0 <= i < |render| ==> lo <= render[i].value <= hi
    ensures lo <= BaselinePoint(s, render).value <= hi
  {
    MeanBounds(Values(render) + [s.value], lo, hi);
  }

  /** Samples that are all fresh, admitted below capacity, are all kept in arrival order. */
  lemma {:induction false} FreshSamplesAllKept(w: seq<Stat>, xs: seq<Stat>, now: real)
    requires forall i :: 0 <= i < |w| ==> IsFresh(w[i], now)
    requires forall i :: 0 <= i < |xs| ==> IsFresh(xs[i], now)
    requires |w| + |xs| <= MaxSamples
    ensures AdmitAll(w, xs, now) == w + xs
    decreases |xs|
  {
    if xs != [] {
      var init, last := xs[..|xs| - 1], xs[|xs| - 1];
      FreshSamplesAllKept(w, init, now);
      assert forall i :: 0 <= i < |w + init| ==> IsFresh((w + init)[i], now);
      AdmitAppends(w + init, last, now);
      assert w + init + [last] == w + xs;
    }
  }

  /** Samples 10, 20, 30 at t = 0, 1, 2, observed at t = 2: the window keeps all three, in order. */
  lemma ThreeSampleWindow(s1: Stat, s2: Stat, s3: Stat)
    requires s1 == Stat(IcmpMetric, 0.0, 10.0) && s2 == Stat(IcmpMetric, 1.0, 20.0) && s3 == Stat(IcmpMetric, 2.0, 30.0)
    ensures AdmitAll([], [s1, s2, s3], 2.0) == [s1, s2, s3]
  {
    var xs := [s1, s2, s3];
    assert IsFresh(xs[0], 2.0) && IsFresh(xs[1], 2.0) && IsFresh(xs[2], 2.0);
    FreshSamplesAllKept([], xs, 2.0);
    assert [] + xs == xs;
  }

  /**
   * The same three samples, each arriving after the previous one was
   * rendered (so the captured window is up to date): the baseline reads
   * 10, 15, 20.
   */
  lemma ThreeSampleBaseline(s1: Stat, s2: Stat, s3: Stat)
    requires s1 == Stat(IcmpMetric, 0.0, 10.0) && s2 == Stat(IcmpMetric, 1.0, 20.0) && s3 == Stat(IcmpMetric, 2.0, 30.0)
    ensures BaselinePoint(s1, []).value == 10.0
    ensures BaselinePoint(s2, [s1]).value == 15.0
    ensures BaselinePoint(s3, [s1, s2]).value == 20.0
  {
    BaselineOfEmptyWindow(s1);
    assert Values([s1]) == [10.0];
    assert Values([s1, s2]) == [10.0, 20.0];
    assert Values([s1]) + [s2.value] == [10.0, 20.0];
    assert Values([s1, s2]) + [s3.value] == [10.0, 20.0, 30.0];
    assert [10.0, 20.0][..1] == [10.0];
    assert [10.0][..0] == [];
    assert [10.0, 20.0, 30.0][..2] == [10.0, 20.0];
    assert Sum([10.0, 20.0]) == 30.0;
    assert Sum([10.0, 20.0, 30.0]) == 60.0;
  }

  /**
   * A sample that is already stale is kept out of its window yet still adds a
   * baseline point, so the two series drift apart in length.
   */
  lemma StaleSampleStillExtendsBaseline(w: seq<Stat>, b: seq<Point>, s: Stat, render: seq<Stat>, now: real)
    requires now - s.timestamp > Retention
    requires |b| < MaxSamples
    requires forall i :: 0 <= i < |w| ==> IsFresh(w[i], now)
    ensures Admit(w, s, now) == w[|w| - |Admit(w, s, now)|..]
    ensures |NextBaseline(b, s, render)| == |b| + 1
  {
    AllFreshFilter(w, now);
    NextBaselineSpec(b, s, render);
    assert Filter(w + [s], FreshAt(now)) == Filter(w, FreshAt(now)) by {
      assert (w + [s])[..|w + [s]| - 1] == w;
    }
  }

  /** The stats of one metric, in their original order (`stats.filter(s => s.metric === name)`). */
  function OfMetric(stats: seq<Stat>, name: string): seq<Stat>
  {
    Filter(stats, (s: Stat) => s.metric == name)
  }

  /** `init_stats` puts every stat of a recognised metric into that metric's window and nowhere else. */
  lemma InitStatsPartition(stats: seq<Stat>, s: Stat, m: Metric)
    ensures s in OfMetric(stats, Name(m)) <==> s in stats && MetricOf(s.metric) == Some(m)
  {
    FilterMembership(stats, (x: Stat) => x.metric == Name(m), s);
  }

  /** `totalPackets`: the sum of the ICMP window's values. */
  function TotalPackets(w: seq<Stat>): real
  {
    Sum(Values(w))
  }

  lemma {:induction false} TotalPacketsNonNegative(w: seq<Stat>)
    requires forall i :: 0 <= i < |w| ==> w[i].value >= 0.0
    ensures TotalPackets(w) >= 0.0
  {
    if w != [] {
      TotalPacketsNonNegative(w[..|w| - 1]);
      assert Values(w)[..|w| - 1] == Values(w[..|w| - 1]);
    }
  }
}
