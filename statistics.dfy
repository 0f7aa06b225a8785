/**
 Replicate statistics of the queueing simulation: the per-station snapshot taken at
 the end of each replicate, the arithmetic mean of each metric across replicates,
 utilisation U = 1 - idleTime / horizon, the per-job averages and the overall system
 utilisation. Floating-point numbers are modelled as `real`.
 */
module Statistics {

  datatype Option<T> = None | Some(value: T)

  /** One station's accumulators at the end of one replicate. */
  datatype Stats = Stats(waitingTime: real, responseTime: real, idleTime: real)

  /** The three metrics a report averages. */
  datatype Metric = Waiting | Response | Idle

  function Measure(s: Stats, m: Metric): real
  {
    match m
    case Waiting => s.waitingTime
    case Response => s.responseTime
    case Idle => s.idleTime
  }

  /** The values of one metric, one per replicate, in replicate order. */
  function Column(replicates: seq<Stats>, m: Metric): (c: seq<real>)
    ensures |c| == |replicates|
    ensures forall i :: 0 <= i < |c| ==> c[i] == Measure(replicates[i], m)
  {
    if replicates == [] then [] else [Measure(replicates[0], m)] + Column(replicates[1..], m)
  }

  function Sum(xs: seq<real>): real
  {
    if xs == [] then 0.0 else xs[0] + Sum(xs[1..])
  }

  /** A sum of n values that all lie in [lo, hi] lies in [n * lo, n * hi]. */
  lemma {:induction false} SumBounds(xs: seq<real>, lo: real, hi: real)
    requires forall i :: 0 <= i < |xs| ==> lo <= xs[i] <= hi
    ensures |xs| as real * lo <= Sum(xs) <= |xs| as real * hi
  {
    if xs != [] {
      SumBounds(xs[1..], lo, hi);
      assert |xs| as real * lo == lo + |xs[1..]| as real * lo;
      assert |xs| as real * hi == hi + |xs[1..]| as real * hi;
    }
  }

  /** Summing an affine image of a sequence: sum (a + b * x) = n * a + b * sum x. */
  lemma {:induction false} SumAffine(xs: seq<real>, ys: seq<real>, a: real, b: real)
    requires |ys| == |xs|
    requires forall i :: 0 <= i < |xs| ==> ys[i] == a + b * xs[i]
    ensures Sum(ys) == |xs| as real * a + b * Sum(xs)
  {
    if xs != [] {
      SumAffine(xs[1..], ys[1..], a, b);
      assert |xs| as real * a == a + |xs[1..]| as real * a;
      assert b * Sum(xs) == b * xs[0] + b * Sum(xs[1..]);
    }
  }

  /**
   The arithmetic mean; the mean of no values is undefined (a NaN in the
   numeric library the report uses), which is None here.
   */
  function Mean(xs: seq<real>): (m: Option<real>)
    ensures m.Some? <==> |xs| > 0
    ensures m.Some? ==> m.value * |xs| as real == Sum(xs)
  {
    if |xs| == 0 then None else Some(Sum(xs) / |xs| as real)
  }

  /** The mean of values that all lie in [lo, hi] lies in [lo, hi]. */
  lemma MeanWithin(xs: seq<real>, lo: real, hi: real)
    requires |xs| > 0
    requires forall i :: 0 <= i < |xs| ==> lo <= xs[i] <= hi
    ensures lo <= Mean(xs).value <= hi
  {
    SumBounds(xs, lo, hi);
    var n := |xs| as real;
    var m := Mean(xs).value;
    assert m * n == Sum(xs);
    assert (m - lo) * n >= 0.0;
    assert (hi - m) * n >= 0.0;
  }

  /** The mean of an affine image is the affine image of the mean. */
  lemma MeanAffine(xs: seq<real>, ys: seq<real>, a: real, b: real)
    requires |xs| > 0 && |ys| == |xs|
    requires forall i :: 0 <= i < |xs| ==> ys[i] == a + b * xs[i]
    ensures Mean(ys).value == a + b * Mean(xs).value
  {
    SumAffine(xs, ys, a, b);
    var n := |xs| as real;
    assert Mean(ys).value * n == (a + b * Mean(xs).value) * n;
  }

  /** Utilisation over a horizon: the fraction of the horizon the station was not idle. */
  function Utilization(idle: real, horizon: real): (u: real)
    requires horizon > 0.0
    ensures u * horizon == horizon - idle
    ensures 0.0 <= u <= 1.0 <==> 0.0 <= idle <= horizon
  {
    1.0 - idle / horizon
  }

  /**
   A total divided by the number of jobs the generator produced. With a count of
   zero the report's floating-point division yields an infinity or a NaN; that
   undefined average is None here.
   */
  function PerJob(total: real, nJobs: int): (r: Option<real>)
    ensures r.Some? <==> nJobs != 0
    ensures r.Some? ==> r.value * nJobs as real == total
  {
    if nJobs == 0 then None else Some(total / nJobs as real)
  }

  /**
   When every replicate produced the same number of jobs, dividing the mean total
   by that count is the mean of the replicates' own per-job averages.
   */
  lemma PerJobOfMean(totals: seq<real>, avgs: seq<real>, nJobs: int)
    requires |totals| > 0 && |avgs| == |totals| && nJobs != 0
    requires forall i :: 0 <= i < |totals| ==> avgs[i] == PerJob(totals[i], nJobs).value
    ensures PerJob(Mean(totals).value, nJobs).value == Mean(avgs).value
  {
    var n := nJobs as real;
    forall i | 0 <= i < |totals|
      ensures avgs[i] == 0.0 + (1.0 / n) * totals[i]
    {
      DivIsMulInverse(totals[i], n);
    }
    MeanAffine(totals, avgs, 0.0, 1.0 / n);
    DivIsMulInverse(Mean(totals).value, n);
  }

  /** One station's line of the report: the mean of each metric and the utilisation. */
  datatype StationReport =
    StationReport(waitingTime: real, responseTime: real, idleTime: real, utilization: real)

  /**
   The report for one station from its snapshots across replicates: each metric
   is the mean over the replicates, and U is computed from the mean idle time.
   */
  function Summarize(replicates: seq<Stats>, horizon: real): (r: Option<StationReport>)
    requires horizon > 0.0
    ensures r.Some? <==> |replicates| > 0
    ensures r.Some? ==>
      && r.value.waitingTime == Mean(Column(replicates, Waiting)).value
      && r.value.responseTime == Mean(Column(replicates, Response)).value
      && r.value.idleTime == Mean(Column(replicates, Idle)).value
      && r.value.utilization == Utilization(r.value.idleTime, horizon)
    ensures r.Some? && (forall i :: 0 <= i < |replicates| ==> 0.0 <= replicates[i].idleTime <= horizon)
      ==> 0.0 <= r.value.utilization <= 1.0
  {
    if |replicates| == 0 then None
    else
      var idles := Column(replicates, Idle);
      var idle := Mean(idles).value;
      MeanWithinIfBounded(idles, horizon);
      Some(StationReport(Mean(Column(replicates, Waiting)).value,
                         Mean(Column(replicates, Response)).value,
                         idle,
                         Utilization(idle, horizon)))
  }

  /** Helper for Summarize: bounded idle times give a bounded mean idle time. */
  lemma MeanWithinIfBounded(idles: seq<real>, horizon: real)
    requires |idles| > 0
    ensures (forall i :: 0 <= i < |idles| ==> 0.0 <= idles[i] <= horizon)
      ==> 0.0 <= Mean(idles).value <= horizon
  {
    if forall i :: 0 <= i < |idles| ==> 0.0 <= idles[i] <= horizon {
      MeanWithin(idles, 0.0, horizon);
    }
  }

  /** The utilisation of each replicate's snapshot, in replicate order. */
  function Utilizations(replicates: seq<Stats>, horizon: real): (us: seq<real>)
    requires horizon > 0.0
    ensures |us| == |replicates|
    ensures forall i :: 0 <= i < |us| ==> us[i] == Utilization(replicates[i].idleTime, horizon)
  {
    if replicates == [] then []
    else [Utilization(replicates[0].idleTime, horizon)] + Utilizations(replicates[1..], horizon)
  }

  /**
   U computed from the mean idle time equals the mean of the replicates' own
   utilisations: averaging first and dividing by the horizon later loses nothing.
   */
  lemma SummaryUtilizationIsMeanUtilization(replicates: seq<Stats>, horizon: real)
    requires horizon > 0.0 && |replicates| > 0
    ensures Summarize(replicates, horizon).value.utilization
         == Mean(Utilizations(replicates, horizon)).value
  {
    MeanUtilization(Column(replicates, Idle), Utilizations(replicates, horizon), horizon);
  }

  /** The mean of the utilisations of some idle times is the utilisation of their mean. */
  lemma MeanUtilization(idles: seq<real>, us: seq<real>, horizon: real)
    requires horizon > 0.0 && |idles| > 0 && |us| == |idles|
    requires forall i :: 0 <= i < |idles| ==> us[i] == Utilization(idles[i], horizon)
    ensures Mean(us).value == 1.0 - Mean(idles).value / horizon
  {
    UtilizationIsAffine(idles, us, horizon);
    MeanAffine(idles, us, 1.0, -1.0 / horizon);
    AffineIsUtilization(Mean(idles).value, horizon);
  }

  lemma AffineIsUtilization(idle: real, horizon: real)
    requires horizon > 0.0
    ensures 1.0 + (-1.0 / horizon) * idle == 1.0 - idle / horizon
  {
    DivIsMulInverse(idle, horizon);
  }

  /** Utilisation is the affine map idle |-> 1 + (-1 / horizon) * idle. */
  lemma UtilizationIsAffine(idles: seq<real>, us: seq<real>, horizon: real)
    requires horizon > 0.0 && |us| == |idles|
    requires forall i :: 0 <= i < |idles| ==> us[i] == Utilization(idles[i], horizon)
    ensures forall i :: 0 <= i < |idles| ==> us[i] == 1.0 + (-1.0 / horizon) * idles[i]
  {
    forall i | 0 <= i < |idles|
      ensures us[i] == 1.0 + (-1.0 / horizon) * idles[i]
    {
      DivIsMulInverse(idles[i], horizon);
    }
  }

  lemma DivIsMulInverse(x: real, d: real)
    requires d != 0.0
    ensures x / d == (1.0 / d) * x
  {
  }

  /**
   The overall utilisation of a set of stations, one minus the summed idle time
   over the horizon and over the number of stations. None when there is no station.
   */
  function SystemUtilization(idles: seq<real>, horizon: real): (u: Option<real>)
    requires horizon > 0.0
    ensures u.Some? <==> |idles| > 0
    ensures u.Some? ==> u.value * horizon * |idles| as real == horizon * |idles| as real - Sum(idles)
  {
    if |idles| == 0 then None
    else Some(1.0 - Sum(idles) / horizon / |idles| as real)
  }

  /** The overall utilisation is the mean of the stations' utilisations. */
  lemma SystemUtilizationIsMeanUtilization(idles: seq<real>, us: seq<real>, horizon: real)
    requires horizon > 0.0 && |idles| > 0 && |us| == |idles|
    requires forall i :: 0 <= i < |idles| ==> us[i] == Utilization(idles[i], horizon)
    ensures SystemUtilization(idles, horizon).value == Mean(us).value
  {
    MeanUtilization(idles, us, horizon);
    var n := |idles| as real;
    assert Mean(idles).value == Sum(idles) / n;
    DivCommute(Sum(idles), horizon, n);
  }

  lemma DivCommute(x: real, a: real, b: real)
    requires a != 0.0 && b != 0.0
    ensures x / a / b == x / b / a
  {
  }
}
