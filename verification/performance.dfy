/**
 * The Web Vitals monitor hook: the latest metric per name, the loading flag,
 * and the overall score, the rounded mean of the per-metric scores.
 */
module Performance {
  import opened Wrappers
  import Seqs

  datatype Rating = Good | NeedsImprovement | Poor

  /** A reported metric; its value is kept as an integer, since only its rating is scored. */
  datatype Metric = Metric(name: string, value: int, rating: Rating)

  /** The test `metric.name === name`. */
  function NameIs(name: string): Metric -> bool {
    (x: Metric) => x.name == name
  }

  /** Where `name` is recorded, if anywhere. */
  function Position(ms: seq<Metric>, name: string): (r: Option<nat>)
    ensures r.Some? ==> r.value < |ms| && ms[r.value].name == name
    ensures r.Some? ==> forall j :: 0 <= j < r.value ==> ms[j].name != name
    ensures r.None? <==> forall j :: 0 <= j < |ms| ==> ms[j].name != name
  {
    Seqs.FindIndex(ms, NameIs(name))
  }

  /** The metric recorded under `name`, if any. */
  function Lookup(ms: seq<Metric>, name: string): (r: Option<Metric>)
    ensures r.Some? ==> r.value in ms && r.value.name == name
    ensures r.None? <==> forall i :: 0 <= i < |ms| ==> ms[i].name != name
  {
    match Position(ms, name)
    case None => None
    case Some(i) => Some(ms[i])
  }

  /** No name is recorded twice, as with the keys of an object. */
  predicate UniqueNames(ms: seq<Metric>) {
    forall i, j :: 0 <= i < j < |ms| ==> ms[i].name != ms[j].name
  }

  /**
   * `{ ...prev, [metric.name]: metric }`: a known name keeps its position and
   * takes the new metric; a new name is appended.
   */
  function Upsert(ms: seq<Metric>, m: Metric): (r: seq<Metric>)
    ensures |r| == |ms| + (if Lookup(ms, m.name).None? then 1 else 0)
    ensures forall i :: 0 <= i < |ms| ==> r[i].name == ms[i].name
    ensures forall i :: 0 <= i < |ms| && ms[i].name != m.name ==> r[i] == ms[i]
    ensures |r| > |ms| ==> r[|ms|] == m
    ensures Lookup(r, m.name) == Some(m)
  {
    match Position(ms, m.name)
    case None =>
      var r := ms + [m];
      assert r[|ms|] == m;
      assert forall j :: 0 <= j < |ms| ==> r[j] == ms[j];
      assert Position(r, m.name) == Some(|ms|);
      r
    case Some(i) =>
      var r := ms[i := m];
      assert r[i] == m;
      assert Position(r, m.name) == Some(i);
      r
  }

  /** Upserting a metric leaves every other name's entry as it was. */
  lemma UpsertKeepsOthers(ms: seq<Metric>, m: Metric, name: string)
    requires name != m.name
    ensures Lookup(Upsert(ms, m), name) == Lookup(ms, name)
  {
    var r := Upsert(ms, m);
    assert forall j :: 0 <= j < |r| ==> r[j].name == name ==> j < |ms| && r[j] == ms[j];
    match Position(ms, name)
    case None =>
      assert Position(r, name).None?;
    case Some(k) =>
      assert r[k] == ms[k];
      FirstAt(r, name, k);
  }

  /** A name is found at the first index that holds it. */
  lemma FirstAt(ms: seq<Metric>, name: string, k: nat)
    requires k < |ms| && ms[k].name == name
    requires forall j :: 0 <= j < k ==> ms[j].name != name
    ensures Position(ms, name) == Some(k)
  {
  }

  /** Upserting keeps the names unique: only the latest metric per name is kept. */
  lemma UpsertUnique(ms: seq<Metric>, m: Metric)
    requires UniqueNames(ms)
    ensures UniqueNames(Upsert(ms, m))
  {
  }

  /** 100 for good, 50 for needs-improvement, 0 otherwise. */
  function Score(rating: Rating): (s: nat)
    ensures s <= 100
    ensures s == 100 <==> rating == Good
    ensures s == 0 <==> rating == Poor
  {
    match rating
    case Good => 100
    case NeedsImprovement => 50
    case Poor => 0
  }

  function ScoreSum(ms: seq<Metric>): (s: nat)
    ensures s <= 100 * |ms|
  {
    if |ms| == 0 then 0 else Score(ms[0].rating) + ScoreSum(ms[1..])
  }

  /**
   * `getOverallScore`: null without metrics, otherwise the mean score rounded
   * half up, which is `Math.round` on a non-negative mean.
   */
  function OverallScore(ms: seq<Metric>): (r: Option<int>)
    ensures r.None? <==> |ms| == 0
    ensures r.Some? ==> 0 <= r.value <= 100
    ensures r.Some? ==> 2 * |ms| * r.value - |ms| <= 2 * ScoreSum(ms) < 2 * |ms| * r.value + |ms|
  {
    if |ms| == 0 then None
    else
      var n := |ms|;
      var q := (2 * ScoreSum(ms) + n) / (2 * n);
      DivFloor(2 * ScoreSum(ms) + n, 2 * n, q);
      DivAtMost(2 * ScoreSum(ms) + n, 2 * n, 100);
      Some(q)
  }

  lemma MulMonotone(d: nat, x: int, y: int)
    requires x <= y
    ensures d * x <= d * y
  {
  }

  /** Euclidean division by a positive divisor is the floor. */
  lemma DivFloor(a: nat, d: nat, q: int)
    requires d > 0 && q == a / d
    ensures q >= 0 && d * q <= a < d * q + d
  {
  }

  lemma DivAtMost(a: nat, d: nat, k: nat)
    requires d > 0 && a < d * (k + 1)
    ensures a / d <= k
  {
    var q := a / d;
    DivFloor(a, d, q);
    if q > k {
      MulMonotone(d, k + 1, q);
    }
  }

  predicate AllGood(ms: seq<Metric>) {
    forall i :: 0 <= i < |ms| ==> ms[i].rating == Good
  }

  lemma {:induction false} AllGoodSum(ms: seq<Metric>)
    requires AllGood(ms)
    ensures ScoreSum(ms) == 100 * |ms|
  {
    if |ms| > 0 {
      assert AllGood(ms[1..]);
      AllGoodSum(ms[1..]);
    }
  }

  /** The rounding bounds pin the score down: a mean of exactly 100 rounds to 100. */
  lemma RoundedMeanOf100(n: nat, q: int)
    requires n > 0
    requires 2 * n * q - n <= 200 * n < 2 * n * q + n
    ensures q == 100
  {
    if q <= 99 {
      MulMonotone(2 * n, q, 99);
    } else if q >= 101 {
      MulMonotone(2 * n, 101, q);
    }
  }

  /** Every metric rated good gives an overall score of 100. */
  lemma AllGoodScores100(ms: seq<Metric>)
    requires |ms| > 0 && AllGood(ms)
    ensures OverallScore(ms) == Some(100)
  {
    AllGoodSum(ms);
    RoundedMeanOf100(|ms|, OverallScore(ms).value);
  }

  /** The state of `usePerformanceMonitor`. */
  class PerformanceMonitor {
    const enabled: bool
    var metrics: seq<Metric>
    var isLoading: bool

    predicate Valid()
      reads this
    {
      UniqueNames(metrics)
    }

    /** No metrics yet; loading exactly when monitoring is enabled. */
    constructor(enabled: bool)
      ensures this.enabled == enabled
      ensures metrics == [] && isLoading == enabled
      ensures Valid()
    {
      this.enabled := enabled;
      metrics := [];
      isLoading := enabled;
    }

    /** `handleMetric`: record the metric under its name; the caller's callback is not modelled. */
    method HandleMetric(m: Metric)
      requires Valid()
      modifies this
      ensures metrics == Upsert(old(metrics), m)
      ensures isLoading == old(isLoading)
      ensures Valid()
    {
      UpsertUnique(metrics, m);
      metrics := Upsert(metrics, m);
    }

    /** Reporting has finished: loading ends, which only happens when monitoring was started. */
    method VitalsReported()
      modifies this
      ensures metrics == old(metrics)
      ensures isLoading == (old(isLoading) && !enabled)
    {
      if enabled {
        isLoading := false;
      }
    }
  }
}
