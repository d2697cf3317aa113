/**
  Loss dictionaries as the training driver handles them: keyed by loss
  name, summed key by key with a missing key reading as zero, and averaged
  over microbatches. Loss values are modelled as exact reals, so the
  rounding of float32 sums is outside the model.
 */
module Losses {

  type LossDict = map<string, real>

  /** `d.get(k, 0.0)` */
  function Get(d: LossDict, k: string): real {
    if k in d then d[k] else 0.0
  }

  /** `for key in d: total[key] = total.get(key, 0.0) + d[key]` */
  function Accumulate(total: LossDict, d: LossDict): (r: LossDict)
    ensures r.Keys == total.Keys + d.Keys
    ensures forall k :: k in r ==> r[k] == Get(total, k) + Get(d, k)
  {
    map k | k in total.Keys + d.Keys :: if k in d then Get(total, k) + d[k] else total[k]
  }

  function Sum(xs: seq<real>): real {
    if |xs| == 0 then 0.0 else Sum(xs[..|xs| - 1]) + xs[|xs| - 1]
  }

  /** `sum(xs) / len(xs)` */
  function Mean(xs: seq<real>): real
    requires |xs| > 0
  {
    Sum(xs) / |xs| as real
  }

  lemma {:induction false} SumBounds(xs: seq<real>, lo: real, hi: real)
    requires forall i :: 0 <= i < |xs| ==> lo <= xs[i] <= hi
    ensures |xs| as real * lo <= Sum(xs) <= |xs| as real * hi
    decreases |xs|
  {
    if |xs| > 0 {
      var front := xs[..|xs| - 1];
      var last := xs[|xs| - 1];
      assert forall i :: 0 <= i < |front| ==> front[i] == xs[i];
      SumBounds(front, lo, hi);
      var m := |front| as real;
      assert Sum(xs) == Sum(front) + last;
      assert |xs| as real == m + 1.0;
      assert (m + 1.0) * lo == m * lo + lo && (m + 1.0) * hi == m * hi + hi;
    }
  }

  /** A mean lies between the smallest and the largest value averaged; in
      particular the mean of equal values is that value. */
  lemma MeanBounds(xs: seq<real>, lo: real, hi: real)
    requires |xs| > 0
    requires forall i :: 0 <= i < |xs| ==> lo <= xs[i] <= hi
    ensures lo <= Mean(xs) <= hi
  {
    SumBounds(xs, lo, hi);
    var n := |xs| as real;
    assert n * lo <= Sum(xs) <= n * hi;
    assert lo == (n * lo) / n && hi == (n * hi) / n;
  }

  /** The keys of any of the dictionaries. */
  function KeysOf(ds: seq<LossDict>): set<string> {
    if |ds| == 0 then {} else KeysOf(ds[..|ds| - 1]) + ds[|ds| - 1].Keys
  }

  /** The total of key `k` over the dictionaries, a missing key counting zero. */
  function KeyTotal(ds: seq<LossDict>, k: string): real {
    if |ds| == 0 then 0.0 else KeyTotal(ds[..|ds| - 1], k) + Get(ds[|ds| - 1], k)
  }

  /** Accumulating the dictionaries one after the other, starting empty. */
  function AccumulateAll(ds: seq<LossDict>): LossDict {
    if |ds| == 0 then map[] else Accumulate(AccumulateAll(ds[..|ds| - 1]), ds[|ds| - 1])
  }

  /** Key-by-key accumulation totals every key that occurs, and nothing else. */
  lemma {:induction false} AccumulateAllTotals(ds: seq<LossDict>)
    ensures AccumulateAll(ds).Keys == KeysOf(ds)
    ensures forall k :: Get(AccumulateAll(ds), k) == KeyTotal(ds, k)
    decreases |ds|
  {
    if |ds| > 0 {
      var front := ds[..|ds| - 1];
      AccumulateAllTotals(front);
      forall k ensures Get(AccumulateAll(ds), k) == KeyTotal(ds, k) {
        assert Get(AccumulateAll(ds), k) == Get(AccumulateAll(front), k) + Get(ds[|ds| - 1], k);
      }
    }
  }
}
