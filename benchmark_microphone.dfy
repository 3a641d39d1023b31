/**
 * microphone/benchmark_microphone.py: how long to wait between FFT queries so that the
 * oscilloscope has computed a fresh spectrum. Ten queries are taken; the delay passes when their
 * row means are (almost) all different, and the benchmark halves or doubles the delay accordingly.
 */
module Benchmark {
  import opened Results

  /** Queries per test. */
  const Queries: nat := 10

  /** Rounds of delay adaptation. */
  const Rounds: nat := 10

  /** What one `_fetch_fft_sample(begin, end)` gives: a row, a ValueError, or any other exception. */
  datatype Fetch = Row(values: seq<real>) | Corrupt | Failed

  datatype BenchError =
    | FetchFailed          // an exception other than ValueError, which the loop does not catch
    | NegativeDimensions   // `np.zeros(end - begin)` with `end < begin`, raised inside the handler

  /** The row that marks a corrupt read: `n` values of -1. */
  function Sentinel(n: nat): (row: seq<real>)
    ensures |row| == n && forall i :: 0 <= i < n ==> row[i] == -1.0
  {
    seq(n, _ => -1.0)
  }

  /** A fetch outcome the loop does not absorb. */
  predicate Fatal(f: Fetch, begin: int, end: int) {
    f.Failed? || (f.Corrupt? && end - begin < 0)
  }

  /**
   * The rows after `k` queries: query `i` answers `fetch(i)`; a row is kept, a corrupt read becomes
   * the sentinel row, and anything else stops the test.
   */
  function Collect(fetch: nat -> Fetch, begin: int, end: int, k: nat): (r: Result<seq<seq<real>>, BenchError>)
    ensures r.Success? ==> |r.value| == k
  {
    if k == 0 then Success([])
    else
      var prev := Collect(fetch, begin, end, k - 1);
      if prev.Failure? then prev
      else match fetch(k - 1)
        case Row(v) => Success(prev.value + [v])
        case Corrupt => if end - begin < 0 then Failure(NegativeDimensions) else Success(prev.value + [Sentinel(end - begin)])
        case Failed => Failure(FetchFailed)
  }

  /** The test fails exactly when some query among the first `k` is fatal. */
  lemma {:induction false} CollectFails(fetch: nat -> Fetch, begin: int, end: int, k: nat)
    ensures Collect(fetch, begin, end, k).Failure? <==> exists i :: 0 <= i < k && Fatal(fetch(i), begin, end)
  {
    if k > 0 {
      CollectFails(fetch, begin, end, k - 1);
    }
  }

  /** Otherwise row `i` is the fetched row, or the sentinel row for a corrupt read. */
  lemma {:induction false} CollectRows(fetch: nat -> Fetch, begin: int, end: int, k: nat)
    ensures var r := Collect(fetch, begin, end, k);
            r.Success? ==> forall i :: 0 <= i < k ==>
              && (fetch(i).Row? ==> r.value[i] == fetch(i).values)
              && (fetch(i).Corrupt? ==> end - begin >= 0 && r.value[i] == Sentinel(end - begin))
              && !fetch(i).Failed?
  {
    if k > 0 {
      CollectRows(fetch, begin, end, k - 1);
      var prev := Collect(fetch, begin, end, k - 1);
      var r := Collect(fetch, begin, end, k);
      if r.Success? {
        assert r.value[..k - 1] == prev.value;
        forall i | 0 <= i < k - 1
          ensures && (fetch(i).Row? ==> r.value[i] == fetch(i).values)
                  && (fetch(i).Corrupt? ==> end - begin >= 0 && r.value[i] == Sentinel(end - begin))
        {
          assert r.value[i] == r.value[..k - 1][i];
        }
      }
    }
  }

  /** `test_query_with_delay`'s loop: ten queries, a row appended for each. */
  method CollectSamples(fetch: nat -> Fetch, begin: int, end: int) returns (r: Result<seq<seq<real>>, BenchError>)
    ensures r == Collect(fetch, begin, end, Queries)
  {
    var lst: seq<seq<real>> := [];
    var k := 0;
    while k < Queries
      invariant 0 <= k <= Queries
      invariant Collect(fetch, begin, end, k) == Success(lst)
    {
      var f := fetch(k);
      match f {
        case Row(v) =>
          lst := lst + [v];
        case Corrupt =>
          if end - begin < 0 {
            FailureKept(fetch, begin, end, k + 1, Queries);
            return Failure(NegativeDimensions);
          }
          lst := lst + [Sentinel(end - begin)];
        case Failed =>
          FailureKept(fetch, begin, end, k + 1, Queries);
          return Failure(FetchFailed);
      }
      k := k + 1;
    }
    r := Success(lst);
  }

  /** Once the test has failed, later queries do not change the outcome. */
  lemma {:induction false} FailureKept(fetch: nat -> Fetch, begin: int, end: int, j: nat, k: nat)
    requires j <= k
    ensures Collect(fetch, begin, end, j).Failure? ==> Collect(fetch, begin, end, k) == Collect(fetch, begin, end, j)
    decreases k - j
  {
    if j < k {
      FailureKept(fetch, begin, end, j + 1, k);
    }
  }

  function Sum(s: seq<real>): real {
    if |s| == 0 then 0.0 else Sum(s[..|s| - 1]) + s[|s| - 1]
  }

  /** `arr.mean(axis=1)` for one row. */
  function Mean(row: seq<real>): real
    requires |row| > 0
  {
    Sum(row) / (|row| as real)
  }

  /** A row of -1 values sums to minus its length. */
  lemma {:induction false} SentinelSum(n: nat)
    ensures Sum(Sentinel(n)) == -(n as real)
  {
    if n > 0 {
      assert Sentinel(n)[..n - 1] == Sentinel(n - 1);
      SentinelSum(n - 1);
    }
  }

  /** Every corrupt read has mean -1, so corrupt reads all look alike. */
  lemma SentinelMean(n: nat)
    requires n > 0
    ensures Mean(Sentinel(n)) == -1.0
  {
    SentinelSum(n);
    assert -(n as real) / (n as real) == -1.0;
  }

  /** The distinct values of a sequence. */
  function Distinct(s: seq<real>): set<real> {
    set i | 0 <= i < |s| :: s[i]
  }

  /** `num_unique >= num_samples - 1`: at most one mean repeats an earlier one. */
  predicate Passes(means: seq<real>) {
    |Distinct(means)| >= |means| - 1
  }

  /** The means of the rows. */
  function Means(rows: seq<seq<real>>): (means: seq<real>)
    requires forall i :: 0 <= i < |rows| ==> |rows[i]| > 0
    ensures |means| == |rows|
  {
    seq(|rows|, i requires 0 <= i < |rows| => Mean(rows[i]))
  }

  lemma DistinctSnoc(s: seq<real>, x: real)
    ensures Distinct(s + [x]) == Distinct(s) + {x}
  {
    var t := s + [x];
    forall v | v in Distinct(t) ensures v in Distinct(s) + {x} {
      var i :| 0 <= i < |t| && t[i] == v;
      if i < |s| { assert s[i] == v; }
    }
    forall v | v in Distinct(s) ensures v in Distinct(t) {
      var i :| 0 <= i < |s| && s[i] == v;
      assert t[i] == v;
    }
    assert t[|s|] == x;
  }

  /** There are never more distinct values than values; as many exactly when no value repeats. */
  lemma {:induction false} DistinctBound(s: seq<real>)
    ensures |Distinct(s)| <= |s|
    ensures (forall i, j :: 0 <= i < j < |s| ==> s[i] != s[j]) ==> |Distinct(s)| == |s|
    decreases |s|
  {
    if |s| > 0 {
      var front := s[..|s| - 1];
      var x := s[|s| - 1];
      assert front + [x] == s;
      DistinctSnoc(front, x);
      DistinctBound(front);
      if forall i, j :: 0 <= i < j < |s| ==> s[i] != s[j] {
        forall i | 0 <= i < |front| ensures front[i] != x {
          assert s[i] != s[|s| - 1];
        }
        assert x !in Distinct(front);
      }
    }
  }

  /** Values at three different places that are all equal leave at most `|s| - 2` distinct values. */
  lemma {:induction false} ThreeAlike(s: seq<real>, i: nat, j: nat, k: nat)
    requires i < j < k < |s| && s[i] == s[j] == s[k]
    ensures |Distinct(s)| <= |s| - 2
    decreases |s|
  {
    var front := s[..|s| - 1];
    var x := s[|s| - 1];
    assert front + [x] == s;
    DistinctSnoc(front, x);
    if k < |s| - 1 {
      ThreeAlike(front, i, j, k);
    } else {
      assert x in Distinct(front) by { assert front[j] == x; }
      TwoAlike(front, i, j);
    }
  }

  lemma {:induction false} TwoAlike(s: seq<real>, i: nat, j: nat)
    requires i < j < |s| && s[i] == s[j]
    ensures |Distinct(s)| <= |s| - 1
    decreases |s|
  {
    var front := s[..|s| - 1];
    var x := s[|s| - 1];
    assert front + [x] == s;
    DistinctSnoc(front, x);
    if j < |s| - 1 {
      TwoAlike(front, i, j);
    } else {
      assert x in Distinct(front) by { assert front[i] == x; }
      DistinctBound(front);
    }
  }

  /** All means different passes; three equal means fail. */
  lemma PassesCases(means: seq<real>)
    ensures (forall i, j :: 0 <= i < j < |means| ==> means[i] != means[j]) ==> Passes(means)
    ensures (exists i, j, k :: 0 <= i < j < k < |means| && means[i] == means[j] == means[k]) ==> !Passes(means)
  {
    DistinctBound(means);
    if exists i, j, k :: 0 <= i < j < k < |means| && means[i] == means[j] == means[k] {
      var i, j, k :| 0 <= i < j < k < |means| && means[i] == means[j] == means[k];
      ThreeAlike(means, i, j, k);
    }
  }

  /**
   * `test_query_with_delay(oscilloscope, begin, end, delay)`: collect ten rows, then pass when the
   * row means are distinct but for at most one repeat. The oscilloscope answers with rows of
   * `end - begin` values.
   */
  method TestQueryWithDelay(fetch: nat -> Fetch, begin: int, end: int) returns (r: Result<bool, BenchError>)
    requires begin < end
    requires forall i :: fetch(i).Row? ==> |fetch(i).values| == end - begin
    ensures var rows := Collect(fetch, begin, end, Queries);
            && (r.Failure? <==> rows.Failure?)
            && (r.Failure? ==> r.error == rows.error)
            && (r.Success? ==> forall i :: 0 <= i < Queries ==> |rows.value[i]| == end - begin)
            && (r.Success? ==> r.value == Passes(Means(rows.value)))
  {
    var lst := CollectSamples(fetch, begin, end);
    if lst.Failure? {
      return Failure(lst.error);
    }
    CollectRows(fetch, begin, end, Queries);
    var sampleMeans := Means(lst.value);
    var numUnique := |Distinct(sampleMeans)|;
    var numSamples := |sampleMeans|;
    r := Success(numUnique >= numSamples - 1);
  }

  /** Three corrupt reads among the ten make the test fail: their means are all -1. */
  lemma CorruptReadsFail(fetch: nat -> Fetch, begin: int, end: int, i: nat, j: nat, k: nat)
    requires begin < end
    requires forall q :: fetch(q).Row? ==> |fetch(q).values| == end - begin
    requires i < j < k < Queries && fetch(i).Corrupt? && fetch(j).Corrupt? && fetch(k).Corrupt?
    ensures var rows := Collect(fetch, begin, end, Queries);
            rows.Success? ==> (forall q :: 0 <= q < Queries ==> |rows.value[q]| > 0) && !Passes(Means(rows.value))
  {
    CollectRows(fetch, begin, end, Queries);
    var rows := Collect(fetch, begin, end, Queries);
    if rows.Success? {
      var means := Means(rows.value);
      SentinelMean(end - begin);
      assert means[i] == -1.0 && means[j] == -1.0 && means[k] == -1.0;
      PassesCases(means);
    }
  }

  /** `2` to the power `e`, for any integer `e`. */
  function Pow2(e: int): (p: real)
    ensures p > 0.0
    decreases if e < 0 then -e else e
  {
    if e == 0 then 1.0 else if e > 0 then 2.0 * Pow2(e - 1) else Pow2(e + 1) / 2.0
  }

  lemma Pow2Step(e: int)
    ensures Pow2(e + 1) == 2.0 * Pow2(e)
  {
  }

  /** The delay after one round: halved after a pass, doubled after a failure. */
  function NextDelay(good: bool, delay: real): (d: real)
    ensures delay > 0.0 ==> d > 0.0 && (d < delay <==> good)
  {
    if good then delay * 0.5 else delay * 2.0
  }

  /** Halving or doubling `0.5 * 2^e` moves the exponent down or up by one. */
  lemma NextDelayPow2(good: bool, e: int)
    ensures NextDelay(good, 0.5 * Pow2(e)) == 0.5 * Pow2(if good then e - 1 else e + 1)
  {
    if good {
      Pow2Step(e - 1);
    } else {
      Pow2Step(e);
    }
  }

  /** Each delay in `tried` but the last passed or failed its round, and the next is adapted from it. */
  ghost predicate Chained(isGood: (nat, real) -> Result<bool, BenchError>, tried: seq<real>) {
    forall k :: 0 <= k < |tried| - 1 ==>
      isGood(k, tried[k]).Success? && tried[k + 1] == NextDelay(isGood(k, tried[k]).value, tried[k])
  }

  /** Appending the delay adapted from the last verdict keeps the chain. */
  lemma ChainedSnoc(isGood: (nat, real) -> Result<bool, BenchError>, tried: seq<real>, d: real)
    requires Chained(isGood, tried)
    requires |tried| > 0 ==> var last := |tried| - 1;
               isGood(last, tried[last]).Success? && d == NextDelay(isGood(last, tried[last]).value, tried[last])
    ensures Chained(isGood, tried + [d])
  {
  }

  /**
   * The adaptation loop: start at half a second; ten times, test the delay, halve it after a pass and
   * double it after a failure. `isGood(round, delay)` is the test's outcome in that round: a verdict,
   * or the error it raises, which nothing catches, so the script stops there. The delays tried are
   * returned; the delay reached is `0.5 * 2^(fails - passes)`.
   */
  method AdaptDelay(isGood: (nat, real) -> Result<bool, BenchError>)
    returns (tried: seq<real>, delay: real, passes: nat, fails: nat, aborted: Option<BenchError>)
    ensures 1 <= |tried| <= Rounds && tried[0] == 0.5
    ensures forall k :: 0 <= k < |tried| - 1 ==>
              isGood(k, tried[k]).Success? && tried[k + 1] == NextDelay(isGood(k, tried[k]).value, tried[k])
    ensures var last := |tried| - 1;
            if aborted.Some? then isGood(last, tried[last]) == Failure(aborted.value) && delay == tried[last]
                                  && passes + fails == last
            else |tried| == Rounds && isGood(last, tried[last]).Success?
                 && delay == NextDelay(isGood(last, tried[last]).value, tried[last])
                 && passes + fails == Rounds
    ensures delay == 0.5 * Pow2(fails - passes)
  {
    delay := 0.5;
    tried := [];
    passes, fails := 0, 0;
    aborted := None;
    var k := 0;
    while k < Rounds
      invariant 0 <= k <= Rounds
      invariant |tried| == k && passes + fails == k
      invariant k > 0 ==> tried[0] == 0.5
      invariant k == 0 ==> delay == 0.5
      invariant Chained(isGood, tried)
      invariant k > 0 ==> isGood(k - 1, tried[k - 1]).Success?
                          && delay == NextDelay(isGood(k - 1, tried[k - 1]).value, tried[k - 1])
      invariant delay == 0.5 * Pow2(fails - passes)
    {
      var isGoodNow := isGood(k, delay);
      ChainedSnoc(isGood, tried, delay);
      tried := tried + [delay];
      if isGoodNow.Failure? {
        aborted := Some(isGoodNow.error);
        return;
      }
      NextDelayPow2(isGoodNow.value, fails - passes);
      delay := NextDelay(isGoodNow.value, delay);
      if isGoodNow.value {
        passes := passes + 1;
      } else {
        fails := fails + 1;
      }
      k := k + 1;
    }
  }
}
