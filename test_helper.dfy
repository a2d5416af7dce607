/**
 * The automation helper's test client (`QuicPairTestClient`): recording a
 * time-to-first-token measurement and the statistics over the recorded
 * ones. Times are whole milliseconds; the simulated reply, the clock and
 * the results queue are replaced by inputs.
 */
module TestHelper {
  import opened Wrappers

  /** One measurement: the prompt, its TTFT and when it was taken, in milliseconds. */
  datatype TTFTResult = TTFTResult(prompt: string, ttft: int, timestamp: int)

  /** What `getStatistics` returns. */
  datatype Stats = Stats(p50: int, p90: int, avg: real, count: nat)

  // ---------------------------------------------------------------------
  // Ascending order (`sorted()`)

  predicate Sorted(s: seq<int>) {
    forall i, j :: 0 <= i < j < |s| ==> s[i] <= s[j]
  }

  /** `x` placed before the first element not below it. */
  function Insert(x: int, s: seq<int>): (r: seq<int>)
    ensures multiset(r) == multiset(s) + multiset{x}
    ensures |r| == |s| + 1
    ensures forall k :: 0 <= k < |r| ==> r[k] == x || r[k] in s
    decreases |s|
  {
    if s == [] || x <= s[0] then [x] + s
    else
      var t := Insert(x, s[1..]);
      assert s == [s[0]] + s[1..];
      [s[0]] + t
  }

  /** A bound below `x` and every element of `s` bounds their insertion too. */
  lemma InsertLowerBound(x: int, s: seq<int>, lo: int)
    requires lo <= x && forall k :: 0 <= k < |s| ==> lo <= s[k]
    ensures forall k :: 0 <= k < |Insert(x, s)| ==> lo <= Insert(x, s)[k]
  {
    var r := Insert(x, s);
    forall k | 0 <= k < |r| ensures lo <= r[k] {
      if r[k] != x {
        var m :| 0 <= m < |s| && s[m] == r[k];
      }
    }
  }

  /** A sorted sequence stays sorted behind a bound of all its elements. */
  lemma SortedCons(lo: int, t: seq<int>)
    requires Sorted(t) && forall k :: 0 <= k < |t| ==> lo <= t[k]
    ensures Sorted([lo] + t)
  {
    var r := [lo] + t;
    forall i, j | 0 <= i < j < |r| ensures r[i] <= r[j] {
      assert r[j] == t[j - 1];
      if i > 0 {
        assert r[i] == t[i - 1];
      }
    }
  }

  /** Insertion into a sorted sequence keeps it sorted. */
  lemma {:induction false} InsertSorted(x: int, s: seq<int>)
    requires Sorted(s)
    ensures Sorted(Insert(x, s))
    decreases |s|
  {
    if s != [] && x > s[0] {
      var tail := s[1..];
      assert forall k :: 0 <= k < |tail| ==> tail[k] == s[k + 1];
      InsertSorted(x, tail);
      InsertLowerBound(x, tail, s[0]);
      SortedCons(s[0], Insert(x, tail));
    }
  }

  /** Insertion sort, as `sorted()` orders the values. */
  function Sort(s: seq<int>): (r: seq<int>)
    ensures multiset(r) == multiset(s) && |r| == |s|
    decreases |s|
  {
    if s == [] then []
    else
      assert s == [s[0]] + s[1..];
      Insert(s[0], Sort(s[1..]))
  }

  lemma {:induction false} SortSorted(s: seq<int>)
    ensures Sorted(Sort(s))
    decreases |s|
  {
    if s != [] {
      SortSorted(s[1..]);
      InsertSorted(s[0], Sort(s[1..]));
    }
  }

  // ---------------------------------------------------------------------
  // Sum (`reduce(0, +)`)

  function Sum(s: seq<int>): int
    decreases |s|
  {
    if s == [] then 0 else s[0] + Sum(s[1..])
  }

  lemma {:induction false} SumInsert(x: int, s: seq<int>)
    ensures Sum(Insert(x, s)) == x + Sum(s)
    decreases |s|
  {
    if s != [] && x > s[0] {
      SumInsert(x, s[1..]);
      assert ([s[0]] + Insert(x, s[1..]))[1..] == Insert(x, s[1..]);
    } else {
      assert ([x] + s)[1..] == s;
    }
  }

  /** Sorting does not change the sum, so the average of the sorted values is the average. */
  lemma {:induction false} SumSort(s: seq<int>)
    ensures Sum(Sort(s)) == Sum(s)
    decreases |s|
  {
    if s != [] {
      SumSort(s[1..]);
      SumInsert(s[0], Sort(s[1..]));
    }
  }

  // ---------------------------------------------------------------------
  // `getStatistics`

  /** The index `getStatistics` reads for percentile `p`: `count * p / 100`. */
  function PercentileIndex(count: nat, p: nat): (i: nat)
    requires p < 100
    ensures count >= 1 ==> i < count
  {
    count * p / 100
  }

  /**
   * `getStatistics` over the values: nothing for none; else the sorted
   * values read at `count*50/100` and `count*90/100`, the mean and the count.
   */
  function Statistics(values: seq<int>): (r: Option<Stats>)
    ensures r.None? <==> values == []
    ensures r.Some? ==> r.value.count == |values| && r.value.avg == Sum(values) as real / |values| as real
    ensures r.Some? ==> r.value.p50 in multiset(values) && r.value.p90 in multiset(values)
    ensures r.Some? ==> r.value.p50 == Sort(values)[PercentileIndex(|values|, 50)]
                        && r.value.p90 == Sort(values)[PercentileIndex(|values|, 90)]
  {
    if values == [] then None
    else
      var sorted := Sort(values);
      var count := |sorted|;
      var p50Index := PercentileIndex(count, 50);
      var p90Index := PercentileIndex(count, 90);
      SumSort(values);
      assert sorted[p50Index] in multiset(sorted) && sorted[p90Index] in multiset(sorted);
      Some(Stats(sorted[p50Index], sorted[p90Index], Sum(sorted) as real / count as real, count))
  }

  /** The median read is never above the 90th percentile read. */
  lemma MedianBelowP90(values: seq<int>)
    requires values != []
    ensures Statistics(values).value.p50 <= Statistics(values).value.p90
  {
    SortSorted(values);
    var n := |values|;
    assert PercentileIndex(n, 50) <= PercentileIndex(n, 90);
  }

  /** The values `getStatistics` reads: every result's TTFT, in order. */
  function TtftValues(results: seq<TTFTResult>): (r: seq<int>)
    ensures |r| == |results| && forall k :: 0 <= k < |results| ==> r[k] == results[k].ttft
  {
    seq(|results|, k requires 0 <= k < |results| => results[k].ttft)
  }

  class QuicPairTestClient {
    const serverURL: string
    var results: seq<TTFTResult>

    constructor (serverURL: string)
      ensures this.serverURL == serverURL && results == []
    {
      this.serverURL := serverURL;
      results := [];
    }

    /**
     * `measureTTFT`: a reply at `now` after a start at `start` records one
     * result and reports its TTFT; no reply records nothing.
     */
    method MeasureTTFT(prompt: string, response: Option<string>, start: int, now: int) returns (ttft: Option<int>)
      modifies this
      ensures response.Some? ==> ttft == Some(now - start) && results == old(results) + [TTFTResult(prompt, now - start, now)]
      ensures response.None? ==> ttft.None? && results == old(results)
    {
      if response.Some? {
        var t := now - start;
        results := results + [TTFTResult(prompt, t, now)];
        return Some(t);
      }
      return None;
    }

    /** `getStatistics` over the recorded results. */
    function GetStatistics(): (r: Option<Stats>)
      reads this
      ensures r.None? <==> results == []
      ensures r.Some? ==> r.value.count == |results|
    {
      Statistics(TtftValues(results))
    }
  }
}
