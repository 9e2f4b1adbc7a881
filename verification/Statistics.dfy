/** Nearest-rank latency statistics of a run's observations. */
module Statistics {
  import opened Arithmetic
  import opened Wrappers
  import opened Rows

  // ---------- Python's sorted ----------

  predicate Ascending(s: seq<int>) {
    forall j, k :: 0 <= j < k < |s| ==> s[j] <= s[k]
  }

  function Insert(v: int, s: seq<int>): seq<int> {
    if s == [] || v <= s[0] then [v] + s else [s[0]] + Insert(v, s[1..])
  }

  function Sort(s: seq<int>): (t: seq<int>)
    ensures |t| == |s|
  {
    if s == [] then [] else var t := Sort(s[1..]); InsertLength(s[0], t); Insert(s[0], t)
  }

  lemma {:induction false} InsertLength(v: int, s: seq<int>)
    ensures |Insert(v, s)| == |s| + 1
  {
    if s != [] && v > s[0] { InsertLength(v, s[1..]); }
  }

  lemma {:induction false} InsertAdds(v: int, s: seq<int>)
    ensures multiset(Insert(v, s)) == multiset{v} + multiset(s)
  {
    if s != [] && v > s[0] {
      InsertAdds(v, s[1..]);
      assert s == [s[0]] + s[1..];
    }
  }

  lemma {:induction false} InsertSorts(v: int, s: seq<int>)
    requires Ascending(s)
    ensures Ascending(Insert(v, s))
  {
    if s != [] && v > s[0] {
      InsertSorts(v, s[1..]);
      InsertAdds(v, s[1..]);
      AllAbove(s[0], v, s[1..], Insert(v, s[1..]));
    }
  }

  lemma AllAbove(bound: int, v: int, s: seq<int>, inserted: seq<int>)
    requires bound <= v && (forall k :: 0 <= k < |s| ==> bound <= s[k])
    requires multiset(inserted) == multiset{v} + multiset(s)
    ensures forall k :: 0 <= k < |inserted| ==> bound <= inserted[k]
  {
    forall k | 0 <= k < |inserted| ensures bound <= inserted[k] {
      assert inserted[k] in multiset(inserted);
      assert inserted[k] == v || inserted[k] in multiset(s);
    }
  }

  lemma {:induction false} SortSorts(s: seq<int>)
    ensures Ascending(Sort(s)) && multiset(Sort(s)) == multiset(s)
  {
    if s != [] {
      SortSorts(s[1..]);
      InsertSorts(s[0], Sort(s[1..]));
      InsertAdds(s[0], Sort(s[1..]));
      assert s == [s[0]] + s[1..];
    }
  }

  lemma HeadIsLeast(s: seq<int>, x: int)
    requires Ascending(s) && x in multiset(s)
    ensures s != [] && s[0] <= x
  {
    assert x in s;
  }

  lemma TailMultiset(s: seq<int>)
    requires s != []
    ensures multiset(s) == multiset{s[0]} + multiset(s[1..])
  {
    assert s == [s[0]] + s[1..];
  }

  lemma SameTails(s: seq<int>, t: seq<int>)
    requires s != [] && t != [] && s[0] == t[0] && multiset(s) == multiset(t)
    ensures multiset(s[1..]) == multiset(t[1..])
  {
    TailMultiset(s);
    TailMultiset(t);
    assert multiset(s[1..]) == multiset(s) - multiset{s[0]};
  }

  lemma SameHeadAndTail(s: seq<int>, t: seq<int>)
    requires s != [] && t != [] && s[0] == t[0] && s[1..] == t[1..]
    ensures s == t
  {
    assert s == [s[0]] + s[1..] && t == [t[0]] + t[1..];
  }

  lemma {:induction false} AscendingIsUnique(s: seq<int>, t: seq<int>)
    requires Ascending(s) && Ascending(t) && multiset(s) == multiset(t)
    ensures s == t
  {
    assert |s| == |multiset(s)| == |t|;
    if s != [] {
      HeadIsLeast(s, t[0]);
      HeadIsLeast(t, s[0]);
      SameTails(s, t);
      AscendingIsUnique(s[1..], t[1..]);
      SameHeadAndTail(s, t);
    }
  }

  // ---------- the percentile ----------

  /** `n * num / den`, rounded up. */
  function Ceiling(n: nat, num: nat, den: nat): nat
    requires den > 0
  {
    (n * num + den - 1) / den
  }

  /** The index of the nearest rank. */
  function Rank(n: nat, num: nat, den: nat): (index: nat)
    requires n > 0 && den > 0
    ensures index < n
  {
    var index := (if n - 1 < Ceiling(n, num, den) - 1 then n - 1 else Ceiling(n, num, den) - 1);
    if index < 0 then 0 else index
  }

  /** `percentile` at the fraction `num / den` */
  function Percentile(values: seq<int>, num: nat, den: nat): Option<int>
    requires den > 0
  {
    if values == [] then None else Some(Sort(values)[Rank(|values|, num, den)])
  }

  function AtMost(values: seq<int>, x: int): nat {
    if values == [] then 0 else (if values[0] <= x then 1 else 0) + AtMost(values[1..], x)
  }

  function Under(values: seq<int>, x: int): nat {
    if values == [] then 0 else (if values[0] < x then 1 else 0) + Under(values[1..], x)
  }

  lemma {:induction false} InsertCounts(v: int, s: seq<int>, x: int)
    ensures AtMost(Insert(v, s), x) == AtMost(s, x) + if v <= x then 1 else 0
    ensures Under(Insert(v, s), x) == Under(s, x) + if v < x then 1 else 0
  {
    if s == [] || v <= s[0] {
      assert ([v] + s)[1..] == s;
    } else {
      InsertCounts(v, s[1..], x);
      assert ([s[0]] + Insert(v, s[1..]))[1..] == Insert(v, s[1..]);
    }
  }

  lemma {:induction false} SortCounts(s: seq<int>, x: int)
    ensures AtMost(Sort(s), x) == AtMost(s, x) && Under(Sort(s), x) == Under(s, x)
  {
    if s != [] {
      SortCounts(s[1..], x);
      InsertCounts(s[0], Sort(s[1..]), x);
    }
  }

  lemma {:induction false} CountsAtIndex(s: seq<int>, k: nat)
    requires Ascending(s) && k < |s|
    ensures AtMost(s, s[k]) >= k + 1 && Under(s, s[k]) <= k
  {
    if k > 0 {
      CountsAtIndex(s[1..], k - 1);
    } else {
      NoneUnder(s, s[0]);
    }
  }

  lemma {:induction false} NoneUnder(s: seq<int>, x: int)
    requires forall k :: 0 <= k < |s| ==> x <= s[k]
    ensures Under(s, x) == 0
  {
    if s != [] { NoneUnder(s[1..], x); }
  }

  lemma CeilingBounds(n: nat, num: nat, den: nat)
    requires 0 < n && 0 < num <= den
    ensures 1 <= Ceiling(n, num, den) <= n
    ensures Ceiling(n, num, den) * den >= n * num > (Ceiling(n, num, den) - 1) * den
  {
    var a := n * num + den - 1;
    assert 1 <= n * num <= n * den;
    QuotientBounds(a, den);
    QuotientAtLeast(a, den, 1);
    QuotientAtLeast(a, den, n + 1);
    assert (n + 1) * den == n * den + den;
    assert (Ceiling(n, num, den) - 1) * den == Ceiling(n, num, den) * den - den;
  }

  /** For a fraction in (0, 1]: a member of the sample with at least a `num / den` share of the sample at or below it,
      and less than that share strictly below. */
  lemma PercentileIsNearestRank(values: seq<int>, num: nat, den: nat)
    requires values != [] && 0 < num <= den
    ensures var p := Percentile(values, num, den).value;
      && p in values
      && AtMost(values, p) >= Ceiling(|values|, num, den) && AtMost(values, p) * den >= |values| * num
      && Under(values, p) < Ceiling(|values|, num, den) && Under(values, p) * den < |values| * num
  {
    var s, k := Sort(values), Rank(|values|, num, den);
    var c := Ceiling(|values|, num, den);
    SortSorts(values);
    CeilingBounds(|values|, num, den);
    CountsAtIndex(s, k);
    SortCounts(values, s[k]);
    assert s[k] in multiset(s);
    assert s[k] in values;
    Scaled(c, AtMost(values, s[k]), den);
    Scaled(Under(values, s[k]), c - 1, den);
  }

  /** The order in which the observations come does not matter. */
  lemma PercentileIgnoresOrder(values: seq<int>, others: seq<int>, num: nat, den: nat)
    requires den > 0 && multiset(values) == multiset(others)
    ensures Percentile(values, num, den) == Percentile(others, num, den) && Median(values) == Median(others)
  {
    SortForgetsOrder(values, others);
  }

  lemma SortForgetsOrder(values: seq<int>, others: seq<int>)
    requires multiset(values) == multiset(others)
    ensures Sort(values) == Sort(others) && |values| == |others|
  {
    SortSorts(values);
    SortSorts(others);
    AscendingIsUnique(Sort(values), Sort(others));
  }

  // ---------- the statistics of a run ----------

  /** `int(median(values))`: the mean of the two middle values is cut towards zero. */
  function Median(values: seq<int>): Option<int> {
    if values == [] then None
    else
      var s, n := Sort(values), |values|;
      if n % 2 == 1 then Some(s[n / 2])
      else
        var total := s[n / 2 - 1] + s[n / 2];
        Some(if total >= 0 then total / 2 else -(-total / 2))
  }

  /** Latencies of the valid successful observations. */
  function Latencies(es: seq<Execution>): (ls: seq<int>)
    ensures forall k :: 0 <= k < |ls| ==> ls[k] >= 0
  {
    if es == [] then []
    else
      var rest := Latencies(es[..|es| - 1]);
      var e := es[|es| - 1];
      if e.outcome == Success && e.validity == Valid && e.latency.Some? then rest + [e.latency.value] else rest
  }

  /** The rows that count. */
  predicate CountsIn(e: Execution) { e.outcome == Success && e.validity == Valid && e.latency.Some? }

  function RowsOf(es: seq<Execution>, x: int): set<nat> {
    set k: nat | k < |es| && CountsIn(es[k]) && es[k].latency.value == x
  }

  lemma OneMoreRow(es: seq<Execution>, e: Execution, x: int)
    ensures |RowsOf(es + [e], x)| == |RowsOf(es, x)| + if CountsIn(e) && e.latency.value == x then 1 else 0
  {
    var before, all := RowsOf(es, x), RowsOf(es + [e], x);
    assert all == if CountsIn(e) && e.latency.value == x then before + {|es|} else before;
  }

  /** Every counting row contributes its latency, each as often as it occurs, and no other row does. */
  lemma {:induction false} LatenciesAreThose(es: seq<Execution>, x: int)
    ensures multiset(Latencies(es))[x] == |set k: nat | k < |es| && CountsIn(es[k]) && es[k].latency.value == x|
  {
    assert RowsOf(es, x) == set k: nat | k < |es| && CountsIn(es[k]) && es[k].latency.value == x;
    if es == [] {
      assert RowsOf(es, x) == {};
    } else {
      var n := |es| - 1;
      assert es == es[..n] + [es[n]];
      LatenciesAreThose(es[..n], x);
      OneMoreRow(es[..n], es[n], x);
      assert RowsOf(es[..n], x) == set k: nat | k < n && CountsIn(es[..n][k]) && es[..n][k].latency.value == x;
    }
  }

  /** The median of a sample is its middle value or, of two, the whole part of their mean. */
  lemma MedianIsMiddle(values: seq<int>)
    requires values != []
    ensures |Sort(values)| == |values|
    ensures var s, n, m := Sort(values), |values|, Median(values);
      && m.Some? && (n % 2 == 1 ==> m.value == s[(n - 1) / 2])
      && (n % 2 == 0 ==> WholePart(m.value, s[n / 2 - 1] + s[n / 2]))
  {
    SortSorts(values);
    var n := |values|;
    if n % 2 == 0 { HalfIsWholePart(Sort(values)[n / 2 - 1] + Sort(values)[n / 2]); }
  }

  /** `half` is half of the total, cut towards zero. */
  predicate WholePart(half: int, total: int) {
    if total >= 0 then 2 * half <= total <= 2 * half + 1 else 2 * half - 1 <= total <= 2 * half
  }

  lemma HalfIsWholePart(total: int)
    ensures WholePart(if total >= 0 then total / 2 else -(-total / 2), total)
  {
  }

  datatype Summary = Summary(count: nat, p50: Option<int>, p90: Option<int>, p95: Option<int>)

  /** `latency_statistics` */
  function LatencyStatistics(es: seq<Execution>): Summary {
    var values := Latencies(es);
    Summary(|values|, Median(values), Percentile(values, 9, 10), Percentile(values, 19, 20))
  }

  lemma RanksAreOrdered(n: nat)
    requires n > 0
    ensures n / 2 <= Rank(n, 9, 10) <= Rank(n, 19, 20)
  {
    CeilingBounds(n, 9, 10);
    CeilingBounds(n, 19, 20);
  }

  lemma SortedMembers(values: seq<int>, k: nat)
    requires k < |values| && forall j :: 0 <= j < |values| ==> values[j] >= 0
    ensures Sort(values)[k] >= 0
  {
    SortSorts(values);
    assert Sort(values)[k] in multiset(Sort(values));
    assert Sort(values)[k] in values;
  }

  /** The median lies between zero and the upper middle value. */
  lemma MedianBounds(values: seq<int>)
    requires values != [] && forall j :: 0 <= j < |values| ==> values[j] >= 0
    ensures Median(values).Some? && 0 <= Median(values).value <= Sort(values)[|values| / 2]
  {
    var n := |values|;
    SortSorts(values);
    SortedMembers(values, n / 2);
    if n % 2 == 0 {
      SortedMembers(values, n / 2 - 1);
      assert Sort(values)[n / 2 - 1] <= Sort(values)[n / 2];
    }
  }

  lemma LaterIsLarger(s: seq<int>, j: nat, k: nat)
    requires Ascending(s) && j <= k < |s|
    ensures s[j] <= s[k]
  {
  }

  /** The summary counts the valid successes with a latency; nine tenths of them took at most the p90 and nineteen
      twentieths at most the p95, and of less time neither can be said. */
  lemma SummaryMeans(es: seq<Execution>)
    ensures var s, ls := LatencyStatistics(es), Latencies(es);
      && s.count == |set k: nat | k < |es| && CountsIn(es[k])|
      && s.p50 == Median(ls)
      && (s.p90.Some? ==> 10 * AtMost(ls, s.p90.value) >= 9 * |ls| && 10 * Under(ls, s.p90.value) < 9 * |ls|)
      && (s.p95.Some? ==> 20 * AtMost(ls, s.p95.value) >= 19 * |ls| && 20 * Under(ls, s.p95.value) < 19 * |ls|)
  {
    var ls := Latencies(es);
    CountingRows(es);
    if ls != [] {
      PercentileIsNearestRank(ls, 9, 10);
      PercentileIsNearestRank(ls, 19, 20);
    }
  }

  lemma {:induction false} CountingRows(es: seq<Execution>)
    ensures |Latencies(es)| == |set k: nat | k < |es| && CountsIn(es[k])|
  {
    var all := set k: nat | k < |es| && CountsIn(es[k]);
    if es == [] {
      assert all == {};
    } else {
      var n := |es| - 1;
      CountingRows(es[..n]);
      var before := set k: nat | k < n && CountsIn(es[..n][k]);
      assert all == if CountsIn(es[n]) then before + {n} else before;
    }
  }

  /** For every run: p50 <= p90 <= p95 as soon as one observation counts, and nothing is claimed of none. */
  lemma StatisticsAreOrdered(es: seq<Execution>)
    ensures var s := LatencyStatistics(es);
      && (s.count == 0 <==> s.p50.None? && s.p90.None? && s.p95.None?)
      && (s.count > 0 ==>
            && s.p50.Some? && s.p90.Some? && s.p95.Some?
            && 0 <= s.p50.value <= s.p90.value <= s.p95.value)
  {
    var values := Latencies(es);
    if values != [] { OrderedStatistics(values); }
  }

  lemma OrderedStatistics(values: seq<int>)
    requires values != [] && forall j :: 0 <= j < |values| ==> values[j] >= 0
    ensures Median(values).Some?
    ensures 0 <= Median(values).value <= Percentile(values, 9, 10).value <= Percentile(values, 19, 20).value
  {
    var s, n := Sort(values), |values|;
    SortSorts(values);
    MedianBounds(values);
    RanksAreOrdered(n);
    LaterIsLarger(s, n / 2, Rank(n, 9, 10));
    LaterIsLarger(s, Rank(n, 9, 10), Rank(n, 19, 20));
  }
}
