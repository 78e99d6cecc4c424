/** `BenchmarkStats.get_all_statistics`: the log grouped by operation. */
module StatisticsReport {
  import opened Benchmark

  datatype Statistics = Statistics(count: nat, total: real, mean: real, median: real, min: real, max: real)

  function Sum(ts: seq<real>): real {
    if ts == [] then 0.0 else Sum(ts[..|ts| - 1]) + ts[|ts| - 1]
  }

  predicate Sorted(ts: seq<real>) {
    forall i, j :: 0 <= i < j < |ts| ==> ts[i] <= ts[j]
  }

  function Insert(x: real, ts: seq<real>): (r: seq<real>)
    ensures |r| == |ts| + 1
    ensures r[0] == if ts == [] || x <= ts[0] then x else ts[0]
    ensures Sorted(ts) ==> Sorted(r)
  {
    if ts == [] || x <= ts[0] then [x] + ts else [ts[0]] + Insert(x, ts[1..])
  }

  lemma {:induction false} InsertKeeps(x: real, ts: seq<real>)
    ensures multiset(Insert(x, ts)) == multiset(ts) + multiset{x}
  {
    if ts != [] && x > ts[0] {
      InsertKeeps(x, ts[1..]);
      assert ts == [ts[0]] + ts[1..];
    }
  }

  /** The values in order; Python's `sorted`. */
  function Sort(ts: seq<real>): (r: seq<real>)
    ensures |r| == |ts| && Sorted(r)
  {
    if ts == [] then [] else Insert(ts[0], Sort(ts[1..]))
  }

  lemma {:induction false} SortPermutes(ts: seq<real>)
    ensures multiset(Sort(ts)) == multiset(ts)
  {
    hide Insert, Sorted;
    if ts != [] {
      SortPermutes(ts[1..]);
      InsertKeeps(ts[0], Sort(ts[1..]));
      assert ts == [ts[0]] + ts[1..];
    }
  }

  function Median(ts: seq<real>): real
    requires ts != []
  {
    var s := Sort(ts);
    var h := |s| / 2;
    if |s| % 2 == 1 then s[h] else (s[h - 1] + s[h]) / 2.0
  }

  function StatisticsOf(ts: seq<real>): Statistics
    requires ts != []
  {
    var s := Sort(ts);
    Statistics(|ts|, Sum(ts), Sum(ts) / |ts| as real, Median(ts), s[0], s[|s| - 1])
  }

  /** The elapsed times of one operation, in log order. */
  function Times(es: seq<Entry>, op: Operation): seq<real> {
    if es == [] then []
    else Times(es[..|es| - 1], op) + if es[|es| - 1].operation == op then [es[|es| - 1].elapsed] else []
  }

  method GetAllStatistics(log: seq<Entry>) returns (r: map<Operation, Statistics>)
    ensures forall op :: op in r <==> Times(log, op) != []
    ensures forall op :: op in r ==> r[op] == StatisticsOf(Times(log, op))
  {
    hide Sort, Sum;
    var opStats: map<Operation, seq<real>> := map[];
    for k := 0 to |log|
      invariant forall op :: op in opStats <==> Times(log[..k], op) != []
      invariant forall op :: op in opStats ==> opStats[op] == Times(log[..k], op)
    {
      var op := log[k].operation;
      var times := if op in opStats then opStats[op] else [];
      opStats := opStats[op := times + [log[k].elapsed]];
      assert log[..k + 1][..k] == log[..k];
    }
    assert log[..|log|] == log;
    r := map[];
    var left := opStats.Keys;
    while left != {}
      invariant left <= opStats.Keys && r.Keys == opStats.Keys - left
      invariant forall op :: op in r ==> r[op] == StatisticsOf(Times(log, op))
      decreases left
    {
      var op :| op in left;
      r := r[op := StatisticsOf(opStats[op])];
      left := left - {op};
    }
  }

  // ---------- the groups partition the log ----------

  /** The groups are disjoint and complete: counts and totals add up. */
  lemma {:induction false} GroupsPartitionLog(es: seq<Entry>)
    ensures |Times(es, SNAPSHOT)| + |Times(es, RESTORE)| + |Times(es, CONTAINER)| + |Times(es, EXEC)| == |es|
    ensures Sum(Times(es, SNAPSHOT)) + Sum(Times(es, RESTORE)) + Sum(Times(es, CONTAINER)) + Sum(Times(es, EXEC))
      == Sum(Elapsed(es))
  {
    if es != [] {
      var n := |es| - 1;
      GroupsPartitionLog(es[..n]);
      assert Elapsed(es)[..n] == Elapsed(es[..n]);
      SumAppend(es, SNAPSHOT);
      SumAppend(es, RESTORE);
      SumAppend(es, CONTAINER);
      SumAppend(es, EXEC);
    }
  }

  function Elapsed(es: seq<Entry>): seq<real> {
    seq(|es|, i requires 0 <= i < |es| => es[i].elapsed)
  }

  lemma SumOne(ts: seq<real>, x: real)
    ensures Sum(ts + [x]) == Sum(ts) + x
  {
    assert (ts + [x])[..|ts|] == ts;
  }

  lemma SumAppend(es: seq<Entry>, op: Operation)
    requires es != []
    ensures Sum(Times(es, op)) == Sum(Times(es[..|es| - 1], op))
      + if es[|es| - 1].operation == op then es[|es| - 1].elapsed else 0.0
  {
    hide Sum;
    var before, last := Times(es[..|es| - 1], op), es[|es| - 1];
    if last.operation == op {
      SumOne(before, last.elapsed);
    } else {
      assert before + [] == before;
    }
  }

  /** The report's counts and totals are those of the log's own account. */
  lemma {:induction false} ReportAgreesWithLog(es: seq<Entry>, op: Operation)
    ensures |Times(es, op)| == Count(es, op) && Sum(Times(es, op)) == TimeOf(es, op)
  {
    if es != [] {
      ReportAgreesWithLog(es[..|es| - 1], op);
      SumAppend(es, op);
    }
  }

  /** The positions of one operation in the log. */
  function Positions(es: seq<Entry>, op: Operation): seq<nat> {
    if es == [] then []
    else Positions(es[..|es| - 1], op) + if es[|es| - 1].operation == op then [|es| - 1] else []
  }

  /** A group is the subsequence of its operation: its positions increase, are
      exactly those of the operation, and carry its times. */
  lemma {:induction false} GroupIsSubsequence(es: seq<Entry>, op: Operation)
    ensures var ps := Positions(es, op);
      && |ps| == |Times(es, op)|
      && (forall k :: 0 <= k < |ps| ==>
            ps[k] < |es| && es[ps[k]].operation == op && Times(es, op)[k] == es[ps[k]].elapsed)
      && (forall j, k :: 0 <= j < k < |ps| ==> ps[j] < ps[k])
      && (forall i :: 0 <= i < |es| && es[i].operation == op ==> i in ps)
  {
    if es != [] {
      var n := |es| - 1;
      GroupIsSubsequence(es[..n], op);
      var ps := Positions(es[..n], op);
      forall i | 0 <= i < |es| && es[i].operation == op ensures i in Positions(es, op) {
        if i < n { assert es[..n][i].operation == op; } else { assert Positions(es, op)[|ps|] == n; }
      }
    }
  }

  // ---------- min, median, mean, max ----------

  lemma {:induction false} SumBounds(ts: seq<real>, lo: real, hi: real)
    requires forall i :: 0 <= i < |ts| ==> lo <= ts[i] <= hi
    ensures lo * |ts| as real <= Sum(ts) <= hi * |ts| as real
  {
    if ts != [] {
      SumBounds(ts[..|ts| - 1], lo, hi);
    }
  }

  lemma MeanBetween(total: real, n: nat, lo: real, hi: real)
    requires n > 0 && lo * n as real <= total <= hi * n as real
    ensures lo <= total / n as real <= hi
  {
    var mean := total / n as real;
    assert mean * n as real == total;
  }

  function CountIf(ts: seq<real>, low: bool, m: real): nat {
    if ts == [] then 0
    else CountIf(ts[1..], low, m) + if (low && ts[0] <= m) || (!low && ts[0] >= m) then 1 else 0
  }

  lemma {:induction false} CountIfBlock(ts: seq<real>, low: bool, m: real, from: nat, to: nat)
    requires from <= to <= |ts|
    requires forall i :: from <= i < to ==> if low then ts[i] <= m else ts[i] >= m
    ensures CountIf(ts, low, m) >= to - from
    decreases |ts|
  {
    if ts != [] && to > 0 {
      CountIfBlock(ts[1..], low, m, if from == 0 then 0 else from - 1, to - 1);
    }
  }

  lemma {:induction false} CountIfRemove(ts: seq<real>, low: bool, m: real, k: nat)
    requires k < |ts|
    ensures CountIf(ts, low, m)
      == CountIf(ts[..k] + ts[k + 1..], low, m) + if (low && ts[k] <= m) || (!low && ts[k] >= m) then 1 else 0
  {
    var rest := ts[..k] + ts[k + 1..];
    if k == 0 {
      assert rest == ts[1..];
    } else {
      CountIfRemove(ts[1..], low, m, k - 1);
      assert rest[1..] == ts[1..][..k - 1] + ts[1..][k..];
      assert rest[0] == ts[0];
    }
  }

  lemma RemoveFirst(a: seq<real>, b: seq<real>, k: nat)
    requires a != [] && k < |b| && b[k] == a[0] && multiset(a) == multiset(b)
    ensures multiset(a[1..]) == multiset(b[..k] + b[k + 1..])
  {
    assert a == [a[0]] + a[1..];
    assert b == b[..k] + [b[k]] + b[k + 1..];
    assert multiset(a[1..]) == multiset(a) - multiset{a[0]};
  }

  /** Counting does not depend on the order of the values. */
  lemma {:induction false} CountIfPermuted(a: seq<real>, b: seq<real>, low: bool, m: real)
    requires multiset(a) == multiset(b)
    ensures CountIf(a, low, m) == CountIf(b, low, m)
    decreases |a|
  {
    if a == [] {
      assert |b| == |multiset(b)| == |multiset(a)| == 0;
    } else {
      assert a[0] in multiset(b);
      var k :| 0 <= k < |b| && b[k] == a[0];
      RemoveFirst(a, b, k);
      CountIfPermuted(a[1..], b[..k] + b[k + 1..], low, m);
      CountIfRemove(b, low, m, k);
    }
  }

  lemma SortedHas(ts: seq<real>, x: real)
    ensures x in ts <==> x in Sort(ts)
  {
    SortPermutes(ts);
    assert x in ts <==> x in multiset(ts);
    assert x in Sort(ts) <==> x in multiset(Sort(ts));
  }

  /** The smallest and largest value bound the group and occur in it. */
  lemma ExtremesBound(ts: seq<real>)
    requires ts != []
    ensures var st := StatisticsOf(ts);
      && st.min in ts && st.max in ts && forall i :: 0 <= i < |ts| ==> st.min <= ts[i] <= st.max
  {
    hide Sort, Sum, Median;
    var s, st := Sort(ts), StatisticsOf(ts);
    SortedHas(ts, s[0]);
    SortedHas(ts, s[|s| - 1]);
    forall i | 0 <= i < |ts| ensures st.min <= ts[i] <= st.max {
      SortedHas(ts, ts[i]);
      var k :| 0 <= k < |s| && s[k] == ts[i];
    }
  }

  /** Two sorted arrangements of the same values are the same. */
  lemma {:induction false} SortedOnce(a: seq<real>, b: seq<real>)
    requires Sorted(a) && Sorted(b) && multiset(a) == multiset(b)
    ensures a == b
    decreases |a|
  {
    hide Sorted;
    SameSize(a, b);
    if a != [] {
      SameFirst(a, b);
      SameRest(a, b);
      SortedOnce(a[1..], b[1..]);
      assert a == [a[0]] + a[1..] && b == [b[0]] + b[1..];
    }
  }

  lemma SameSize(a: seq<real>, b: seq<real>)
    requires multiset(a) == multiset(b)
    ensures |a| == |b|
  {
    assert |a| == |multiset(a)| && |b| == |multiset(b)|;
  }

  lemma SameRest(a: seq<real>, b: seq<real>)
    requires Sorted(a) && Sorted(b) && multiset(a) == multiset(b) && a != [] && b != [] && a[0] == b[0]
    ensures Sorted(a[1..]) && Sorted(b[1..]) && multiset(a[1..]) == multiset(b[1..])
  {
    hide Sorted;
    TailSorted(a);
    TailSorted(b);
    RestOfGroup(a);
    RestOfGroup(b);
  }

  lemma RestOfGroup(ts: seq<real>)
    requires ts != []
    ensures multiset(ts[1..]) == multiset(ts) - multiset{ts[0]}
  {
    assert ts == [ts[0]] + ts[1..];
  }

  lemma TailSorted(ts: seq<real>)
    requires Sorted(ts) && ts != []
    ensures Sorted(ts[1..])
  {
  }

  lemma SameFirst(a: seq<real>, b: seq<real>)
    requires Sorted(a) && Sorted(b) && multiset(a) == multiset(b) && a != []
    ensures b != [] && a[0] == b[0]
  {
    assert a[0] in multiset(b);
    var j :| 0 <= j < |b| && b[j] == a[0];
    assert b[0] in multiset(a);
    var i :| 0 <= i < |a| && a[i] == b[0];
    assert b[0] <= b[j] && a[0] <= a[i];
  }

  /** The median, for any sorted arrangement of the group: the middle value, or
      the mean of the two middle ones if their number is even. */
  lemma {:induction false} MedianIsTheMiddle(ts: seq<real>, sorted: seq<real>)
    requires ts != [] && Sorted(sorted) && multiset(sorted) == multiset(ts)
    ensures |sorted| == |ts|
    ensures |ts| % 2 == 1 ==> StatisticsOf(ts).median == sorted[|ts| / 2]
    ensures |ts| % 2 == 0 ==> 2.0 * StatisticsOf(ts).median == sorted[|ts| / 2 - 1] + sorted[|ts| / 2]
  {
    hide Sum, Sort;
    SameSize(sorted, ts);
    SortPermutes(ts);
    SortedOnce(sorted, Sort(ts));
  }

  /** The median is between the two middle values. */
  lemma MedianInside(ts: seq<real>)
    requires ts != []
    ensures var s := Sort(ts); var h := |s| / 2;
      && (forall i :: 0 <= i < h ==> s[i] <= Median(ts))
      && (forall i :: h <= i < |s| ==> Median(ts) <= s[i])
      && (|s| % 2 == 1 ==> s[h] == Median(ts))
  {
    hide Sort;
    var s := Sort(ts);
    var h := |s| / 2;
    assert forall i :: 0 <= i < h ==> s[i] <= s[h];
    assert forall i :: h <= i < |s| ==> s[h] <= s[i];
    if |s| % 2 == 0 {
      assert forall i :: 0 <= i < h ==> s[i] <= s[h - 1];
      assert s[h - 1] <= s[h];
    }
  }

  /** At least half of the group lies on each side of the median. */
  lemma {:induction false} MedianSplits(ts: seq<real>)
    requires ts != []
    ensures 2 * CountIf(ts, true, Median(ts)) >= |ts| && 2 * CountIf(ts, false, Median(ts)) >= |ts|
  {
    hide Sort, CountIf;
    var s, m := Sort(ts), Median(ts);
    var n, h := |s|, |s| / 2;
    SortPermutes(ts);
    MedianInside(ts);
    CountIfBlock(s, true, m, 0, if n % 2 == 1 then h + 1 else h);
    CountIfBlock(s, false, m, h, n);
    CountIfPermuted(s, ts, true, m);
    CountIfPermuted(s, ts, false, m);
  }

  /** In every group min <= median <= max and min <= mean <= max. */
  lemma {:induction false} StatisticsOrdered(ts: seq<real>)
    requires ts != []
    ensures var st := StatisticsOf(ts);
      && st.count == |ts| && st.total == Sum(ts) && st.mean * st.count as real == st.total
      && st.min <= st.median <= st.max && st.min <= st.mean <= st.max
  {
    hide Sort, Sum, Median;
    var st := StatisticsOf(ts);
    ExtremesBound(ts);
    SumBounds(ts, st.min, st.max);
    MeanBetween(Sum(ts), |ts|, st.min, st.max);
    MedianInside(ts);
    var s := Sort(ts);
    assert |s| % 2 == 1 || |s| / 2 > 0;
  }
}
