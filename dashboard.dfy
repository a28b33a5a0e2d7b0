/** The aggregation rules of the dashboard endpoints (server/routers.ts):
    `getOverview` (average storage, total rainfall, the risk-level histogram)
    and `getRealtimeOverview` (the no-data branch, the totals and the
    reservoirs ordered by storage percentage, fullest first). */
module Dashboard {
  import opened Wrappers
  import Risk
  import Reservoirs

  // ---------------------------------------------------------------------
  // Sums and averages

  function Sum(xs: seq<real>): real {
    if xs == [] then 0.0 else xs[0] + Sum(xs[1..])
  }

  /** The sum of values that are each in [lo, hi] lies in [n·lo, n·hi]. */
  lemma {:induction false} SumBounds(xs: seq<real>, lo: real, hi: real)
    requires forall i :: 0 <= i < |xs| ==> lo <= xs[i] <= hi
    ensures |xs| as real * lo <= Sum(xs) <= |xs| as real * hi
  {
    if xs != [] {
      SumBounds(xs[1..], lo, hi);
      assert |xs| as real * lo == lo + (|xs| - 1) as real * lo;
      assert |xs| as real * hi == hi + (|xs| - 1) as real * hi;
    }
  }

  /** The average of a list, 0 for an empty one. */
  function Average(xs: seq<real>): (avg: real)
    ensures xs == [] ==> avg == 0.0
    ensures xs != [] ==> avg * |xs| as real == Sum(xs)
  {
    if |xs| > 0 then
      var total, count := Sum(xs), |xs| as real;
      var q := total / count;
      assert q * count == total;
      q
    else 0.0
  }

  /** An average of values in [lo, hi] is in [lo, hi]; an empty list averages 0. */
  lemma AverageBounds(xs: seq<real>, lo: real, hi: real)
    requires forall i :: 0 <= i < |xs| ==> lo <= xs[i] <= hi
    ensures xs == [] ==> Average(xs) == 0.0
    ensures xs != [] ==> lo <= Average(xs) <= hi
  {
    if xs != [] {
      SumBounds(xs, lo, hi);
      var n := |xs| as real;
      var avg := Sum(xs) / n;
      assert avg * n == Sum(xs);
      if avg < lo {
        assert avg * n < lo * n;
      }
      if avg > hi {
        assert avg * n > hi * n;
      }
    }
  }

  // ---------------------------------------------------------------------
  // getOverview

  /** `Number(x || 0)` of a nullable numeric column. */
  function NumberOrZero(x: Option<real>): real {
    x.GetOr(0.0)
  }

  function OrZeroAll(xs: seq<Option<real>>): (ys: seq<real>)
    ensures |ys| == |xs|
    ensures forall i :: 0 <= i < |xs| ==> ys[i] == NumberOrZero(xs[i])
  {
    if xs == [] then [] else [NumberOrZero(xs[0])] + OrZeroAll(xs[1..])
  }

  /** How many of the assessments carry `level`. */
  function CountLevel(levels: seq<Option<Risk.RiskLevel>>, level: Risk.RiskLevel): (n: nat)
    ensures n == multiset(levels)[Some(level)]
  {
    if levels == [] then 0
    else
      assert levels == [levels[0]] + levels[1..];
      (if levels[0] == Some(level) then 1 else 0) + CountLevel(levels[1..], level)
  }

  /** How many rows carry an assessment at all. */
  function CountPresent(levels: seq<Option<Risk.RiskLevel>>): (n: nat)
    ensures n <= |levels|
    ensures n == |levels| <==> forall i :: 0 <= i < |levels| ==> levels[i].Some?
  {
    if levels == [] then 0
    else (if levels[0].Some? then 1 else 0) + CountPresent(levels[1..])
  }

  datatype RiskDistribution = RiskDistribution(low: nat, moderate: nat, high: nat, critical: nat)

  function Distribution(levels: seq<Option<Risk.RiskLevel>>): RiskDistribution {
    RiskDistribution(
      CountLevel(levels, Risk.Low), CountLevel(levels, Risk.Moderate),
      CountLevel(levels, Risk.High), CountLevel(levels, Risk.Critical))
  }

  datatype Overview = Overview(
    avgStoragePercentage: real,
    totalDailyRainfall: real,
    riskDistribution: RiskDistribution)

  /** getOverview over the latest rows: each reservoir's storage percentage
      (None where it has no water-level record or the value is null), each
      station's daily rainfall, and each district's latest risk level (None
      where the row carries no assessment). */
  function GetOverview(storage: seq<Option<real>>, rainfall: seq<Option<real>>,
                       levels: seq<Option<Risk.RiskLevel>>): (o: Overview)
    ensures o.avgStoragePercentage == Average(OrZeroAll(storage))
    ensures o.totalDailyRainfall == Sum(OrZeroAll(rainfall))
    ensures o.riskDistribution.low == multiset(levels)[Some(Risk.Low)]
    ensures o.riskDistribution.moderate == multiset(levels)[Some(Risk.Moderate)]
    ensures o.riskDistribution.high == multiset(levels)[Some(Risk.High)]
    ensures o.riskDistribution.critical == multiset(levels)[Some(Risk.Critical)]
  {
    var avg := Average(OrZeroAll(storage));
    Overview(avg, Sum(OrZeroAll(rainfall)), Distribution(levels))
  }

  /** The four buckets together count every row that carries an assessment:
      at most the number of rows, and all of them when none is missing. */
  lemma {:induction false} DistributionTotal(levels: seq<Option<Risk.RiskLevel>>)
    ensures var d := Distribution(levels);
      d.low + d.moderate + d.high + d.critical == CountPresent(levels)
    ensures var d := Distribution(levels);
      d.low + d.moderate + d.high + d.critical <= |levels|
    ensures (forall i :: 0 <= i < |levels| ==> levels[i].Some?) ==>
      var d := Distribution(levels);
      d.low + d.moderate + d.high + d.critical == |levels|
  {
    if levels != [] {
      DistributionTotal(levels[1..]);
      var head, tail := levels[0], levels[1..];
      assert CountLevel(levels, Risk.Low) == (if head == Some(Risk.Low) then 1 else 0) + CountLevel(tail, Risk.Low);
      assert CountLevel(levels, Risk.Moderate) == (if head == Some(Risk.Moderate) then 1 else 0) + CountLevel(tail, Risk.Moderate);
      assert CountLevel(levels, Risk.High) == (if head == Some(Risk.High) then 1 else 0) + CountLevel(tail, Risk.High);
      assert CountLevel(levels, Risk.Critical) == (if head == Some(Risk.Critical) then 1 else 0) + CountLevel(tail, Risk.Critical);
      assert CountPresent(levels) == (if head.Some? then 1 else 0) + CountPresent(tail);
      if head.Some? {
        assert head.value == Risk.Low || head.value == Risk.Moderate
            || head.value == Risk.High || head.value == Risk.Critical;
      }
    }
  }

  /** Storage percentages in [0, 100] average into [0, 100]; with none, 0. */
  lemma OverviewAverageInRange(storage: seq<Option<real>>, rainfall: seq<Option<real>>,
                               levels: seq<Option<Risk.RiskLevel>>)
    requires forall i :: 0 <= i < |storage| ==> 0.0 <= NumberOrZero(storage[i]) <= 100.0
    ensures 0.0 <= GetOverview(storage, rainfall, levels).avgStoragePercentage <= 100.0
  {
    AverageBounds(OrZeroAll(storage), 0.0, 100.0);
  }

  /** A reservoir without a percentage counts as 0 and pulls the average down. */
  lemma MissingStorageCountsAsZero()
    ensures GetOverview([Some(80.0), None], [], []).avgStoragePercentage == 40.0
  {
    assert OrZeroAll([Some(80.0), None]) == [80.0, 0.0];
    assert Sum([80.0, 0.0]) == 80.0;
  }

  // ---------------------------------------------------------------------
  // getRealtimeOverview

  /** `a` comes no later than `b` in the fullest-first order. */
  predicate FullerOrEqual(a: Reservoirs.Reservoir, b: Reservoirs.Reservoir) {
    a.storagePercentage >= b.storagePercentage
  }

  predicate IsDescending(s: seq<Reservoirs.Reservoir>) {
    forall i, j :: 0 <= i < j < |s| ==> FullerOrEqual(s[i], s[j])
  }

  /** Inserts `x` before the first element no fuller than it, which keeps
      equal percentages in their original order. */
  function InsertDescending(x: Reservoirs.Reservoir, sorted: seq<Reservoirs.Reservoir>)
    : (r: seq<Reservoirs.Reservoir>)
    requires IsDescending(sorted)
    ensures IsDescending(r)
    ensures forall y :: y in r ==> y == x || y in sorted
    ensures multiset(r) == multiset(sorted) + multiset{x}
  {
    if sorted == [] then [x]
    else if FullerOrEqual(x, sorted[0]) then [x] + sorted
    else
      var head, tail := sorted[0], sorted[1..];
      var rest := InsertDescending(x, tail);
      HeadIsFullest(sorted);
      assert forall y :: y in rest ==> FullerOrEqual(head, y);
      assert sorted == [head] + tail;
      var r := [head] + rest;
      assert forall k :: 0 < k < |r| ==> r[k] == rest[k - 1];
      r
  }

  /** The head of a fullest-first list is at least as full as every element. */
  lemma HeadIsFullest(sorted: seq<Reservoirs.Reservoir>)
    requires IsDescending(sorted) && sorted != []
    ensures IsDescending(sorted[1..])
    ensures forall y :: y in sorted ==> FullerOrEqual(sorted[0], y)
  {
    forall y | y in sorted
      ensures FullerOrEqual(sorted[0], y)
    {
      var j :| 0 <= j < |sorted| && sorted[j] == y;
      if j > 0 {
        assert FullerOrEqual(sorted[0], sorted[j]);
      }
    }
  }

  /** The sort in `getRealtimeOverview`: fullest first, a permutation of the input. */
  function SortByStorageDescending(s: seq<Reservoirs.Reservoir>): (r: seq<Reservoirs.Reservoir>)
    ensures IsDescending(r)
    ensures multiset(r) == multiset(s)
    ensures |r| == |s|
  {
    if s == [] then []
    else
      assert s == [s[0]] + s[1..];
      InsertDescending(s[0], SortByStorageDescending(s[1..]))
  }

  /** The parsed value of each reading, 0 where one does not parse. */
  function Values(rs: seq<Reservoirs.Reading>): (vs: seq<real>)
    ensures |vs| == |rs| && forall i :: 0 <= i < |rs| ==> vs[i] == rs[i].parsed.GetOr(0.0)
  {
    if rs == [] then [] else [rs[0].parsed.GetOr(0.0)] + Values(rs[1..])
  }

  /** Sum of the parsed readings, None (NaN) as soon as one does not parse. */
  function SumReadings(rs: seq<Reservoirs.Reading>): (total: Option<real>)
    ensures total.None? <==> exists i :: 0 <= i < |rs| && rs[i].parsed.None?
    ensures (forall i :: 0 <= i < |rs| ==> rs[i].parsed.Some?) ==> total == Some(Sum(Values(rs)))
  {
    if rs == [] then Some(0.0)
    else
      var rest := SumReadings(rs[1..]);
      assert forall i :: 1 <= i < |rs| ==> rs[i] == rs[1..][i - 1];
      match (rs[0].parsed, rest)
      case (Some(v), Some(t)) => Some(v + t)
      case _ => None
  }

  function Inflows(s: seq<Reservoirs.Reservoir>): (r: seq<Reservoirs.Reading>)
    ensures |r| == |s| && forall i :: 0 <= i < |s| ==> r[i] == s[i].inflow
  {
    if s == [] then [] else [s[0].inflow] + Inflows(s[1..])
  }

  function Outflows(s: seq<Reservoirs.Reservoir>): (r: seq<Reservoirs.Reading>)
    ensures |r| == |s| && forall i :: 0 <= i < |s| ==> r[i] == s[i].outflow
  {
    if s == [] then [] else [s[0].outflow] + Outflows(s[1..])
  }

  function Percentages(s: seq<Reservoirs.Reservoir>): (r: seq<real>)
    ensures |r| == |s| && forall i :: 0 <= i < |s| ==> r[i] == s[i].storagePercentage
  {
    if s == [] then [] else [s[0].storagePercentage] + Percentages(s[1..])
  }

  /** Where the list came from, as the `source` field reports it. */
  datatype Source = NoData | WraOpenData | Error

  /** What reading the feed did: it threw, or it returned (possibly null). */
  datatype Fetch = Threw | Returned(data: Option<seq<Reservoirs.Reservoir>>)

  datatype RealtimeOverview = RealtimeOverview(
    reservoirs: seq<Reservoirs.Reservoir>,
    avgStoragePercentage: real,
    totalInflow: Option<real>,
    totalOutflow: Option<real>,
    source: Source)

  /** The overview of a non-empty list. */
  function Summarize(d: seq<Reservoirs.Reservoir>): (o: RealtimeOverview)
    requires d != []
    ensures o.source == WraOpenData
    ensures IsDescending(o.reservoirs)
    ensures multiset(o.reservoirs) == multiset(d)
    ensures o.avgStoragePercentage == Average(Percentages(d))
    ensures o.totalInflow.None? <==> exists i :: 0 <= i < |d| && d[i].inflow.parsed.None?
    ensures o.totalOutflow.None? <==> exists i :: 0 <= i < |d| && d[i].outflow.parsed.None?
    ensures (forall i :: 0 <= i < |d| ==> d[i].inflow.parsed.Some?) ==>
      o.totalInflow == Some(Sum(Values(Inflows(d))))
    ensures (forall i :: 0 <= i < |d| ==> d[i].outflow.parsed.Some?) ==>
      o.totalOutflow == Some(Sum(Values(Outflows(d))))
  {
    var avg := Average(Percentages(d));
    var inflow := SumReadings(Inflows(d));
    var outflow := SumReadings(Outflows(d));
    InflowTotal(d);
    OutflowTotal(d);
    RealtimeOverview(SortByStorageDescending(d), avg, inflow, outflow, WraOpenData)
  }

  /** The inflow total is NaN exactly when an inflow does not parse, and
      otherwise the sum of the inflows. */
  lemma InflowTotal(d: seq<Reservoirs.Reservoir>)
    ensures SumReadings(Inflows(d)).None? <==> exists i :: 0 <= i < |d| && d[i].inflow.parsed.None?
    ensures (forall i :: 0 <= i < |d| ==> d[i].inflow.parsed.Some?) ==>
      SumReadings(Inflows(d)) == Some(Sum(Values(Inflows(d))))
  {
    var rs := Inflows(d);
    assert (forall i :: 0 <= i < |d| ==> d[i].inflow.parsed.Some?) ==>
      forall i :: 0 <= i < |rs| ==> rs[i].parsed.Some?;
  }

  /** The same for the outflow total. */
  lemma OutflowTotal(d: seq<Reservoirs.Reservoir>)
    ensures SumReadings(Outflows(d)).None? <==> exists i :: 0 <= i < |d| && d[i].outflow.parsed.None?
    ensures (forall i :: 0 <= i < |d| ==> d[i].outflow.parsed.Some?) ==>
      SumReadings(Outflows(d)) == Some(Sum(Values(Outflows(d))))
  {
    var rs := Outflows(d);
    assert (forall i :: 0 <= i < |d| ==> d[i].outflow.parsed.Some?) ==>
      forall i :: 0 <= i < |rs| ==> rs[i].parsed.Some?;
  }

  /** getRealtimeOverview once the feed has been read. */
  function GetRealtimeOverview(fetch: Fetch): (o: RealtimeOverview)
    ensures fetch.Threw? ==> o == RealtimeOverview([], 0.0, Some(0.0), Some(0.0), Error)
    ensures fetch.Returned? && (fetch.data.None? || fetch.data.value == []) ==>
      o == RealtimeOverview([], 0.0, Some(0.0), Some(0.0), NoData)
    ensures o.source == WraOpenData <==> fetch.Returned? && fetch.data.Some? && fetch.data.value != []
    ensures o.source == WraOpenData ==> o == Summarize(fetch.data.value)
  {
    match fetch
    case Threw => RealtimeOverview([], 0.0, Some(0.0), Some(0.0), Error)
    case Returned(data) =>
      if data.None? || data.value == [] then RealtimeOverview([], 0.0, Some(0.0), Some(0.0), NoData)
      else Summarize(data.value)
  }

  /** Reading the whole feed and then the overview: a non-empty feed gives
      its transformed records, fullest first, each input record once. */
  lemma RealtimeOverviewOfFeed(daily: seq<Reservoirs.RawRecord>)
    requires daily != []
    ensures var o := GetRealtimeOverview(Returned(Reservoirs.GetAllReservoirsRealtime(Some(daily))));
      && o.source == WraOpenData
      && |o.reservoirs| == |daily|
      && IsDescending(o.reservoirs)
      && multiset(o.reservoirs) == multiset(Reservoirs.TransformReservoirData(daily))
  {
    var data := Reservoirs.TransformReservoirData(daily);
    assert |data| == |daily|;
    var o := GetRealtimeOverview(Returned(Some(data)));
    assert |o.reservoirs| == |SortByStorageDescending(data)|;
  }

  /** The totals read the defaulted fields, so a record without inflow adds 0. */
  lemma InflowDefaultAddsZero(item: Reservoirs.RawRecord)
    requires item.inflow.None?
    ensures SumReadings(Inflows([Reservoirs.TransformRecord(item)])) == Some(0.0)
  {
    assert Inflows([Reservoirs.TransformRecord(item)]) == [Reservoirs.Reading("0", Some(0.0))];
  }
}
