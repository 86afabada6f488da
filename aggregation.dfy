/** Per-attribute-set aggregation in the backend, as the export after a flush
    shows it: a counter sums the deltas of each series, a gauge keeps the last
    observed value of each series, a histogram keeps count, sum and bucket
    counts of each series. Each is given as a function of the recorded call log
    and as a store updated in place per call. */
module Aggregation {
  import opened Values
  import opened Params

  // ----- How the backend reads an argument list -----

  /** add(value, attributes = {}), record(...) and observe(...): a value that
      is not a number is discarded; missing attributes are {}. */
  function ReadCall(args: seq<Arg>): Option<Observation> {
    if |args| == 0 || !args[0].Number? then None
    else Some(Observation(args[0].x, if |args| >= 2 && args[1].Attributes? then args[1].attrs else map[]))
  }

  /** Monotonic instruments (counters and histograms) also discard negative values. */
  function Accepted(args: seq<Arg>): (r: Option<Observation>)
    ensures r.Some? <==> (|args| > 0 && args[0].Number? && args[0].x >= 0.0)
    ensures r.Some? ==> r.value.delta == args[0].x
  {
    match ReadCall(args)
    case None => None
    case Some(o) => if o.delta >= 0.0 then Some(o) else None
  }

  /** The counter wrapper's add always reaches the series of its normalised
      attributes, when its delta is not negative. */
  lemma CounterCallAccepted(c: CallShape)
    ensures Normalise(c).delta >= 0.0 ==> Accepted(CounterAddArgs(c)) == Some(Normalise(c))
    ensures Normalise(c).delta < 0.0 ==> Accepted(CounterAddArgs(c)).None?
  {
  }

  /** A summary's record is read as a value exactly when it carried one, and
      it reaches a histogram series exactly when that value is not negative. */
  lemma SummaryCallAccepted(c: CallShape)
    ensures ReadCall(SummaryRecordArgs(c)).Some? <==> (c.Num? || c.AttrsNum?)
    ensures (c.Num? || c.AttrsNum?) ==> ReadCall(SummaryRecordArgs(c)) == Some(Normalise(c))
    ensures Accepted(SummaryRecordArgs(c)).Some? <==> (c.Num? || c.AttrsNum?) && Normalise(c).delta >= 0.0
    ensures Accepted(SummaryRecordArgs(c)).Some? ==> Accepted(SummaryRecordArgs(c)) == Some(Normalise(c))
  {
  }

  /** One call counts towards series `a`. */
  predicate InSeries(args: seq<Arg>, a: AttributeSet) {
    Accepted(args).Some? && Accepted(args).value.attributes == a
  }

  /** The number of accepted calls recorded under exactly `a`. */
  function SeriesCount(log: seq<seq<Arg>>, a: AttributeSet): nat
    decreases |log|
  {
    if log == [] then 0
    else SeriesCount(log[..|log| - 1], a) + (if InSeries(log[|log| - 1], a) then 1 else 0)
  }

  /** The sum of the values accepted under exactly `a`. */
  function SeriesTotal(log: seq<seq<Arg>>, a: AttributeSet): real
    decreases |log|
  {
    if log == [] then 0.0
    else SeriesTotal(log[..|log| - 1], a) + (if InSeries(log[|log| - 1], a) then Accepted(log[|log| - 1]).value.delta else 0.0)
  }

  /** The calls of one series, in order. */
  function OnlySeries(log: seq<seq<Arg>>, a: AttributeSet): (r: seq<seq<Arg>>)
    ensures forall i :: 0 <= i < |r| ==> InSeries(r[i], a)
    decreases |log|
  {
    if log == [] then []
    else OnlySeries(log[..|log| - 1], a) + (if InSeries(log[|log| - 1], a) then [log[|log| - 1]] else [])
  }

  lemma {:induction false} SeriesTotalNonNegative(log: seq<seq<Arg>>, a: AttributeSet)
    ensures SeriesTotal(log, a) >= 0.0
    decreases |log|
  {
    if log != [] {
      SeriesTotalNonNegative(log[..|log| - 1], a);
    }
  }

  /** A series with no accepted call has total 0. */
  lemma {:induction false} EmptySeries(log: seq<seq<Arg>>, a: AttributeSet)
    requires SeriesCount(log, a) == 0
    ensures SeriesTotal(log, a) == 0.0
    decreases |log|
  {
    if log != [] {
      EmptySeries(log[..|log| - 1], a);
    }
  }

  lemma {:induction false} SeriesOfConcat(x: seq<seq<Arg>>, y: seq<seq<Arg>>, a: AttributeSet)
    ensures SeriesTotal(x + y, a) == SeriesTotal(x, a) + SeriesTotal(y, a)
    ensures SeriesCount(x + y, a) == SeriesCount(x, a) + SeriesCount(y, a)
    decreases |y|
  {
    if y == [] {
      assert x + y == x;
    } else {
      var y' := y[..|y| - 1];
      assert (x + y)[..|x + y| - 1] == x + y';
      assert (x + y)[|x + y| - 1] == y[|y| - 1];
      SeriesOfConcat(x, y', a);
    }
  }

  /** A series sees only its own calls: dropping every other series' calls
      changes neither its count nor its total. */
  lemma {:induction false} SeriesIndependent(log: seq<seq<Arg>>, a: AttributeSet)
    ensures SeriesTotal(OnlySeries(log, a), a) == SeriesTotal(log, a)
    ensures SeriesCount(OnlySeries(log, a), a) == SeriesCount(log, a)
    decreases |log|
  {
    if log != [] {
      var p := log[..|log| - 1];
      var last := log[|log| - 1];
      SeriesIndependent(p, a);
      var tail := if InSeries(last, a) then [last] else [];
      SeriesOfConcat(OnlySeries(p, a), tail, a);
      if InSeries(last, a) {
        assert [last][..0] == [];
      }
    }
  }

  // ----- Counter -----

  function Lookup(m: map<AttributeSet, real>, a: AttributeSet): real {
    if a in m then m[a] else 0.0
  }

  function AddToSums(sums: map<AttributeSet, real>, args: seq<Arg>): map<AttributeSet, real> {
    match Accepted(args)
    case None => sums
    case Some(o) => sums[o.attributes := Lookup(sums, o.attributes) + o.delta]
  }

  /** The cumulative sum of every series after the calls of `log`, in order. */
  function CounterTotals(log: seq<seq<Arg>>): map<AttributeSet, real>
    decreases |log|
  {
    if log == [] then map[] else AddToSums(CounterTotals(log[..|log| - 1]), log[|log| - 1])
  }

  /** A counter exports exactly the series that received an accepted call,
      each with the sum of its own accepted deltas. */
  lemma {:induction false} CounterSeries(log: seq<seq<Arg>>, a: AttributeSet)
    ensures a in CounterTotals(log) <==> SeriesCount(log, a) > 0
    ensures Lookup(CounterTotals(log), a) == SeriesTotal(log, a)
    decreases |log|
  {
    if log != [] {
      CounterSeries(log[..|log| - 1], a);
    }
  }

  /** A counter series never decreases as calls are added. */
  lemma CounterMonotone(log: seq<seq<Arg>>, more: seq<seq<Arg>>, a: AttributeSet)
    ensures Lookup(CounterTotals(log + more), a) >= Lookup(CounterTotals(log), a)
  {
    CounterSeries(log + more, a);
    CounterSeries(log, a);
    SeriesOfConcat(log, more, a);
    SeriesTotalNonNegative(more, a);
  }

  /** The counter store: one running sum per attribute set, updated in place. */
  class CounterStorage {
    var sums: map<AttributeSet, real>
    ghost var log: seq<seq<Arg>>

    ghost predicate Valid()
      reads this
    {
      sums == CounterTotals(log)
    }

    constructor ()
      ensures Valid() && log == []
    {
      sums := map[];
      log := [];
    }

    method Add(args: seq<Arg>)
      requires Valid()
      modifies this
      ensures Valid() && log == old(log) + [args]
      ensures sums == AddToSums(old(sums), args)
    {
      sums := AddToSums(sums, args);
      log := log + [args];
      assert log[..|log| - 1] == old(log);
    }

    /** The exported value of series `a`: the sum of its accepted deltas. */
    method Value(a: AttributeSet) returns (v: real, present: bool)
      requires Valid()
      ensures present <==> SeriesCount(log, a) > 0
      ensures v == SeriesTotal(log, a)
    {
      CounterSeries(log, a);
      present := a in sums;
      v := Lookup(sums, a);
    }
  }

  // ----- Gauge -----

  /** The last value observed for every series during a collection. */
  function GaugePoints(observed: seq<seq<Arg>>): map<AttributeSet, real>
    decreases |observed|
  {
    if observed == [] then map[]
    else ObserveInto(GaugePoints(observed[..|observed| - 1]), observed[|observed| - 1])
  }

  /** One observation overwrites the value of its series. */
  function ObserveInto(last: map<AttributeSet, real>, args: seq<Arg>): map<AttributeSet, real> {
    match ReadCall(args)
    case None => last
    case Some(o) => last[o.attributes := o.delta]
  }

  /** A gauge collection that observed (value, attrs) once exports a single
      point: that value under those attributes, and never an earlier value. */
  lemma GaugeSinglePoint(value: real, attrs: AttributeSet)
    ensures GaugePoints([[Number(value), Attributes(attrs)]]) == map[attrs := value]
  {
    assert [[Number(value), Attributes(attrs)]][..0] == [];
  }

  /** The gauge store: the last value of every series, overwritten in place. */
  class GaugeStorage {
    var last: map<AttributeSet, real>
    ghost var observed: seq<seq<Arg>>

    ghost predicate Valid()
      reads this
    {
      last == GaugePoints(observed)
    }

    constructor ()
      ensures Valid() && observed == []
    {
      last := map[];
      observed := [];
    }

    method Observe(args: seq<Arg>)
      requires Valid()
      modifies this
      ensures Valid() && observed == old(observed) + [args]
      ensures last == ObserveInto(old(last), args)
      ensures ReadCall(args).Some? ==> last[ReadCall(args).value.attributes] == ReadCall(args).value.delta
    {
      last := ObserveInto(last, args);
      observed := observed + [args];
      assert observed[..|observed| - 1] == old(observed);
    }
  }

  // ----- Histogram -----

  /** Explicit-bucket histogram point of one series. */
  datatype Point = Point(count: nat, sum: real, bucketCounts: seq<nat>)

  /** The bucket of value v: the first bound v does not exceed, or the
      overflow bucket |bounds| when v exceeds every bound. */
  function BucketIndex(bounds: seq<real>, v: real): (i: nat)
    ensures i <= |bounds|
    ensures i < |bounds| ==> v <= bounds[i]
    ensures forall j :: 0 <= j < i ==> v > bounds[j]
    decreases |bounds|
  {
    if bounds == [] then 0
    else if v <= bounds[0] then 0
    else 1 + BucketIndex(bounds[1..], v)
  }

  /** A value above every bound lands in the overflow bucket, and only such a value. */
  lemma OverflowBucket(bounds: seq<real>, v: real)
    ensures BucketIndex(bounds, v) == |bounds| <==> forall j :: 0 <= j < |bounds| ==> v > bounds[j]
  {
  }

  function Total(s: seq<nat>): nat
    decreases |s|
  {
    if s == [] then 0 else Total(s[..|s| - 1]) + s[|s| - 1]
  }

  lemma {:induction false} TotalIncrement(s: seq<nat>, i: nat)
    requires i < |s|
    ensures Total(s[i := s[i] + 1]) == Total(s) + 1
    decreases |s|
  {
    var t := s[i := s[i] + 1];
    assert t[..|t| - 1] == if i == |s| - 1 then s[..|s| - 1] else s[..|s| - 1][i := s[i] + 1];
    if i < |s| - 1 {
      TotalIncrement(s[..|s| - 1], i);
    }
  }

  lemma {:induction false} TotalZeros(n: nat)
    ensures Total(seq(n, _ => 0)) == 0
    decreases n
  {
    if n > 0 {
      assert seq(n, _ => 0)[..n - 1] == seq(n - 1, _ => 0);
      TotalZeros(n - 1);
    }
  }

  /** One bucket more than there are bounds, bucket counts summing to count,
      and at least one value: what every exported point satisfies. */
  predicate WellFormed(p: Point, bounds: seq<real>) {
    |p.bucketCounts| == |bounds| + 1 && Total(p.bucketCounts) == p.count && p.count > 0
  }

  function EmptyPoint(bounds: seq<real>): Point {
    Point(0, 0.0, seq(|bounds| + 1, _ => 0))
  }

  /** Adds one value to a point: count and sum grow, one bucket grows. */
  function RecordValue(p: Point, bounds: seq<real>, v: real): (r: Point)
    requires |p.bucketCounts| == |bounds| + 1 && Total(p.bucketCounts) == p.count
    ensures WellFormed(r, bounds)
    ensures r.count == p.count + 1 && r.sum == p.sum + v
    ensures r.bucketCounts == p.bucketCounts[BucketIndex(bounds, v) := p.bucketCounts[BucketIndex(bounds, v)] + 1]
  {
    var i := BucketIndex(bounds, v);
    TotalIncrement(p.bucketCounts, i);
    Point(p.count + 1, p.sum + v, p.bucketCounts[i := p.bucketCounts[i] + 1])
  }

  /** The point of every series after the calls of `log`, in order. */
  function HistogramPoints(bounds: seq<real>, log: seq<seq<Arg>>): (r: map<AttributeSet, Point>)
    ensures forall a :: a in r ==> WellFormed(r[a], bounds)
    decreases |log|
  {
    if log == [] then map[] else RecordInto(HistogramPoints(bounds, log[..|log| - 1]), bounds, log[|log| - 1])
  }

  /** One accepted value updates the point of its series, starting from an
      empty point for a new series. */
  function RecordInto(prev: map<AttributeSet, Point>, bounds: seq<real>, args: seq<Arg>): (r: map<AttributeSet, Point>)
    requires forall a :: a in prev ==> WellFormed(prev[a], bounds)
    ensures forall a :: a in r ==> WellFormed(r[a], bounds)
  {
    match Accepted(args)
    case None => prev
    case Some(o) =>
      if o.attributes in prev then
        assert WellFormed(prev[o.attributes], bounds);
        prev[o.attributes := RecordValue(prev[o.attributes], bounds, o.delta)]
      else
        TotalZeros(|bounds| + 1);
        prev[o.attributes := RecordValue(EmptyPoint(bounds), bounds, o.delta)]
  }

  /** A histogram exports exactly the series that received an accepted value;
      each point counts that series' values and sums them. */
  lemma {:induction false} HistogramSeries(bounds: seq<real>, log: seq<seq<Arg>>, a: AttributeSet)
    ensures a in HistogramPoints(bounds, log) <==> SeriesCount(log, a) > 0
    ensures a in HistogramPoints(bounds, log) ==>
      HistogramPoints(bounds, log)[a].count == SeriesCount(log, a) &&
      HistogramPoints(bounds, log)[a].sum == SeriesTotal(log, a)
    decreases |log|
  {
    if log != [] {
      HistogramSeries(bounds, log[..|log| - 1], a);
      if SeriesCount(log[..|log| - 1], a) == 0 {
        EmptySeries(log[..|log| - 1], a);
      }
    }
  }

  /** The number of accepted values of series `a` that fall in bucket `i`. */
  function SeriesBucketCount(bounds: seq<real>, log: seq<seq<Arg>>, a: AttributeSet, i: nat): nat
    decreases |log|
  {
    if log == [] then 0
    else
      var last := log[|log| - 1];
      SeriesBucketCount(bounds, log[..|log| - 1], a, i) +
        (if InSeries(last, a) && BucketIndex(bounds, Accepted(last).value.delta) == i then 1 else 0)
  }

  /** A series with no accepted value has nothing in any bucket. */
  lemma {:induction false} EmptySeriesBuckets(bounds: seq<real>, log: seq<seq<Arg>>, a: AttributeSet, i: nat)
    requires SeriesCount(log, a) == 0
    ensures SeriesBucketCount(bounds, log, a, i) == 0
    decreases |log|
  {
    if log != [] {
      EmptySeriesBuckets(bounds, log[..|log| - 1], a, i);
    }
  }

  /** Every bucket of an exported point counts exactly the values of its
      series that fall in that bucket. */
  lemma {:induction false} HistogramBuckets(bounds: seq<real>, log: seq<seq<Arg>>, a: AttributeSet, i: nat)
    requires i <= |bounds|
    ensures a in HistogramPoints(bounds, log) ==>
      HistogramPoints(bounds, log)[a].bucketCounts[i] == SeriesBucketCount(bounds, log, a, i)
    decreases |log|
  {
    if log != [] {
      var p := log[..|log| - 1];
      HistogramBuckets(bounds, p, a, i);
      HistogramSeries(bounds, p, a);
      if SeriesCount(p, a) == 0 {
        EmptySeriesBuckets(bounds, p, a, i);
      }
    }
  }

  /** The mean an exporter reports: sum divided by count. */
  function Mean(p: Point): (m: real)
    requires p.count > 0
    ensures m * (p.count as real) == p.sum
  {
    p.sum / (p.count as real)
  }

  /** The histogram store: one point per attribute set, updated in place. */
  class HistogramStorage {
    const bounds: seq<real>
    var points: map<AttributeSet, Point>
    ghost var log: seq<seq<Arg>>

    ghost predicate Valid()
      reads this
    {
      points == HistogramPoints(bounds, log)
    }

    constructor (bounds: seq<real>)
      ensures Valid() && log == [] && this.bounds == bounds
    {
      this.bounds := bounds;
      points := map[];
      log := [];
    }

    method Record(args: seq<Arg>)
      requires Valid()
      modifies this
      ensures Valid() && log == old(log) + [args]
      ensures points == RecordInto(old(points), bounds, args)
    {
      if Accepted(args).Some? {
        var o := Accepted(args).value;
        var p;
        if o.attributes in points {
          p := points[o.attributes];
        } else {
          TotalZeros(|bounds| + 1);
          p := EmptyPoint(bounds);
        }
        points := points[o.attributes := RecordValue(p, bounds, o.delta)];
      }
      log := log + [args];
      assert log[..|log| - 1] == old(log);
    }

    /** The exported point of series `a`, if any. */
    method Read(a: AttributeSet) returns (p: Option<Point>)
      requires Valid()
      ensures p.Some? <==> SeriesCount(log, a) > 0
      ensures p.Some? ==> WellFormed(p.value, bounds)
      ensures p.Some? ==> p.value.count == SeriesCount(log, a) && p.value.sum == SeriesTotal(log, a)
      ensures p.Some? ==> forall i :: 0 <= i < |p.value.bucketCounts| ==> p.value.bucketCounts[i] == SeriesBucketCount(bounds, log, a, i)
    {
      HistogramSeries(bounds, log, a);
      forall i | 0 <= i <= |bounds| {
        HistogramBuckets(bounds, log, a, i);
      }
      p := if a in points then Some(points[a]) else None;
    }
  }

  // ----- Descriptors -----

  datatype InstrumentKind = CounterInstrument | GaugeInstrument | HistogramInstrument
  datatype MetricKind = Cumulative | GaugeKind
  datatype ValueType = Double | Distribution

  /** The metric kind and value type with which each instrument is exported. */
  function Descriptor(k: InstrumentKind): (r: (MetricKind, ValueType))
    ensures r.0 == GaugeKind <==> k == GaugeInstrument
    ensures r.1 == Distribution <==> k == HistogramInstrument
  {
    match k
    case CounterInstrument => (Cumulative, Double)
    case GaugeInstrument => (GaugeKind, Double)
    case HistogramInstrument => (Cumulative, Distribution)
  }
}
