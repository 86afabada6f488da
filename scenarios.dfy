/** The tests' literal vectors, replayed through the model: the API test's
    create arguments and call logs, the metrics test's exported series, the
    middleware test's call logs, and one request-body match. */
module Scenarios {
  import opened Values
  import opened Config
  import opened Params
  import opened Metrics
  import opened Aggregation
  import opened Middleware
  import opened RequestBody

  const Foo: AttributeSet := map["foo" := AStr("bar")]
  const Full := InstrumentOptions(Some("My counter"), Some("My unit"), Some("My valueType"), None)

  /** counter.inc(), inc(2), inc({foo}, 3), inc({boo}) and the two create calls. */
  method ApiCounter() returns (metric: MetricArgs, adds: seq<seq<Arg>>, metric2: MetricArgs)
    ensures metric == MetricArgs("my_counter", Full)
    ensures adds == [
      [Number(1.0), Attributes(map[])],
      [Number(2.0), Attributes(map[])],
      [Number(3.0), Attributes(Foo)],
      [Number(1.0), Attributes(map["boo" := AStr("far")])]]
    ensures metric2 == MetricArgs("my_counter_2", NoOptions)
  {
    var meter := new Meter();
    var counter := new Counter(meter, Declaration(
      "my_counter", Some("My counter"), Some("My unit"), Some("My valueType"), None, None,
      map["invalidPropetry" := JStr("invalid")]));
    counter.Inc(NoArgs);
    counter.Inc(Num(2.0));
    counter.Inc(AttrsNum(Foo, 3.0));
    counter.Inc(Attrs(map["boo" := AStr("far")]));
    metric, adds := counter.metric.ctorArgs, counter.metric.calls;
    var counter2 := new Counter(meter, Named("my_counter_2"));
    metric2 := counter2.metric.ctorArgs;
  }

  /** A gauge collected after each of eleven calls reports each current
      value with the attributes of the latest call only. */
  method ApiGauge() returns (ctorArgs: MetricArgs, calls: seq<seq<Arg>>, ctorArgs2: MetricArgs)
    ensures ctorArgs == MetricArgs("my_gauge", InstrumentOptions(Some("My gauge"), Some("My unit"), Some("My valueType"), None))
    ensures calls == [
      [Number(1.0), Attributes(map[])],
      [Number(2.0), Attributes(map["foo" := AStr("bar1")])],
      [Number(3.0), Attributes(map[])],
      [Number(13.0), Attributes(map[])],
      [Number(14.0), Attributes(map["foo" := AStr("bar2")])],
      [Number(19.0), Attributes(map["foo" := AStr("bar3")])],
      [Number(18.0), Attributes(map[])],
      [Number(8.0), Attributes(map[])],
      [Number(7.0), Attributes(map["foo" := AStr("bar4")])],
      [Number(4.0), Attributes(map["foo" := AStr("bar5")])],
      [Number(0.0), Attributes(map[])]]
    ensures ctorArgs2 == MetricArgs("my_gauge_2", NoOptions)
  {
    var meter := new Meter();
    var gauge := new Gauge(meter, Declaration(
      "my_gauge", Some("My gauge"), Some("My unit"), Some("My valueType"), None, None,
      map["invalidPropetry" := JStr("invalid")]));
    var cl := gauge.metric;
    GaugeSets(gauge);
    GaugeIncs(gauge);
    GaugeDecs(gauge);
    ctorArgs, calls := cl.ctorArgs, cl.calls;
    var gauge2 := new Gauge(meter, Named("my_gauge_2"));
    ctorArgs2 := gauge2.metric.ctorArgs;
  }

  /** The two sets and the first two incs of the API test, each collected. */
  method GaugeSets(gauge: Gauge)
    requires gauge.metric.callback == gauge && gauge.Valid() && gauge.State() == InitialGauge && gauge.metric.calls == []
    modifies gauge, gauge.metric
    ensures gauge.metric.callback == gauge && gauge.Valid() && gauge.State() == GaugeState(13.0, map[])
    ensures gauge.metric.calls == [
      [Number(1.0), Attributes(map[])],
      [Number(2.0), Attributes(map["foo" := AStr("bar1")])],
      [Number(3.0), Attributes(map[])],
      [Number(13.0), Attributes(map[])]]
  {
    CallAndCollect(gauge, SetOp(Num(1.0)));
    CallAndCollect(gauge, SetOp(AttrsNum(map["foo" := AStr("bar1")], 2.0)));
    CallAndCollect(gauge, IncOp(NoArgs));
    CallAndCollect(gauge, IncOp(Num(10.0)));
  }

  /** The two incs with attributes and the first two decs, each collected. */
  method GaugeIncs(gauge: Gauge)
    requires gauge.metric.callback == gauge && gauge.Valid() && gauge.State() == GaugeState(13.0, map[])
    modifies gauge, gauge.metric
    ensures gauge.metric.callback == gauge && gauge.Valid() && gauge.State() == GaugeState(8.0, map[])
    ensures gauge.metric.calls == old(gauge.metric.calls) + [
      [Number(14.0), Attributes(map["foo" := AStr("bar2")])],
      [Number(19.0), Attributes(map["foo" := AStr("bar3")])],
      [Number(18.0), Attributes(map[])],
      [Number(8.0), Attributes(map[])]]
  {
    CallAndCollect(gauge, IncOp(Attrs(map["foo" := AStr("bar2")])));
    CallAndCollect(gauge, IncOp(AttrsNum(map["foo" := AStr("bar3")], 5.0)));
    CallAndCollect(gauge, DecOp(NoArgs));
    CallAndCollect(gauge, DecOp(Num(10.0)));
  }

  /** The decs with attributes and the final set(0), each collected. */
  method GaugeDecs(gauge: Gauge)
    requires gauge.metric.callback == gauge && gauge.Valid() && gauge.State() == GaugeState(8.0, map[])
    modifies gauge, gauge.metric
    ensures gauge.metric.callback == gauge && gauge.Valid() && gauge.State() == GaugeState(0.0, map[])
    ensures gauge.metric.calls == old(gauge.metric.calls) + [
      [Number(7.0), Attributes(map["foo" := AStr("bar4")])],
      [Number(4.0), Attributes(map["foo" := AStr("bar5")])],
      [Number(0.0), Attributes(map[])]]
  {
    CallAndCollect(gauge, DecOp(Attrs(map["foo" := AStr("bar4")])));
    CallAndCollect(gauge, DecOp(AttrsNum(map["foo" := AStr("bar5")], 3.0)));
    CallAndCollect(gauge, SetOp(Num(0.0)));
  }

  /** One gauge call followed by one collection, as the API test does it. */
  method CallAndCollect(gauge: Gauge, op: GaugeOp)
    requires gauge.metric.callback == gauge && gauge.Valid()
    modifies gauge, gauge.metric
    ensures gauge.metric.callback == gauge && gauge.Valid()
    ensures gauge.State() == Step(old(gauge.State()), op)
    ensures gauge.metric.calls == old(gauge.metric.calls) + [gauge.Reading()]
  {
    match op {
      case SetOp(c) => gauge.Set(c);
      case IncOp(c) => gauge.Inc(c);
      case DecOp(c) => gauge.Dec(c);
    }
    var ok := gauge.metric.MockCollect();
  }

  /** observe(), observe(1), observe({foo}, 2): record keeps each shape. */
  method ApiSummary() returns (metric: MetricArgs, records: seq<seq<Arg>>)
    ensures metric == MetricArgs("my_summary",
      InstrumentOptions(Some("My summary"), None, None, Some(Advice([0.5, 0.95, 0.99]))))
    ensures records == [[Undefined], [Number(1.0)], [Number(2.0), Attributes(Foo)]]
  {
    var meter := new Meter();
    var summary := new Summary(meter, Declaration(
      "my_summary", Some("My summary"), None, None, Some([0.5, 0.95, 0.99]), None,
      map["invalidPropetry" := JStr("invalid")]));
    summary.Observe(NoArgs);
    summary.Observe(Num(1.0));
    summary.Observe(AttrsNum(Foo, 2.0));
    metric, records := summary.metric.ctorArgs, summary.metric.calls;
  }

  /** inc() and inc({foo: "bar"}, 2) export two independent series. */
  method ExportedCounter() returns (sums: map<AttributeSet, real>)
    ensures sums == map[map[] := 1.0, Foo := 2.0]
  {
    var meter := new Meter();
    var counter := new Counter(meter, Declaration("my_counter", Some("My counter"), None, None, None, None, map[]));
    counter.Inc(NoArgs);
    counter.Inc(AttrsNum(Foo, 2.0));
    var store := new CounterStorage();
    store.Add(counter.metric.calls[0]);
    assert store.sums == map[map[] := 1.0];
    store.Add(counter.metric.calls[1]);
    assert Foo != map[] by { assert "foo" in Foo; }
    assert Accepted(counter.metric.calls[1]) == Some(Observation(2.0, Foo));
    sums := store.sums;
  }

  /** set({foo}, 5), inc(), inc(13), dec(), dec(2) and one collection export a
      single point 16 under the attributes of the last call. */
  method ExportedGauge() returns (points: map<AttributeSet, real>)
    ensures points == map[map[] := 16.0]
  {
    var meter := new Meter();
    var gauge := new Gauge(meter, Declaration("my_gauge", Some("My gauge"), None, None, None, None, map[]));
    gauge.Set(AttrsNum(Foo, 5.0));
    gauge.Inc(NoArgs);
    gauge.Inc(Num(13.0));
    gauge.Dec(NoArgs);
    gauge.Dec(Num(2.0));
    var ok := gauge.metric.MockCollect();
    var store := new GaugeStorage();
    store.Observe(gauge.metric.calls[0]);
    points := store.last;
  }

  /** Seven observations under two attribute sets: bounds are the declared
      percentiles, values above the last bound fall in the overflow bucket. */
  method ExportedSummary() returns (withFoo: Option<Point>, plain: Option<Point>)
    ensures withFoo == Some(Point(2, 30.0, [0, 0, 0, 2]))
    ensures plain == Some(Point(5, 100.0, [0, 0, 0, 5]))
    ensures Mean(withFoo.value) == 15.0 && Mean(plain.value) == 20.0
  {
    var meter := new Meter();
    var summary := new Summary(meter, Declaration("my_summary", Some("My summary"), None, None, Some([0.5, 0.95, 0.99]), None, map[]));
    var store := new HistogramStorage(summary.metric.ctorArgs.options.advice.value.explicitBucketBoundaries);
    assert store.bounds == [0.5, 0.95, 0.99];
    assert Foo != map[] by { assert "foo" in Foo; }
    SummaryWithFoo(summary, store);
    SummaryPlainFirst(summary, store);
    SummaryPlainLast(summary, store);
    withFoo := Some(store.points[Foo]);
    plain := Some(store.points[map[]]);
  }

  /** The two observations labelled `foo` in the summary test. */
  method SummaryWithFoo(summary: Summary, store: HistogramStorage)
    requires store.Valid() && store.bounds == [0.5, 0.95, 0.99] && store.points == map[]
    modifies summary.metric, store
    ensures store.Valid() && summary.metric.calls == old(summary.metric.calls) + [
      [Number(10.0), Attributes(Foo)], [Number(20.0), Attributes(Foo)]]
    ensures Foo in store.points && store.points[Foo] == Point(2, 30.0, [0, 0, 0, 2]) && map[] !in store.points
  {
    assert Foo != map[] by { assert "foo" in Foo; }
    ObserveAndRecord(summary, store, AttrsNum(Foo, 10.0), Foo, 10.0, map[]);
    assert store.points[Foo] == Point(1, 10.0, [0, 0, 0, 1]) && map[] !in store.points;
    ObserveAndRecord(summary, store, AttrsNum(Foo, 20.0), Foo, 20.0, map[]);
  }

  /** The first three unlabelled observations of the summary test. */
  method SummaryPlainFirst(summary: Summary, store: HistogramStorage)
    requires store.Valid() && store.bounds == [0.5, 0.95, 0.99]
    requires Foo in store.points && store.points[Foo] == Point(2, 30.0, [0, 0, 0, 2]) && map[] !in store.points
    modifies summary.metric, store
    ensures store.Valid() && summary.metric.calls == old(summary.metric.calls) + [
      [Number(10.0)], [Number(20.0)], [Number(40.0)]]
    ensures Foo in store.points && store.points[Foo] == Point(2, 30.0, [0, 0, 0, 2]) && map[] in store.points && store.points[map[]] == Point(3, 70.0, [0, 0, 0, 3])
  {
    assert Foo != map[] by { assert "foo" in Foo; }
    ObserveAndRecord(summary, store, Num(10.0), map[], 10.0, Foo);
    assert store.points[map[]] == Point(1, 10.0, [0, 0, 0, 1]);
    ObserveAndRecord(summary, store, Num(20.0), map[], 20.0, Foo);
    assert store.points[map[]] == Point(2, 30.0, [0, 0, 0, 2]);
    ObserveAndRecord(summary, store, Num(40.0), map[], 40.0, Foo);
  }

  /** The last two unlabelled observations of the summary test. */
  method SummaryPlainLast(summary: Summary, store: HistogramStorage)
    requires store.Valid() && store.bounds == [0.5, 0.95, 0.99]
    requires Foo in store.points && store.points[Foo] == Point(2, 30.0, [0, 0, 0, 2]) && map[] in store.points && store.points[map[]] == Point(3, 70.0, [0, 0, 0, 3])
    modifies summary.metric, store
    ensures store.Valid() && summary.metric.calls == old(summary.metric.calls) + [[Number(20.0)], [Number(10.0)]]
    ensures Foo in store.points && store.points[Foo] == Point(2, 30.0, [0, 0, 0, 2]) && map[] in store.points && store.points[map[]] == Point(5, 100.0, [0, 0, 0, 5])
  {
    assert Foo != map[] by { assert "foo" in Foo; }
    ObserveAndRecord(summary, store, Num(20.0), map[], 20.0, Foo);
    assert store.points[map[]] == Point(4, 90.0, [0, 0, 0, 4]);
    ObserveAndRecord(summary, store, Num(10.0), map[], 10.0, Foo);
  }

  /**
   * Recording a value above every bound of the summary's advice lands in
   * the overflow bucket of its series.
   */
  lemma RecordAboveBounds(prev: map<AttributeSet, Point>, args: seq<Arg>, a: AttributeSet, v: real)
    requires forall k :: k in prev ==> WellFormed(prev[k], [0.5, 0.95, 0.99])
    requires (args == [Number(v)] && a == map[]) || args == [Number(v), Attributes(a)]
    requires v > 0.99
    ensures RecordInto(prev, [0.5, 0.95, 0.99], args) ==
      prev[a := if a in prev then Point(prev[a].count + 1, prev[a].sum + v, prev[a].bucketCounts[3 := prev[a].bucketCounts[3] + 1])
                else Point(1, v, [0, 0, 0, 1])]
  {
    var b := [0.5, 0.95, 0.99];
    assert Accepted(args) == Some(Observation(v, a));
    assert BucketIndex(b, v) == 3 by {
      assert b[1..] == [0.95, 0.99] && b[1..][1..] == [0.99] && b[1..][1..][1..] == [];
    }
    if a !in prev {
      assert EmptyPoint(b).bucketCounts == [0, 0, 0, 0];
      assert EmptyPoint(b).bucketCounts[3 := 1] == [0, 0, 0, 1];
    }
  }

  /**
   * One `observe` call of the wrapper with a value above every bound,
   * handed on to the exporter's storage.
   */
  method ObserveAndRecord(summary: Summary, store: HistogramStorage, c: CallShape, a: AttributeSet, v: real, other: AttributeSet)
    requires store.Valid() && store.bounds == [0.5, 0.95, 0.99]
    requires c == AttrsNum(a, v) || (c == Num(v) && a == map[])
    requires v > 0.99 && other != a
    modifies summary.metric, store
    ensures store.Valid() && summary.metric.calls == old(summary.metric.calls) + [SummaryRecordArgs(c)]
    ensures a in store.points
    ensures a in old(store.points) ==> var p := old(store.points[a]);
      store.points[a] == Point(p.count + 1, p.sum + v, p.bucketCounts[3 := p.bucketCounts[3] + 1])
    ensures a !in old(store.points) ==> store.points[a] == Point(1, v, [0, 0, 0, 1])
    ensures (other in store.points <==> other in old(store.points))
    ensures other in store.points ==> store.points[other] == old(store.points[other])
  {
    RecordAboveBounds(store.points, SummaryRecordArgs(c), a, v);
    summary.Observe(c);
    store.Record(SummaryRecordArgs(c));
  }

  /** Two requests with clock readings 100 to 142 and 200 to 237. */
  method MiddlewareRequests() returns (histograms: seq<MetricArgs>, counters: seq<MetricArgs>,
                                       records: seq<seq<Arg>>, adds: seq<seq<Arg>>)
    ensures histograms == [MetricArgs("http_response_time_milliseconds", InstrumentOptions(Some("Response times in milliseconds"), None, None, None))]
    ensures counters == [MetricArgs("http_responses_total", InstrumentOptions(Some("Number of HTTP responses"), None, None, None))]
    ensures records == [[Number(42.0)], [Number(37.0)]]
    ensures adds == [
      [Number(1.0), Attributes(map["status_code" := ANum(200.0), "method" := AStr("GET")])],
      [Number(1.0), Attributes(map["status_code" := ANum(200.0), "method" := AStr("GET")])]]
  {
    var meter := new Meter();
    var mw := new ResponseTimeMiddleware(meter);
    var clock := new Clock([100, 142, 200, 237], 1000);
    var first := ServeRequest(mw, clock, 200, "GET");
    var second := ServeRequest(mw, clock, 200, "GET");
    histograms, counters := meter.histograms, meter.counters;
    records, adds := mw.responseTime.metric.calls, mw.responseCodes.metric.calls;
  }

  /** One request through the middleware: the handler runs, then the
      response finishes with the given status. */
  method ServeRequest(mw: ResponseTimeMiddleware, clock: Clock, statusCode: int, httpMethod: string) returns (elapsed: int)
    requires mw.Valid() && |clock.stamps| >= 2 && clock.stamps[0] != 0 && clock.stamps[1] != 0
    modifies mw, clock, mw.responseTime.metric, mw.responseCodes.metric
    ensures mw.Valid() && clock.stamps == old(clock.stamps[2..])
    ensures elapsed == old(clock.stamps[1] - clock.stamps[0])
    ensures mw.responseTime.metric.calls == old(mw.responseTime.metric.calls) + [[Number(elapsed as real)]]
    ensures mw.responseCodes.metric.calls == old(mw.responseCodes.metric.calls) + [CounterAddArgs(Attrs(StatusLabels(statusCode, httpMethod)))]
  {
    elapsed := clock.stamps[1] - clock.stamps[0];
    var p := mw.Handle(clock);
    ghost var handled := mw.events;
    assert handled[..|handled| - 1] == old(mw.events);
    mw.Finish(p, clock, statusCode, httpMethod);
    FinishedRequest(handled, elapsed, StatusLabels(statusCode, httpMethod));
  }

  /** The counter's descriptor request of the metrics test: the expected
      body matches an actual body that carries an extra key, but not one
      whose metric kind differs or whose labels are missing. */
  lemma DescriptorRequestMatch()
    ensures var expected := JObj(map[
        "type" := JStr("workload.googleapis.com/my_counter"),
        "metricKind" := JStr("CUMULATIVE"),
        "labels" := JArr([])]);
      var actual := JObj(map[
        "name" := JStr("projects/test-project/metricDescriptors/my_counter"),
        "type" := JStr("workload.googleapis.com/my_counter"),
        "metricKind" := JStr("CUMULATIVE"),
        "labels" := JArr([])]);
      Matches(expected, actual) &&
      !Matches(expected, JObj(actual.fields["metricKind" := JStr("GAUGE")])) &&
      !Matches(expected, JObj(actual.fields - {"labels"}))
  {
    var expected := map[
      "type" := JStr("workload.googleapis.com/my_counter"),
      "metricKind" := JStr("CUMULATIVE"),
      "labels" := JArr([])];
    var actual := map[
      "name" := JStr("projects/test-project/metricDescriptors/my_counter"),
      "type" := JStr("workload.googleapis.com/my_counter"),
      "metricKind" := JStr("CUMULATIVE"),
      "labels" := JArr([])];
    assert forall k :: k in expected ==> EntryMatches(expected[k], Get(JObj(actual), k));
    assert !EntryMatches(expected["metricKind"], Get(JObj(actual["metricKind" := JStr("GAUGE")]), "metricKind"));
    assert !EntryMatches(expected["labels"], Get(JObj(actual - {"labels"}), "labels"));
  }
}
