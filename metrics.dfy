/** The backend meter as the tests see it, and the three metric wrappers over
    it. A synchronous instrument is a call log: each add or record appends its
    argument list. An observable gauge keeps its constructor arguments, one
    registered callback and the log of what that callback observed. */
module Metrics {
  import opened Values
  import opened Config
  import opened Params

  /** A synchronous backend instrument: created with [name, options]; every
      call of add or record appends that call's argument list to `calls`. */
  class Instrument {
    const ctorArgs: MetricArgs
    var calls: seq<seq<Arg>>

    /** createMetric: the instrument is its argument list, with nothing recorded yet. */
    constructor (args: MetricArgs)
      ensures ctorArgs == args && calls == []
    {
      ctorArgs := args;
      calls := [];
    }

    /** The recorder: appends the argument list, in call order. */
    method Call(args: seq<Arg>)
      modifies this
      ensures calls == old(calls) + [args]
    {
      calls := calls + [args];
    }
  }

  /** The backend's asynchronous gauge: constructor arguments stored verbatim,
      at most one callback (a later one replaces an earlier one), and the log of
      the observations made during collections. */
  class ObservableGauge {
    const ctorArgs: MetricArgs
    var calls: seq<seq<Arg>>
    var callback: Gauge?

    constructor (args: MetricArgs)
      ensures ctorArgs == args && calls == [] && callback == null
    {
      ctorArgs := args;
      calls := [];
      callback := null;
    }

    method AddCallback(cb: Gauge)
      modifies this
      ensures callback == cb && calls == old(calls)
    {
      callback := cb;
    }

    /** One collection: invokes the stored callback once; its observation is
      appended to `calls` and nothing else changes. With no callback stored
      the call fails (`ok` is false) and nothing is recorded. */
    method MockCollect() returns (ok: bool)
      modifies this
      ensures callback == old(callback)
      ensures ok <==> callback != null
      ensures ok ==> calls == old(calls) + [callback.Reading()]
      ensures !ok ==> calls == old(calls)
    {
      ok := callback != null;
      if ok {
        calls := calls + [callback.Reading()];
      }
    }
  }

  /** The meter handed out by the provider. It logs every create call, per
      instrument kind and in order, and returns a new instrument for each.
      The counter and histogram logs are the test spies' call records; the
      gauge log is the model's own bookkeeping, which no test inspects. */
  class Meter {
    var counters: seq<MetricArgs>
    var histograms: seq<MetricArgs>
    var gauges: seq<MetricArgs>

    constructor ()
      ensures counters == [] && histograms == [] && gauges == []
    {
      counters, histograms, gauges := [], [], [];
    }

    method CreateCounter(args: MetricArgs) returns (m: Instrument)
      modifies this
      ensures fresh(m) && m.ctorArgs == args && m.calls == []
      ensures counters == old(counters) + [args]
      ensures histograms == old(histograms) && gauges == old(gauges)
    {
      m := new Instrument(args);
      counters := counters + [args];
    }

    /** Histograms are created exactly as counters are. */
    method CreateHistogram(args: MetricArgs) returns (m: Instrument)
      modifies this
      ensures fresh(m) && m.ctorArgs == args && m.calls == []
      ensures histograms == old(histograms) + [args]
      ensures counters == old(counters) && gauges == old(gauges)
    {
      m := new Instrument(args);
      histograms := histograms + [args];
    }

    method CreateObservableGauge(args: MetricArgs) returns (g: ObservableGauge)
      modifies this
      ensures fresh(g) && g.ctorArgs == args && g.calls == [] && g.callback == null
      ensures gauges == old(gauges) + [args]
      ensures counters == old(counters) && histograms == old(histograms)
    {
      g := new ObservableGauge(args);
      gauges := gauges + [args];
    }
  }

  /** A counter: every inc delegates one add(delta, attributes) to the backend. */
  class Counter {
    const metric: Instrument

    constructor (meter: Meter, d: Declaration)
      modifies meter
      ensures fresh(metric) && metric.ctorArgs == CreateArgs(d) && metric.calls == []
      ensures meter.counters == old(meter.counters) + [CreateArgs(d)]
      ensures meter.histograms == old(meter.histograms) && meter.gauges == old(meter.gauges)
    {
      var m := meter.CreateCounter(CreateArgs(d));
      metric := m;
    }

    method Inc(c: CallShape)
      modifies metric
      ensures metric.calls == old(metric.calls) + [CounterAddArgs(c)]
    {
      metric.Call(CounterAddArgs(c));
    }
  }

  /** A summary, backed by a histogram: observe delegates record with the
      argument shape kept. */
  class Summary {
    const metric: Instrument

    constructor (meter: Meter, d: Declaration)
      modifies meter
      ensures fresh(metric) && metric.ctorArgs == CreateArgs(d) && metric.calls == []
      ensures meter.histograms == old(meter.histograms) + [CreateArgs(d)]
      ensures meter.counters == old(meter.counters) && meter.gauges == old(meter.gauges)
    {
      var m := meter.CreateHistogram(CreateArgs(d));
      metric := m;
    }

    method Observe(c: CallShape)
      modifies metric
      ensures metric.calls == old(metric.calls) + [SummaryRecordArgs(c)]
    {
      metric.Call(SummaryRecordArgs(c));
    }
  }

  /** A gauge over an observable gauge: set, inc and dec change only the cell
      (value, lastAttrs); the backend sees it only when it collects. The ghost
      history is every call made so far, and the cell is always the fold of
      the gauge semantics over it. */
  class Gauge {
    const metric: ObservableGauge
    var value: real
    var lastAttrs: AttributeSet
    ghost var history: seq<GaugeOp>

    function State(): GaugeState
      reads this
    {
      GaugeState(value, lastAttrs)
    }

    ghost predicate Valid()
      reads this
    {
      State() == Run(InitialGauge, history)
    }

    /** What the registered callback observes: the value the calls so far
        have accumulated, with the attributes of the latest call alone. */
    function Reading(): (args: seq<Arg>)
      reads this
      ensures Valid() ==> args == [Number(Run(InitialGauge, history).value), Attributes(Run(InitialGauge, history).lastAttrs)]
      ensures Valid() && history != [] ==> args[1].attrs == Normalise(history[|history| - 1].shape).attributes
      ensures Valid() && history == [] ==> args == [Number(0.0), Attributes(map[])]
    {
      [Number(value), Attributes(lastAttrs)]
    }

    constructor (meter: Meter, d: Declaration)
      modifies meter
      ensures fresh(metric) && metric.ctorArgs == CreateArgs(d) && metric.calls == []
      ensures metric.callback == this
      ensures Valid() && history == [] && State() == InitialGauge
      ensures meter.gauges == old(meter.gauges) + [CreateArgs(d)]
      ensures meter.counters == old(meter.counters) && meter.histograms == old(meter.histograms)
    {
      var g := meter.CreateObservableGauge(CreateArgs(d));
      metric := g;
      value := 0.0;
      lastAttrs := map[];
      history := [];
      new;
      g.AddCallback(this);
    }

    method Set(c: CallShape)
      requires Valid()
      modifies this
      ensures Valid() && history == old(history) + [SetOp(c)]
      ensures State() == Step(old(State()), SetOp(c))
    {
      var o := Normalise(c);
      value, lastAttrs := o.delta, o.attributes;
      Record(SetOp(c));
    }

    method Inc(c: CallShape)
      requires Valid()
      modifies this
      ensures Valid() && history == old(history) + [IncOp(c)]
      ensures State() == Step(old(State()), IncOp(c))
    {
      var o := Normalise(c);
      value, lastAttrs := value + o.delta, o.attributes;
      Record(IncOp(c));
    }

    method Dec(c: CallShape)
      requires Valid()
      modifies this
      ensures Valid() && history == old(history) + [DecOp(c)]
      ensures State() == Step(old(State()), DecOp(c))
    {
      var o := Normalise(c);
      value, lastAttrs := value - o.delta, o.attributes;
      Record(DecOp(c));
    }

    /** Appends a call whose step has just been applied to the cell. */
    ghost method Record(op: GaugeOp)
      requires State() == Step(Run(InitialGauge, history), op)
      modifies this
      ensures Valid() && history == old(history) + [op] && State() == old(State())
    {
      history := history + [op];
      assert history[..|history| - 1] == old(history);
    }
  }
}
