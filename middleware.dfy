/** The request middleware: when it runs it samples the clock and calls next()
    once; when the response finishes it records the elapsed time and then one
    count labelled with the status code and the method. */
module Middleware {
  import opened Values
  import opened Config
  import opened Params
  import opened Metrics

  const ResponseTimeName := "http_response_time_milliseconds"
  const ResponseCountName := "http_responses_total"

  /** The two built-in instruments of the push-model implementation. */
  const ResponseTimeDeclaration := Declaration(ResponseTimeName, Some("Response times in milliseconds"), None, None, None, None, map[])
  const ResponseCountDeclaration := Declaration(ResponseCountName, Some("Number of HTTP responses"), None, None, None, None, map[])

  /** The two built-in instruments as index.js declares them for the pull-model registry. */
  const PromResponseTime := Declaration(
    ResponseTimeName, Some("Response times in milliseconds"), None, None, Some([0.5, 0.9, 0.99]), None,
    map["maxAgeSeconds" := JNum(600.0), "ageBuckets" := JNum(5.0)])
  const PromResponseCodes := Declaration(
    ResponseCountName, Some("Number of http responses"), None, None, None, Some(["status_code", "method"]), map[])

  /** The labels of the response count. */
  function StatusLabels(statusCode: int, httpMethod: string): (l: AttributeSet)
    ensures l.Keys == {"status_code", "method"}
  {
    map["status_code" := ANum(statusCode as real), "method" := AStr(httpMethod)]
  }

  /** index.js: the count's label schema is exactly status_code and method,
      the summary's percentiles are 0.5, 0.9 and 0.99; under the push-model
      translation those become the bucket boundaries and the labels are dropped. */
  lemma PromDeclarations()
    ensures PromResponseCodes.labelNames == Some(["status_code", "method"])
    ensures PromResponseTime.percentiles == Some([0.5, 0.9, 0.99])
    ensures Translate(PromResponseTime).advice == Some(Advice([0.5, 0.9, 0.99]))
    ensures Translate(PromResponseCodes) == InstrumentOptions(Some("Number of http responses"), None, None, None)
  {
  }

  /** The count's labels are exactly index.js's declared label schema, the
      schema prom-client checks every inc against. */
  lemma LabelSchema(statusCode: int, httpMethod: string)
    ensures StatusLabels(statusCode, httpMethod).Keys == set l | l in PromResponseCodes.labelNames.value
  {
  }

  // ----- The clock -----

  /** The reading of Date.now as the middleware test stubs it: the next stamp
      is shifted off; an exhausted list or a stamp of 0 gives the real clock. */
  function NextStamp(stamps: seq<int>, fallback: int): int {
    if stamps != [] && stamps[0] != 0 then stamps[0] else fallback
  }

  function Shifted(stamps: seq<int>): seq<int> {
    if stamps == [] then [] else stamps[1..]
  }

  class Clock {
    var stamps: seq<int>
    const fallback: int

    constructor (stamps: seq<int>, fallback: int)
      ensures this.stamps == stamps && this.fallback == fallback
    {
      this.stamps := stamps;
      this.fallback := fallback;
    }

    method Now() returns (t: int)
      modifies this
      ensures t == NextStamp(old(stamps), fallback) && stamps == Shifted(old(stamps))
    {
      t := NextStamp(stamps, fallback);
      stamps := Shifted(stamps);
    }
  }

  // ----- What the middleware does, in order -----

  datatype Event = NextCalled | Observed(elapsed: int) | Counted(labels: AttributeSet)

  /** The record calls the response-time instrument has received. */
  function RecordsOf(ev: seq<Event>): seq<seq<Arg>>
    decreases |ev|
  {
    if ev == [] then [] else RecordsOf(ev[..|ev| - 1]) + RecordOf(ev[|ev| - 1])
  }

  function RecordOf(e: Event): seq<seq<Arg>> {
    if e.Observed? then [SummaryRecordArgs(Num(e.elapsed as real))] else []
  }

  /** The add calls the response-count instrument has received. */
  function AddsOf(ev: seq<Event>): seq<seq<Arg>>
    decreases |ev|
  {
    if ev == [] then [] else AddsOf(ev[..|ev| - 1]) + AddOf(ev[|ev| - 1])
  }

  function AddOf(e: Event): seq<seq<Arg>> {
    if e.Counted? then [CounterAddArgs(Attrs(e.labels))] else []
  }

  /** Every observation is immediately followed by its count. */
  predicate Paired(ev: seq<Event>)
    decreases |ev|
  {
    if ev == [] then true
    else match ev[|ev| - 1]
      case NextCalled => Paired(ev[..|ev| - 1])
      case Observed(_) => false
      case Counted(_) => |ev| >= 2 && ev[|ev| - 2].Observed? && Paired(ev[..|ev| - 2])
  }

  /** Finished requests: as many elapsed times as counts, and each count
      carries (1, labels). */
  lemma {:induction false} PairedCounts(ev: seq<Event>)
    requires Paired(ev)
    ensures |RecordsOf(ev)| == |AddsOf(ev)|
    ensures forall i :: 0 <= i < |AddsOf(ev)| ==> |AddsOf(ev)[i]| == 2 && AddsOf(ev)[i][0] == Number(1.0)
    decreases |ev|
  {
    if ev != [] {
      var p := ev[..|ev| - 1];
      if ev[|ev| - 1].NextCalled? {
        PairedCounts(p);
      } else {
        var q := ev[..|ev| - 2];
        assert p[..|p| - 1] == q;
        PairedCounts(q);
      }
    }
  }

  /** A finished request appends one elapsed time and one count, and keeps
      the events paired. */
  lemma FinishedRequest(ev: seq<Event>, elapsed: int, labels: AttributeSet)
    ensures var ev' := ev + [Observed(elapsed), Counted(labels)];
      RecordsOf(ev') == RecordsOf(ev) + [[Number(elapsed as real)]] &&
      AddsOf(ev') == AddsOf(ev) + [[Number(1.0), Attributes(labels)]] &&
      (Paired(ev) ==> Paired(ev'))
  {
    var ev' := ev + [Observed(elapsed), Counted(labels)];
    assert ev'[..|ev'| - 1] == ev + [Observed(elapsed)];
    assert ev'[..|ev'| - 2] == ev;
    assert (ev + [Observed(elapsed)])[..|ev|] == ev;
  }

  /** The closure state of one request: when it started and whether its
      finish hook has run. The flag stands for on-finished's promise to run
      the listener at most once per response. */
  class PendingResponse {
    const start: int
    var finished: bool

    constructor (start: int)
      ensures this.start == start && !finished
    {
      this.start := start;
      finished := false;
    }
  }

  class ResponseTimeMiddleware {
    const responseTime: Summary
    const responseCodes: Counter
    ghost var events: seq<Event>

    ghost predicate Valid()
      reads this, responseTime.metric, responseCodes.metric
    {
      responseTime.metric != responseCodes.metric &&
      responseTime.metric.calls == RecordsOf(events) &&
      responseCodes.metric.calls == AddsOf(events) &&
      Paired(events)
    }

    /** Creates one histogram and one counter, each with only a description. */
    constructor (meter: Meter)
      modifies meter
      ensures Valid() && events == []
      ensures fresh(responseTime.metric) && fresh(responseCodes.metric)
      ensures meter.histograms == old(meter.histograms) + [CreateArgs(ResponseTimeDeclaration)]
      ensures meter.counters == old(meter.counters) + [CreateArgs(ResponseCountDeclaration)]
      ensures meter.gauges == old(meter.gauges)
    {
      var h := new Summary(meter, ResponseTimeDeclaration);
      var c := new Counter(meter, ResponseCountDeclaration);
      responseTime := h;
      responseCodes := c;
      events := [];
    }

    /** The middleware runs: the start time is read first, then next() is
      called once; nothing is recorded. */
    method Handle(clock: Clock) returns (p: PendingResponse)
      requires Valid()
      modifies this, clock
      ensures Valid() && fresh(p) && !p.finished
      ensures p.start == NextStamp(old(clock.stamps), clock.fallback)
      ensures clock.stamps == Shifted(old(clock.stamps))
      ensures events == old(events) + [NextCalled]
      ensures responseTime.metric.calls == old(responseTime.metric.calls)
      ensures responseCodes.metric.calls == old(responseCodes.metric.calls)
    {
      var start := clock.Now();
      p := new PendingResponse(start);
      events := events + [NextCalled];
      assert events[..|events| - 1] == old(events);
    }

    /** The response finished: elapsed time is recorded, then one count with
      {status_code, method}. The hook runs once per request; a repeated
      finish records nothing. */
    method Finish(p: PendingResponse, clock: Clock, statusCode: int, httpMethod: string)
      requires Valid()
      modifies this, p, clock, responseTime.metric, responseCodes.metric
      ensures Valid() && p.finished
      ensures old(p.finished) ==> events == old(events) && clock.stamps == old(clock.stamps)
      ensures !old(p.finished) ==>
        clock.stamps == Shifted(old(clock.stamps)) &&
        events == old(events) + [Observed(NextStamp(old(clock.stamps), clock.fallback) - p.start),
                                 Counted(StatusLabels(statusCode, httpMethod))]
      ensures !old(p.finished) ==>
        responseTime.metric.calls == old(responseTime.metric.calls) +
          [[Number((NextStamp(old(clock.stamps), clock.fallback) - p.start) as real)]] &&
        responseCodes.metric.calls == old(responseCodes.metric.calls) +
          [[Number(1.0), Attributes(StatusLabels(statusCode, httpMethod))]]
      ensures old(p.finished) ==>
        responseTime.metric.calls == old(responseTime.metric.calls) &&
        responseCodes.metric.calls == old(responseCodes.metric.calls)
    {
      if !p.finished {
        p.finished := true;
        var now := clock.Now();
        var elapsed := now - p.start;
        responseTime.Observe(Num(elapsed as real));
        responseCodes.Inc(Attrs(StatusLabels(statusCode, httpMethod)));
        FinishedRequest(events, elapsed, StatusLabels(statusCode, httpMethod));
        events := events + [Observed(elapsed), Counted(StatusLabels(statusCode, httpMethod))];
      }
    }
  }
}
