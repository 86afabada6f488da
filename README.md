# exp-metrics in Dafny

This project models `exp-metrics`, a small metrics layer for Express services.
Callers declare counters, gauges and summaries in one uniform format: name,
help, unit, valueType, percentiles and labelNames. The layer translates each
declaration into the create call of a push-model meter. It wraps the returned
instruments in `inc`, `set`, `dec` and `observe` helpers. It also offers a
middleware that times every response and counts it by status code and method.

The project models these parts:

- **Config**: the translator from a declaration to the create arguments
  `[name, options]`.
  - `help` becomes `description`.
  - `unit` and `valueType` pass through.
  - `percentiles` become `advice.explicitBucketBoundaries`.
  - Unknown keys and `labelNames` are dropped, and absent keys stay absent.
  - The lemmas prove a round trip with an inverse translation, and
    "emitted exactly when given" for every options key.
- **Params**: the argument normaliser and the pure semantics of the three wrappers.
  - The call shapes `f()`, `f(d)`, `f(attrs)` and `f(attrs, d)` map to
    `{delta, attributes}`, with a default delta of 1 and default attributes `{}`.
  - The counter always passes `add(delta, attributes)`.
  - The summary passes `record` the call's own shape.
  - The gauge cell is `(value, lastAttrs)`, updated by set, inc and dec.
- **Metrics**: the mock meter and the three wrappers, as classes that change
  state in place.
  - Each synchronous instrument is a call log.
  - The observable gauge stores its constructor arguments and one callback.
    It appends one observation per collection.
  - `Gauge` registers itself as the callback and reports `(value, lastAttrs)`.
- **Aggregation**: what the exporter sees after a flush, per attribute set.
  - A counter reports the sum of its deltas.
  - A gauge reports its last observed value.
  - A histogram reports count, sum and explicit-bucket counts.
  - Each is given twice: as a fold over the call log, and as a store updated
    in place. The store is proved to equal the fold.
- **RequestBody**: the recursive partial deep matcher `testRequestBody`, with
  JavaScript's property lookup on objects, arrays, strings and primitives.
- **Resource**: how the service identity is built from the positional name,
  the explicit keys, the environment and a random id.
- **Middleware**: the response-time middleware as a state machine.
  - A request first reads the clock, then calls `next()`.
  - When the response finishes, it records the elapsed time, then adds one
    count labelled with the status code and the method.
  - A finish hook that fires a second time records nothing; in the source
    this comes from `on-finished` running its listener only once.
- **Scenarios**: the literal vectors of the three test files, replayed
  through the model. One lemma also checks a request-body match.

Inputs from outside the program are parameters of the model:

- the deployment environment that becomes the service namespace (`NODE_ENV`, which the test configuration sets to `test`);
- the random instance id;
- the clock, as a list of stamps that the middleware test stubs.

## Where index.js and the middleware test disagree

`index.js` is the pull-model version of the middleware. It declares a
prom-client Summary with percentiles `[0.5, 0.9, 0.99]`, `maxAgeSeconds` 600 and
`ageBuckets` 5. It also declares a Counter with help `"Number of http responses"`
and label names `status_code` and `method`.

`test/middleware-test.js` expects something different from the push-model
implementation: one histogram and one counter, each created with a
description only, and the counter's description reads `"Number of HTTP
responses"`. The model has both sets of declarations:

- `Middleware.PromResponseTime` and `Middleware.PromResponseCodes`, as
  `index.js` writes them;
- `Middleware.ResponseTimeDeclaration` and `Middleware.ResponseCountDeclaration`,
  as the test expects them.

The middleware class uses the second pair, because the rest of the core is the
push-model one.

## Model

| member | source | states |
|---|---|---|
| Config.Translate | test/api-test.js:72-86 | no contract of its own; its meaning is stated by Config.RoundTrip, Config.TranslateDetermines, Config.TranslateKeys and Config.PercentilesVerbatim |
| Config.CreateArgs | test/api-test.js:79-86 | no contract of its own; the create arguments `[name, Translate(d)]`, stated by Config.RoundTrip and Config.TranslateDetermines |
| Config.OptionKeys | test/api-test.js:79-86 | the options object only ever carries the four known keys |
| Config.RoundTrip | test/api-test.js:72-86 | undoing the translation gives back the declaration minus label names and unknown keys; every create-argument list is the translation of its own inverse |
| Config.TranslateDetermines | test/api-test.js:72-86 | two declarations give the same create arguments iff they agree on name, help, unit, valueType and percentiles (unknown keys never matter) |
| Config.TranslateKeys | test/api-test.js:105-106 | description, unit, valueType and advice are each emitted iff help, unit, valueType and percentiles were given; a bare name gives `{}` |
| Config.PercentilesVerbatim | test/api-test.js:173-185 | percentiles become the explicit bucket boundaries unchanged and in order |
| Params.Normalise | test/api-test.js:93-103 | no contract of its own; the defaults 1 and `{}` are stated by Params.NormaliseExplicit and Params.CounterCarriesObservation |
| Params.NormaliseExplicit | test/api-test.js:93-103 | f() means f({}, 1), f(d) means f({}, d), f(m) means f(m, 1); normalising the explicit form of an observation gives it back |
| Params.CounterAddArgs | test/api-test.js:98-103 | add always receives exactly a number and an attribute set |
| Params.CounterCarriesObservation | test/api-test.js:93-103 | the add arguments are the normalised delta then the normalised attributes |
| Params.SummaryRecordArgs | test/api-test.js:192-200 | no contract of its own; shape preservation is stated by Params.SummaryKeepsShape and Aggregation.SummaryCallAccepted |
| Params.SummaryKeepsShape | test/api-test.js:192-200 | record keeps the call shape: the call can be read back from its arguments, and distinct calls record distinct arguments |
| Params.Step | test/api-test.js:128-152 | no contract of its own; one gauge call on the cell, stated by Params.LastAttrsReplaced, Params.RunWithoutSet and Params.SetForgetsHistory |
| Params.Run | test/api-test.js:128-166 | no contract of its own; the cell after a call sequence, stated by Params.RunConcat, Params.RunWithoutSet, Params.SetForgetsHistory and Metrics.Gauge.Reading |
| Params.RunConcat | test/api-test.js:128-152 | running two call sequences one after the other is running their concatenation |
| Params.RunWithoutSet | test/api-test.js:133-149 | without a set, the gauge value moves by exactly the sum of the incs minus the decs |
| Params.SetForgetsHistory | test/metrics-test.js:151-155 | after set(v) and then only incs and decs, the value is v plus their net change, whatever happened before |
| Params.LastAttrsReplaced | test/api-test.js:130-134 | the last attributes are those of the latest call alone, and `{}` when it gave none |
| Metrics.Instrument.constructor | test/helpers/mockMeterProvider.js:15-17 | a created instrument keeps its create arguments and has recorded nothing |
| Metrics.Instrument.Call | test/middleware-test.js:88-97 | the recorder appends each argument list, in call order, and changes nothing else |
| Metrics.ObservableGauge.constructor | test/helpers/mockMeterProvider.js:19-25 | keeps its constructor arguments, starts with no calls and no callback |
| Metrics.ObservableGauge.AddCallback | test/helpers/mockMeterProvider.js:26-28 | the new callback replaces the stored one; the calls are unchanged |
| Metrics.ObservableGauge.MockCollect | test/helpers/mockMeterProvider.js:29-35 | a collection invokes the callback once and appends its single observation; with no callback it fails and records nothing |
| Metrics.Meter.CreateCounter | test/middleware-test.js:10-11 | returns a new instrument holding the arguments and logs the create call, as the spies record it for the expectations at lines 55 and 59; other logs unchanged |
| Metrics.Meter.CreateHistogram | test/middleware-test.js:10-11 | as CreateCounter, on the histogram log |
| Metrics.Meter.CreateObservableGauge | test/helpers/mockMeterProvider.js:19-25 | returns a new gauge with the arguments, no calls and no callback; the gauge create log is the model's own bookkeeping, which the source does not keep |
| Metrics.Counter.constructor | test/api-test.js:72-86 | creates one backend counter with the translated declaration |
| Metrics.Counter.Inc | test/api-test.js:88-103 | each inc appends exactly one add(delta, attributes) with defaults applied |
| Metrics.Summary.constructor | test/api-test.js:173-185 | creates one backend histogram with the translated declaration |
| Metrics.Summary.Observe | test/api-test.js:187-200 | each observe appends exactly one record with the call's shape kept |
| Metrics.Gauge.Reading | test/api-test.js:154-166 | a collection reports the value accumulated by the whole call history, with the attributes of the latest call alone, and (0, `{}`) before any call |
| Metrics.Gauge.constructor | test/api-test.js:110-126 | creates one observable gauge with the translated declaration and registers itself as its callback; the value starts at 0 with `{}` and an empty call history |
| Metrics.Gauge.Set | test/api-test.js:128-131 | the new cell is the set step applied to the old one, and the call is appended to the history the cell is always the fold of |
| Metrics.Gauge.Inc | test/api-test.js:133-140 | the new cell is the inc step applied to the old one, and the call is appended to the history the cell is always the fold of |
| Metrics.Gauge.Dec | test/api-test.js:142-149 | the new cell is the dec step applied to the old one, and the call is appended to the history the cell is always the fold of |
| Aggregation.ReadCall | test/metrics-test.js:102-103 | no contract of its own; how the backend reads add/record/observe, stated through Aggregation.Accepted, Aggregation.CounterCallAccepted and Aggregation.SummaryCallAccepted |
| Aggregation.Accepted | test/metrics-test.js:102-103 | a call is accepted iff its first argument is a non-negative number, and the accepted delta is that number |
| Aggregation.CounterCallAccepted | test/metrics-test.js:102-103 | a counter call reaches the series of its normalised attributes iff its delta is not negative |
| Aggregation.SummaryCallAccepted | test/metrics-test.js:240-246 | a summary call is read as a value iff it carried one; it reaches a histogram series iff that value is not negative, and then with its normalised attributes |
| Aggregation.OnlySeries | test/metrics-test.js:57-100 | the filtered log holds only calls of the given series |
| Aggregation.SeriesTotalNonNegative | test/metrics-test.js:51 | the accepted total of a series never goes below 0 |
| Aggregation.EmptySeries | test/metrics-test.js:57-100 | a series with no accepted call has total 0 |
| Aggregation.SeriesOfConcat | test/metrics-test.js:57-100 | count and total of a series add up over a concatenated log |
| Aggregation.SeriesIndependent | test/metrics-test.js:57-100 | dropping other series' calls changes neither the count nor the total of a series |
| Aggregation.CounterTotals | test/metrics-test.js:57-103 | no contract of its own; the counter fold, stated by Aggregation.CounterSeries and Aggregation.CounterMonotone |
| Aggregation.CounterSeries | test/metrics-test.js:57-103 | a counter exports a series iff it received an accepted call, with the sum of its own deltas |
| Aggregation.CounterMonotone | test/metrics-test.js:51 | a cumulative counter series never decreases as calls are added |
| Aggregation.CounterStorage.Add | test/metrics-test.js:102-105 | the in-place sums stay equal to the fold over all calls so far |
| Aggregation.CounterStorage.Value | test/metrics-test.js:57-100 | the exported value is the series total, present iff the series received a call |
| Aggregation.GaugePoints | test/metrics-test.js:126-155 | no contract of its own; the gauge fold, stated by Aggregation.GaugeSinglePoint and Aggregation.GaugeStorage.Observe |
| Aggregation.ObserveInto | test/metrics-test.js:126-155 | no contract of its own; one observation overwrites its series, stated by Aggregation.GaugeStorage.Observe |
| Aggregation.GaugeSinglePoint | test/metrics-test.js:126-155 | one collection exports exactly the observed value under the observed attributes |
| Aggregation.GaugeStorage.Observe | test/metrics-test.js:126-155 | the in-place store stays the fold of all observations; the observed series holds the observed value |
| Aggregation.BucketIndex | test/metrics-test.js:204-218 | the bucket is the first bound the value does not exceed, or the overflow bucket |
| Aggregation.OverflowBucket | test/metrics-test.js:213-218 | a value lands in the overflow bucket iff it exceeds every bound |
| Aggregation.TotalIncrement | test/metrics-test.js:213-218 | raising one bucket count raises the total by one |
| Aggregation.TotalZeros | test/metrics-test.js:213-218 | the bucket counts of an empty point total 0 |
| Aggregation.RecordValue | test/metrics-test.js:199-219 | one value raises count by one, sum by the value, and exactly its own bucket by one, and leaves a well-formed point |
| Aggregation.HistogramPoints | test/metrics-test.js:179-238 | every exported point has one bucket more than there are bounds, and bucket counts summing to its count |
| Aggregation.RecordInto | test/metrics-test.js:240-246 | recording keeps every point well-formed |
| Aggregation.HistogramSeries | test/metrics-test.js:179-246 | a histogram exports a series iff it received a value, with count and sum of that series' values |
| Aggregation.EmptySeriesBuckets | test/metrics-test.js:213-218 | a series with no accepted value has nothing in any bucket |
| Aggregation.HistogramBuckets | test/metrics-test.js:213-218 | each bucket of an exported point counts exactly its series' values that fall in that bucket |
| Aggregation.Mean | test/metrics-test.js:201-203 | the reported mean times the count is the sum |
| Aggregation.HistogramStorage.Record | test/metrics-test.js:240-248 | the in-place points stay the fold over all recorded calls |
| Aggregation.HistogramStorage.Read | test/metrics-test.js:179-238 | the point is present iff the series received a value, with its count, its sum and every bucket's count of its values |
| Aggregation.Descriptor | test/metrics-test.js:47-55 | gauges and only gauges are exported as GAUGE; histograms and only histograms as DISTRIBUTION |
| RequestBody.IndexKey | test/helpers/testRequestBody.js:6-10 | an array index key is a non-empty decimal numeral |
| RequestBody.DigitRoundTrip | test/helpers/testRequestBody.js:6-10 | a digit character reads back as its digit |
| RequestBody.IndexKeyShape | test/helpers/testRequestBody.js:6-10 | the numeral of i has value i and, for i >= 1, no leading zero |
| RequestBody.IndexKeyRoundTrip | test/helpers/testRequestBody.js:6-10 | index i's key names element i |
| RequestBody.LeadingDigitPositive | test/helpers/testRequestBody.js:6-10 | a canonical numeral of two or more digits is at least 10 |
| RequestBody.ParseIndexCanonical | test/helpers/testRequestBody.js:6-10 | a key names an element only when it is that element's own key |
| RequestBody.Get | test/helpers/testRequestBody.js:9-12 | no contract of its own; JavaScript property lookup, stated by RequestBody.GetIndex and RequestBody.ExtendsGet |
| RequestBody.GetIndex | test/helpers/testRequestBody.js:9-12 | element lookup on arrays and strings by index key |
| RequestBody.Matches | test/helpers/testRequestBody.js:5-17 | no contract of its own; the matcher, stated by RequestBody.ObjectMatch, RequestBody.EmptyEntry, RequestBody.SelfMatch, RequestBody.MatchMonotone and RequestBody.ArrayPrefix |
| RequestBody.EntryMatches | test/helpers/testRequestBody.js:7-12 | no contract of its own; one expected entry, stated by RequestBody.ObjectMatch and RequestBody.EntryMonotone |
| RequestBody.ObjectMatch | test/helpers/testRequestBody.js:6-14 | a match means every expected key is present, primitives are strictly equal and object-typed entries match recursively |
| RequestBody.EmptyEntry | test/helpers/testRequestBody.js:8-10 | `{}` matches anything; an entry `{}` matches iff the property is present |
| RequestBody.SelfMatch | test/helpers/testRequestBody.js:5-17 | every tree without null matches itself |
| RequestBody.ExtendsGet | test/helpers/testRequestBody.js:9-12 | a deep extension keeps every property and extends its value |
| RequestBody.MatchMonotone | test/helpers/testRequestBody.js:5-17 | extra properties in the actual tree, at any depth, never break a match |
| RequestBody.EntryMonotone | test/helpers/testRequestBody.js:8-12 | the same for one expected entry |
| RequestBody.ArrayPrefix | test/helpers/testRequestBody.js:6-10 | an expected array matches a longer actual array that agrees on the expected indices |
| Resource.BuildIdentity | test/api-test.js:34-63 | no contract of its own; stated by Resource.IdentitySources, Resource.FullConfigWins and Resource.InitialisationVectors |
| Resource.IdentitySources | test/api-test.js:34-63 | each identity field comes from its explicit key if given, else from the positional name or "exp-metrics", the environment, and the random id |
| Resource.FullConfigWins | test/api-test.js:52-63 | a complete explicit configuration fixes the identity whatever the name, environment and random id |
| Resource.InitialisationVectors | test/api-test.js:34-63 | the three initialisation cases of the API test |
| Middleware.StatusLabels | index.js:25 | the count labels are exactly status_code and method |
| Middleware.LabelSchema | index.js:17 | the count's labels are exactly the declared label schema status_code and method |
| Middleware.PromDeclarations | index.js:6-18 | the pull-model declarations: label schema, percentiles, and what the push-model translation makes of them |
| Middleware.NextStamp | test/middleware-test.js:37-38 | no contract of its own; the stubbed `Date.now` reading, stated by Middleware.Clock.Now |
| Middleware.Shifted | test/middleware-test.js:37-38 | no contract of its own; the stamp list after one `shift`, stated by Middleware.Clock.Now |
| Middleware.Clock.Now | test/middleware-test.js:37-38 | each reading shifts the next stamp off; an exhausted list or a 0 stamp gives the fallback clock |
| Middleware.PairedCounts | test/middleware-test.js:80-85 | finished requests give as many counts as elapsed times, and each count is add(1, labels) |
| Middleware.FinishedRequest | index.js:22-26 | finishing a request appends one elapsed time and one count and keeps the events paired |
| Middleware.ResponseTimeMiddleware.constructor | test/middleware-test.js:54-60 | exactly one histogram and one counter are created, each with a description only |
| Middleware.ResponseTimeMiddleware.Handle | index.js:20-28 | the start time is read, then next() is called once; neither instrument's log changes |
| Middleware.ResponseTimeMiddleware.Finish | index.js:22-26 | on the first finish the histogram log gains exactly [now - start] and the counter log exactly [1, {status_code, method}], in that order; a repeated finish leaves both logs unchanged |
| Scenarios.ApiCounter | test/api-test.js:71-107 | the counter test's create arguments and four add calls |
| Scenarios.ApiGauge | test/api-test.js:109-170 | the gauge test's create arguments and the eleven collected observations |
| Scenarios.GaugeSets | test/api-test.js:128-136 | the first four gauge calls, each collected |
| Scenarios.GaugeIncs | test/api-test.js:137-145 | the next four gauge calls, each collected |
| Scenarios.GaugeDecs | test/api-test.js:146-152 | the last three gauge calls, each collected |
| Scenarios.CallAndCollect | test/api-test.js:126-129 | one gauge call then one collection appends the current reading |
| Scenarios.ApiSummary | test/api-test.js:172-201 | the summary test's create arguments and three record calls |
| Scenarios.ExportedCounter | test/metrics-test.js:41-108 | two independent series with values 1 and 2 |
| Scenarios.ExportedGauge | test/metrics-test.js:110-160 | a single exported point 16 under `{}` |
| Scenarios.ExportedSummary | test/metrics-test.js:162-251 | count 2, mean 15, buckets [0,0,0,2] under `{foo}`; count 5, mean 20 unlabelled |
| Scenarios.SummaryWithFoo | test/metrics-test.js:240-241 | the two labelled observations |
| Scenarios.SummaryPlainFirst | test/metrics-test.js:242-244 | the first three unlabelled observations |
| Scenarios.SummaryPlainLast | test/metrics-test.js:245-246 | the last two unlabelled observations |
| Scenarios.RecordAboveBounds | test/metrics-test.js:204-218 | a value above every bound lands in the overflow bucket of its series |
| Scenarios.ObserveAndRecord | test/metrics-test.js:240-246 | one observe reaches the exporter's store as one recorded value |
| Scenarios.MiddlewareRequests | test/middleware-test.js:37-85 | two requests over stamps 100, 142, 200, 237 record 42 and 37 and two counts of 200/GET |
| Scenarios.ServeRequest | index.js:20-28 | one request consumes two stamps and records their difference and one count |
| Scenarios.DescriptorRequestMatch | test/metrics-test.js:47-55 | the descriptor body matches an actual body with an extra key, and not one with another kind or without labels |

## Left out

- `metricsEndpoint` and the prom-client text format (`index.js:30-33`): rendering and HTTP output are I/O.
- prom-client quantile estimation, `maxAgeSeconds` and `ageBuckets`: the sliding-window statistics are not modelled. The declarations keep them as unknown keys.
- The network export to the monitoring API, nock, OAuth tokens and `forceFlush`: network I/O and timers. The model stops at the per-series state an export would carry.
- The periodic reader's timer and the exporter's resource-label mapping (`generic_task`, `location`): these are backend code that is not part of this model.
- `test/helpers/file-logger.js`, `test/helpers/mockResource.js` and `test/helpers/removeNock.js`: logging and test plumbing.
- `process.env`, `crypto.randomUUID` and `Date.now`: these are parameters (`environment`, `uuid`, and the `Clock` stamps with their fallback).
- `on-finished` event plumbing: the finish hook is the explicit `Finish` method, called by its caller. The listener in `index.js:22-26` is unguarded; `on-finished` calls it at most once per response, and the model states that promise as the `finished` flag of `PendingResponse`.
- The factory's first-caller-wins singleton: there is one `Meter` per scenario.
- Malformed call shapes to the wrappers (a string delta, three arguments): the model's `CallShape` lists the four shapes the wrappers accept.
- `spy` returning the shared `props` object: the recorder's log is modelled, the returned value is not.
- RequestBody.Matches: prototype properties, sparse arrays, `undefined` vs missing, and the assertion's failure message (the `path` argument) are not modelled. A mismatch is `false` instead of a thrown error. String `length` and index keys count Unicode scalar values, not JavaScript's UTF-16 code units, so the two differ for characters outside the Basic Multilingual Plane.
- Aggregation.CounterTotals, Aggregation.GaugePoints and Aggregation.HistogramPoints: exported series are maps keyed by attribute set, so the first-seen order in which the exporter lists them (the metrics test's `timeSeries[0]`, `timeSeries[1]`) is not modelled.
- Floating point: all measurements are `real`, so rounding in sums and means is not modelled.
- Aggregation.Accepted: dropping non-number and negative values follows the OpenTelemetry SDK's behaviour; the SDK is not part of this model.
- Aggregation.BucketIndex: bounds are scanned in order, so the bucket is right only for sorted bounds, as the declared percentiles are; the SDK's binary search is not modelled.
- Metrics.Gauge.Set: `set()` with no arguments uses the default delta 1 as the other wrappers do; no test pins this case.
- Metrics.Summary.Observe: `observe({attrs})` records `[undefined, attrs]`; no test pins this case either.
- Scenarios.ServeRequest: requires two non-zero stamps, which is when the stubbed clock reads them verbatim.
