/** The parameter normaliser and the pure semantics of the three wrappers:
    which argument list a counter passes to add, which one a summary passes
    to record, and how a gauge's value and last attributes evolve. */
module Params {
  import opened Values

  /** The canonical {delta, attributes} pair. */
  datatype Observation = Observation(delta: real, attributes: AttributeSet)

  /** Resolves a call shape: a missing delta is 1, missing attributes are {}. */
  function Normalise(c: CallShape): Observation {
    match c
    case NoArgs => Observation(1.0, map[])
    case Num(d) => Observation(d, map[])
    case Attrs(m) => Observation(1.0, m)
    case AttrsNum(m, d) => Observation(d, m)
  }

  /** The fully explicit call f(attrs, delta) that stands for an observation. */
  function Explicit(o: Observation): CallShape {
    AttrsNum(o.attributes, o.delta)
  }

  /** Every call means the same as its explicit form, and the explicit form of
      an observation normalises back to it: f() is f({}, 1), f(d) is f({}, d),
      f(m) is f(m, 1). */
  lemma NormaliseExplicit(c: CallShape, o: Observation)
    ensures Normalise(Explicit(Normalise(c))) == Normalise(c)
    ensures Normalise(Explicit(o)) == o
    ensures Normalise(NoArgs) == Normalise(AttrsNum(map[], 1.0))
    ensures c.Num? ==> Normalise(c) == Normalise(AttrsNum(map[], c.delta))
    ensures c.Attrs? ==> Normalise(c) == Normalise(AttrsNum(c.attrs, 1.0))
  {
  }

  /** The argument list Counter.inc passes to the backend's add: always
      (delta, attributes), defaults applied. */
  function CounterAddArgs(c: CallShape): (args: seq<Arg>)
    ensures |args| == 2 && args[0].Number? && args[1].Attributes?
  {
    var o := Normalise(c);
    [Number(o.delta), Attributes(o.attributes)]
  }

  /** The argument list Summary.observe passes to the backend's record: the
      shape of the call is kept and no default is applied. */
  function SummaryRecordArgs(c: CallShape): seq<Arg> {
    match c
    case NoArgs => [Undefined]
    case Num(d) => [Number(d)]
    case Attrs(m) => [Undefined, Attributes(m)]
    case AttrsNum(m, d) => [Number(d), Attributes(m)]
  }

  /** Reads a call shape back from a recorded argument list (the partner of
      SummaryRecordArgs); lists no wrapper produces read as None. */
  function ShapeOfRecord(args: seq<Arg>): Option<CallShape> {
    if args == [Undefined] then Some(NoArgs)
    else if |args| == 1 && args[0].Number? then Some(Num(args[0].x))
    else if |args| == 2 && args[0] == Undefined && args[1].Attributes? then Some(Attrs(args[1].attrs))
    else if |args| == 2 && args[0].Number? && args[1].Attributes? then Some(AttrsNum(args[1].attrs, args[0].x))
    else None
  }

  /** observe keeps the argument shape: distinct calls record distinct
      argument lists, and the call can be read back from what was recorded. */
  lemma SummaryKeepsShape(c: CallShape, c': CallShape)
    ensures ShapeOfRecord(SummaryRecordArgs(c)) == Some(c)
    ensures SummaryRecordArgs(c) == SummaryRecordArgs(c') ==> c == c'
  {
    assert ShapeOfRecord(SummaryRecordArgs(c)) == Some(c);
    assert ShapeOfRecord(SummaryRecordArgs(c')) == Some(c');
  }

  /** A counter's recorded argument list carries the normalised observation:
      first the delta, then the attributes. */
  lemma CounterCarriesObservation(c: CallShape)
    ensures CounterAddArgs(c)[0].x == Normalise(c).delta
    ensures CounterAddArgs(c)[1].attrs == Normalise(c).attributes
    ensures ShapeOfRecord(CounterAddArgs(c)) == Some(Explicit(Normalise(c)))
  {
  }

  // ----- Gauge semantics -----

  /** The mutable cell of a gauge: its current value and the attributes of the
      most recent call. */
  datatype GaugeState = GaugeState(value: real, lastAttrs: AttributeSet)

  const InitialGauge := GaugeState(0.0, map[])

  datatype GaugeOp = SetOp(shape: CallShape) | IncOp(shape: CallShape) | DecOp(shape: CallShape)

  /** set overwrites the value, inc and dec add or subtract (step 1 by
      default); each replaces the last attributes with its own, {} if none. */
  function Step(s: GaugeState, op: GaugeOp): GaugeState {
    var o := Normalise(op.shape);
    match op
    case SetOp(_) => GaugeState(o.delta, o.attributes)
    case IncOp(_) => GaugeState(s.value + o.delta, o.attributes)
    case DecOp(_) => GaugeState(s.value - o.delta, o.attributes)
  }

  /** The state after a sequence of calls, applied in order. */
  function Run(s: GaugeState, ops: seq<GaugeOp>): GaugeState
    decreases |ops|
  {
    if ops == [] then s else Step(Run(s, ops[..|ops| - 1]), ops[|ops| - 1])
  }

  predicate IsSet(op: GaugeOp) { op.SetOp? }

  /** What inc and dec calls add in all. */
  function NetChange(ops: seq<GaugeOp>): real
    decreases |ops|
  {
    if ops == [] then 0.0
    else
      var op := ops[|ops| - 1];
      var d := Normalise(op.shape).delta;
      NetChange(ops[..|ops| - 1]) +
        (match op case SetOp(_) => 0.0 case IncOp(_) => d case DecOp(_) => -d)
  }

  /** Running two sequences one after the other is running their concatenation. */
  lemma {:induction false} RunConcat(s: GaugeState, a: seq<GaugeOp>, b: seq<GaugeOp>)
    ensures Run(s, a + b) == Run(Run(s, a), b)
    decreases |b|
  {
    if b == [] {
      assert a + b == a;
    } else {
      var b' := b[..|b| - 1];
      assert (a + b)[..|a + b| - 1] == a + b';
      assert (a + b)[|a + b| - 1] == b[|b| - 1];
      RunConcat(s, a, b');
    }
  }

  /** Without a set, the value moves by exactly the sum of the incs and decs. */
  lemma {:induction false} RunWithoutSet(s: GaugeState, ops: seq<GaugeOp>)
    requires forall i :: 0 <= i < |ops| ==> !IsSet(ops[i])
    ensures Run(s, ops).value == s.value + NetChange(ops)
    decreases |ops|
  {
    if ops != [] {
      RunWithoutSet(s, ops[..|ops| - 1]);
    }
  }

  /** A set forgets everything before it: after set(v) and then incs and decs
      only, the value is v plus their net change, whatever the earlier history. */
  lemma SetForgetsHistory(s: GaugeState, before: seq<GaugeOp>, c: CallShape, after: seq<GaugeOp>)
    requires forall i :: 0 <= i < |after| ==> !IsSet(after[i])
    ensures Run(s, before + [SetOp(c)] + after).value == Normalise(c).delta + NetChange(after)
  {
    RunConcat(s, before + [SetOp(c)], after);
    RunConcat(s, before, [SetOp(c)]);
    assert Run(Run(s, before), [SetOp(c)]) == Step(Run(Run(s, before), []), SetOp(c));
    RunWithoutSet(Run(s, before + [SetOp(c)]), after);
  }

  /** The last attributes are those of the most recent call alone: replaced,
      never merged, and {} when that call gave none. */
  lemma LastAttrsReplaced(s: GaugeState, ops: seq<GaugeOp>)
    requires ops != []
    ensures Run(s, ops).lastAttrs == Normalise(ops[|ops| - 1].shape).attributes
    ensures ops[|ops| - 1].shape.NoArgs? || ops[|ops| - 1].shape.Num? ==> Run(s, ops).lastAttrs == map[]
  {
  }
}
