/** The config translator: a metric declaration in the uniform format becomes
    the argument list [name, options] of the backend's create call. */
module Config {
  import opened Values

  /** A metric declaration as callers write it. Each optional key is None when
      absent; keys this layer does not know are kept, with their values, in `unknown`. */
  datatype Declaration = Declaration(
    name: string,
    help: Option<string>,
    unit: Option<string>,
    valueType: Option<string>,
    percentiles: Option<seq<real>>,
    labelNames: Option<seq<string>>,
    unknown: map<string, Json>)

  datatype Advice = Advice(explicitBucketBoundaries: seq<real>)

  /** The options object of a backend create call; None means the key is absent. */
  datatype InstrumentOptions = InstrumentOptions(
    description: Option<string>,
    unit: Option<string>,
    valueType: Option<string>,
    advice: Option<Advice>)

  /** The argument list [name, options] of a backend create call. */
  datatype MetricArgs = MetricArgs(name: string, options: InstrumentOptions)

  const NoOptions := InstrumentOptions(None, None, None, None)

  /** A declaration with only a name. */
  function Named(name: string): Declaration {
    Declaration(name, None, None, None, None, None, map[])
  }

  /** `help` is renamed to `description`, `unit` and `valueType` pass through,
      `percentiles` become explicit bucket boundaries; nothing else is emitted. */
  function Translate(d: Declaration): InstrumentOptions {
    InstrumentOptions(
      d.help, d.unit, d.valueType,
      match d.percentiles
      case None => None
      case Some(p) => Some(Advice(p)))
  }

  /** The backend constructor arguments for a declaration. */
  function CreateArgs(d: Declaration): MetricArgs {
    MetricArgs(d.name, Translate(d))
  }

  /** The keys present on an options object, as JavaScript's Object.keys lists them. */
  function OptionKeys(o: InstrumentOptions): (keys: set<string>)
    ensures keys <= {"description", "unit", "valueType", "advice"}
  {
    (if o.description.Some? then {"description"} else {}) +
    (if o.unit.Some? then {"unit"} else {}) +
    (if o.valueType.Some? then {"valueType"} else {}) +
    (if o.advice.Some? then {"advice"} else {})
  }

  /** The declaration an argument list was translated from, with no label
      names and no unknown keys: the partner of CreateArgs. */
  function Untranslate(a: MetricArgs): Declaration {
    Declaration(
      a.name, a.options.description, a.options.unit, a.options.valueType,
      match a.options.advice
      case None => None
      case Some(adv) => Some(adv.explicitBucketBoundaries),
      None, map[])
  }

  /** The part of a declaration the push-model translation keeps. */
  function Kept(d: Declaration): Declaration {
    Declaration(d.name, d.help, d.unit, d.valueType, d.percentiles, None, map[])
  }

  /** Translation loses exactly the label names and the unknown keys: undoing
      it gives back the kept part of the declaration, and every argument list
      is the translation of its own untranslation. */
  lemma RoundTrip(d: Declaration, a: MetricArgs)
    ensures Untranslate(CreateArgs(d)) == Kept(d)
    ensures CreateArgs(Untranslate(a)) == a
  {
  }

  /** Two declarations translate alike exactly when they agree on name, help,
      unit, valueType and percentiles; label names and unknown keys never matter. */
  lemma TranslateDetermines(d1: Declaration, d2: Declaration)
    ensures CreateArgs(d1) == CreateArgs(d2) <==>
      (d1.name == d2.name && d1.help == d2.help && d1.unit == d2.unit &&
       d1.valueType == d2.valueType && d1.percentiles == d2.percentiles)
  {
    if CreateArgs(d1) == CreateArgs(d2) {
      RoundTrip(d1, CreateArgs(d1));
      RoundTrip(d2, CreateArgs(d2));
      assert Kept(d1) == Kept(d2);
    }
  }

  /** An options key is emitted exactly when its declaration key was given. */
  lemma TranslateKeys(d: Declaration)
    ensures "description" in OptionKeys(Translate(d)) <==> d.help.Some?
    ensures "unit" in OptionKeys(Translate(d)) <==> d.unit.Some?
    ensures "valueType" in OptionKeys(Translate(d)) <==> d.valueType.Some?
    ensures "advice" in OptionKeys(Translate(d)) <==> d.percentiles.Some?
    ensures d.help.None? && d.unit.None? && d.valueType.None? && d.percentiles.None? ==>
      OptionKeys(Translate(d)) == {}
  {
  }

  /** Percentiles become bucket boundaries verbatim, in the same order. */
  lemma PercentilesVerbatim(d: Declaration, p: seq<real>)
    requires d.percentiles == Some(p)
    ensures Translate(d).advice == Some(Advice(p))
  {
  }
}
