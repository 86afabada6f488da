/** The partial deep matcher the tests apply to request bodies: every key of
    the expected tree must be found in the actual tree; nested objects and
    arrays are matched recursively, anything else by strict equality. */
module RequestBody {
  import opened Values

  // ----- Array index keys -----

  function DigitChar(d: nat): char
    requires d < 10
  {
    "0123456789"[d]
  }

  predicate IsDigit(c: char) { '0' <= c <= '9' }

  function DigitValue(c: char): nat
    requires IsDigit(c)
  {
    (c as int - '0' as int) as nat
  }

  /** The property key of array index i: its decimal numeral. */
  function IndexKey(i: nat): (k: string)
    ensures |k| > 0 && forall j :: 0 <= j < |k| ==> IsDigit(k[j])
    decreases i
  {
    if i < 10 then [DigitChar(i)] else IndexKey(i / 10) + [DigitChar(i % 10)]
  }

  function DigitsValue(k: string): nat
    requires forall j :: 0 <= j < |k| ==> IsDigit(k[j])
    decreases |k|
  {
    if k == [] then 0 else DigitsValue(k[..|k| - 1]) * 10 + DigitValue(k[|k| - 1])
  }

  /** A canonical index key: decimal digits with no leading zero. */
  predicate CanonicalIndex(k: string) {
    |k| > 0 && (forall j :: 0 <= j < |k| ==> IsDigit(k[j])) && (|k| == 1 || k[0] != '0')
  }

  /** Which array element a property key names, if any. */
  function ParseIndex(k: string): Option<nat> {
    if CanonicalIndex(k) then Some(DigitsValue(k)) else None
  }

  lemma DigitRoundTrip(d: nat)
    requires d < 10
    ensures IsDigit(DigitChar(d)) && DigitValue(DigitChar(d)) == d
  {
  }

  lemma {:induction false} IndexKeyShape(i: nat)
    ensures DigitsValue(IndexKey(i)) == i
    ensures i >= 1 ==> IndexKey(i)[0] != '0'
    decreases i
  {
    if i < 10 {
      DigitRoundTrip(i);
    } else {
      IndexKeyShape(i / 10);
      var k := IndexKey(i);
      assert k[..|k| - 1] == IndexKey(i / 10);
      DigitRoundTrip(i % 10);
    }
  }

  /** Index i's key reads back as i. */
  lemma IndexKeyRoundTrip(i: nat)
    ensures ParseIndex(IndexKey(i)) == Some(i)
  {
    IndexKeyShape(i);
  }

  lemma {:induction false} LeadingDigitPositive(k: string)
    requires CanonicalIndex(k) && |k| > 1
    ensures DigitsValue(k) >= 10
    decreases |k|
  {
    var p := k[..|k| - 1];
    if |p| > 1 {
      assert p[0] == k[0];
      LeadingDigitPositive(p);
    } else {
      assert p[0] == k[0];
      assert DigitsValue(p) == DigitValue(k[0]);
    }
  }

  /** A key names an array element only when it is that element's own key. */
  lemma {:induction false} ParseIndexCanonical(k: string)
    requires ParseIndex(k).Some?
    ensures IndexKey(ParseIndex(k).value) == k
    decreases |k|
  {
    var i := DigitsValue(k);
    if |k| == 1 {
      assert i == DigitValue(k[0]);
      assert IndexKey(i) == [k[0]];
    } else {
      var p := k[..|k| - 1];
      LeadingDigitPositive(k);
      assert p[0] == k[0];
      if |p| > 1 { assert CanonicalIndex(p); } else { assert CanonicalIndex(p); }
      ParseIndexCanonical(p);
      var d := DigitValue(k[|k| - 1]);
      assert i == DigitsValue(p) * 10 + d;
      assert i / 10 == DigitsValue(p) && i % 10 == d;
      assert DigitChar(d) == k[|k| - 1];
      assert IndexKey(i) == IndexKey(i / 10) + [DigitChar(i % 10)];
      assert p + [k[|k| - 1]] == k;
    }
  }

  // ----- Property lookup -----

  /** node[key] together with whether the property exists: own keys of an
      object; index keys and "length" of an array or a string; nothing on a
      number, a boolean or null. */
  function Get(node: Json, key: string): Option<Json> {
    match node
    case JObj(m) => if key in m then Some(m[key]) else None
    case JArr(xs) =>
      if key == "length" then Some(JNum(|xs| as real))
      else if ParseIndex(key).Some? && ParseIndex(key).value < |xs| then Some(xs[ParseIndex(key).value])
      else None
    case JStr(s) =>
      if key == "length" then Some(JNum(|s| as real))
      else if ParseIndex(key).Some? && ParseIndex(key).value < |s| then Some(JStr([s[ParseIndex(key).value]]))
      else None
    case _ => None
  }

  lemma GetIndex(node: Json, i: nat)
    ensures node.JArr? && i < |node.items| ==> Get(node, IndexKey(i)) == Some(node.items[i])
    ensures node.JArr? && i >= |node.items| ==> Get(node, IndexKey(i)) == None
    ensures node.JStr? && i < |node.s| ==> Get(node, IndexKey(i)) == Some(JStr([node.s[i]]))
  {
    IndexKeyRoundTrip(i);
    IndexKeyShape(i);
    assert IndexKey(i) != "length" by {
      assert IsDigit(IndexKey(i)[0]);
    }
  }

  // ----- The matcher -----

  /** typeof v === "object": objects, arrays and null. */
  predicate ObjectTyped(v: Json) { v.JObj? || v.JArr? || v.JNull? }

  /** testRequestBody(expected, actual) returns (true) rather than throwing.
      Object.keys of a number or a boolean is empty; Object.keys(null) throws. */
  predicate Matches(expected: Json, actual: Json)
    decreases expected, 0
  {
    match expected
    case JNull => false
    case JBool(_) => true
    case JNum(_) => true
    case JStr(s) => forall i :: 0 <= i < |s| ==> Get(actual, IndexKey(i)) == Some(JStr([s[i]]))
    case JArr(xs) => forall i :: 0 <= i < |xs| ==> EntryMatches(xs[i], Get(actual, IndexKey(i)))
    case JObj(m) => forall k :: k in m ==> EntryMatches(m[k], Get(actual, k))
  }

  /** One expected entry against actual[key]: an object-typed entry needs the
      property present and matches recursively; any other entry must be
      strictly equal to it. */
  predicate EntryMatches(v: Json, got: Option<Json>)
    decreases v, 1
  {
    if ObjectTyped(v) then got.Some? && Matches(v, got.value) else got == Some(v)
  }

  /** No null anywhere in the tree. */
  predicate NullFree(j: Json)
    decreases j
  {
    match j
    case JNull => false
    case JArr(xs) => forall i :: 0 <= i < |xs| ==> NullFree(xs[i])
    case JObj(m) => forall k :: k in m ==> NullFree(m[k])
    case _ => true
  }

  /** On an object, a match means: every expected key is present in the
      actual node, primitives are strictly equal, and object-typed entries
      match recursively; extra actual keys play no part. */
  lemma ObjectMatch(m: map<string, Json>, actual: Json, k: string)
    requires Matches(JObj(m), actual) && k in m
    ensures Get(actual, k).Some?
    ensures !ObjectTyped(m[k]) ==> Get(actual, k) == Some(m[k])
    ensures ObjectTyped(m[k]) ==> Matches(m[k], Get(actual, k).value)
  {
  }

  /** An empty expected object matches anything, so an entry {} only asks
      for the property to be present. */
  lemma EmptyEntry(key: string, actual: Json)
    ensures Matches(JObj(map[]), actual)
    ensures Matches(JObj(map[key := JObj(map[])]), actual) <==> Get(actual, key).Some?
  {
    var e := map[key := JObj(map[])];
    if Get(actual, key).Some? {
      assert forall k :: k in e ==> EntryMatches(e[k], Get(actual, k));
    }
  }

  /** Every null-free tree matches itself. */
  lemma {:induction false} SelfMatch(e: Json)
    requires NullFree(e)
    ensures Matches(e, e)
    decreases e
  {
    match e
    case JNull =>
    case JBool(_) =>
    case JNum(_) =>
    case JStr(s) =>
      forall i | 0 <= i < |s| ensures Get(e, IndexKey(i)) == Some(JStr([s[i]])) {
        GetIndex(e, i);
      }
    case JArr(xs) =>
      forall i | 0 <= i < |xs| ensures EntryMatches(xs[i], Get(e, IndexKey(i))) {
        GetIndex(e, i);
        if ObjectTyped(xs[i]) { SelfMatch(xs[i]); }
      }
    case JObj(m) =>
      forall k | k in m ensures EntryMatches(m[k], Get(e, k)) {
        if ObjectTyped(m[k]) { SelfMatch(m[k]); }
      }
  }

  /** b has every property of a, deeply: objects may gain keys, arrays keep
      their length, everything else is equal. */
  predicate Extends(a: Json, b: Json)
    decreases a
  {
    match a
    case JObj(m) => b.JObj? && m.Keys <= b.fields.Keys && forall k :: k in m ==> Extends(m[k], b.fields[k])
    case JArr(xs) => b.JArr? && |b.items| == |xs| && forall i :: 0 <= i < |xs| ==> Extends(xs[i], b.items[i])
    case _ => b == a
  }

  lemma ExtendsGet(a: Json, b: Json, k: string)
    requires Extends(a, b) && Get(a, k).Some?
    ensures Get(b, k).Some? && Extends(Get(a, k).value, Get(b, k).value)
  {
  }

  /** Matching is monotone: adding properties to the actual tree, at any
      depth, never turns a match into a mismatch. */
  lemma {:induction false} MatchMonotone(e: Json, a: Json, b: Json)
    requires Matches(e, a) && Extends(a, b)
    ensures Matches(e, b)
    decreases e, 0
  {
    match e
    case JNull =>
    case JBool(_) =>
    case JNum(_) =>
    case JStr(s) =>
      forall i | 0 <= i < |s| ensures Get(b, IndexKey(i)) == Some(JStr([s[i]])) {
        ExtendsGet(a, b, IndexKey(i));
      }
    case JArr(xs) =>
      forall i | 0 <= i < |xs| ensures EntryMatches(xs[i], Get(b, IndexKey(i))) {
        EntryMonotone(xs[i], a, b, IndexKey(i));
      }
    case JObj(m) =>
      forall k | k in m ensures EntryMatches(m[k], Get(b, k)) {
        EntryMonotone(m[k], a, b, k);
      }
  }

  lemma {:induction false} EntryMonotone(v: Json, a: Json, b: Json, k: string)
    requires EntryMatches(v, Get(a, k)) && Extends(a, b)
    ensures EntryMatches(v, Get(b, k))
    decreases v, 1
  {
    ExtendsGet(a, b, k);
    if ObjectTyped(v) {
      MatchMonotone(v, Get(a, k).value, Get(b, k).value);
    }
  }

  /** An expected array matches a longer actual array that agrees on the
      expected indices: arrays are walked by index key. */
  lemma ArrayPrefix(xs: seq<Json>, ys: seq<Json>, zs: seq<Json>)
    requires Matches(JArr(xs), JArr(ys))
    ensures Matches(JArr(xs), JArr(ys + zs))
  {
    forall i | 0 <= i < |xs| ensures EntryMatches(xs[i], Get(JArr(ys + zs), IndexKey(i))) {
      GetIndex(JArr(ys), i);
      GetIndex(JArr(ys + zs), i);
      assert i < |ys|;
      assert (ys + zs)[i] == ys[i];
    }
  }
}
