/** Values shared by every part of the model: JSON-like trees, label sets,
    JavaScript argument values and the call shapes the wrappers accept. */
module Values {

  datatype Option<+T> = None | Some(value: T)

  /** A JSON-like value, as sent to the monitoring backend and as written in
      the expected trees the tests compare request bodies against. */
  datatype Json =
    | JNull
    | JBool(b: bool)
    | JNum(n: real)
    | JStr(s: string)
    | JArr(items: seq<Json>)
    | JObj(fields: map<string, Json>)

  /** A label value: a string such as "GET" or a number such as 200. */
  datatype AttrValue = AStr(s: string) | ANum(n: real)

  /** An attribute set identifies one time series of a metric; key order is irrelevant. */
  type AttributeSet = map<string, AttrValue>

  /** One JavaScript argument value in a recorded argument list. */
  datatype Arg = Undefined | Number(x: real) | Attributes(attrs: AttributeSet)

  /** The call shapes of inc/dec/set/observe: f(), f(delta), f(attrs), f(attrs, delta).
      Attributes always come first when both are given. */
  datatype CallShape =
    | NoArgs
    | Num(delta: real)
    | Attrs(attrs: AttributeSet)
    | AttrsNum(attrs: AttributeSet, delta: real)
}
