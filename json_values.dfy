/**
 * JSON values as the proxy handles them: request query objects and bodies,
 * upstream response data and the error bodies the proxy builds itself.
 */
module JsonValues {
  import opened Wrappers

  /**
   * A parsed JSON value. Object members are listed in the order the object
   * enumerates them: JavaScript lists array-index names ("0", "1", ...) first,
   * in ascending numeric order, and all other names in insertion order.
   */
  datatype Json =
    | JNull
    | JBool(b: bool)
    | JNumber(n: int)
    | JString(s: string)
    | JArray(items: seq<Json>)
    | JObject(members: seq<(string, Json)>)

  /** JavaScript truthiness of a value that may be `undefined`. Objects and arrays are always truthy. */
  predicate Truthy(v: Option<Json>) {
    match v
    case None => false
    case Some(JNull) => false
    case Some(JBool(b)) => b
    case Some(JNumber(n)) => n != 0
    case Some(JString(s)) => s != ""
    case Some(_) => true
  }

  /** The JavaScript expression `v || fallback`. */
  function Or(v: Option<Json>, fallback: Json): Json {
    if Truthy(v) then v.value else fallback
  }

  /**
   * A name JavaScript treats as an array index: a canonical decimal numeral.
   * This also covers numerals past the largest array index, so it errs on the side of caution.
   */
  predicate IndexName(name: string) {
    && |name| > 0
    && (forall i :: 0 <= i < |name| ==> '0' <= name[i] <= '9')
    && (name == "0" || name[0] != '0')
  }

  /**
   * Every object in the value, however deeply nested, has distinct member names
   * and no array-index names. For such values the member order is the insertion order.
   */
  predicate InsertionOrdered(j: Json)
    decreases j
  {
    match j
    case JArray(items) => forall i :: 0 <= i < |items| ==> InsertionOrdered(items[i])
    case JObject(members) =>
      && (forall i, k :: 0 <= i < k < |members| ==> members[i].0 != members[k].0)
      && (forall i :: 0 <= i < |members| ==> !IndexName(members[i].0) && InsertionOrdered(members[i].1))
    case _ => true
  }

  /** The object `{error: text}`. */
  function ErrorBody(text: string): Json {
    JObject([("error", JString(text))])
  }
}
