/**
 * The cache key: method, target URL, serialised query and, for every method
 * but GET, the serialised body.
 */
module CacheKeys {
  import opened Wrappers
  import opened JsonValues

  /**
   * JSON.stringify. It is left abstract: it orders object members by
   * insertion, so two objects with the same members need not give the same text.
   */
  type Serializer = Json -> string

  /** What the body contributes to a non-GET key: `body || {}`. */
  function KeyBody(body: Option<Json>): Json {
    Or(body, JObject([]))
  }

  /** The body takes part only in keys of methods other than GET. */
  function Key(ser: Serializer, verb: string, url: string, query: seq<(string, Json)>, body: Option<Json>): (key: string)
    ensures verb + ":" + url + "?" + ser(JObject(query)) <= key
    ensures verb == "GET" <==> key == verb + ":" + url + "?" + ser(JObject(query))
  {
    if verb == "GET" then
      "GET:" + url + "?" + ser(JObject(query))
    else
      verb + ":" + url + "?" + ser(JObject(query)) + ":" + ser(KeyBody(body))
  }

  /**
   * No serialised object is a proper prefix of another. JSON text of an object
   * is a balanced `{...}`, so JSON.stringify has this property.
   */
  ghost predicate ObjectsPrefixFree(ser: Serializer) {
    forall m1, m2 :: !(ser(JObject(m1)) < ser(JObject(m2)))
  }

  /**
   * Distinct objects that list their members in insertion order serialise to
   * distinct texts. JSON.stringify has this property; it does not have it for
   * objects with array-index names, which it lists in numeric order.
   */
  ghost predicate ObjectsInjective(ser: Serializer) {
    forall m1, m2 ::
      InsertionOrdered(JObject(m1)) && InsertionOrdered(JObject(m2)) && ser(JObject(m1)) == ser(JObject(m2))
      ==> m1 == m2
  }

  /** A separator that occurs in neither head marks where the head ends. */
  lemma SplitAtSeparator(c: char, a1: string, r1: string, a2: string, r2: string)
    requires c !in a1 && c !in a2
    requires a1 + [c] + r1 == a2 + [c] + r2
    ensures a1 == a2 && r1 == r2
  {
    var s := a1 + [c] + r1;
    assert s[|a1|] == c;
    assert s == a2 + [c] + r2;
    assert s[|a2|] == c;
    assert a1 == s[..|a1|];
    assert a2 == s[..|a2|];
    assert r1 == s[|a1| + 1..];
    assert r2 == s[|a2| + 1..];
  }

  /** Two texts neither of which is a proper prefix of the other are recovered from `text + ":" + rest`. */
  lemma SplitAfterPrefixFree(s1: string, b1: string, s2: string, b2: string)
    requires !(s1 < s2) && !(s2 < s1)
    requires s1 + ":" + b1 == s2 + ":" + b2
    ensures s1 == s2 && b1 == b2
  {
    var k := s1 + ":" + b1;
    assert k == s2 + ":" + b2;
    assert s1 == k[..|s1|];
    assert s2 == k[..|s2|];
    assert b1 == k[|s1| + 1..];
    assert b2 == k[|s2| + 1..];
  }

  /** What follows the target URL and its '?' in a key. */
  function KeyTail(ser: Serializer, verb: string, query: seq<(string, Json)>, body: Option<Json>): string {
    if verb == "GET" then ser(JObject(query)) else ser(JObject(query)) + ":" + ser(KeyBody(body))
  }

  /** Every key is `verb:url?tail`, GET keys included. */
  lemma KeyShape(ser: Serializer, verb: string, url: string, query: seq<(string, Json)>, body: Option<Json>)
    ensures Key(ser, verb, url, query, body) == verb + [':'] + (url + ['?'] + KeyTail(ser, verb, query, body))
  {
  }

  /**
   * Two requests share a key exactly when they agree on the method, the target
   * URL, the serialised query and, unless the method is GET, the serialised body.
   * HTTP methods hold no ':' and target URLs no '?'.
   */
  lemma KeysDistinguish(ser: Serializer,
                        m1: string, u1: string, q1: seq<(string, Json)>, b1: Option<Json>,
                        m2: string, u2: string, q2: seq<(string, Json)>, b2: Option<Json>)
    requires ':' !in m1 && ':' !in m2
    requires '?' !in u1 && '?' !in u2
    requires m1 != "GET" && m2 != "GET" ==> ObjectsPrefixFree(ser)
    ensures Key(ser, m1, u1, q1, b1) == Key(ser, m2, u2, q2, b2) <==>
              && m1 == m2
              && u1 == u2
              && ser(JObject(q1)) == ser(JObject(q2))
              && (m1 != "GET" ==> ser(KeyBody(b1)) == ser(KeyBody(b2)))
  {
    KeyShape(ser, m1, u1, q1, b1);
    KeyShape(ser, m2, u2, q2, b2);
    if Key(ser, m1, u1, q1, b1) == Key(ser, m2, u2, q2, b2) {
      var t1, t2 := KeyTail(ser, m1, q1, b1), KeyTail(ser, m2, q2, b2);
      SplitAtSeparator(':', m1, u1 + ['?'] + t1, m2, u2 + ['?'] + t2);
      SplitAtSeparator('?', u1, t1, u2, t2);
      if m1 != "GET" {
        SplitAfterPrefixFree(ser(JObject(q1)), ser(KeyBody(b1)), ser(JObject(q2)), ser(KeyBody(b2)));
      }
    }
  }

  /**
   * The key is not canonical: the same two query parameters, with names that
   * are not array indices, inserted in the other order give a different key
   * under any serialiser that tells insertion-ordered objects apart.
   */
  lemma InsertionOrderChangesKey(ser: Serializer, url: string, a: string, va: Json, b: string, vb: Json)
    requires ObjectsInjective(ser)
    requires '?' !in url && a != b
    requires !IndexName(a) && !IndexName(b) && InsertionOrdered(va) && InsertionOrdered(vb)
    ensures Key(ser, "GET", url, [(a, va), (b, vb)], None) != Key(ser, "GET", url, [(b, vb), (a, va)], None)
  {
    KeysDistinguish(ser, "GET", url, [(a, va), (b, vb)], None, "GET", url, [(b, vb), (a, va)], None);
  }
}
