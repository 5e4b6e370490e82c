/**
  The value `JSON.parse` produces, and the handful of JavaScript operations the
  agent applies to it: reading a member (`v.key`, `undefined` when absent or
  when `v` is not an object), the nullish test behind `??`, truthiness, and
  `Array.isArray`. Parsing itself is not modelled: a parser is passed in as a
  function from text to an optional value.
 */
module Json {
  import opened Wrappers

  /** A decoded JSON document. Numbers are exact rationals. */
  datatype Json =
    | JNull
    | JBool(b: bool)
    | JNumber(n: real)
    | JString(s: string)
    | JArray(items: seq<Json>)
    | JObject(fields: map<string, Json>)

  /** `v.key`: `None` stands for `undefined`. Only objects have members the
      agent looks for; reading a member of `null` throws, which callers
      handle before calling this. */
  function Member(v: Json, key: string): (r: Option<Json>)
    ensures r.Some? <==> v.JObject? && key in v.fields
    ensures r.Some? ==> r.value == v.fields[key]
  {
    match v
    case JObject(fields) => if key in fields then Some(fields[key]) else None
    case _ => None
  }

  /** `undefined` or `null`: the values `??` replaces. */
  predicate Nullish(o: Option<Json>) {
    o.None? || o.value.JNull?
  }

  /** `a ?? b`. */
  function Coalesce(a: Option<Json>, b: Option<Json>): (r: Option<Json>)
    ensures !Nullish(a) ==> r == a
    ensures Nullish(a) ==> r == b
  {
    if Nullish(a) then b else a
  }

  /** JavaScript truthiness of an optional JSON value (`undefined` is falsy). */
  predicate Truthy(o: Option<Json>) {
    match o
    case None => false
    case Some(v) =>
      match v
      case JNull => false
      case JBool(b) => b
      case JNumber(n) => n != 0.0
      case JString(s) => s != []
      case JArray(_) => true
      case JObject(_) => true
  }

  /** `typeof x === 'string'`, giving the string. */
  function AsString(o: Option<Json>): (r: Option<string>)
    ensures r.Some? <==> o.Some? && o.value.JString?
    ensures r.Some? ==> o.value == JString(r.value)
  {
    if o.Some? && o.value.JString? then Some(o.value.s) else None
  }

  /** `typeof x === 'number'`, giving the number. */
  function AsNumber(o: Option<Json>): (r: Option<real>)
    ensures r.Some? <==> o.Some? && o.value.JNumber?
    ensures r.Some? ==> o.value == JNumber(r.value)
  {
    if o.Some? && o.value.JNumber? then Some(o.value.n) else None
  }

  /** `Array.isArray(x)`, giving the elements. */
  function AsArray(o: Option<Json>): (r: Option<seq<Json>>)
    ensures r.Some? <==> o.Some? && o.value.JArray?
    ensures r.Some? ==> o.value == JArray(r.value)
  {
    if o.Some? && o.value.JArray? then Some(o.value.items) else None
  }

  /** A number with no fractional part. */
  predicate IsIntegral(n: real) {
    n == n.Floor as real
  }

  /** `xs[n]` is defined for a number `n` exactly when `n` is a whole number
      in range (a fractional, negative or too large index reads `undefined`). */
  predicate IsIndex(n: real, len: nat) {
    IsIntegral(n) && 0.0 <= n && n < len as real
  }

  /** The position a valid index names. */
  function IndexOf(n: real, len: nat): (i: nat)
    requires IsIndex(n, len)
    ensures i < len && i as real == n
  {
    n.Floor
  }

  /** The array a decoder filters: `parsed` itself when it is an array,
      otherwise the envelope member `chosen` (read from `parsed`), or `[]`
      when that is absent or null. `None` stands for the `TypeError` of
      reading a member of `null`, or of calling `filter` on a member that is
      not an array. */
  function ItemsOf(parsed: Json, chosen: Option<Json>): (r: Option<seq<Json>>)
    ensures parsed.JArray? ==> r == Some(parsed.items)
    ensures parsed.JNull? ==> r.None?
    ensures !parsed.JArray? && !parsed.JNull? ==>
      r == (if Nullish(chosen) then Some([]) else AsArray(chosen))
  {
    if parsed.JArray? then Some(parsed.items)
    else if parsed.JNull? then None
    else if Nullish(chosen) then Some([])
    else AsArray(chosen)
  }

  /** How many items `shape` accepts. */
  function CountShaped<T>(items: seq<Json>, shape: Json -> Option<T>): nat {
    if items == [] then 0
    else (if shape(items[0]).Some? then 1 else 0) + CountShaped(items[1..], shape)
  }

  /** `items.filter(test)` followed by reading the kept items at their type:
      the items `shape` accepts, in order. Reading a member of a `null` item
      throws (`None`). */
  function KeepShaped<T>(items: seq<Json>, shape: Json -> Option<T>): (r: Option<seq<T>>)
    ensures r.None? <==> JNull in items
    ensures r.Some? ==> |r.value| == CountShaped(items, shape)
    ensures r.Some? ==> forall c :: c in r.value ==> exists v :: v in items && shape(v) == Some(c)
  {
    if items == [] then Some([])
    else if items[0].JNull? then None
    else
      var rest := KeepShaped(items[1..], shape);
      assert JNull in items <==> JNull in items[1..];
      if rest.None? then None
      else
        var head := shape(items[0]);
        assert forall v :: v in items[1..] ==> v in items;
        Some((if head.Some? then [head.value] else []) + rest.value)
  }

  /** The filter handles the items one by one: filtering a concatenation is
      concatenating the filtered parts. */
  lemma {:induction false} KeepShapedAppend<T>(a: seq<Json>, b: seq<Json>, shape: Json -> Option<T>)
    requires JNull !in a && JNull !in b
    ensures KeepShaped(a + b, shape) == Some(KeepShaped(a, shape).value + KeepShaped(b, shape).value)
  {
    if a != [] {
      assert (a + b)[1..] == a[1..] + b;
      assert JNull !in a[1..] by { assert forall v :: v in a[1..] ==> v in a; }
      assert JNull !in a + b;
      KeepShapedAppend(a[1..], b, shape);
      KeepShapedCons(a, shape);
      KeepShapedCons(a + b, shape);
      var h := ShapedHead(a[0], shape);
      assert h + (KeepShaped(a[1..], shape).value + KeepShaped(b, shape).value)
          == (h + KeepShaped(a[1..], shape).value) + KeepShaped(b, shape).value;
    } else {
      assert a + b == b;
      assert KeepShaped(a, shape) == Some([]);
      assert KeepShaped(b, shape).Some?;
      assert [] + KeepShaped(b, shape).value == KeepShaped(b, shape).value;
    }
  }

  /** What the filter keeps of one non-null item. */
  function ShapedHead<T>(v: Json, shape: Json -> Option<T>): seq<T> {
    if shape(v).Some? then [shape(v).value] else []
  }

  lemma KeepShapedCons<T>(items: seq<Json>, shape: Json -> Option<T>)
    requires items != [] && JNull !in items
    ensures KeepShaped(items[1..], shape).Some?
    ensures KeepShaped(items, shape) == Some(ShapedHead(items[0], shape) + KeepShaped(items[1..], shape).value)
  {
    assert JNull !in items[1..] by { assert forall v :: v in items[1..] ==> v in items; }
  }

  /** A single item is kept exactly when it has the shape. */
  lemma KeepShapedOne<T>(v: Json, shape: Json -> Option<T>)
    requires !v.JNull?
    ensures KeepShaped([v], shape) == Some(if shape(v).Some? then [shape(v).value] else [])
  {
    assert [v][1..] == [];
    assert KeepShaped([], shape) == Some([]);
    var head := shape(v);
    var h: seq<T> := if head.Some? then [head.value] else [];
    assert h + [] == h;
  }
}
