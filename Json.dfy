/**
 * The loosely typed values an agent call hands back, with the few JavaScript
 * operations the page applies to them: truthiness, optional property access
 * (`x?.key`), `Array.isArray` and `typeof` tests.
 *
 * Numbers are integers: JavaScript's fractions and NaN are not modelled.
 */
module Json {
  import opened Wrappers

  datatype Json =
    | JNull
    | JBool(b: bool)
    | JNum(n: int)
    | JStr(s: string)
    | JArr(items: seq<Json>)
    | JObj(fields: map<string, Json>)

  /** JavaScript truthiness: `null`, `false`, `0` and `""` are falsy; arrays and objects are truthy. */
  predicate Truthy(j: Json) {
    match j
    case JNull => false
    case JBool(b) => b
    case JNum(n) => n != 0
    case JStr(s) => s != ""
    case JArr(_) => true
    case JObj(_) => true
  }

  /** `!!x` for a value that may be `undefined` (`None`). */
  predicate Present(o: Option<Json>) {
    o.Some? && Truthy(o.value)
  }

  /**
   * `j?.key`: the property when `j` is an object that has it, otherwise `undefined`.
   * Reading a property of `null` through `?.`, or of a string, number, boolean or
   * array, yields `undefined` for the keys the page reads.
   */
  function Field(j: Json, key: string): (r: Option<Json>)
    ensures r.Some? <==> j.JObj? && key in j.fields
    ensures r.Some? ==> r.value == j.fields[key]
  {
    if j.JObj? && key in j.fields then Some(j.fields[key]) else None
  }

  /** `Array.isArray(o)` for a value that may be `undefined`. */
  predicate IsArray(o: Option<Json>) {
    o.Some? && o.value.JArr?
  }

  /** `typeof o === 'string'`. */
  predicate IsString(o: Option<Json>) {
    o.Some? && o.value.JStr?
  }

  /** `typeof o === 'number'`. */
  predicate IsNumber(o: Option<Json>) {
    o.Some? && o.value.JNum?
  }

  /** `Array.isArray(o) ? o : []`. */
  function ArrayOr(o: Option<Json>): (r: seq<Json>)
    ensures IsArray(o) ==> r == o.value.items
    ensures !IsArray(o) ==> r == []
  {
    match o
    case Some(JArr(items)) => items
    case _ => []
  }

  /** `typeof o === 'string' ? o : default`. */
  function StringOr(o: Option<Json>, default: string): (r: string)
    ensures IsString(o) ==> r == o.value.s
    ensures !IsString(o) ==> r == default
  {
    match o
    case Some(JStr(s)) => s
    case _ => default
  }

  /** `typeof o === 'number' ? o : default`. */
  function NumberOr(o: Option<Json>, default: int): (r: int)
    ensures IsNumber(o) ==> r == o.value.n
    ensures !IsNumber(o) ==> r == default
  {
    match o
    case Some(JNum(n)) => n
    case _ => default
  }
}
