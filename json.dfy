/** Values as they travel in request bodies and as they are stored in document fields,
    with JavaScript's notion of truthiness, which every guard of the form `!x` or `x || d`
    in the handlers relies on. */
module Json {

  import opened Wrappers

  /** A JSON / document value. `Timestamp` is a store timestamp in milliseconds,
      `Record` a nested object (a map, or a document's nested field). */
  datatype Value =
    | Null
    | Boolean(b: bool)
    | Number(n: real)
    | Text(s: string)
    | Timestamp(ms: int)
    | Record(fields: map<string, Value>)

  /** A stored document: field name to value. */
  type Doc = map<string, Value>

  /** JavaScript truthiness (NaN is not modelled: numbers are exact). */
  predicate Truthy(v: Value) {
    match v
    case Null => false
    case Boolean(b) => b
    case Number(n) => n != 0.0
    case Text(s) => s != ""
    case Timestamp(_) => true
    case Record(_) => true
  }

  /** Truthiness of a possibly absent value (`undefined` is falsy). */
  predicate Present(v: Option<Value>) {
    v.Some? && Truthy(v.value)
  }

  /** `d[k]`, absent as `None`. */
  function Field(d: Doc, k: string): (r: Option<Value>)
    ensures r.Some? <==> k in d
    ensures r.Some? ==> r.value == d[k]
  {
    if k in d then Some(d[k]) else None
  }

  /** `x || 0` for a field that holds a number: any other content reads as 0. */
  function NumberOr0(v: Option<Value>): (r: real)
    ensures v.Some? && v.value.Number? ==> r == v.value.n
    ensures !(v.Some? && v.value.Number?) ==> r == 0.0
  {
    match v
    case Some(Number(n)) => n
    case _ => 0.0
  }

  /** Firestore `set(ref, fields, { merge: true })` and `update(ref, fields)`:
      the listed fields are overwritten, every other field is kept. */
  function Merge(d: Doc, fields: Doc): (r: Doc)
    ensures r.Keys == d.Keys + fields.Keys
    ensures forall k :: k in fields ==> r[k] == fields[k]
    ensures forall k :: k in d && k !in fields ==> r[k] == d[k]
  {
    d + fields
  }

  /** `FieldValue.increment(delta)` applied to a field: a numeric field grows by `delta`,
      an absent or non-numeric field is set to `delta`. */
  function Increment(prior: Option<Value>, delta: real): (r: Value)
    ensures r.Number?
    ensures prior.Some? && prior.value.Number? ==> r.n == prior.value.n + delta
    ensures !(prior.Some? && prior.value.Number?) ==> r.n == delta
  {
    match prior
    case Some(Number(n)) => Number(n + delta)
    case _ => Number(delta)
  }
}
