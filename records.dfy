/**
 * The loosely typed form objects that the pages keep in React state: a record maps a field
 * name to a JavaScript value. A missing field reads as `null` (JavaScript's `undefined`,
 * which the pages treat the same way).
 */
module Records {
  import opened Wrappers

  /**
   * A field value. `Date` is a `yyyy-mm-dd` calendar date held as its day number since the
   * epoch; `List` is an array of strings such as a client's tags.
   */
  datatype Value = Null | Text(s: string) | Number(n: int) | Flag(b: bool) | Date(day: int) | List(items: seq<string>)

  type Record = map<string, Value>

  /** JavaScript truthiness: `null`, `""`, `0` and `false` are falsy; dates and arrays are not. */
  predicate JsTruthy(v: Value) {
    match v
    case Null => false
    case Text(s) => s != []
    case Number(n) => n != 0
    case Flag(b) => b
    case Date(_) => true
    case List(_) => true
  }

  /** `form.field`, with a missing field read as `null`. */
  function Get(form: Record, field: string): (r: Value)
    ensures field !in form ==> r == Null
    ensures field in form ==> r == form[field]
  {
    if field in form then form[field] else Null
  }

  /** `x || null`: falsy values are sent as `null`, truthy ones unchanged. */
  function OrNull(v: Value): (r: Value)
    ensures r == Null <==> !JsTruthy(v)
    ensures r != Null ==> r == v
  {
    if JsTruthy(v) then v else Null
  }

  /** `x || fallback` for a text fallback. */
  function OrText(v: Value, fallback: string): (r: Value)
    ensures JsTruthy(v) ==> r == v
    ensures !JsTruthy(v) ==> r == Text(fallback)
  {
    if JsTruthy(v) then v else Text(fallback)
  }

  /** `{ ...form, [field]: value }`: only `field` changes. */
  function Set(form: Record, field: string, value: Value): (r: Record)
    ensures r.Keys == form.Keys + {field}
    ensures Get(r, field) == value
    ensures forall k :: k in form && k != field ==> r[k] == form[k]
  {
    form[field := value]
  }

  /** A second change of the same field overrides the first. */
  lemma SetTwice(form: Record, field: string, a: Value, b: Value)
    ensures Set(Set(form, field, a), field, b) == Set(form, field, b)
  {
  }

  /** Changes to different fields can happen in either order. */
  lemma SetSwap(form: Record, f: string, g: string, a: Value, b: Value)
    requires f != g
    ensures Set(Set(form, f, a), g, b) == Set(Set(form, g, b), f, a)
  {
  }

  /** Writing back a field's own value changes nothing. */
  lemma SetSame(form: Record, field: string)
    requires field in form
    ensures Set(form, field, Get(form, field)) == form
  {
  }

  /** `value || ""` on a nullable string column. */
  function TextOr(s: Option<string>, fallback: string): (r: string)
    ensures Truthy(s) ==> r == s.value
    ensures !Truthy(s) ==> r == fallback
  {
    if Truthy(s) then s.value else fallback
  }
}
