/** JavaScript values as the handlers and components see them: a JSON field
    that is either a string or absent (`undefined`), JavaScript truthiness of
    such a field, the `a || b` fallback and `${a}` template interpolation. */
module JsValues {

  /** A value that may be absent. */
  datatype Option<+T> = None | Some(value: T) {
    function GetOr(default: T): T {
      match this
      case Some(v) => v
      case None => default
    }
  }

  /** A string field of a parsed JSON body or of component props. */
  type Field = Option<string>

  /** JavaScript truthiness of a string-or-undefined: `undefined` and `''` are falsy. */
  predicate Truthy(f: Field) {
    f.Some? && f.value != ""
  }

  /** `f || fallback`: the field when it is truthy, the fallback otherwise. */
  function Or(f: Field, fallback: string): (r: string)
    ensures Truthy(f) ==> r == f.value
    ensures !Truthy(f) ==> r == fallback
  {
    if Truthy(f) then f.value else fallback
  }

  /** `${f}` in a template literal: an absent field prints as "undefined". */
  function Interpolate(f: Field): (r: string)
    ensures f.Some? ==> r == f.value
    ensures f.None? ==> r == "undefined"
  {
    match f
    case Some(s) => s
    case None => "undefined"
  }

  /** `record[key]` on a string-valued record: `undefined` for a key it does not hold. */
  function Lookup(record: map<string, string>, key: string): (r: Field)
    ensures r.Some? <==> key in record
    ensures r.Some? ==> r.value == record[key]
  {
    if key in record then Some(record[key]) else None
  }
}
