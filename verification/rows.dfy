/** Values, rows and caller-supplied field maps shared by the whole model. */
module Rows {

  datatype Option<+T> = None | Some(value: T)

  /** A column value as the engine stores it; a column a row does not hold reads as Null. */
  datatype Value = Null | Bool(b: bool) | Int(i: int) | Str(s: string)

  /** A stored or returned row: column name to value. */
  type Row = map<string, Value>

  /**
   * Fields or filter criteria as a caller passes them: a key may be present
   * with an undefined value, which is None here.
   */
  type Fields = map<string, Option<Value>>

  /** The first element of a sequence, or None for the empty one (JavaScript's `xs[0]`). */
  function First<T>(xs: seq<T>): (r: Option<T>)
    ensures r.None? <==> xs == []
    ensures r.Some? ==> r.value == xs[0]
  {
    if xs == [] then None else Some(xs[0])
  }
}
