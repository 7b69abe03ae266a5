/** The optional fields of the input record (`field?: number` in the source). */
module Optional {

  /** A field that may be missing from the input record. */
  datatype Option<T> = None | Some(value: T)

  /** The `??` operator: a present field's value, otherwise the fallback. */
  function ValueOr<T>(field: Option<T>, fallback: T): (r: T)
    ensures field.Some? ==> r == field.value
    ensures field.None? ==> r == fallback
  {
    if field.Some? then field.value else fallback
  }
}
