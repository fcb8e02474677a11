/** A value that may be missing: an absent document field, or a lookup that found nothing. */
module Options {

  datatype Option<+T> = None | Some(value: T)
}
