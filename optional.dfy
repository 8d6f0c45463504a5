/** A value that may be missing: an absent JSON field, a failed map lookup. */
module Optional {

  datatype Option<T> = None | Some(value: T)
}
