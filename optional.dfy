/** A value that may be absent: JavaScript's `null` for the session record,
    an omitted field in a provider response. */
module Optional {

  datatype Option<+T> = None | Some(value: T)
}
