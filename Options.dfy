/** A value that may be absent: a JSON property that is missing or null, a
    React state slot that holds `null`. */
module Options {

  datatype Option<+T> = None | Some(value: T)
}
