/** The Some/None wrapper used wherever the Go code has a nil-able value:
    a nil `error`, an optional parse result, an absent map entry. */
module Options {

  datatype Option<+T> = None | Some(value: T)

}
