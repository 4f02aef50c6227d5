/** Python's `None`-or-value, used for memoized fields and lookups. */
module Options {

  datatype Option<+T> = None | Some(value: T)
}
