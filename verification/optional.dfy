/** Python's "value or None", for optional arguments, environment lookups and the result pair. */
module Optional {

  datatype Option<T> = None | Some(value: T)

  /** `dict.get(key, default)` on an optional entry: the value when present, else `default`. */
  function ValueOr<T>(o: Option<T>, default: T): T {
    if o.Some? then o.value else default
  }
}
