/** A key a node may or may not return in its partial update. */
module Options {

  datatype Option<T> = None | Some(value: T)

  /** The returned value when the node returned one, otherwise `current`. */
  function Overwrite<T>(returned: Option<T>, current: T): T {
    if returned.Some? then returned.value else current
  }
}
