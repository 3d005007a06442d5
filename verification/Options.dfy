/** A value that may be absent: Go's nil pointer, Python's None. */
module Options {
  datatype Option<+T> = None | Some(value: T) {
    function GetOr(other: T): T {
      if Some? then value else other
    }
  }
}
