/** The optional values that the modelled services pass around. */
module Options {
  datatype Option<+T> = None | Some(value: T) {
    /** The wrapped value, or `fallback` when there is none. */
    function GetOr(fallback: T): T {
      if Some? then value else fallback
    }
  }
}
