/** Optional values: JavaScript's null/undefined on one side, a present value on the other. */
module Common {

  datatype Option<+T> = None | Some(value: T) {

    /** The value if present, otherwise the given default (the `x ?? d` idiom). */
    function GetOr(default: T): T {
      if Some? then value else default
    }
  }
}
