/** An optional value: TypeScript's `T | undefined`. */
module Options {

  datatype Option<+T> = None | Some(value: T) {

    /** TypeScript's `x ?? default`: the wrapped value, or `default` when absent. */
    function GetOr(default: T): T {
      if Some? then value else default
    }
  }
}
