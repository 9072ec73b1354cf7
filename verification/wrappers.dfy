/** Optional values, standing in for the `undefined` / `null` results of the
    stream store and for the optional `to` field of signaling messages. */
module Wrappers {

  datatype Option<+T> = None | Some(value: T) {

    /** The carried value when there is one, otherwise `default`. */
    function GetOr(default: T): T {
      if Some? then value else default
    }
  }
}
