/** Optional values: JavaScript's `null`/`undefined` (which `??` treats alike) become `None`. */
module Wrappers {

  datatype Option<+T> = None | Some(value: T) {

    /** The value, or `default` when absent: JavaScript's `x ?? default`. */
    function GetOr(default: T): T {
      match this
      case Some(v) => v
      case None => default
    }

    /** This value, or `fallback` when absent: `x ?? y` where `y` may itself be absent. */
    function OrElse(fallback: Option<T>): (r: Option<T>)
      ensures r.Some? <==> this.Some? || fallback.Some?
    {
      if this.Some? then this else fallback
    }
  }
}
