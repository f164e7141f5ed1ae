/** The option and result types every other module uses for nullable columns and thrown errors. */
module Wrappers {
  datatype Option<+T> = None | Some(value: T) {
    /** JavaScript's `a ?? b` with a non-null right-hand side. */
    function GetOr(default: T): T {
      match this
      case Some(v) => v
      case None => default
    }

    /** `a ?? b` where the right-hand side may be null as well. */
    function OrElse(other: Option<T>): Option<T> {
      if Some? then this else other
    }
  }

  datatype Result<+T, +E> = Ok(value: T) | Err(error: E)

  /** The keys a nullable column holds: none or one. */
  function Recorded<T>(o: Option<T>): set<T> {
    match o
    case Some(v) => {v}
    case None => {}
  }
}
