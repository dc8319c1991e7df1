/** Optional values: JavaScript's `undefined`/`null` alternatives and the
    NaN of a failed parse. */
module Optional {

  datatype Option<+T> = None | Some(value: T) {

    /** `x ?? fallback` */
    function GetOr(fallback: T): T {
      match this
      case Some(v) => v
      case None => fallback
    }
  }
}
