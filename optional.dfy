/** The conventional optional value, standing for Kotlin's nullable types. */
module Optional {

  datatype Option<T> = None | Some(value: T) {

    /** Kotlin's `?:` operator: the value, or `default` when it is null. */
    function GetOr(default: T): T {
      match this
      case Some(v) => v
      case None => default
    }
  }
}
