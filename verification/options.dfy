/** Kotlin's nullable references (`T?`), as a value type. */
module Options {

  datatype Option<+T> = None | Some(value: T) {

    /** The value, or `default` when absent: Kotlin's elvis operator `?:`. */
    function OrElse(default: T): T
    {
      match this
      case Some(v) => v
      case None => default
    }
  }
}
