/** An optional value: JavaScript's `undefined`/`null`/NaN against a present one. */
module Options {

  datatype Option<T> = None | Some(value: T) {

    /** The value, or `default` when absent (`x || default` on a string). */
    function GetOr(default: T): T {
      match this
      case Some(v) => v
      case None => default
    }
  }
}
