/** The optional value used throughout the model: a field that JavaScript holds
    as the empty string `''`, or a parse that produced `NaN`, is `None`. */
module Wrappers {

  datatype Option<+T> = None | Some(value: T) {

    /** The value, or `default` when there is none. */
    function GetOr(default: T): T {
      match this
      case Some(v) => v
      case None => default
    }
  }
}
