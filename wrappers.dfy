/** The optional value used for PHP arguments and array entries that may be null or absent. */
module Wrappers {

  /** None stands for a PHP null (or an absent array key); Some(v) for a present value. */
  datatype Option<+T> = None | Some(value: T) {

    /** The wrapped value, or `default` when there is none. */
    function GetOr(default: T): T {
      match this
      case Some(v) => v
      case None => default
    }
  }
}
