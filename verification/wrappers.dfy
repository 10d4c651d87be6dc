/** The optional-value datatype shared by every module of the model. */
module Wrappers {

  /** `None` stands for JavaScript's `undefined` / an absent value. */
  datatype Option<+T> = None | Some(value: T) {

    /** The value, or `default` when there is none. */
    function GetOr(default: T): T {
      match this
      case Some(v) => v
      case None => default
    }
  }
}
