/** The optional-value datatype shared by the models: `None` stands for an
    absent property, a missing key or Python's `None`, depending on context. */
module Wrappers {

  datatype Option<+T> = None | Some(value: T) {

    /** The carried value, or `default` when there is none. */
    function GetOr(default: T): T
    {
      match this
      case Some(v) => v
      case None => default
    }
  }
}
