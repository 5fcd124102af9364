/** The optional value used for every protobuf field that has a `has_` accessor. */
module Wrappers {

  datatype Option<+T> = None | Some(value: T) {

    /** The field's value, or the protobuf default when it is not set. */
    function GetOr(default: T): T {
      match this
      case Some(v) => v
      case None => default
    }
  }
}
