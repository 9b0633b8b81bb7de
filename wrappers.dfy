/** The optional value used wherever the source has an optional property
    (`x?: T`) or a lookup that can miss (`Array.prototype.find`). */
module Wrappers {

  datatype Option<+T> = None | Some(value: T) {

    /** The value, or `default` when there is none: the `??` operator. */
    function GetOr(default: T): T {
      match this
      case Some(v) => v
      case None => default
    }

    /** This value when there is one, otherwise `other`. */
    function Or(other: Option<T>): Option<T> {
      if this.Some? then this else other
    }
  }
}
