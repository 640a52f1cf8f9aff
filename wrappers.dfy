/** The optional value the other modules use for a dictionary entry that may be absent. */
module Wrappers {

  datatype Option<T> = None | Some(value: T) {

    /** `dict.get(key, default)`: the value when there is one, else the default. */
    function GetOr(default: T): (r: T)
      ensures this.Some? ==> r == this.value
      ensures this.None? ==> r == default
    {
      match this
      case None => default
      case Some(v) => v
    }
  }
}
