/** A value that may be missing: JSON fields that are absent, null or undefined. */
module Optional {

  datatype Option<+T> = None | Some(value: T)
  {
    /** The value, or `default` when it is missing. */
    function GetOr(default: T): T
    {
      match this
      case Some(v) => v
      case None => default
    }
  }
}
