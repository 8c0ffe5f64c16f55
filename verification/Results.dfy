/** Optional values and results that carry either a value or an error. */
module Results {

  datatype Option<+T> = None | Some(value: T)
  {
    /** The value if there is one, and `default` otherwise (the `??` of the program). */
    function GetOr(default: T): T {
      if Some? then value else default
    }
  }

  datatype Result<+T, +E> = Ok(value: T) | Err(error: E)
}
