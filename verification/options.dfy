module Options {
  datatype Option<+T> = None | Some(value: T) {
    function GetOr(default: T): T {
      if Some? then value else default
    }
  }

  /** What an operation answers: the new state, or why nothing changed. */
  datatype Outcome<+T, +R> = Done(value: T) | Refused(reason: R)
}
