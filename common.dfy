/** Small value types shared by the modules of the path tracer's front end. */
module Common {

  datatype Option<+T> = None | Some(value: T)

  /** The outcome of an operation that either yields a value or reports an error. */
  datatype Result<+T, +E> = Success(value: T) | Failure(error: E)

  /** What an immediate-mode slider or colour editor reports for one frame:
      either it was left alone, or the user moved it and it wrote `value`
      into the variable it edits (the widget call then returns true). */
  datatype Widget<T> = Idle | Changed(value: T)
  {
    /** The edited variable after the widget call. */
    function Apply(current: T): T
    {
      if Changed? then value else current
    }
  }
}
