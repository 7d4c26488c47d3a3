/** Values the script's Python runtime produces: optional values, globals that may never
    have been assigned, and the exceptions that abort the run. */
module Runtime {

  /** Python's `None` versus a present value. */
  datatype Option<T> = None | Some(value: T)

  /** A module-level global: either never assigned (reading it raises NameError) or
      holding a value. */
  datatype Slot<T> = Unassigned | Assigned(value: T)

  /** The exceptions that end the script. */
  datatype Failure =
    | SelectModeError        // RuntimeError("Select a MODE")
    | AlphaMissingError      // RuntimeError("... you must define parameter ALPHA")
    | NameError(name: string) // read of a global that was never assigned
    | StopIteration          // next(iter(loader)) on a loader with no batches
    | ShapeMismatch          // CrossEntropyLoss: input and target batch sizes differ
    | ZeroDivision           // float division by zero
    | IndexError             // accuracies_validation[-1] on an empty list

  datatype Result<T> = Ok(value: T) | Err(failure: Failure)
}
