/** Shared vocabulary of the state-machine engine: arena handles, optional and
    failure-carrying results, and the opaque values that conditions compare. */
module Types {

  /** Index of a state record in a layout's arena. */
  type StateId = nat

  /** Index of a transition record in a layout's arena. */
  type TransId = nat

  /** Index of a condition in a layout's arena. */
  type CondId = nat

  /** An application-supplied hook (a zero-argument callback) is known to the
      engine only by the label it is given here. */
  type Label = string

  datatype Option<+T> = None | Some(value: T)

  datatype Result<+T, +E> = Success(value: T) | Failure(error: E)

  datatype Outcome<+E> = Pass | Fail(error: E)

  /** The free-form values a condition compares and a monitored state carries
      in its custom value slot; `NoValue` plays the part of Python's `None`. */
  datatype Value = NoValue | Str(s: string) | Num(x: real)
}
