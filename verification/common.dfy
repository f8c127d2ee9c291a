/** Shared vocabulary: optional values, the Python exceptions the modelled
    code can raise, results that carry either a value or such an exception,
    and the targets a graph router may name. */
module Common {

  /** A value that may be absent: Python's `None` versus a present value, or a
      dictionary key that is missing versus present. */
  datatype Option<+T> = None | Some(value: T)

  /** The exceptions the modelled functions raise, by Python class. */
  datatype Error =
    | ValueError(msg: string)
    | IndexError
    | KeyError(key: string)
    | AttributeError(name: string)
    | AssertionError(msg: string)

  /** The router's `raise ValueError("Invalid route")`. */
  const InvalidRoute: Error := ValueError("Invalid route")

  /** Either a normal return value or a raised exception. */
  datatype Result<+T> = Ok(value: T) | Err(error: Error) {

    predicate IsFailure() {
      Err?
    }

    function PropagateFailure<U>(): Result<U>
      requires Err?
    {
      Err(error)
    }

    function Extract(): T
      requires Ok?
    {
      value
    }
  }

  /** What a conditional edge names: the graph's `END` marker or a node. */
  datatype Target = End | Node(name: string)
}
