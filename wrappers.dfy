/** Optional values, results, and the exceptions the statLM core raises. */
module Wrappers {

  /** `None` stands for the `numpy.NaN` "no prediction" sentinel where it is used that way. */
  datatype Option<+T> = None | Some(value: T)

  /** One constructor per cause of an exception in the core. */
  datatype Error =
    | InvalidFrequency  // ValueError: a frequency that is neither a dict nor a Counter
    | InvalidCorpus     // ValueError: a corpus that is not a list
    | InvalidSubscript  // ValueError: a subscript that is neither a str nor a list
    | DivisionByZero    // ZeroDivisionError: normalising matches whose counts sum to zero
    | MissingOrder      // KeyError: no table for the requested n-gram order
    | NotFitted         // TypeError / AttributeError: `model_frequencies` is None

  /** A value, or the exception that was raised instead. */
  datatype Result<+T> = Ok(value: T) | Err(error: Error)
}
