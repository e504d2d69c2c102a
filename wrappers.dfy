/** Option and Result types, and the ways the modelled C++ code can fail. */
module Wrappers {

  datatype Option<+T> = None | Some(value: T)

  /** How a call in the source ends when it does not return normally. */
  datatype Fault =
    | OutOfRange        // std::out_of_range from vector::at / string::at / string::substr
    | InvalidArgument   // std::invalid_argument from std::stoi (no digits)
    | Undefined         // undefined behaviour: front()/back() of an empty container
    | Fatal             // the source prints a message and calls exit(1)
    | NotReached        // the model's bound on an unbounded `while (true)` loop was exhausted

  datatype Result<+T> = Ok(value: T) | Err(fault: Fault) {
    predicate IsFailure() { Err? }

    function PropagateFailure<U>(): Result<U>
      requires Err?
    {
      Err(fault)
    }

    function Extract(): T
      requires Ok?
    {
      value
    }
  }
}
