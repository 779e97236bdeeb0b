/** Shared result type: the Python exceptions the core can raise, as values. */
module Common {

  /** The exceptions that escape the modelled operations. */
  datatype Fault =
    | IndexError        // a positional token that is not there
    | ValueError        // a date-time string that strptime rejects
    | TypeError         // calling a handler that was never set, or ranging over a non-integer count
    | TransportFault    // the vendor control raised inside dynamicCall
    | CommInitFailed    // connect: the communication module did not initialise
    | LoginFailed       // connect: the second login attempt failed

  datatype Option<+T> = None | Some(value: T)

  datatype Result<+T> = Ok(value: T) | Err(fault: Fault) {
    predicate IsFailure() { Err? }

    function PropagateFailure<U>(): (r: Result<U>)
      requires Err?
    {
      Err(fault)
    }

    function Extract(): (v: T)
      requires Ok?
    {
      value
    }
  }
}
