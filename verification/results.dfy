/** Failure-compatible wrappers and the errors the formatter throws. */
module Results {

  datatype Option<+T> = None | Some(value: T)

  /** The exceptions `ABA.generate` and its helpers can throw. */
  datatype Error =
    | NoPayments           // "Please pass in at least one payment" (empty transaction list)
    | FieldOrder           // "Custom schema error, please provide field boundaries in grow order"
    | UnknownSchema(key: string)  // no schema under that record-type key: reading `.fields` of undefined
    | TotalNotNumeric      // a text amount turned a bucket sum into a string: `.toFixed` is not a function

  datatype Result<+T> = Ok(value: T) | Err(error: Error) {

    predicate IsFailure() {
      Err?
    }

    function PropagateFailure<U>(): Result<U>
      requires Err?
    {
      Err(error)
    }

    function Extract(): T
      requires Ok?
    {
      value
    }
  }
}
