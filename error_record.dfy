/** The five error kinds (Domain/Errors/ErrorType.cs). */
module ErrorTypes {
  datatype ErrorType = Validation | NotFound | Failure | Conflict | Null
}

/** The `Error` record of the domain (Domain/Errors/Error.cs). */
module ErrorRecord {
  import opened Wrappers
  import opened ErrorTypes

  /** An error: a stable short code, a human-readable message, its kind and
      the name of the offending field, if any. Equality of two errors is the
      record's value equality: all four components. */
  datatype Error = Error(code: string, message: string, errorType: ErrorType, invalidField: Option<string>)

  /** The constructor called without its optional last argument. */
  function NewError(code: string, message: string, errorType: ErrorType): (e: Error)
    ensures e == Error(code, message, errorType, None)
  {
    Error(code, message, errorType, None)
  }

  /** `Error.Failure(code, message)`. */
  function Failure(code: string, message: string): (e: Error)
    ensures e.errorType == ErrorType.Failure && e.invalidField == None
    ensures e.code == code && e.message == message
  {
    NewError(code, message, ErrorType.Failure)
  }

  /** `Error.NotFound(code, message)`. */
  function NotFound(code: string, message: string): (e: Error)
    ensures e.errorType == ErrorType.NotFound && e.invalidField == None
    ensures e.code == code && e.message == message
  {
    NewError(code, message, ErrorType.NotFound)
  }

  /** The two factories never produce the same error, and each is determined
      by exactly its two arguments. */
  lemma FactoriesAreInjectiveAndDisjoint(c1: string, m1: string, c2: string, m2: string)
    ensures Failure(c1, m1) != NotFound(c2, m2)
    ensures Failure(c1, m1) == Failure(c2, m2) <==> c1 == c2 && m1 == m2
    ensures NotFound(c1, m1) == NotFound(c2, m2) <==> c1 == c2 && m1 == m2
  {
  }

  /** Value equality: two errors are equal iff their four fields are. */
  lemma ErrorEquality(a: Error, b: Error)
    ensures a == b <==> (a.code == b.code && a.message == b.message
                         && a.errorType == b.errorType && a.invalidField == b.invalidField)
  {
  }
}
