/** The errors a request on the samples service can end in: the two domain
    errors, each carrying a constant (status code, code, message) triple, and
    the library and runtime errors that carry no such triple. */
module Errors {
  import opened Wrappers
  import opened Text

  /** The `status_code`, `code` and `message` attributes of a domain error. */
  datatype ErrorInfo = ErrorInfo(statusCode: int, code: string, message: string)

  datatype Error =
    | SampleNotFoundError
    | SampleAlreadyExistsError
      /** `Result.one()` found no row. */
    | NoResultFound
      /** A name looked up at run time was not bound. */
    | NameError(name: string)
      /** Anything else (a database or driver failure, say), with its text. */
    | Unexpected(text: string)

  /** The triple a domain error sets in its constructor; `None` for every error
      without a `status_code` attribute. The constructors take no arguments, so
      the triple depends on the class alone. */
  function Attributes(e: Error): Option<ErrorInfo> {
    match e
    case SampleNotFoundError => Some(ErrorInfo(404, "S404", "Sample data not found"))
    case SampleAlreadyExistsError => Some(ErrorInfo(409, "S409", "Sample data already exists"))
    case _ => None
  }

  /** `str(error)`: the domain errors never pass arguments to `Exception`, so
      their text is empty. */
  function Describe(e: Error): string {
    match e
    case SampleNotFoundError => ""
    case SampleAlreadyExistsError => ""
    case NoResultFound => "No row was found when one was required"
    case NameError(n) => "name '" + n + "' is not defined"
    case Unexpected(t) => t
  }

  /** Exactly the two domain errors have a `status_code`. */
  lemma DomainErrorsHaveStatus(e: Error)
    ensures Attributes(e).Some? <==> e == SampleNotFoundError || e == SampleAlreadyExistsError
  {
  }

  lemma NotFoundTriple()
    ensures Attributes(SampleNotFoundError) == Some(ErrorInfo(404, "S404", "Sample data not found"))
  {
  }

  lemma AlreadyExistsTriple()
    ensures Attributes(SampleAlreadyExistsError) == Some(ErrorInfo(409, "S409", "Sample data already exists"))
  {
  }

  /** In every domain error the code is "S" followed by the decimal status code. */
  lemma CodeSpellsStatus(e: Error)
    requires Attributes(e).Some?
    ensures Attributes(e).value.code == "S" + Decimal(Attributes(e).value.statusCode)
  {
    assert Digits(40) == Digits(4) + ['0'];
    assert Digits(404) == Digits(40) + ['4'];
    assert Digits(409) == Digits(40) + ['9'];
  }
}
