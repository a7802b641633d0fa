/** The `/samples` handlers, as functions of what the service call produced.
    `create` and `read` catch every error: one with a `status_code` becomes an
    HTTPException carrying its status, code and message (and is logged), any
    other becomes a 500 with no code. The other three handlers catch nothing. */
module Routers {
  import opened Wrappers
  import opened Models
  import opened Errors
  import opened Schemas

  /** The `detail` of an HTTPException: `{"code": ..., "message": ...}`. */
  datatype Detail = Detail(code: Option<string>, message: string)

  datatype HttpException = HttpException(statusCode: int, detail: Detail)

  /** How a handler finishes: it returns a value, raises an HTTPException, or
      lets the service's error propagate untouched. */
  datatype Outcome<T> = Returned(value: T) | RaisedHttp(exc: HttpException) | Propagated(error: Error)

  /** A handler's outcome and whether it wrote the error to the log. */
  datatype Handled<T> = Handled(outcome: Outcome<T>, logged: bool)

  const InternalServerError := 500
  const CreatedMessage := "Sample created successfully"

  /** The `except Exception as error` block shared by `create` and `read`. */
  function Translate<T>(e: Error): Handled<T> {
    match Attributes(e)
    case None =>
      Handled(RaisedHttp(HttpException(InternalServerError, Detail(None, "Unhandled error: " + Describe(e)))), false)
    case Some(info) =>
      Handled(RaisedHttp(HttpException(info.statusCode, Detail(Some(info.code), info.message))), true)
  }

  /** `POST /samples/`: the created record in a 200 envelope. */
  function Create(served: Result<Sample, Error>): Handled<Response<Sample>> {
    match served
    case Ok(data) => Handled(Returned(NewResponse(Some(200), Some(CreatedMessage), Some(Some(data)))), false)
    case Err(e) => Translate(e)
  }

  /** `GET /samples/{id}`: the record itself, not wrapped in an envelope. */
  function Read(served: Result<Sample, Error>): Handled<Sample> {
    match served
    case Ok(data) => Handled(Returned(data), false)
    case Err(e) => Translate(e)
  }

  /** A handler without a `try`: the service's value or error, unchanged. */
  function Forward<T>(served: Result<T, Error>): Handled<T> {
    match served
    case Ok(v) => Handled(Returned(v), false)
    case Err(e) => Handled(Propagated(e), false)
  }

  /** `GET /samples/`. */
  function ReadAll(served: Result<set<Sample>, Error>): Handled<set<Sample>> {
    Forward(served)
  }

  /** `PATCH /samples/{id}`. */
  function Update(served: Result<Sample, Error>): Handled<Sample> {
    Forward(served)
  }

  /** `DELETE /samples/{id}`. */
  function Delete(served: Result<(), Error>): Handled<()> {
    Forward(served)
  }

  datatype Route = CreateRoute | ReadAllRoute | ReadRoute | UpdateRoute | DeleteRoute

  /** The status each route declares for success. */
  function DeclaredStatus(route: Route): int {
    if route == DeleteRoute then 204 else 200
  }

  // ---------------------------------------------------------------------------

  /** A successful create answers with status 200, the fixed message and the
      created record as data; nothing is logged. */
  lemma CreateSuccessEnvelope(served: Result<Sample, Error>)
    requires served.Ok?
    ensures Create(served) ==
            Handled(Returned(Response(200, "Sample created successfully", Some(served.value))), false)
  {
  }

  /** A successful read returns the record as it came from the service. */
  lemma ReadSuccessUnwrapped(served: Result<Sample, Error>)
    requires served.Ok?
    ensures Read(served) == Handled(Returned(served.value), false)
  {
  }

  /** A domain error keeps its status, and its code and message become the
      detail; it is logged. */
  lemma DomainErrorTranslated(e: Error)
    requires Attributes(e).Some?
    ensures var info := Attributes(e).value;
      && Create(Err(e)) == Handled(RaisedHttp(HttpException(info.statusCode, Detail(Some(info.code), info.message))), true)
      && Read(Err(e)) == Handled(RaisedHttp(HttpException(info.statusCode, Detail(Some(info.code), info.message))), true)
  {
  }

  /** Any other error becomes a 500 with no code and "Unhandled error: " and the
      error's text as message; it is not logged. */
  lemma OtherErrorIs500(e: Error)
    requires Attributes(e).None?
    ensures var h := HttpException(500, Detail(None, "Unhandled error: " + Describe(e)));
      Create(Err(e)) == Handled(RaisedHttp(h), false) && Read(Err(e)) == Handled(RaisedHttp(h), false)
  {
  }

  /** The two catching handlers log exactly when the error carries a status code,
      and the HTTP status is the error's own or 500. */
  lemma LoggedExactlyForDomainErrors(e: Error)
    ensures Create(Err(e)).logged <==> Attributes(e).Some?
    ensures Read(Err(e)).logged <==> Attributes(e).Some?
    ensures Create(Err(e)).outcome.RaisedHttp?
    ensures Create(Err(e)).outcome.exc.statusCode in {404, 409, 500}
  {
  }

  /** `read_all`, `update` and `delete` translate nothing: values come back as
      returned and errors propagate unchanged. */
  lemma ForwardingHandlersTranslateNothing(all: Result<set<Sample>, Error>, one: Result<Sample, Error>, none: Result<(), Error>)
    ensures all.Ok? ==> ReadAll(all) == Handled(Returned(all.value), false)
    ensures all.Err? ==> ReadAll(all) == Handled(Propagated(all.error), false)
    ensures one.Ok? ==> Update(one) == Handled(Returned(one.value), false)
    ensures one.Err? ==> Update(one) == Handled(Propagated(one.error), false)
    ensures none.Ok? ==> Delete(none) == Handled(Returned(none.value), false)
    ensures none.Err? ==> Delete(none) == Handled(Propagated(none.error), false)
    ensures !Update(one).outcome.RaisedHttp? && !Delete(none).outcome.RaisedHttp?
  {
  }

  /** Only delete declares 204 No Content. */
  lemma DeleteDeclaresNoContent(route: Route)
    ensures DeclaredStatus(route) == 204 <==> route == DeleteRoute
    ensures route != DeleteRoute ==> DeclaredStatus(route) == 200
  {
  }
}
