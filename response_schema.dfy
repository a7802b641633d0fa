/** The `{status, message, data}` envelope. */
module Schemas {
  import opened Wrappers

  datatype Response<T> = Response(status: int, message: string, data: Option<T>)

  /** Why constructing a model failed. */
  datatype ValidationError = MissingField(field: string)

  /** `Response(...)` as declared: `status` defaults to 200 and `message` to "",
      but `data` is annotated `T | None` WITHOUT a default, which makes it a
      required field. Each argument is `None` when omitted; `data`'s inner
      option is the value passed, possibly `None`. */
  function NewResponseAsWritten<T>(status: Option<int>, message: Option<string>, data: Option<Option<T>>)
    : Result<Response<T>, ValidationError>
  {
    if data.None? then Err(MissingField("data"))
    else Ok(Response(status.GetOr(200), message.GetOr(""), data.value))
  }

  /** `Response(...)` with `data` defaulting to `None`, as its callers expect. */
  function NewResponse<T>(status: Option<int>, message: Option<string>, data: Option<Option<T>>): Response<T> {
    Response(status.GetOr(200), message.GetOr(""), data.GetOr(None))
  }

  /** As declared, an envelope built without `data` does not validate. */
  lemma MissingDataRejected<T>(status: Option<int>, message: Option<string>)
    ensures NewResponseAsWritten<T>(status, message, None) == Err(MissingField("data"))
  {
  }

  /** With `data` passed, the declared and the intended constructors agree;
      without it, the intended one yields an envelope with no data. */
  lemma ConstructorsAgree<T>(status: Option<int>, message: Option<string>, data: Option<Option<T>>)
    ensures data.Some? ==> NewResponseAsWritten(status, message, data) == Ok(NewResponse(status, message, data))
    ensures data.None? ==> NewResponse(status, message, data).data == None
  {
  }
}
