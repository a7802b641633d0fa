/** The application: the HTTPException handler, the environment-gated
    documentation routes, and the options handed to the HTTP server. */
module App {
  import opened Wrappers
  import opened Text
  import opened Models
  import opened Errors
  import opened Schemas
  import opened Repositories
  import opened Routers
  import Config

  const Title := "Service Name - Swagger UI"
  const OpenApiUrl := "/openapi.json"
  const DocsPath := "/docs"

  /** A JSON response: its status and its body. */
  datatype JsonResponse = JsonResponse(statusCode: int, content: Detail)

  /** `http_exception_handler`: the body is the exception's detail as it is,
      the status its status code. */
  function HttpExceptionHandler(exc: HttpException): JsonResponse {
    JsonResponse(exc.statusCode, exc.detail)
  }

  /** The response a samples route yields from the handler's outcome, before the
      framework validates a returned value against the route's response model:
      that value under the route's declared status, the JSON made by the exception
      handler, or, for an error nobody caught, the framework's bare 500
      "Internal Server Error". */
  datatype ClientResponse<T> = Served(statusCode: int, value: T) | ErrorJson(json: JsonResponse) | ServerError

  function Respond<T>(route: Route, o: Outcome<T>): ClientResponse<T> {
    match o
    case Returned(v) => Served(DeclaredStatus(route), v)
    case RaisedHttp(exc) => ErrorJson(HttpExceptionHandler(exc))
    case Propagated(_) => ServerError
  }

  /** What `/docs` and `/` produce: a returned envelope (sent with HTTP 200 like
      any returned model), the Swagger page, a redirect, or a failure to build
      the envelope (an uncaught error, so a 500). */
  datatype Page =
    | EnvelopePage(envelope: Response<()>)
    | SwaggerUi(openapiUrl: string, title: string)
    | RedirectTo(location: string)
    | Failed(error: ValidationError)

  /** `Response(status=404, message="404 Not Found")` as intended, with no data. */
  function NotFoundEnvelope(): Response<()> {
    NewResponse(Some(404), Some("404 Not Found"), None)
  }

  /** The same call against the envelope as declared. */
  function NotFoundPageAsWritten(): Page {
    match NewResponseAsWritten<()>(Some(404), Some("404 Not Found"), None)
    case Ok(r) => EnvelopePage(r)
    case Err(e) => Failed(e)
  }

  /** `GET /docs`. */
  function SwaggerUiHtml(env: Config.Environment): Page {
    if env == Config.Production then EnvelopePage(NotFoundEnvelope()) else SwaggerUi(OpenApiUrl, Title)
  }

  function SwaggerUiHtmlAsWritten(env: Config.Environment): Page {
    if env == Config.Production then NotFoundPageAsWritten() else SwaggerUi(OpenApiUrl, Title)
  }

  /** `GET /`. */
  function Home(env: Config.Environment): Page {
    if env == Config.Production then EnvelopePage(NotFoundEnvelope()) else RedirectTo(DocsPath)
  }

  function HomeAsWritten(env: Config.Environment): Page {
    if env == Config.Production then NotFoundPageAsWritten() else RedirectTo(DocsPath)
  }

  /** The HTTP status a page is sent with. */
  function PageStatus(p: Page): int {
    match p
    case EnvelopePage(_) => 200
    case SwaggerUi(_, _) => 200
    case RedirectTo(_) => 307
    case Failed(_) => 500
  }

  datatype ServerOptions = ServerOptions(app: string, host: string, port: int, logLevel: string, reload: bool)

  /** `server()`: the arguments given to `uvicorn.run`. */
  function Server(config: Config.BaseConfig): ServerOptions {
    ServerOptions(
      "src:app", config.host, config.port,
      Lower(Config.LevelValue(config.logging.level)),
      config.environment == Config.Development)
  }

  // ---------------------------------------------------------------------------

  /** The exception handler's body is exactly the detail, its status the exception's. */
  lemma HandlerCopiesDetail(exc: HttpException)
    ensures HttpExceptionHandler(exc).statusCode == exc.statusCode
    ensures HttpExceptionHandler(exc).content == exc.detail
  {
  }

  /** Through `create` or `read` and the exception handler, a domain error reaches
      the client as `{code, message}` with the error's own status. */
  lemma DomainErrorReachesClient(e: Error)
    requires Attributes(e).Some?
    ensures var info := Attributes(e).value;
            var json := JsonResponse(info.statusCode, Detail(Some(info.code), info.message));
      Respond(CreateRoute, Create(Err(e)).outcome) == ErrorJson(json) &&
      Respond(ReadRoute, Read(Err(e)).outcome) == ErrorJson(json)
  {
  }

  /** Reading a missing row answers 409 with code S409, as the repository is written. */
  lemma ReadMissingAnswers409(t: Table, id: Uuid)
    requires id !in t
    ensures Respond(ReadRoute, Read(LookupById(t, id)).outcome) ==
            ErrorJson(JsonResponse(409, Detail(Some("S409"), "Sample data already exists")))
  {
  }

  /** Creating a duplicate answers 409 with code S409. */
  lemma DuplicateCreateAnswers409(t: Table, input: SampleCreate, now: int)
    requires input.id in t
    ensures Respond(CreateRoute, Create(AfterCreate(t, input, now).1).outcome) ==
            ErrorJson(JsonResponse(409, Detail(Some("S409"), "Sample data already exists")))
  {
  }

  /** Updating a missing row is not translated anywhere: the client gets the bare 500. */
  lemma UpdateMissingIsServerError(t: Table, id: Uuid, patch: SampleUpdate, now: int)
    requires id !in t
    ensures Respond(UpdateRoute, Update(AfterUpdate(t, id, patch, now).1).outcome) == ServerError
  {
  }

  /** A successful delete is answered with 204. */
  lemma DeleteAnswers204()
    ensures Respond(DeleteRoute, Delete(Ok(())).outcome) == Served(204, ())
  {
  }

  /** As written, `read` fails before querying, and the router turns the unbound
      name into a 500 for every request, even for a row that exists. */
  lemma ReadAsWrittenAnswers500(t: Table, probe: Sample)
    ensures Respond(ReadRoute, Read(LookupAsWritten(t, probe)).outcome) ==
            ErrorJson(JsonResponse(500, Detail(None, "Unhandled error: name 'sample' is not defined")))
  {
    var text := Describe(NameError("sample"));
    assert text == "name '" + "sample" + "' is not defined";
    UnhandledMessage(text);
  }

  lemma UnhandledMessage(text: string)
    requires text == "name 'sample' is not defined"
    ensures "Unhandled error: " + text == "Unhandled error: name 'sample' is not defined"
  {
  }

  /** Outside production `/docs` serves the Swagger page; in production it never does. */
  lemma DocsGated(env: Config.Environment)
    ensures SwaggerUiHtml(env).SwaggerUi? <==> env != Config.Production
    ensures env == Config.Production ==>
      SwaggerUiHtml(env) == EnvelopePage(Response(404, "404 Not Found", None)) &&
      PageStatus(SwaggerUiHtml(env)) == 200
  {
  }

  /** Outside production `/` redirects to `/docs`; in production it never redirects. */
  lemma HomeGated(env: Config.Environment)
    ensures Home(env).RedirectTo? <==> env != Config.Production
    ensures env != Config.Production ==> Home(env) == RedirectTo("/docs") && PageStatus(Home(env)) == 307
    ensures env == Config.Production ==> Home(env) == EnvelopePage(Response(404, "404 Not Found", None))
  {
  }

  /** As written, the production branch of `/docs` and `/` cannot build its
      envelope: the required `data` is missing, and the request fails with 500. */
  lemma ProductionPagesFailAsWritten()
    ensures SwaggerUiHtmlAsWritten(Config.Production) == Failed(MissingField("data"))
    ensures HomeAsWritten(Config.Production) == Failed(MissingField("data"))
    ensures PageStatus(HomeAsWritten(Config.Production)) == 500
    ensures SwaggerUiHtmlAsWritten(Config.Development) == SwaggerUiHtml(Config.Development)
    ensures HomeAsWritten(Config.Development) == Home(Config.Development)
  {
  }

  /** Auto-reload is on exactly in development, and the log level is the
      configured level's (already lower-case) name. */
  lemma ServerFlags(config: Config.BaseConfig)
    ensures Server(config).reload <==> config.environment == Config.Development
    ensures Server(config).logLevel == Config.LevelValue(config.logging.level)
    ensures Server(config).host == config.host && Server(config).port == config.port
  {
    LowerOfLower(Config.LevelValue(config.logging.level));
  }

  /** With the default settings the server binds 0.0.0.0:8080, logs at "info" and reloads. */
  lemma DefaultServer(service: string)
    ensures Server(Config.DefaultConfig(service)) == ServerOptions("src:app", "0.0.0.0", 8080, "info", true)
  {
    ServerFlags(Config.DefaultConfig(service));
  }
}
