/**
 * The `withExceptions` render callback of the backend: for API requests it
 * turns an exception into the JSON error envelope and a status code, trying
 * one exception class after another; other requests get the framework's
 * default page.
 */
module ExceptionRender {
  import opened Common

  /** The exception classes the callback distinguishes. The three HTTP exception
      kinds all implement Symfony's `HttpExceptionInterface`. */
  datatype Exception =
    | ValidationException(errors: map<string, seq<string>>)
    | AuthenticationException
    | AuthorizationException
    | ModelNotFoundException
    | NotFoundHttpException(message: string)
    | MethodNotAllowedHttpException(message: string)
    | OtherHttpException(statusCode: int, message: string)
    | QueryException(sqlMessage: string)
    | OtherThrowable(message: string)

  /** PHP's `?:` treats "" and "0" as false. */
  predicate PhpTruthy(s: string) {
    s != "" && s != "0"
  }

  datatype Envelope = Envelope(success: bool, message: string, errors: map<string, seq<string>>)
  datatype Rendered = Rendered(status: int, body: Envelope)

  function Fail(status: int, message: string, key: string, detail: string): Rendered {
    Rendered(status, Envelope(false, message, map[key := [detail]]))
  }

  /** The status each exception class is answered with. */
  function StatusFor(e: Exception): int {
    match e
    case ValidationException(_) => 422
    case AuthenticationException => 401
    case AuthorizationException => 403
    case ModelNotFoundException => 404
    case NotFoundHttpException(_) => 404
    case MethodNotAllowedHttpException(_) => 405
    case OtherHttpException(code, _) => code
    case QueryException(_) => 500
    case OtherThrowable(_) => 500
  }

  /** The single `errors` key of every envelope but the validation one. */
  function KeyFor(e: Exception): string
    requires !e.ValidationException?
  {
    match e
    case AuthenticationException => "auth"
    case AuthorizationException => "authorization"
    case ModelNotFoundException => "not_found"
    case NotFoundHttpException(_) => "route"
    case MethodNotAllowedHttpException(_) => "method"
    case OtherHttpException(_, _) => "http"
    case QueryException(_) => "database"
    case OtherThrowable(_) => "server"
  }

  // The envelope messages, in the backend's language.
  const VALIDATION_FAILED := "Validacija nije prošla."
  const NOT_AUTHENTICATED := "Niste autorizovani. Potrebna je prijava."
  const TOKEN_MISSING := "Niste ulogovani ili je token istekao."
  const NOT_PERMITTED := "Nemate dozvolu za ovu akciju."
  const ACCESS_DENIED := "Zabranjen pristup."
  const RESOURCE_NOT_FOUND := "Traženi resurs nije pronađen."
  const RESOURCE_GONE := "Resurs ne postoji ili je obrisan."
  const ROUTE_NOT_FOUND := "Ruta nije pronađena."
  const NO_SUCH_ENDPOINT := "Nepostojeći endpoint."
  const METHOD_NOT_ALLOWED := "HTTP metoda nije dozvoljena za ovaj endpoint."
  const CHECK_METHOD := "Proverite da li koristite GET/POST/PUT/DELETE ispravno."
  const DATABASE_ERROR := "Greška baze podataka."
  const DATABASE_DETAIL := "Došlo je do greške pri radu sa bazom."
  const REQUEST_ERROR := "Greška u zahtevu."
  const HTTP_DETAIL := "Došlo je do HTTP greške."
  const SERVER_ERROR := "Neočekivana greška na serveru."
  const TRY_AGAIN := "Pokušajte ponovo kasnije."

  /** The envelope an API request receives, trying the exception classes in the callback's order. */
  function JsonError(e: Exception, debug: bool): (r: Rendered)
    ensures !r.body.success && r.status == StatusFor(e)
    ensures e.ValidationException? ==> r.body.errors == e.errors
    ensures !e.ValidationException? ==> r.body.errors.Keys == {KeyFor(e)}
    // a database error never shows the SQL message
    ensures e.QueryException? ==>
      r.body == Envelope(false, DATABASE_ERROR,
                         map["database" := [DATABASE_DETAIL]])
    // an unexpected error shows its message only in debug mode
    ensures e.OtherThrowable? ==>
      r.body.errors["server"] == [if debug then e.message else TRY_AGAIN]
  {
    match e
    case ValidationException(errors) =>
      Rendered(422, Envelope(false, VALIDATION_FAILED, errors))
    case AuthenticationException =>
      Fail(401, NOT_AUTHENTICATED, "auth", TOKEN_MISSING)
    case AuthorizationException =>
      Fail(403, NOT_PERMITTED, "authorization", ACCESS_DENIED)
    case ModelNotFoundException =>
      Fail(404, RESOURCE_NOT_FOUND, "not_found", RESOURCE_GONE)
    case NotFoundHttpException(_) =>
      Fail(404, ROUTE_NOT_FOUND, "route", NO_SUCH_ENDPOINT)
    case MethodNotAllowedHttpException(_) =>
      Fail(405, METHOD_NOT_ALLOWED, "method",
           CHECK_METHOD)
    case QueryException(_) =>
      Fail(500, DATABASE_ERROR, "database", DATABASE_DETAIL)
    case OtherHttpException(code, message) =>
      Fail(code, REQUEST_ERROR, "http", if PhpTruthy(message) then message else HTTP_DETAIL)
    case OtherThrowable(message) =>
      Fail(500, SERVER_ERROR, "server", if debug then message else TRY_AGAIN)
  }

  /** The callback. `None` hands the exception back to the framework's default renderer. */
  function Render(e: Exception, expectsJson: bool, isApiPath: bool, debug: bool): (r: Option<Rendered>)
    ensures r.None? <==> !expectsJson && !isApiPath
    ensures r.Some? ==> r.value == JsonError(e, debug)
  {
    if !expectsJson && !isApiPath then None else Some(JsonError(e, debug))
  }

  /** How a controller outcome that is not a response of its own travels: as the
      exception the framework throws for it. A missing row is thrown as
      `ModelNotFoundException`, which the framework converts to `NotFoundHttpException`
      before the callback sees it; both are allowed here. */
  predicate ThrownAs(err: Error, x: Exception) {
    match err
    case Unauthenticated => x == AuthenticationException
    case NotFound => x == ModelNotFoundException || x.NotFoundHttpException?
    case Invalid(fields) => x.ValidationException? && x.errors.Keys == fields
    case DbError => x.QueryException?
    case _ => false
  }

  /** The status and error keys a client of the JSON API sees for a controller outcome. */
  function ClientStatus(err: Error): int {
    match err
    case Unauthenticated => 401
    case BadCredentials => 401
    case Forbidden => 403
    case NotFound => 404
    case Invalid(_) => 422
    case DbError => 500
  }

  /** Thrown outcomes reach the client with the status of their error kind; a store error
      (for instance a second personal task with a title already used in the project) is a
      500 under the `database` key, never a 422. */
  lemma ThrownOutcomeStatus(err: Error, x: Exception, debug: bool)
    requires ThrownAs(err, x)
    ensures Render(x, true, true, debug).Some?
    ensures Render(x, true, true, debug).value.status == ClientStatus(err)
    ensures err.Invalid? ==> Render(x, true, true, debug).value.body.errors.Keys == err.fields
    ensures err == DbError ==> Render(x, true, true, debug).value.body.errors.Keys == {"database"}
  {
  }
}
