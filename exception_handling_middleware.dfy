/** GingerTemplate.WebApi.Middleware.ExceptionHandlingMiddleware: catching what
    the next handler throws and classifying it into an error response. */
module ExceptionHandling {
  import opened Base

  /** `ErrorResponse`; the timestamp is the clock reading passed in. */
  datatype ErrorResponse = ErrorResponse(code: string, message: string, traceId: string, timestamp: int)

  /** The status code, error code and message chosen for an exception. */
  datatype Classification = Classification(status: int, code: string, message: string)

  /** The error codes the response carries. */
  const ValidationCode := "VALIDATION_ERROR"
  const AuthenticationCode := "AUTHENTICATION_ERROR"
  const AuthorizationCode := "AUTHORIZATION_ERROR"
  const BusinessLogicCode := "BUSINESS_LOGIC_ERROR"
  const DatabaseCode := "DATABASE_ERROR"
  const ServiceUnavailableCode := "SERVICE_UNAVAILABLE"
  const ApplicationCode := "APPLICATION_ERROR"
  const InternalCode := "INTERNAL_SERVER_ERROR"

  const DatabaseMessage := "An error occurred while accessing the database"
  const GenericMessage := "An unexpected error occurred"

  /** The `default` arm. */
  const Fallback := Classification(500, InternalCode, GenericMessage)

  /** The outcome for each class, written as a table: the reference the
      first-match classification is proved against. */
  function Expected(e: Exception): Classification {
    match e.kind
    case Validation => Classification(400, ValidationCode, e.message)
    case Authentication => Classification(401, AuthenticationCode, e.message)
    case Authorization => Classification(403, AuthorizationCode, e.message)
    case BusinessLogic => Classification(409, BusinessLogicCode, e.message)
    case Repository => Classification(500, DatabaseCode, DatabaseMessage)
    case Database => Classification(500, DatabaseCode, DatabaseMessage)
    case ExternalService => Classification(503, ServiceUnavailableCode, e.message)
    case EmailService => Classification(503, ServiceUnavailableCode, e.message)
    case Application => Classification(500, ApplicationCode, e.message)
    case Configuration => Classification(500, ApplicationCode, e.message)
    case _ => Fallback
  }

  /** The `switch` of `HandleExceptionAsync`: the type patterns are tried in
      source order and the first one the exception is an instance of decides. */
  function Classify(e: Exception): (r: Classification)
    ensures !IsApplication(e.kind) <==> r == Fallback
  {
    if IsA(e.kind, Validation) then Classification(400, ValidationCode, e.message)
    else if IsA(e.kind, Authentication) then Classification(401, AuthenticationCode, e.message)
    else if IsA(e.kind, Authorization) then Classification(403, AuthorizationCode, e.message)
    else if IsA(e.kind, BusinessLogic) then Classification(409, BusinessLogicCode, e.message)
    else if IsA(e.kind, Repository) || IsA(e.kind, Database) then Classification(500, DatabaseCode, DatabaseMessage)
    else if IsA(e.kind, ExternalService) then Classification(503, ServiceUnavailableCode, e.message)
    else if IsA(e.kind, Application) then Classification(500, ApplicationCode, e.message)
    else Fallback
  }

  /** The ordered `switch` answers every exception as the table says: specific
      classes win over `ApplicationException`, an `EmailServiceException` falls
      into the external-service case, and non-application exceptions get the
      generic answer. */
  lemma {:induction false} ClassifyMatchesTable(e: Exception)
    ensures Classify(e) == Expected(e)
  {
    var k := e.kind;
    if !IsApplication(k) {
      NonApplicationIsInternal(e);
    } else if k.Validation? || k.Authentication? || k.Authorization? {
      ClassifyClientCases(e);
    } else if k.BusinessLogic? || k.Repository? || k.Database? {
      ClassifyConflictAndDataCases(e);
    } else if k.ExternalService? || k.EmailService? {
      ClassifyServiceCases(e);
    } else {
      ClassifyApplicationCases(e);
    }
  }

  /** Validation, authentication and authorization failures: each is caught by
      its own case. */
  lemma {:induction false} ClassifyClientCases(e: Exception)
    requires e.kind.Validation? || e.kind.Authentication? || e.kind.Authorization?
    ensures Classify(e) == Expected(e)
  {
    match e.kind {
      case Validation =>
      case Authentication =>
      case Authorization =>
    }
  }

  /** Business-rule conflicts, and the two data-access failures sharing one
      case. */
  lemma {:induction false} ClassifyConflictAndDataCases(e: Exception)
    requires e.kind.BusinessLogic? || e.kind.Repository? || e.kind.Database?
    ensures Classify(e) == Expected(e)
  {
    match e.kind {
      case BusinessLogic =>
      case Repository =>
      case Database =>
    }
  }

  /** The external-service case and its email-service subclass. */
  lemma {:induction false} ClassifyServiceCases(e: Exception)
    requires e.kind.ExternalService? || e.kind.EmailService?
    ensures Classify(e) == Expected(e)
  {
    match e.kind {
      case ExternalService =>
      case EmailService =>
    }
  }

  /** The catch-all for `ApplicationException` itself and its remaining
      subclass: every earlier case is skipped. */
  lemma {:induction false} ClassifyApplicationCases(e: Exception)
    requires e.kind.Application? || e.kind.Configuration?
    ensures Classify(e) == Expected(e)
  {
    var k := e.kind;
    assert !IsA(k, Validation) && !IsA(k, Authentication) && !IsA(k, Authorization);
    assert !IsA(k, BusinessLogic) && !IsA(k, Repository) && !IsA(k, Database);
    assert !IsA(k, ExternalService) && IsA(k, Application);
    assert Expected(e) == Classification(500, ApplicationCode, e.message);
  }

  /** Database failures never expose their own message. */
  lemma {:induction false} DatabaseMessageHidden(e: Exception)
    requires e.kind == Repository || e.kind == Database
    ensures Classify(e).status == 500 && Classify(e).code == DatabaseCode
    ensures Classify(e).message == DatabaseMessage
  {
    ClassifyMatchesTable(e);
  }

  /** Anything outside the application's hierarchy gets the generic answer. */
  lemma {:induction false} NonApplicationIsInternal(e: Exception)
    requires !IsApplication(e.kind)
    ensures Classify(e) == Expected(e) == Fallback
  {
  }

  /** A response as far as the model sees it: status, content type and the
      error body written, if any. */
  datatype HttpResponse = HttpResponse(statusCode: int, contentType: string, error: Option<ErrorResponse>)

  /** What setting a header or the status code throws once the response has
      started. */
  const ResponseStartedError := Error(InvalidOperation, "Headers are read-only, response has already started.")

  /** `InvokeAsync`: `next` is what the next handler did, the response it left
      or the exception it threw, and `started` says whether it had already
      begun sending that response. A thrown exception is caught and turned
      into a JSON error response carrying the request's trace id; only when
      the response has already started does setting its content type throw,
      and that exception escapes. */
  function Invoke(next: Result<HttpResponse>, started: bool, traceId: string, now: int): (r: Result<HttpResponse>)
    ensures next.Ok? ==> r == next
    ensures next.Err? && started ==> r == Err(ResponseStartedError)
    ensures next.Err? && !started ==>
              && r.Ok?
              && r.value.contentType == "application/json"
              && r.value.statusCode == Expected(next.error).status
              && r.value.error.Some?
              && r.value.error.value.code == Expected(next.error).code
              && r.value.error.value.message == Expected(next.error).message
              && r.value.error.value.traceId == traceId
              && r.value.error.value.timestamp == now
  {
    match next
    case Ok(_) => next
    case Err(e) =>
      if started then Err(ResponseStartedError)
      else
        ClassifyMatchesTable(e);
        var c := Classify(e);
        Ok(HttpResponse(c.status, "application/json", Some(ErrorResponse(c.code, c.message, traceId, now))))
  }
}
