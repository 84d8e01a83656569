/**
 * `ScanController`: the `POST api/scan` endpoint. It rejects a missing
 * request body and a blank path with 400, otherwise delegates once to the
 * scanner and maps what the scanner does to 200 (its result, unchanged),
 * 400 (an `ArgumentException`, with its message) or 500 (any other
 * exception, a null result included, with a fixed message).
 *
 * The scanner is what it does for this request: an outcome supplied as an
 * input, which matters only when the controller invokes it. The response
 * records how many times the scanner was invoked.
 */
module ScanController {
  import opened Wrappers
  import opened Text
  import opened DetectedItems

  /** The request body; `path` is a nullable string. */
  datatype ScanRequest = ScanRequest(path: Option<string>)

  /**
   * What the scanner does when invoked: return a result or throw. `NullResult`
   * is a returned null, or a result whose `Items` is null: the controller's
   * logging dereferences both before it answers.
   */
  datatype ScannerOutcome =
    | Ok(result: ScanView)
    | NullResult
    | ArgErr(message: string)   // an ArgumentException (or a subclass)
    | OtherErr(message: string) // any other exception

  /** The `ProblemDetails` body of an error response. */
  datatype ProblemDetails = ProblemDetails(title: string, detail: string, status: int)

  datatype Body = Payload(result: ScanView) | Problem(details: ProblemDetails)

  datatype Response = Response(status: int, body: Body)

  /** A response together with the number of scanner invocations that produced it. */
  datatype Handled = Handled(response: Response, scannerCalls: nat)

  const Status200OK := 200
  const Status400BadRequest := 400
  const Status500InternalServerError := 500

  const InvalidRequestTitle := "Invalid Request"
  const InvalidRequestDetail := "Request body cannot be empty."
  const InvalidPathTitle := "Invalid Path"
  const InvalidPathDetail := "The path parameter is required and cannot be empty."
  const InvalidArgumentTitle := "Invalid Argument"
  const InternalErrorTitle := "Internal Server Error"
  const InternalErrorDetail := "An unexpected error occurred while scanning the directory."

  /** The controller's two injected collaborators. */
  datatype Controller<S, L> = Controller(fileScanner: S, logger: L)

  /**
   * The primary constructor: a null collaborator raises
   * `ArgumentNullException` naming the parameter, the scanner being checked
   * first (field initialisers run in declaration order).
   */
  function NewController<S(==), L(==)>(fileScanner: Option<S>, logger: Option<L>): (r: Result<Controller<S, L>, string>)
    ensures r.Success? <==> fileScanner.Some? && logger.Some?
    ensures r.Success? ==> r.value.fileScanner == fileScanner.value && r.value.logger == logger.value
    ensures fileScanner.None? ==> r.Failure? && r.error == "fileScanner"
    ensures fileScanner.Some? && logger.None? ==> r.Failure? && r.error == "logger"
  {
    if fileScanner.None? then Failure("fileScanner")
    else if logger.None? then Failure("logger")
    else Success(Controller(fileScanner.value, logger.value))
  }

  function ProblemResponse(status: int, title: string, detail: string): Response {
    Response(status, Problem(ProblemDetails(title, detail, status)))
  }

  /** A request the controller hands to the scanner: present, with a path that is neither null nor blank. */
  predicate IsValidRequest(request: Option<ScanRequest>) {
    request.Some? && !IsNullOrWhiteSpace(request.value.path)
  }

  /**
   * `Scan`: the validation order, the single delegation and the mapping of
   * the scanner's outcome to a response. Every status is 200, 400 or 500; an
   * error body repeats the status; the scanner runs once for a valid request
   * and never otherwise; and 200 comes exactly with the scanner's own result.
   */
  function Scan(request: Option<ScanRequest>, scanner: ScannerOutcome): (h: Handled)
    ensures h.response.status in {Status200OK, Status400BadRequest, Status500InternalServerError}
    ensures h.response.body.Problem? ==> h.response.body.details.status == h.response.status
    ensures h.scannerCalls == if IsValidRequest(request) then 1 else 0
    ensures h.response.status == Status200OK <==> IsValidRequest(request) && scanner.Ok?
    ensures h.response.status == Status200OK <==> h.response.body.Payload?
    ensures h.response.body.Payload? ==> scanner == Ok(h.response.body.result)
  {
    if request.None? then
      Handled(ProblemResponse(Status400BadRequest, InvalidRequestTitle, InvalidRequestDetail), 0)
    else if IsNullOrWhiteSpace(request.value.path) then
      Handled(ProblemResponse(Status400BadRequest, InvalidPathTitle, InvalidPathDetail), 0)
    else
      var response :=
        match scanner
        case Ok(result) => Response(Status200OK, Payload(result))
        case ArgErr(message) => ProblemResponse(Status400BadRequest, InvalidArgumentTitle, message)
        case NullResult | OtherErr(_) => ProblemResponse(Status500InternalServerError, InternalErrorTitle, InternalErrorDetail);
      Handled(response, 1)
  }

  /** A missing request body is rejected before anything else, whatever the scanner would do. */
  lemma NullRequestRejected(scanner: ScannerOutcome)
    ensures Scan(None, scanner)
      == Handled(ProblemResponse(Status400BadRequest, InvalidRequestTitle, InvalidRequestDetail), 0)
  {
  }

  /** A null, empty or blank path is rejected without invoking the scanner. */
  lemma BlankPathRejected(path: Option<string>, scanner: ScannerOutcome)
    requires IsNullOrWhiteSpace(path)
    ensures Scan(Some(ScanRequest(path)), scanner)
      == Handled(ProblemResponse(Status400BadRequest, InvalidPathTitle, InvalidPathDetail), 0)
  {
  }

  /** The two blank paths of the unit tests, `""` and three spaces, are rejected as invalid paths. */
  lemma TestBlankPaths(scanner: ScannerOutcome)
    ensures Scan(Some(ScanRequest(Some(""))), scanner).response.body.details.title == InvalidPathTitle
    ensures Scan(Some(ScanRequest(Some("   "))), scanner).response.body.details.title == InvalidPathTitle
  {
    assert IsWhiteSpace(' ');
  }

  /** For a valid request the scanner's result is returned unchanged with 200. */
  lemma ResultPassedThrough(request: Option<ScanRequest>, result: ScanView)
    requires IsValidRequest(request)
    ensures Scan(request, Ok(result)) == Handled(Response(Status200OK, Payload(result)), 1)
  {
  }

  /** An argument error from the scanner becomes 400 "Invalid Argument" carrying the exception's message. */
  lemma ArgumentErrorIsBadRequest(request: Option<ScanRequest>, message: string)
    requires IsValidRequest(request)
    ensures Scan(request, ArgErr(message))
      == Handled(ProblemResponse(Status400BadRequest, InvalidArgumentTitle, message), 1)
  {
  }

  /**
   * Any other exception becomes 500 "Internal Server Error" with a fixed
   * detail: the response does not depend on the exception's message, so the
   * message is never exposed.
   */
  lemma OtherErrorHidesMessage(request: Option<ScanRequest>, m1: string, m2: string)
    requires IsValidRequest(request)
    ensures Scan(request, OtherErr(m1))
      == Handled(ProblemResponse(Status500InternalServerError, InternalErrorTitle, InternalErrorDetail), 1)
    ensures Scan(request, OtherErr(m1)) == Scan(request, OtherErr(m2))
  {
  }

  /**
   * A null result, or a result with null `Items`, fails in the logging call
   * with a `NullReferenceException`, which the general handler turns into the
   * same 500 response as any other exception.
   */
  lemma NullResultIsServerError(request: Option<ScanRequest>, message: string)
    requires IsValidRequest(request)
    ensures Scan(request, NullResult)
      == Handled(ProblemResponse(Status500InternalServerError, InternalErrorTitle, InternalErrorDetail), 1)
    ensures Scan(request, NullResult) == Scan(request, OtherErr(message))
  {
  }
}
