/** The error carrier thrown from API methods: an HTTP status code, the
    field errors returned to the client, and whether the server should log
    the event, with the message it logs.

    Java's exception machinery (the `IOException` superclass, throwing and
    catching) is replaced by an immutable value. The message Java passes to
    its superclass is kept as `message`: `None` stands for the `null`
    message the client-only constructor leaves behind. */
module ServerExceptions {

  import opened Wrappers
  import HttpStatus

  /* ---------------------------------------------------------------------
     The five status-code factories
     --------------------------------------------------------------------- */

  /** What a factory hands back: a builder bound to a fixed status code.
      The builder's own operations (adding field errors, building) are not
      part of this model; it is only the status code the factory fixes. */
  datatype Builder = Builder(httpCode: int)

  /** Something invalid but not unexpected about the request (a missing or
      invalid field). Deliberately answered with 200, errors in the body. */
  function InvalidRequest(): (b: Builder)
    ensures b.httpCode == 200
    ensures HttpStatus.IsSuccess(b.httpCode) && !HttpStatus.IsClientError(b.httpCode)
  {
    Builder(HttpStatus.Ok)
  }

  /** The server cannot or will not process a malformed request. */
  function BadRequest(): (b: Builder)
    ensures b.httpCode == 400
    ensures HttpStatus.IsClientError(b.httpCode) && !HttpStatus.IsSuccess(b.httpCode)
  {
    Builder(HttpStatus.BadRequest)
  }

  /** Authentication is required and has failed or was not provided. */
  function Unauthorized(): (b: Builder)
    ensures b.httpCode == 401
    ensures HttpStatus.IsClientError(b.httpCode) && !HttpStatus.IsSuccess(b.httpCode)
  {
    Builder(HttpStatus.Unauthorized)
  }

  /** The request was valid but the server refuses the action. */
  function Forbidden(): (b: Builder)
    ensures b.httpCode == 403
    ensures HttpStatus.IsClientError(b.httpCode) && !HttpStatus.IsSuccess(b.httpCode)
  {
    Builder(HttpStatus.Forbidden)
  }

  /** No current representation of the target resource, or the server will
      not disclose that one exists. */
  function NotFound(): (b: Builder)
    ensures b.httpCode == 404
    ensures HttpStatus.IsClientError(b.httpCode) && !HttpStatus.IsSuccess(b.httpCode)
  {
    Builder(HttpStatus.NotFound)
  }

  /** An index over the five factories, one value per factory. The Java code
      has no such type: the names only label which factory is meant. */
  datatype Fault =
    | ExpectedInput     // invalidRequest
    | MalformedRequest  // badRequest
    | Unauthenticated   // unauthorized
    | NotPermitted      // forbidden
    | MissingResource   // notFound

  /** The five faults, in the order the factories are declared. */
  const AllFaults: seq<Fault> :=
    [ExpectedInput, MalformedRequest, Unauthenticated, NotPermitted, MissingResource]

  /** The factory a caller picks for a fault. */
  function FactoryFor(f: Fault): Builder {
    match f
    case ExpectedInput => InvalidRequest()
    case MalformedRequest => BadRequest()
    case Unauthenticated => Unauthorized()
    case NotPermitted => Forbidden()
    case MissingResource => NotFound()
  }

  /** The status codes the factories produce. */
  function FactoryCodes(): set<int> {
    set f | f in AllFaults :: FactoryFor(f).httpCode
  }

  /** Which fault's factory produces `code`, if any: the table read backwards. */
  function FaultOf(code: int): (r: Option<Fault>)
    ensures r.Some? ==> r.value in AllFaults
  {
    if code == HttpStatus.Ok then Some(ExpectedInput)
    else if code == HttpStatus.BadRequest then Some(MalformedRequest)
    else if code == HttpStatus.Unauthorized then Some(Unauthenticated)
    else if code == HttpStatus.Forbidden then Some(NotPermitted)
    else if code == HttpStatus.NotFound then Some(MissingResource)
    else None
  }

  /* ---------------------------------------------------------------------
     The exception value and its two constructors
     --------------------------------------------------------------------- */

  datatype ServerException = ServerException(
    httpCode: int,
    errors: map<string, string>,
    shouldLog: bool,
    message: Option<string>)
  {
    /** The HTTP status code. */
    function HttpCode(): int { httpCode }

    /** The errors returned to the client, field name to message. */
    function Errors(): map<string, string> { errors }

    /** Whether the server should log a message. */
    function ShouldLog(): bool { shouldLog }

    /** The message handed to the exception superclass, read by the logger. */
    function LogMessage(): Option<string> { message }
  }

  /** The shape both constructors leave behind: a message is present exactly
      when the exception is to be logged. */
  predicate Valid(e: ServerException) {
    e.ShouldLog() <==> e.LogMessage().Some?
  }

  /** The constructor for an error reported to the client only. */
  function ClientError(httpCode: int, errors: map<string, string>): (e: ServerException)
    ensures Valid(e)
    ensures !e.ShouldLog() && e.LogMessage() == None
    ensures e.HttpCode() == httpCode && e.Errors() == errors
  {
    ServerException(httpCode, errors, false, None)
  }

  /** The constructor for an error that the server also logs. No check is
      made on `logMessage`: an empty message is accepted. */
  function LoggedError(httpCode: int, errors: map<string, string>, logMessage: string): (e: ServerException)
    ensures Valid(e)
    ensures e.ShouldLog() && e.LogMessage() == Some(logMessage)
    ensures e.HttpCode() == httpCode && e.Errors() == errors
  {
    ServerException(httpCode, errors, true, Some(logMessage))
  }

  /** Rebuilds an exception from what its accessors return, choosing the
      constructor by `ShouldLog()`: the inverse of the two constructors. */
  function Reconstruct(e: ServerException): (r: ServerException)
    requires Valid(e)
  {
    if e.ShouldLog() then LoggedError(e.HttpCode(), e.Errors(), e.LogMessage().value)
    else ClientError(e.HttpCode(), e.Errors())
  }

  /* ---------------------------------------------------------------------
     Properties
     --------------------------------------------------------------------- */

  /** Every fault has a factory, and the five are listed once each. */
  lemma AllFaultsComplete(f: Fault)
    ensures f in AllFaults
    ensures |AllFaults| == 5
    ensures forall i, j :: 0 <= i < j < |AllFaults| ==> AllFaults[i] != AllFaults[j]
  {
  }

  /** The factories produce exactly the codes 200, 400, 401, 403 and 404. */
  lemma FactoryCodesAre()
    ensures FactoryCodes() == {200, 400, 401, 403, 404}
  {
    var codes := FactoryCodes();
    forall k | k in {200, 400, 401, 403, 404}
      ensures k in codes
    {
      var f := FaultOf(k).value;
      AllFaultsComplete(f);
      assert FactoryFor(f).httpCode == k;
    }
  }

  /** Reading the table backwards finds the fault a factory was chosen for:
      no two factories share a status code. */
  lemma FaultOfFactory(f: Fault)
    ensures FaultOf(FactoryFor(f).httpCode) == Some(f)
  {
  }

  /** The backwards reading only names a fault whose factory has that code. */
  lemma FactoryOfFault(code: int)
    ensures FaultOf(code).Some? <==> code in FactoryCodes()
    ensures FaultOf(code).Some? ==> FactoryFor(FaultOf(code).value).httpCode == code
  {
  }

  /** The five factory codes are pairwise distinct. */
  lemma FactoryCodesDistinct(f: Fault, g: Fault)
    ensures FactoryFor(f).httpCode == FactoryFor(g).httpCode <==> f == g
  {
  }

  /** Only `invalidRequest` answers with a success status; every other
      factory answers with a client-error status. */
  lemma OnlyInvalidRequestSucceeds(f: Fault)
    ensures HttpStatus.IsSuccess(FactoryFor(f).httpCode) <==> f == ExpectedInput
    ensures HttpStatus.IsClientError(FactoryFor(f).httpCode) <==> f != ExpectedInput
  {
  }

  /** The accessors return what the constructors were given: both
      constructors produce valid exceptions, which their accessors rebuild. */
  lemma AccessorsAfterConstruction(code: int, errors: map<string, string>, logMessage: string)
    ensures Reconstruct(ClientError(code, errors)) == ClientError(code, errors)
    ensures Reconstruct(LoggedError(code, errors, logMessage)) == LoggedError(code, errors, logMessage)
  {
    ReconstructFromAccessors(ClientError(code, errors));
    ReconstructFromAccessors(LoggedError(code, errors, logMessage));
  }

  /** The accessors determine the exception: rebuilding it from them gives
      the same value back. */
  lemma ReconstructFromAccessors(e: ServerException)
    requires Valid(e)
    ensures Reconstruct(e) == e
  {
  }

  /** The two constructors produce exactly the valid exceptions: a message is
      present if and only if the exception is to be logged. */
  lemma ValidIffConstructed(e: ServerException)
    ensures Valid(e) <==>
      (exists code, errors :: e == ClientError(code, errors)) ||
      (exists code, errors, msg :: e == LoggedError(code, errors, msg))
  {
    if Valid(e) {
      if e.ShouldLog() {
        assert e == LoggedError(e.HttpCode(), e.Errors(), e.LogMessage().value);
      } else {
        assert e == ClientError(e.HttpCode(), e.Errors());
      }
    }
  }

  /** The two constructors never produce the same exception. */
  lemma ConstructorsDisjoint(code: int, errors: map<string, string>,
                             code': int, errors': map<string, string>, logMessage: string)
    ensures ClientError(code, errors) != LoggedError(code', errors', logMessage)
  {
  }
}
