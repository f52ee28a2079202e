/** The error handler: every error a route throws becomes one JSON failure
    response, chosen by an ordered chain of cases. */
module ErrorMiddleware {
  import opened Wrappers
  import opened Strings

  /** One entry of a schema validation failure. */
  datatype ValidationIssue = ValidationIssue(instancePath: string, message: string)

  /** What reaches the handler: an `AppError`, or any other error with its message,
      its `statusCode` (0 when absent) and its `validation` list if it has one. */
  datatype Failure =
    | App(appError: AppError)
    | Other(message: string, statusCode: nat, validation: Option<seq<ValidationIssue>>)

  /** The body sent, and the HTTP status it is sent with. */
  datatype ErrorBody = ErrorBody(
    success: bool,
    error: string,
    message: string,
    statusCode: nat,
    fields: Option<seq<ValidationIssue>>)

  datatype Reply = Reply(status: nat, body: ErrorBody)

  const ValidationErrorTitle: string := "Validation Error"
  const AuthenticationErrorTitle: string := "Authentication Error"
  const InvalidTokenMessage: string := "Invalid or expired token"
  const InternalErrorTitle: string := "Internal Server Error"
  const DefaultMessage: string := "An unexpected error occurred"

  /** Whether the message looks like a token failure: it contains `jwt` or `token`,
      case-sensitively. */
  predicate MentionsToken(message: string) {
    Contains(message, "jwt") || Contains(message, "token")
  }

  /** `errorHandler(error)`: an `AppError` first, then a validation failure, then a
      token failure, then the error's own status or 500. */
  function HandleError(f: Failure): (r: Reply)
    ensures !r.body.success
    ensures r.body.statusCode == r.status
    ensures r.status == 401 || r.status == 400 || f.App? || r.status == f.statusCode || r.status == 500
  {
    match f
    case App(e) => Reply(e.statusCode, ErrorBody(false, e.message, e.message, e.statusCode, None))
    case Other(message, statusCode, validation) =>
      if validation.Some? then
        Reply(400, ErrorBody(false, ValidationErrorTitle, message, 400, validation))
      else if MentionsToken(message) then
        Reply(401, ErrorBody(false, AuthenticationErrorTitle, InvalidTokenMessage, 401, None))
      else
        var status := if statusCode != 0 then statusCode else 500;
        Reply(status, ErrorBody(false, InternalErrorTitle, if message != "" then message else DefaultMessage, status, None))
  }

  /** An `AppError` is answered with its own status, its message as both `error`
      and `message`, whatever the message mentions. */
  lemma AppErrorKeepsItsStatus(e: AppError)
    ensures HandleError(App(e)) == Reply(e.statusCode, ErrorBody(false, e.message, e.message, e.statusCode, None))
  {
  }

  /** A validation failure is a 400 carrying its fields, even if its message
      mentions a token. */
  lemma ValidationIs400(message: string, statusCode: nat, issues: seq<ValidationIssue>)
    ensures HandleError(Other(message, statusCode, Some(issues)))
            == Reply(400, ErrorBody(false, ValidationErrorTitle, message, 400, Some(issues)))
  {
  }

  /** Any other error is a 401 exactly when its message mentions `jwt` or
      `token`; otherwise it keeps a non-zero status of its own, or gets 500, and
      an empty message is replaced by the default. */
  lemma OtherErrorStatus(message: string, statusCode: nat)
    ensures var r := HandleError(Other(message, statusCode, None));
      && (r.status == 401 && r.body.message == InvalidTokenMessage <==> MentionsToken(message))
      && (!MentionsToken(message) ==>
            && r.status == (if statusCode != 0 then statusCode else 500)
            && r.body.error == InternalErrorTitle
            && r.body.message == (if message == "" then DefaultMessage else message))
  {
    if statusCode == 401 && message == InvalidTokenMessage {
      assert message[19..24] == "token";
      ContainsAt(message, "token", 19);
    }
  }

  /** A token library's message is answered as an authentication failure. */
  lemma ExpiredJwtIs401()
    ensures HandleError(Other("jwt expired", 0, None)).status == 401
  {
    assert "jwt expired"[0..3] == "jwt";
    ContainsAt("jwt expired", "jwt", 0);
  }

  /** So is a body-parse error whose message quotes an unexpected token, whatever
      its own status. */
  lemma ParseErrorIs401()
    ensures HandleError(Other("Unexpected token }", 400, None)).status == 401
  {
    var m := "Unexpected token }";
    assert m[11] == 't' && m[12] == 'o' && m[13] == 'k' && m[14] == 'e' && m[15] == 'n';
    assert m[11..16] == "token";
    ContainsAt(m, "token", 11);
  }

  /** The check is case-sensitive: `JWT` in capitals is not a token failure. */
  lemma UpperCaseJwtIs500()
    ensures HandleError(Other("JWT expired", 0, None)).status == 500
  {
    var m := "JWT expired";
    assert 'j' !in m && 't' !in m;
    FirstCharAbsent(m, "jwt");
    FirstCharAbsent(m, "token");
    assert !MentionsToken(m);
  }
}
