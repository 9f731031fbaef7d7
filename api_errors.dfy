/**
 * The uniform error body of the HTTP API, `{ error: { code, message, details } }`,
 * and the mapping from an error code to its HTTP status.
 */
module ApiErrors {
  import opened Wrappers
  import opened JsValue
  import opened Validation

  /** `ApiErrorCode`: each key names itself. */
  const ApiErrorCode: map<string, string> := map[
    "VALIDATION_ERROR" := "VALIDATION_ERROR",
    "UNAUTHORIZED" := "UNAUTHORIZED",
    "NOT_FOUND" := "NOT_FOUND",
    "INTERNAL_ERROR" := "INTERNAL_ERROR"
  ]

  /** `getHttpStatusForErrorCode`: the four known codes, then 500 for anything else. */
  function HttpStatusForErrorCode(code: string): (status: int)
    ensures code == "VALIDATION_ERROR" ==> status == 400
    ensures code == "UNAUTHORIZED" ==> status == 401
    ensures code == "NOT_FOUND" ==> status == 404
    ensures code !in {"VALIDATION_ERROR", "UNAUTHORIZED", "NOT_FOUND"} ==> status == 500
    ensures status in {400, 401, 404, 500}
  {
    match code
    case "VALIDATION_ERROR" => 400
    case "UNAUTHORIZED" => 401
    case "NOT_FOUND" => 404
    case "INTERNAL_ERROR" => 500
    case _ => 500
  }

  /** The body; `None` is a property that `JSON.stringify` drops because it is `undefined`. */
  datatype ApiErrorResponse = ApiErrorResponse(code: Option<string>, message: string, details: Option<Value>)

  datatype ErrorResponse = ErrorResponse(status: int, body: ApiErrorResponse)

  /** `details || undefined` */
  function KeptDetails(details: Value): (r: Option<Value>)
    ensures r.Some? <==> Truthy(details)
    ensures r.Some? ==> r.value == details
  {
    if Truthy(details) then Some(details) else None
  }

  /** `createErrorResponse(code, message, details)` */
  function CreateErrorResponse(code: string, message: string, details: Value): (r: ErrorResponse)
    ensures r.status == HttpStatusForErrorCode(code)
    ensures r.body.message == message
    ensures code in ApiErrorCode ==> r.body.code == Some(code)
    ensures code !in ApiErrorCode ==> r.body.code == None
    ensures r.body.details == KeptDetails(details)
  {
    ErrorResponse(
      HttpStatusForErrorCode(code),
      ApiErrorResponse(if code in ApiErrorCode then Some(ApiErrorCode[code]) else None, message, KeptDetails(details)))
  }

  /** `createValidationErrorResponse(error)`: status 400 with the issues as details. */
  function CreateValidationErrorResponse(issues: seq<Issue>): (r: ErrorResponse)
    ensures r.status == 400
    ensures r.body == ApiErrorResponse(Some("VALIDATION_ERROR"), "Invalid request data", Some(IssuesValue(issues)))
  {
    CreateErrorResponse("VALIDATION_ERROR", "Invalid request data", IssuesValue(issues))
  }

  /** Every error response is a client or server error, and its code is one of the known ones. */
  lemma {:induction false} ErrorResponseStatus(code: string, message: string, details: Value)
    requires code in ApiErrorCode
    ensures 400 <= CreateErrorResponse(code, message, details).status <= 500
    ensures CreateErrorResponse(code, message, details).status < 500 <==> code != "INTERNAL_ERROR"
  {
  }
}
