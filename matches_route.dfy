/**
 * `GET /api/matches`: authentication, query validation, the service call, and
 * the translation of whatever is thrown into an error response.
 */
module MatchesRoute {
  import opened Wrappers
  import opened Text
  import opened JsValue
  import opened Validation
  import opened ApiErrors
  import opened MatchesDto
  import opened MatchesService

  datatype MatchesReply =
    | Matches(status: int, result: GetMatchesResponse)
    | Failed(response: ErrorResponse)

  function Status(reply: MatchesReply): int {
    match reply
    case Matches(status, _) => status
    case Failed(response) => response.status
  }

  /** The `catch` clause: a `ZodError`, an incomplete profile, or anything else. */
  function ClassifyFailure(error: Value): (r: ErrorResponse)
    ensures error.ErrorObj? && error.name == "ZodError" ==> r.status == 400 && r.body.code == Some("VALIDATION_ERROR")
    ensures r.body.details == Some(Str("PROFILE_INCOMPLETE")) <==>
      error.ErrorObj? && error.name != "ZodError" && Contains(error.message, "Profile is incomplete")
    ensures r.status == 500 <==>
      !(error.ErrorObj? && (error.name == "ZodError" || Contains(error.message, "Profile is incomplete")))
    ensures r.status in {400, 500}
  {
    if error.ErrorObj? && error.name == "ZodError" then
      CreateErrorResponse("VALIDATION_ERROR", "Invalid query parameters", error)
    else if error.ErrorObj? && Contains(error.message, "Profile is incomplete") then
      CreateErrorResponse("VALIDATION_ERROR",
        "Your profile must have a location and default range set to find matches", Str("PROFILE_INCOMPLETE"))
    else
      CreateErrorResponse("INTERNAL_ERROR", "An unexpected error occurred while finding matches", Str("INTERNAL_SERVER_ERROR"))
  }

  /** The handler; `sessionUser` is the id of `session?.user`, `None` when there is no user. */
  function Get(sessionUser: Option<string>, query: SearchParams, rpc: RpcRequest -> RpcOutcome): (r: MatchesReply)
    ensures sessionUser.None? ==> r.Failed? && r.response.status == 401 && r.response.body.code == Some("UNAUTHORIZED")
    ensures sessionUser.Some? && ValidateMatchesQuery(query).Err? ==>
      r.Failed? && r.response.status == 400 && r.response.body.code == Some("VALIDATION_ERROR")
    ensures r.Matches? <==>
      sessionUser.Some? && ValidateMatchesQuery(query).Ok?
      && GetMatches(sessionUser.value, Some(ValidateMatchesQuery(query).value.limit),
                    Some(ValidateMatchesQuery(query).value.offset), rpc).Ok?
    ensures r.Matches? ==>
      r.status == 200
      && r.result == GetMatches(sessionUser.value, Some(ValidateMatchesQuery(query).value.limit),
                                Some(ValidateMatchesQuery(query).value.offset), rpc).value
    ensures Status(r) in {200, 400, 401, 500}
  {
    if sessionUser.None? then
      Failed(CreateErrorResponse("UNAUTHORIZED", "Authentication required", Str("UNAUTHORIZED")))
    else
      match ValidateMatchesQuery(query)
      case Err(issues) => Failed(ClassifyFailure(ZodError(issues)))
      case Ok(q) =>
        match GetMatches(sessionUser.value, Some(q.limit), Some(q.offset), rpc)
        case Ok(result) => Matches(200, result)
        case Err(error) => Failed(ClassifyFailure(error))
  }

  lemma {:induction false} ProfileIncompleteMentioned()
    ensures Contains(ProfileIncompleteMessage, "Profile is incomplete")
  {
    ContainsPrefix("Profile is incomplete", ": location and default_range_km are required");
  }

  /**
   * A database error with code `PGRST400` reaches the client as a 400 whose
   * details are `"PROFILE_INCOMPLETE"`.
   */
  lemma {:induction false} IncompleteProfileIs400(userId: string, query: SearchParams, rpc: RpcRequest -> RpcOutcome)
    requires userId != "" && ValidateMatchesQuery(query).Ok?
    requires var q := ValidateMatchesQuery(query).value;
      var out := rpc(RpcRequest(userId, q.limit, q.offset));
      Truthy(out.error) && JsValue.Get(out.error, "code") == Str("PGRST400")
    ensures var r := Get(Some(userId), query, rpc);
      r.Failed? && r.response.status == 400 && r.response.body.details == Some(Str("PROFILE_INCOMPLETE"))
  {
    ProfileIncompleteMentioned();
  }

  /** Any other database error that is not an `Error` instance becomes a 500. */
  lemma {:induction false} OtherDatabaseErrorIs500(userId: string, query: SearchParams, rpc: RpcRequest -> RpcOutcome)
    requires userId != "" && ValidateMatchesQuery(query).Ok?
    requires var q := ValidateMatchesQuery(query).value;
      var out := rpc(RpcRequest(userId, q.limit, q.offset));
      Truthy(out.error) && JsValue.Get(out.error, "code") != Str("PGRST400") && !out.error.ErrorObj?
    ensures Status(Get(Some(userId), query, rpc)) == 500
  {
  }
}
