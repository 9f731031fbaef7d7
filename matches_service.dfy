/**
 * `MatchesService.getMatches`: the guards and error translation around the
 * database function `get_matches_for_user`. The function itself is not part of
 * this model: its outcome for a request is the parameter `rpc`.
 */
module MatchesService {
  import opened Wrappers
  import opened JsValue

  /** The arguments the database function receives. */
  datatype RpcRequest = RpcRequest(currentUserId: string, pageLimit: int, pageOffset: int)

  /** The `{ data, error }` pair of a database call; an absent part is `Null`. */
  datatype RpcOutcome = RpcOutcome(data: Value, error: Value)

  /** `pagination.total` is copied from `total_count` without any check, so it is any value. */
  datatype Pagination = Pagination(total: Value, limit: int, offset: int)

  datatype GetMatchesResponse = GetMatchesResponse(data: seq<Value>, pagination: Pagination)

  const UserIdRequired := "User ID is required"
  const ProfileIncompleteMessage := "Profile is incomplete" + ": location and default_range_km are required"
  const InvalidResponseFormat := "Invalid response format from matches function"

  /** The request `getMatches` sends; omitted arguments default to 20 and 0. */
  function RequestFor(userId: string, limit: Option<int>, offset: Option<int>): RpcRequest {
    RpcRequest(userId, limit.GetOr(20), offset.GetOr(0))
  }

  /** `getMatches(userId, limit?, offset?)`; `Err` carries the thrown value. */
  function GetMatches(userId: string, limit: Option<int>, offset: Option<int>, rpc: RpcRequest -> RpcOutcome)
    : (r: Result<GetMatchesResponse, Value>)
    ensures userId == "" ==> r == Err(PlainError(UserIdRequired))
    ensures userId != "" ==>
      var out := rpc(RequestFor(userId, limit, offset));
      && (Truthy(out.error) && Get(out.error, "code") == Str("PGRST400") ==> r == Err(PlainError(ProfileIncompleteMessage)))
      && (Truthy(out.error) && Get(out.error, "code") != Str("PGRST400") ==> r == Err(out.error))
      && (!Truthy(out.error) && (!Truthy(out.data) || !Get(out.data, "matched_users").Arr?) ==> r == Err(PlainError(InvalidResponseFormat)))
    ensures r.Ok? <==>
      userId != "" && !Truthy(rpc(RequestFor(userId, limit, offset)).error)
      && Truthy(rpc(RequestFor(userId, limit, offset)).data)
      && Get(rpc(RequestFor(userId, limit, offset)).data, "matched_users").Arr?
    ensures r.Ok? ==>
      var data := rpc(RequestFor(userId, limit, offset)).data;
      && r.value.data == Get(data, "matched_users").items
      && r.value.pagination == Pagination(Get(data, "total_count"), limit.GetOr(20), offset.GetOr(0))
  {
    if userId == "" then Err(PlainError(UserIdRequired))
    else
      var request := RequestFor(userId, limit, offset);
      var out := rpc(request);
      if Truthy(out.error) then
        if Get(out.error, "code") == Str("PGRST400") then Err(PlainError(ProfileIncompleteMessage))
        else Err(out.error)
      else if !Truthy(out.data) || !Get(out.data, "matched_users").Arr? then Err(PlainError(InvalidResponseFormat))
      else
        Ok(GetMatchesResponse(
          Get(out.data, "matched_users").items,
          Pagination(Get(out.data, "total_count"), request.pageLimit, request.pageOffset)))
  }

  /** The empty user id is refused before the database is asked: the outcome does not depend on `rpc`. */
  lemma {:induction false} NoRpcWithoutUser(limit: Option<int>, offset: Option<int>, rpc1: RpcRequest -> RpcOutcome, rpc2: RpcRequest -> RpcOutcome)
    ensures GetMatches("", limit, offset, rpc1) == GetMatches("", limit, offset, rpc2)
  {
  }

  /** Only the request for this user and window is consulted. */
  lemma {:induction false} OnlyOwnRequestConsulted(userId: string, limit: Option<int>, offset: Option<int>,
                                rpc1: RpcRequest -> RpcOutcome, rpc2: RpcRequest -> RpcOutcome)
    requires rpc1(RequestFor(userId, limit, offset)) == rpc2(RequestFor(userId, limit, offset))
    ensures GetMatches(userId, limit, offset, rpc1) == GetMatches(userId, limit, offset, rpc2)
  {
  }

  /** `total_count` is never checked: an array of users with a missing count still succeeds. */
  lemma {:induction false} TotalCountUnchecked(userId: string, users: seq<Value>)
    requires userId != ""
    ensures GetMatches(userId, None, None, _ => RpcOutcome(Obj(map["matched_users" := Arr(users)]), Null))
         == Ok(GetMatchesResponse(users, Pagination(Undefined, 20, 0)))
  {
  }
}
