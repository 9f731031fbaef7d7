/**
 * The client side of the matches list: the mapping from the response body to
 * view models, and the pager that accumulates pages, keeps the latest
 * pagination window and isolates errors.
 *
 * The network is not part of this model: the outcome of the request a handler
 * issues is a parameter of that handler, and each handler runs to completion
 * before the next starts.
 */
module MatchesView {
  import opened Wrappers
  import opened Text
  import opened JsValue

  // ---------------------------------------------------------------------------
  // View models
  // ---------------------------------------------------------------------------

  datatype SportView = SportView(sportId: Value, name: Value, parameters: Value)

  datatype MatchView = MatchView(
    userId: Value,
    username: Value,
    displayName: Value,
    email: Value,
    distanceKm: Value,
    socialLinks: Value,
    sports: seq<SportView>)

  /** `a || b` */
  function Or(a: Value, b: Value): (r: Value)
    ensures r == (if Truthy(a) then a else b)
  {
    if Truthy(a) then a else b
  }

  /** A value kept only when it is a non-array object, `{}` otherwise. */
  function RecordOrEmpty(v: Value): (r: Value)
    ensures IsRecord(r)
    ensures IsRecord(v) ==> r == v
    ensures !IsRecord(v) ==> r == Obj(map[])
  {
    if Truthy(v) && IsObject(v) && !v.Arr? then v else Obj(map[])
  }

  /** One element of `match.sports`; reading a property of `null` or `undefined` throws, as `None`. */
  function MapSport(sport: Value): (r: Option<SportView>)
    ensures r.Some? <==> !sport.Null? && !sport.Undefined?
    ensures r.Some? ==> IsRecord(r.value.parameters)
  {
    if sport.Null? || sport.Undefined? then None
    else Some(SportView(Get(sport, "sport_id"), Get(sport, "name"), RecordOrEmpty(Get(sport, "parameters"))))
  }

  /** `xs.map(f)` where `f` may throw (`None`): every element maps, or the whole call throws. */
  function MapAll<A, B>(xs: seq<A>, f: A -> Option<B>): (r: Option<seq<B>>)
    ensures r.Some? <==> forall i :: 0 <= i < |xs| ==> f(xs[i]).Some?
    ensures r.Some? ==> |r.value| == |xs| && forall i :: 0 <= i < |xs| ==> r.value[i] == f(xs[i]).value
  {
    if xs == [] then Some([])
    else
      var head, rest := f(xs[0]), MapAll(xs[1..], f);
      if head.Some? && rest.Some? then Some([head.value] + rest.value)
      else None
  }

  /** `sports.map(...)`: all elements map, or the first failure throws. */
  function MapSports(sports: seq<Value>): (r: Option<seq<SportView>>)
    ensures r.Some? <==> forall i :: 0 <= i < |sports| ==> MapSport(sports[i]).Some?
    ensures r.Some? ==> |r.value| == |sports| && forall i :: 0 <= i < |sports| ==> r.value[i] == MapSport(sports[i]).value
  {
    MapAll(sports, MapSport)
  }

  /** One element of `data.data`: the view model, or `None` when the mapping throws. */
  function MapMatch(m: Value): (r: Option<MatchView>)
    ensures r.Some? ==> Truthy(r.value.displayName)
    ensures r.Some? ==> IsRecord(r.value.socialLinks)
    ensures r.Some? ==> forall i :: 0 <= i < |r.value.sports| ==> IsRecord(r.value.sports[i].parameters)
    ensures r.None? <==>
      m.Null? || m.Undefined? || !Get(m, "sports").Arr? || MapSports(Get(m, "sports").items).None?
  {
    if m.Null? || m.Undefined? then None
    else
      var sports := Get(m, "sports");
      if !sports.Arr? then None
      else
        match MapSports(sports.items)
        case None => None
        case Some(views) =>
          Some(MatchView(
            Get(m, "id"),
            Or(Get(m, "username"), Str("")),
            Or(Get(m, "display_name"), Or(Get(m, "username"), Str("Unnamed User"))),
            Get(m, "email"),
            Get(m, "distance_km"),
            RecordOrEmpty(Get(m, "social_links")),
            views))
  }

  function MapMatches(items: seq<Value>): (r: Option<seq<MatchView>>)
    ensures r.Some? <==> forall i :: 0 <= i < |items| ==> MapMatch(items[i]).Some?
    ensures r.Some? ==> |r.value| == |items| && forall i :: 0 <= i < |items| ==> r.value[i] == MapMatch(items[i]).value
  {
    MapAll(items, MapMatch)
  }

  /** `data.data.map(...)`: `data.data` must be an array. */
  function ViewModels(data: Value): (r: Option<seq<MatchView>>)
    ensures r.Some? ==> data.Arr? && r == MapMatches(data.items)
  {
    if data.Arr? then MapMatches(data.items) else None
  }

  /** The display name falls back to the username, then to "Unnamed User". */
  lemma {:induction false} DisplayNameFallback(m: Value)
    requires MapMatch(m).Some?
    ensures var name := MapMatch(m).value.displayName;
      && (Truthy(Get(m, "display_name")) ==> name == Get(m, "display_name"))
      && (!Truthy(Get(m, "display_name")) && Truthy(Get(m, "username")) ==> name == Get(m, "username"))
      && (!Truthy(Get(m, "display_name")) && !Truthy(Get(m, "username")) ==> name == Str("Unnamed User"))
  {
  }

  // ---------------------------------------------------------------------------
  // The pager
  // ---------------------------------------------------------------------------

  /**
   * The response's window. `total` is `None` when it is not a number: the
   * service passes a missing `total_count` on unchecked, and the client then
   * reads `undefined`.
   */
  datatype Page = Page(total: Option<int>, limit: int, offset: int)

  /** `a < total` in JavaScript: a comparison with a non-number (`NaN`) is false. */
  predicate LessThanTotal(a: int, total: Option<int>) {
    total.Some? && a < total.value
  }

  /** `a >= total` in JavaScript: false as well against a non-number. */
  predicate AtLeastTotal(a: int, total: Option<int>) {
    total.Some? && a >= total.value
  }

  /** The body of a 2xx response: its `data` value and its `pagination` window. */
  datatype ResponseBody = ResponseBody(data: Value, pagination: Page)

  /** What `fetch` gives: a rejection, or a status with a body (`None`: the body is not JSON). */
  datatype FetchOutcome =
    | NetworkError
    | Http(status: int, body: Option<ResponseBody>)

  datatype MatchesError = NoError | NoLocation | Generic

  datatype PagerState = PagerState(
    matches: seq<MatchView>,
    isLoading: bool,
    error: MatchesError,
    pagination: Option<Page>,
    isLoadingMore: bool)

  /** The request URL: the page size is always 20 whatever the current window is. */
  function MatchesUrl(offset: int): string {
    "/api/matches?limit=20&offset=" + IntToString(offset)
  }

  /** The view models of a 2xx response, or `None` when reading the body throws. */
  function Decoded(body: Option<ResponseBody>): Option<seq<MatchView>> {
    if body.None? then None else ViewModels(body.value.data)
  }

  /** The state after `fetchMatches(offset, append)` whose request had the given outcome. */
  function Fetched(s: PagerState, append: bool, outcome: FetchOutcome): PagerState {
    var failed := PagerState(if append then s.matches else [], false, Generic,
                             if append then s.pagination else None, false);
    match outcome
    case NetworkError => failed
    case Http(status, body) =>
      if !(200 <= status <= 299) then
        if status == 400 then PagerState([], false, NoLocation, None, false) else failed
      else
        match Decoded(body)
        case None => failed
        case Some(views) =>
          PagerState(if append then s.matches + views else views, false, NoError, Some(body.value.pagination), false)
  }

  /** `hasNextPage` */
  function HasNextPage(s: PagerState): bool {
    s.pagination.Some? && LessThanTotal(s.pagination.value.offset + s.pagination.value.limit, s.pagination.value.total)
  }

  /** Whether `loadMore` issues a request. */
  function LoadMoreRequested(s: PagerState): bool {
    s.pagination.Some? && !s.isLoadingMore
    && !AtLeastTotal(s.pagination.value.offset + s.pagination.value.limit, s.pagination.value.total)
  }

  /** No pagination window means no items; "no location" means neither is shown. */
  predicate Consistent(s: PagerState) {
    && (s.pagination.None? ==> s.matches == [])
    && (s.error == NoLocation ==> s.matches == [] && s.pagination.None?)
  }

  class MatchesPager {
    var matches: seq<MatchView>
    var isLoading: bool
    var error: MatchesError
    var pagination: Option<Page>
    var isLoadingMore: bool

    function State(): PagerState
      reads this
    {
      PagerState(matches, isLoading, error, pagination, isLoadingMore)
    }

    /** The state before the first fetch: nothing shown, loading. */
    constructor()
      ensures State() == PagerState([], true, NoError, None, false)
      ensures Consistent(State())
    {
      matches := [];
      isLoading := true;
      error := NoError;
      pagination := None;
      isLoadingMore := false;
    }

    /** `fetchMatches(offset, append)`, with `outcome` the result of the request whose URL it returns. */
    method FetchMatches(offset: int, append: bool, outcome: FetchOutcome) returns (url: string)
      modifies this
      ensures url == MatchesUrl(offset)
      ensures State() == Fetched(old(State()), append, outcome)
      ensures Consistent(old(State())) ==> Consistent(State())
    {
      if !append {
        isLoading := true;
      } else {
        isLoadingMore := true;
      }
      error := NoError;
      url := MatchesUrl(offset);
      var failed := false;
      match outcome {
        case NetworkError =>
          failed := true;
        case Http(status, body) =>
          if !(200 <= status <= 299) {
            if status == 400 {
              error := NoLocation;
              matches := [];
              pagination := None;
            } else {
              failed := true;
            }
          } else {
            var views := Decoded(body);
            if views.None? {
              failed := true;
            } else {
              if append {
                matches := matches + views.value;
              } else {
                matches := views.value;
              }
              pagination := Some(body.value.pagination);
            }
          }
      }
      if failed {
        error := Generic;
        if !append {
          matches := [];
          pagination := None;
        }
      }
      isLoading := false;
      isLoadingMore := false;
    }

    /** The initial fetch on mount and on every refresh: the first page, replacing the list. */
    method Refresh(outcome: FetchOutcome) returns (url: string)
      modifies this
      ensures url == MatchesUrl(0)
      ensures State() == Fetched(old(State()), false, outcome)
    {
      url := FetchMatches(0, false, outcome);
    }

    /**
     * `loadMore`: no request without a window, while a page is loading, or once
     * the window reaches the total; otherwise the next window is appended.
     */
    method LoadMore(outcome: FetchOutcome) returns (url: Option<string>)
      modifies this
      ensures url.Some? <==> LoadMoreRequested(old(State()))
      ensures url.None? ==> State() == old(State())
      ensures url.Some? ==>
        url.value == MatchesUrl(old(pagination).value.offset + old(pagination).value.limit)
        && State() == Fetched(old(State()), true, outcome)
    {
      if pagination.None? || isLoadingMore {
        return None;
      }
      var nextOffset := pagination.value.offset + pagination.value.limit;
      if AtLeastTotal(nextOffset, pagination.value.total) {
        return None;
      }
      var u := FetchMatches(nextOffset, true, outcome);
      url := Some(u);
    }

    function HasNext(): (b: bool)
      reads this
      ensures b == HasNextPage(State())
    {
      pagination.Some? && LessThanTotal(pagination.value.offset + pagination.value.limit, pagination.value.total)
    }
  }

  // ---------------------------------------------------------------------------
  // Properties of a fetch
  // ---------------------------------------------------------------------------

  /**
   * Once no page is loading, "load more" issues a request exactly when there is
   * a next page, or when the total is not a number: both comparisons are then
   * false, so `loadMore` goes on while `hasNextPage` is false.
   */
  lemma {:induction false} LoadMoreIffNextPage(s: PagerState)
    requires !s.isLoadingMore
    ensures LoadMoreRequested(s) <==> HasNextPage(s) || (s.pagination.Some? && s.pagination.value.total.None?)
    ensures s.pagination.Some? && s.pagination.value.total.Some? ==> (LoadMoreRequested(s) <==> HasNextPage(s))
  {
  }

  /** A window without a total: no next page is shown, yet "load more" fetches the next 20. */
  lemma {:induction false} MissingTotalStillLoads(matches: seq<MatchView>, offset: int)
    ensures var s := PagerState(matches, false, NoError, Some(Page(None, 20, offset)), false);
      LoadMoreRequested(s) && !HasNextPage(s)
  {
  }

  /** Every fetch ends with both loading flags down. */
  lemma {:induction false} FetchSettles(s: PagerState, append: bool, outcome: FetchOutcome)
    ensures !Fetched(s, append, outcome).isLoading && !Fetched(s, append, outcome).isLoadingMore
  {
  }

  /** A successful first page replaces the list; a successful next page is appended after the old items. */
  lemma {:induction false} SuccessfulFetch(s: PagerState, append: bool, status: int, body: ResponseBody)
    requires 200 <= status <= 299 && Decoded(Some(body)).Some?
    ensures var t := Fetched(s, append, Http(status, Some(body)));
      && t.error == NoError
      && t.pagination == Some(body.pagination)
      && t.matches == (if append then s.matches else []) + Decoded(Some(body)).value
      && (append ==> t.matches[..|s.matches|] == s.matches)
  {
    var t := Fetched(s, append, Http(status, Some(body)));
    if !append {
      assert [] + Decoded(Some(body)).value == Decoded(Some(body)).value;
    }
  }

  /** A failure other than 400 while appending keeps the list and the window. */
  lemma {:induction false} AppendFailureKeepsList(s: PagerState, outcome: FetchOutcome)
    requires outcome.NetworkError? || (outcome.Http? && outcome.status != 400 && !(200 <= outcome.status <= 299))
             || (outcome.Http? && 200 <= outcome.status <= 299 && Decoded(outcome.body).None?)
    ensures var t := Fetched(s, true, outcome);
      t.error == Generic && t.matches == s.matches && t.pagination == s.pagination
  {
  }

  /** The same failure on the first page clears the list and the window. */
  lemma {:induction false} InitialFailureClears(s: PagerState, outcome: FetchOutcome)
    requires outcome.NetworkError? || (outcome.Http? && outcome.status != 400 && !(200 <= outcome.status <= 299))
    ensures var t := Fetched(s, false, outcome);
      t.error == Generic && t.matches == [] && t.pagination.None?
  {
  }

  /**
   * A 400 clears everything even while appending: pages already shown are lost,
   * and loading more is no longer possible.
   */
  lemma {:induction false} BadRequestWipesList(s: PagerState, append: bool, body: Option<ResponseBody>)
    ensures var t := Fetched(s, append, Http(400, body));
      t.error == NoLocation && t.matches == [] && t.pagination.None? && !HasNextPage(t)
  {
  }

  /** The window is always that of the latest successful response. */
  lemma {:induction false} PaginationIsLatest(s: PagerState, append: bool, status: int, body: ResponseBody)
    requires 200 <= status <= 299 && Decoded(Some(body)).Some?
    ensures Fetched(s, append, Http(status, Some(body))).pagination == Some(body.pagination)
  {
  }

  /** A consistent state stays consistent through any fetch. */
  lemma {:induction false} FetchKeepsConsistent(s: PagerState, append: bool, outcome: FetchOutcome)
    requires Consistent(s)
    ensures Consistent(Fetched(s, append, outcome))
  {
  }
}
