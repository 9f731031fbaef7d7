# BuddyFinder core, modelled in Dafny

BuddyFinder is a web application that matches people who do the same sports
near each other. Deciding who matches whom happens inside a database function.
This project models the application layer around that function: the
deterministic code that parses, validates, classifies and updates state.
It proves what that code promises.

- **Sport parameters** (`sport_parameters.dfy`, `sport_badge.dfy`):
  - the pace codec `m:ss` ↔ seconds;
  - the duration codec `H:MMh` ↔ minutes;
  - the per-sport table of form fields;
  - the badge formatter, which picks a codec and appends a unit.
- **Request validators**:
  - the pagination query (`matches_dto.dfy`), parsed with a base-10 `parseInt` modelled over characters (`parse_int.dfy`);
  - the user-sport commands and the sport-id path parameter (`user_sport_dto.dfy`);
  - the strict profile-update schema (`profile_dto.dfy`);
  - the login, registration and password-reset schemas (`auth_dto.dfy`).

  Each is a function from a JavaScript value (`js_value.dfy`) to either the parsed command or the list of issues (`validation.dfy`). All field checks run and their issues are collected. Whether a string is a URL or an e-mail address is a predicate passed as a parameter.
- **The matching contract**:
  - the service that classifies the outcome of the matching call (`matches_service.dfy`);
  - the route that maps failures to HTTP statuses (`matches_route.dfy`);
  - the client pager (`matches_view.dfy`), a class that holds the accumulated list, the pagination window and the error, and updates them per response.
- **Client state**: each is modelled as a class whose methods state the whole new state, with lemmas about the functions that specify them:
  - the shared user-data store (`user_data_store.dfy`);
  - the two profile hooks (`profile_store.dfy`, `profile_view.dfy`);
  - the main-view panel state machine (`main_view.dfy`);
  - the map draft/dirty state (`map_view.dfy`);
  - the address search with its bounded cache (`address_search.dfy`).
- **Server pieces**:
  - the user-sport service over a table modelled as a map from keys to rows (`user_sport_service.dfy`);
  - the API error bodies and the code → status mapping (`api_errors.dfy`);
  - the middleware route guard (`middleware.dfy`);
  - the logger's recursive redaction of sensitive keys (`logger.dfy`).

Shared modules:
- `wrappers.dfy`: `Option`/`Result`;
- `text.dfy`: digits, decimal printing, JavaScript white space and `trim`, ASCII lower case, sorted keys;
- `choice.dfy`: picking an element of a set;
- `dtos.dfy`: the records exchanged between client and server, and object spread;
- `http.dfy`: the outcomes of a `fetch`.

The outcomes of database calls, `fetch` calls and the Nominatim geocoder are inputs of the model: a datatype of possible results, or a map standing in for a table.

## Model

| member | source | states |
|---|---|---|
| SportParameters.FloorDiv | src/lib/config/sport-parameters.config.ts:35 | `Math.floor(n / d)`: the quotient q with q·d ≤ n < q·d + d |
| SportParameters.JsRem | src/lib/config/sport-parameters.config.ts:36 | JavaScript `%`: the remainder lies in [0, d) for n ≥ 0, and in (−d, 0] with the dividend's sign otherwise |
| SportParameters.PaceToSeconds | src/lib/config/sport-parameters.config.ts:24-28 | a pace is read exactly when it has the clock shape "one or two digits, a colon, two digits", and the value is then at most 99·60 + 99; with PaceOfFields, PaceAccepted and PaceRejections it is 60·m + ss for exactly those strings and `null` otherwise, seconds not bounded by 60 |
| SportParameters.CanonicalPrinted | src/lib/config/sport-parameters.config.ts:34-38 | the unpadded minutes and the two-digit padded seconds of 0 ≤ n < 6000 form a canonical clock |
| SportParameters.SecondsToPace | src/lib/config/sport-parameters.config.ts:34-38 | below 6000 seconds the printer writes a canonical `m:ss` (no leading zero in the minutes, seconds below 60); with PaceRoundTrip and PaceRoundTripCanonical it is the inverse of `paceToSeconds` on that range |
| SportParameters.ClockFields | src/lib/config/sport-parameters.config.ts:25-27 | a string matching the pattern is its two capture groups joined by `:` |
| SportParameters.PaceOfFields | src/lib/config/sport-parameters.config.ts:24-28 | every string of 1–2 digits, `:`, and 2 digits is accepted as 60·minutes + seconds |
| SportParameters.PaceAccepted | src/lib/config/sport-parameters.config.ts:24-28 | conversely, every accepted pace is of that form and has that value |
| SportParameters.PaceRejections | src/lib/config/sport-parameters.config.ts:25-26 | `""`, `"5:3"`, `"-5:30"`, `"530"` and `"123:45"` give `null` |
| SportParameters.PaceSecondsUnbounded | src/lib/config/sport-parameters.config.ts:27-28 | the seconds field is not bounded: `"5:60"` is 360 and `"5:99"` is 399 |
| SportParameters.PrintedFields | src/lib/config/sport-parameters.config.ts:34-38 | for 0 ≤ n < 6000, `secondsToPace(n)` is ⌊n/60⌋ unpadded, `:`, and n mod 60 padded to two digits |
| SportParameters.PaceRoundTrip | src/lib/config/sport-parameters.config.ts:24-38 | `paceToSeconds(secondsToPace(n)) == n` for 0 ≤ n < 6000 |
| SportParameters.PaceRoundTripCanonical | src/lib/config/sport-parameters.config.ts:24-38 | `secondsToPace(paceToSeconds(p)) == p` for every canonical pace: no leading zero in the minutes, seconds below 60 |
| SportParameters.PrintedClock | src/lib/config/sport-parameters.config.ts:34-38 | a canonical clock string is exactly what the printer writes for its value |
| SportParameters.TimeOfFields | src/lib/config/sport-parameters.config.ts:43-52 | `H:MM` and `HH:MM`, with or without one trailing `h`, are accepted as 60·H + MM; they give `null` when MM ≥ 60 |
| SportParameters.TimeToMinutes | src/lib/config/sport-parameters.config.ts:43-52 | a duration is read exactly when the text without one trailing `h` has the clock shape and its minutes field is below 60, and the value's remainder modulo 60 is that field; TimeOfFields, TimeRejectsMalformed and TimeValueBounded give the value 60·H + MM and the bound below 6000 |
| SportParameters.MinutesToTime | src/lib/config/sport-parameters.config.ts:57-61 | below 6000 minutes the printer writes a canonical `H:MM` followed by `h`; with TimeRoundTrip and TimeRoundTripCanonical it is the inverse of `timeToMinutes` on that range |
| SportParameters.TimeRejectsMinutesOver59 | src/lib/config/sport-parameters.config.ts:50 | `"1:60h"` and `"1:60"` are `null` |
| SportParameters.TimeRejectsMalformed | src/lib/config/sport-parameters.config.ts:44-45 | `"1:30hh"` and `""` are `null` |
| SportParameters.TimeIsPaceWithSuffix | src/lib/config/sport-parameters.config.ts:34-61 | `minutesToTime(n)` is `secondsToPace(n)` with `h` appended |
| SportParameters.TimeRoundTrip | src/lib/config/sport-parameters.config.ts:43-61 | `timeToMinutes(minutesToTime(n)) == n` for 0 ≤ n < 6000 |
| SportParameters.TimeValueBounded | src/lib/config/sport-parameters.config.ts:43-52 | every accepted duration is in [0, 6000) minutes |
| SportParameters.TimeReformatStable | src/lib/config/sport-parameters.config.ts:43-61 | reformatting an accepted duration and reading it again gives the same minutes |
| SportParameters.TimeRoundTripCanonical | src/lib/config/sport-parameters.config.ts:43-61 | a canonical `H:MMh` string prints back to itself |
| SportParameters.GetSportParametersConfig | src/lib/config/sport-parameters.config.ts:208-210 | the table entry for a known sport, and `[]` for any other name |
| SportParameters.ConfigEmptyOnlyForUnknown | src/lib/config/sport-parameters.config.ts:63-210 | the result is `[]` exactly when the sport is not in the table, since no entry is empty |
| SportParameters.EnumFieldsHaveOptions | src/lib/config/sport-parameters.config.ts:63-203 | a field carries options exactly when it is an `enum`, and its options list is non-empty |
| SportParameters.NumberFieldsBounded | src/lib/config/sport-parameters.config.ts:63-203 | a field has both bounds exactly when it is a `number`, and then min ≤ max |
| SportBadge.SportName | src/components/shared/SportBadge.tsx:35-36 | `sport_name` when non-empty, else `name`; empty exactly when both are missing or empty |
| SportBadge.SportParams | src/components/shared/SportBadge.tsx:38-39 | `params`, else `parameters`, else `{}` |
| SportBadge.FindConfig | src/components/shared/SportBadge.tsx:43-74 | `find`: `None` exactly when no field has that name, else the first field with that name |
| SportBadge.GetParameterLabel | src/components/shared/SportBadge.tsx:73-76 | the configured label when there is a non-empty one, else the raw key; empty only for an empty key |
| SportBadge.FormatParameterValue | src/components/shared/SportBadge.tsx:42-71 | no contract of its own: UnknownParameterShownRaw, UnitAppended, PlainKindsShownRaw, PaceNumberReadsBack, PaceTextVerbatim, UnparsableTimeVerbatim, CanonicalTimeVerbatim and TimeFormatIdempotent state what it shows for each parameter type |
| SportBadge.UnknownParameterShownRaw | src/components/shared/SportBadge.tsx:43-76 | a parameter with no configured field is shown as `String(value)` with no unit, and labelled by its key |
| SportBadge.UnitAppended | src/components/shared/SportBadge.tsx:69 | the unit follows after one space when it is non-empty; otherwise there is no suffix |
| SportBadge.PlainKindsShownRaw | src/components/shared/SportBadge.tsx:60-66 | `number` and `enum` values are shown as `String(value)` |
| SportBadge.PaceNumberReadsBack | src/components/shared/SportBadge.tsx:48-49 | a number of seconds for a `pace` field is printed with `secondsToPace`, and reads back as that number |
| SportBadge.PaceTextVerbatim | src/components/shared/SportBadge.tsx:49 | a string for a `pace` field is shown verbatim |
| SportBadge.UnparsableTimeVerbatim | src/components/shared/SportBadge.tsx:56-57 | a `time` string that `timeToMinutes` refuses is shown verbatim |
| SportBadge.CanonicalTimeVerbatim | src/components/shared/SportBadge.tsx:54-57 | a canonical `H:MMh` string is reformatted into itself |
| SportBadge.TimeFormatIdempotent | src/components/shared/SportBadge.tsx:51-58 | formatting the text a `time` value was formatted to changes nothing |
| SportBadge.MtbDurationWithoutUnit | src/components/shared/SportBadge.tsx:51-69 | `czas` of mountain biking, 90 minutes, is `"1:30h"`, with no unit since its unit is `""` |
| SportBadge.RunningPaceExample | src/components/shared/SportBadge.tsx:48-69 | a running pace of 330 s is `"5:30 min/km"` |
| SportBadge.RunningDistanceExample | src/components/shared/SportBadge.tsx:60-76 | a running distance of 10 is `"10 km"`, labelled `"Dystans"` |
| JsParseInt.DigitPrefix | src/lib/dto/matches.dto.ts:13 | the digits `parseInt` reads form a run of decimal digits no longer than its input |
| JsParseInt.DigitPrefixIsLongest | src/lib/dto/matches.dto.ts:13 | that run is a prefix of the input and stops at the first non-digit, the longest such prefix |
| JsParseInt.ParseInt | src/lib/dto/matches.dto.ts:13 | no contract of its own: ParseIntOfTrimmed, ParseIntOfTrimmedNegative, ParseIntToString and ParseIntWithoutDigits state its value on a leading digit run, its inverse `toString`, and `NaN` without digits |
| JsParseInt.ParseIntOfTrimmed | src/lib/dto/matches.dto.ts:13 | when the text after leading whitespace is a digit run followed by a non-digit or the end, `parseInt` yields the run's decimal value |
| JsParseInt.ParseIntOfTrimmedNegative | src/lib/dto/matches.dto.ts:13 | when the text after leading whitespace is `-`, a digit run and a non-digit or the end, the value is the negated run |
| JsParseInt.ParseDigitPrefix | src/lib/dto/matches.dto.ts:13 | whitespace, digits, then any text not starting with a digit parses to the digits' value |
| JsParseInt.ParseNegativeDigitPrefix | src/lib/dto/matches.dto.ts:13 | the same with a minus sign gives the negated value |
| JsParseInt.ParseDigits | src/lib/dto/matches.dto.ts:13 | a non-empty digit string parses to its decimal value |
| JsParseInt.ParseNegativeDigits | src/lib/dto/matches.dto.ts:13 | `-` followed by digits parses to the negated value |
| JsParseInt.ParseIntToString | src/lib/dto/matches.dto.ts:13-14 | printing any integer in decimal and parsing it back returns that integer |
| JsParseInt.ParseIntWithoutDigits | src/lib/dto/matches.dto.ts:13-14 | a string containing no digit is `NaN`, i.e. no number |
| MatchesDto.ParseOrDefault | src/lib/dto/matches.dto.ts:11-25 | a missing, null or empty parameter and one `parseInt` cannot read give the default; otherwise the parsed integer |
| MatchesDto.LimitIssues | src/lib/dto/matches.dto.ts:16 | a limit raises no issue exactly when it lies in 1..100 |
| MatchesDto.OffsetIssues | src/lib/dto/matches.dto.ts:26 | an offset raises no issue exactly when it is not negative |
| MatchesDto.ParseMatchesQuery | src/lib/dto/matches.dto.ts:6-27 | the query is accepted iff the defaulted limit is in 1..100 and the defaulted offset is at least 0; the accepted value holds both; the issues are the limit's then the offset's, under their paths |
| MatchesDto.Get | src/lib/dto/matches.dto.ts:35-36 | `URLSearchParams.get` is absent iff no pair has the key, and otherwise returns the value of the first pair with that key |
| MatchesDto.ValidateMatchesQuery | src/lib/dto/matches.dto.ts:33-38 | no contract of its own: DefaultsWhenAbsent, LimitOutOfRange, RangeRejections, OnlyPaginationRead and FirstOccurrenceWins state the defaults, the range errors, that only `limit` and `offset` are read, and that the first occurrence of each is used |
| MatchesDto.DefaultsWhenAbsent | src/lib/dto/matches.dto.ts:12-22 | no parameters, or empty ones, give limit 20 and offset 0 |
| MatchesDto.NoDigitsGivesDefault | src/lib/dto/matches.dto.ts:14-24 | a parameter without leading digits gives the default |
| MatchesDto.PrefixParsing | src/lib/dto/matches.dto.ts:13-23 | `"10.5"` and `"010"` read as 10 and `" 30 "` as 30 |
| MatchesDto.LimitOutOfRange | src/lib/dto/matches.dto.ts:16 | a limit that parses outside 1..100 rejects the query |
| MatchesDto.LimitOfDecimalOutOfRange | src/lib/dto/matches.dto.ts:16 | any decimal limit outside 1..100 rejects the query |
| MatchesDto.OffsetOfDecimalNegative | src/lib/dto/matches.dto.ts:26 | any negative decimal offset rejects the query |
| MatchesDto.RangeRejections | src/lib/dto/matches.dto.ts:16-26 | limits 0, -5, 101, 150 and offset -1 are rejected |
| MatchesDto.OffsetUnbounded | src/lib/dto/matches.dto.ts:26 | every non-negative offset is accepted unchanged (there is no upper bound) |
| MatchesDto.DecimalRoundTrip | src/lib/dto/matches.dto.ts:6-27 | a limit in 1..100 and an offset at least 0, printed in decimal, parse back to themselves |
| MatchesDto.PaginationPairs | src/lib/dto/matches.dto.ts:34-37 | the pairs kept hold only the `limit` and `offset` keys |
| MatchesDto.GetOfPaginationPairs | src/lib/dto/matches.dto.ts:35-36 | looking up either key in the kept pairs gives the same answer as in the full query |
| MatchesDto.OnlyPaginationRead | src/lib/dto/matches.dto.ts:33-38 | validation depends on nothing but the `limit` and `offset` pairs |
| MatchesDto.FirstOccurrenceWins | src/lib/dto/matches.dto.ts:35 | a repeated `limit` is read from its first occurrence |
| MatchesService.GetMatches | src/lib/services/matches.service.ts:19-54 | an empty user id throws "User ID is required"; a `PGRST400` error becomes the incomplete-profile error and any other error is rethrown; data that is missing or without a `matched_users` array is an invalid format; success carries `matched_users` and the pagination with the `total_count` and the defaulted limit and offset |
| MatchesService.NoRpcWithoutUser | src/lib/services/matches.service.ts:20-22 | with an empty user id the outcome does not depend on the database |
| MatchesService.OnlyOwnRequestConsulted | src/lib/services/matches.service.ts:25-29 | the outcome depends only on the database's answer to the request for this user, limit and offset |
| MatchesService.TotalCountUnchecked | src/lib/services/matches.service.ts:40-53 | a response without `total_count` is still accepted, with an undefined total |
| MatchesRoute.ClassifyFailure | src/pages/api/matches/index.ts:33-58 | a `ZodError` is a 400 validation error; another `Error` mentioning "Profile is incomplete" is a 400 with details `PROFILE_INCOMPLETE`, and exactly those; everything else is a 500 |
| MatchesRoute.Get | src/pages/api/matches/index.ts:13-60 | no session user gives 401; invalid query gives 400; a 200 exactly when the query validates and the service succeeds, with the service's result as body; the status is always 200, 400, 401 or 500 |
| MatchesRoute.ProfileIncompleteMentioned | src/lib/services/matches.service.ts:34 | the service's incomplete-profile message contains the text the route looks for |
| MatchesRoute.IncompleteProfileIs400 | src/pages/api/matches/index.ts:40-46 | a `PGRST400` database error reaches the client as a 400 with details `PROFILE_INCOMPLETE` |
| MatchesRoute.OtherDatabaseErrorIs500 | src/pages/api/matches/index.ts:54-58 | any other database error that is not an `Error` instance becomes a 500 |
| ApiErrors.HttpStatusForErrorCode | src/lib/api/errors.ts:54-67 | validation 400, unauthorized 401, not found 404, anything else 500 |
| ApiErrors.KeptDetails | src/lib/api/errors.ts:32 | details are kept exactly when they are truthy, and then unchanged |
| ApiErrors.CreateErrorResponse | src/lib/api/errors.ts:27-42 | the status is the code's status; the body holds the message, the code when it is a known one, and the truthy details |
| ApiErrors.CreateValidationErrorResponse | src/lib/api/errors.ts:47-49 | a 400 whose body is `VALIDATION_ERROR`, "Invalid request data" and the issues, each as its path and message |
| ApiErrors.ErrorResponseStatus | src/lib/api/errors.ts:17-67 | for the four known codes the status is in 400..500 and below 500 unless the code is `INTERNAL_ERROR` |
| Middleware.SessionFor | src/middleware/index.ts:21-23 | the session is fetched only for a verified user, and is absent otherwise |
| Middleware.Guard | src/middleware/index.ts:5-46 | a signed-in user on an auth page goes to `/`, a signed-out user on a protected page goes to `/login`, and every other request continues |
| Middleware.OnRequest | src/middleware/index.ts:10-47 | the locals hold the verified user and its session, and the outcome is the guard's for that user |
| Middleware.LocalsConsistent | src/middleware/index.ts:21-28 | a session is never exposed without a user |
| Middleware.RedirectsSettle | src/middleware/index.ts:35-43 | following a redirect once reaches a page that is let through, so redirects never loop |
| Middleware.EveryPathOpenToSomeone | src/middleware/index.ts:5-8 | no path is both protected and auth-only |
| Middleware.ExactMatchOnly | src/middleware/index.ts:35-41 | routes match by exact path: `/profile/x` and `/profile/` pass, `/profile` redirects, `/login/` passes for a signed-in user while `/register` redirects |
| MatchesView.Or | src/components/matches/hooks/useMatchesView.ts:70-71 | `a \|\| b` is `a` when `a` is truthy and `b` otherwise |
| MatchesView.RecordOrEmpty | src/components/matches/hooks/useMatchesView.ts:74-82 | a non-null, non-array object is kept as it is; anything else becomes `{}` |
| MatchesView.MapSport | src/components/matches/hooks/useMatchesView.ts:77-83 | every sport except `null`/`undefined` (whose fields cannot be read) maps, and its parameters are always a record |
| MatchesView.MapAll | src/components/matches/hooks/useMatchesView.ts:68-77 | `Array.map` with a step that may throw: it succeeds iff every element's step does, and then maps element by element |
| MatchesView.MapSports | src/components/matches/hooks/useMatchesView.ts:77-83 | a sport list maps iff each sport does, element by element in order |
| MatchesView.MapMatch | src/components/matches/hooks/useMatchesView.ts:68-84 | a match maps exactly when it is not `null`/`undefined`, has a `sports` array and every sport maps; the view model's display name is truthy and its links and parameters are records |
| MatchesView.MapMatches | src/components/matches/hooks/useMatchesView.ts:68-84 | a page maps iff each match does, element by element in order |
| MatchesView.ViewModels | src/components/matches/hooks/useMatchesView.ts:65-68 | a body's `data` yields view models only when it is an array, and then they are its matches mapped |
| MatchesView.DisplayNameFallback | src/components/matches/hooks/useMatchesView.ts:71 | the display name is `display_name` when truthy, else a truthy `username`, else `"Unnamed User"` |
| MatchesView.MatchesPager.constructor | src/components/matches/hooks/useMatchesView.ts:33-37 | the hook starts with no matches, loading, no error, no window and no page loading |
| MatchesView.MatchesPager.FetchMatches | src/components/matches/hooks/useMatchesView.ts:42-104 | requests `limit=20` at the given offset; the new state is `Fetched` of the old one: a 400 sets "no location" and clears list and window; a network error, another non-2xx status or an unreadable body sets "generic" and clears list and window only for a first page; a 2xx replaces or appends the mapped matches and takes the response's window; the flags end down; consistency is preserved |
| MatchesView.MatchesPager.Refresh | src/components/matches/hooks/useMatchesView.ts:109-111 | mount and each refresh trigger fetch the first page, replacing the list |
| MatchesView.MatchesPager.LoadMore | src/components/matches/hooks/useMatchesView.ts:116-123 | a request is issued iff there is a window, no page is loading and offset + limit is not at or above the total (a comparison with a non-numeric total is false, so such a window always requests); then it asks for offset + limit and appends; otherwise nothing changes |
| MatchesView.MatchesPager.HasNext | src/components/matches/hooks/useMatchesView.ts:128-130 | there is a next page iff a window exists and offset + limit is below a numeric total |
| MatchesView.LoadMoreIffNextPage | src/components/matches/hooks/useMatchesView.ts:116-130 | while no page is loading, "load more" requests exactly when `hasNextPage` holds or the window's total is not a number; for a numeric total the two agree |
| MatchesView.MissingTotalStillLoads | src/components/matches/hooks/useMatchesView.ts:116-130 | with a window whose total is missing, `hasNextPage` is false and yet "load more" fetches |
| MatchesView.FetchSettles | src/components/matches/hooks/useMatchesView.ts:100-103 | every fetch ends with both loading flags down |
| MatchesView.SuccessfulFetch | src/components/matches/hooks/useMatchesView.ts:86-92 | a successful first page replaces the list, a successful next page keeps the old items as a prefix and appends after them; the error is cleared and the window is the response's |
| MatchesView.AppendFailureKeepsList | src/components/matches/hooks/useMatchesView.ts:93-99 | a failure other than 400 while appending keeps the list and the window and sets "generic" |
| MatchesView.InitialFailureClears | src/components/matches/hooks/useMatchesView.ts:93-99 | the same failure on a first page clears the list and the window |
| MatchesView.BadRequestWipesList | src/components/matches/hooks/useMatchesView.ts:54-61 | a 400 clears list and window even while appending, so shown pages are lost and there is no next page |
| MatchesView.PaginationIsLatest | src/components/matches/hooks/useMatchesView.ts:92 | the window is that of the latest successful response |
| MatchesView.FetchKeepsConsistent | src/components/matches/hooks/useMatchesView.ts:42-104 | after any fetch, no window means no items, and "no location" shows neither |
| Dtos.MergeNothing | src/lib/stores/user-data-store.ts:85 | spreading an empty patch over a profile leaves it unchanged |
| Dtos.MergeProfileTwice | src/lib/stores/user-data-store.ts:85 | two successive patches equal one patch in which the later fields win |
| Dtos.MergeProfileIdempotent | src/lib/stores/user-data-store.ts:85 | applying the same patch twice equals applying it once |
| UserDataStore.UpdateSportById | src/lib/stores/user-data-store.ts:109 | the list keeps its length; entries with another sport id are unchanged and each entry with the id has the patch spread over it |
| UserDataStore.RemoveSportById | src/lib/stores/user-data-store.ts:119 | the result is no longer than the list, and holds only entries of the list whose id differs |
| UserDataStore.RemoveCount | src/lib/stores/user-data-store.ts:119 | exactly the entries with the id are removed |
| UserDataStore.RemoveKeepsOthers | src/lib/stores/user-data-store.ts:119 | every entry with another id survives |
| UserDataStore.RemoveConcat | src/lib/stores/user-data-store.ts:119 | filtering distributes over concatenation, so the order of the survivors is kept |
| UserDataStore.RemoveAbsent | src/lib/stores/user-data-store.ts:119 | removing an id that does not occur changes nothing |
| UserDataStore.UpdateThenRemove | src/lib/stores/user-data-store.ts:109-119 | updating then removing an id (with a patch that keeps the id) is the same as removing it |
| UserDataStore.Store.constructor | src/lib/stores/user-data-store.ts:35-53 | the store starts from `initialState` |
| UserDataStore.Store.Initialize | src/lib/stores/user-data-store.ts:59-72 | the four data fields are replaced, loading is off and the error cleared |
| UserDataStore.Store.SetProfile | src/lib/stores/user-data-store.ts:78-80 | only the profile changes |
| UserDataStore.Store.UpdateProfile | src/lib/stores/user-data-store.ts:82-90 | with no profile nothing changes; otherwise only the profile changes, to the patch spread over it |
| UserDataStore.Store.AddSport | src/lib/stores/user-data-store.ts:96-104 | only the sports change: the sport is appended at the end |
| UserDataStore.Store.UpdateSport | src/lib/stores/user-data-store.ts:106-114 | only the sports change, to `UpdateSportById` of the old list |
| UserDataStore.Store.RemoveSport | src/lib/stores/user-data-store.ts:116-124 | only the sports change, to `RemoveSportById` of the old list |
| UserDataStore.Store.SetSports | src/lib/stores/user-data-store.ts:126-128 | only the sports change |
| UserDataStore.Store.SetAvailableSports | src/lib/stores/user-data-store.ts:130-132 | only the available sports change |
| UserDataStore.Store.SetLocation | src/lib/stores/user-data-store.ts:138-140 | only the location changes |
| UserDataStore.Store.SetLoading | src/lib/stores/user-data-store.ts:146-148 | only the loading flag changes |
| UserDataStore.Store.SetError | src/lib/stores/user-data-store.ts:150-152 | only the error changes |
| UserDataStore.Store.Reset | src/lib/stores/user-data-store.ts:154-156 | the state is `initialState` again |
| UserSportCommands.RejectedKeys | src/lib/dto/user-sport.dto.ts:10 | exactly the properties whose value is not a number, string, boolean, string array or number array |
| UserSportCommands.RejectedKeyIssues | src/lib/dto/user-sport.dto.ts:10 | one "Invalid input" issue per rejected property, under that property, in the given order |
| UserSportCommands.ParseSportParameters | src/lib/dto/user-sport.dto.ts:8-17 | accepted iff the value is a non-empty object of admissible values, yielding its properties; rejected properties give one issue each; an empty object fails with "Parameters cannot be an empty object" |
| UserSportCommands.ParseCustomRange | src/lib/dto/user-sport.dto.ts:23 | accepted iff absent, `null`, or an integer in 1..100; absence and `null` are told apart; an accepted number is returned unchanged |
| UserSportCommands.ParseBodySportId | src/lib/dto/user-sport.dto.ts:35 | accepted iff a positive integer, which is returned |
| UserSportCommands.ParseAddCommand | src/lib/dto/user-sport.dto.ts:34-38 | accepted iff the body is an object whose `sport_id`, `parameters` and `custom_range_km` are each valid; the issues are those of the three fields, in that order, under their names |
| UserSportCommands.ParseOptionalParameters | src/lib/dto/user-sport.dto.ts:46 | absent parameters are accepted as absent; present ones must be valid |
| UserSportCommands.ParseUpdateCommand | src/lib/dto/user-sport.dto.ts:44-51 | accepted iff the body is an object whose present fields are valid and which has at least one of the two keys; `{}` fails with "Request body cannot be empty" |
| UserSportCommands.FieldFailureMeansKeyPresent | src/lib/dto/user-sport.dto.ts:44-51 | when an object body fails for any reason but emptiness, it had one of the two keys |
| UserSportCommands.SportIdOfText | src/lib/dto/user-sport.dto.ts:58-68 | accepted iff `parseInt` gives a number of at least 1, which is the result; otherwise the single issue "Sport ID must be a valid positive number" |
| UserSportCommands.ParseSportIdParam | src/lib/dto/user-sport.dto.ts:57-69 | accepted iff the params are an object whose `sport_id` is a string the transform accepts |
| UserSportCommands.SportIdParamOf | src/lib/dto/user-sport.dto.ts:57-69 | for a string path parameter the transform alone decides |
| UserSportCommands.SportIdOfDecimal | src/lib/dto/user-sport.dto.ts:58-68 | the decimal text of a positive integer is that integer; of any other integer, rejected |
| UserSportCommands.SportIdPrefixExamples | src/lib/dto/user-sport.dto.ts:59 | `"1.5"` and `"001"` are both sport id 1 |
| UserSportCommands.SportIdNonPositiveExamples | src/lib/dto/user-sport.dto.ts:60 | `"0"` and `"-1"` are rejected |
| UserSportCommands.SportIdWithoutDigits | src/lib/dto/user-sport.dto.ts:59-60 | text with no digit is rejected |
| UserSportCommands.SportIdWithoutDigitsExamples | src/lib/dto/user-sport.dto.ts:59-60 | `""`, `" "` and `"abc"` are rejected |
| UserSportCommands.SportIdMustBeString | src/lib/dto/user-sport.dto.ts:58 | a missing or non-string `sport_id` is rejected |
| UserSportCommands.AddBodyAccepted | src/lib/dto/user-sport.dto.ts:34-38 | a body with just a sport id and parameters is accepted iff both are valid (the range is optional) |
| UserSportCommands.AddRejectsBadSportIds | src/lib/dto/user-sport.dto.ts:35 | 0, -1, 1.5 and `"1"` are not sport ids; 1 is |
| UserSportCommands.ParametersRejections | src/lib/dto/user-sport.dto.ts:8-17 | `null`, `{}` and a nested object are rejected; numbers and string arrays are accepted |
| UserSportCommands.MixedArrayRejected | src/lib/dto/user-sport.dto.ts:10 | an array mixing strings and numbers is not admissible |
| UserSportCommands.CustomRangeBounds | src/lib/dto/user-sport.dto.ts:23 | 1 and 100 are accepted; 0, 101, 1.5 and `"10"` are not |
| UserSportCommands.UpdateWithOneField | src/lib/dto/user-sport.dto.ts:44-51 | an update with only parameters, or only a `null` range, is accepted |
| UserSportService.UpdateDataFor | src/lib/services/user-sport.service.ts:55-62 | the payload writes `parameters` exactly when the command's are truthy, and `custom_range_km` exactly when the command gives one, `null` included |
| UserSportService.Apply | src/lib/services/user-sport.service.ts:65-69 | a written column takes the new value and an unwritten one keeps its own |
| UserSportService.UpdateSpec | src/lib/services/user-sport.service.ts:49-96 | the tables stay joined after an update (every row names an existing sport) |
| UserSportService.AddSpec | src/lib/services/user-sport.service.ts:149-212 | the tables stay joined after an add |
| UserSportService.DeleteSpec | src/lib/services/user-sport.service.ts:222-245 | the tables stay joined after a delete |
| UserSportService.UserSportService.constructor | src/lib/services/user-sport.service.ts:35-36 | the service starts over an empty `user_sports` table and the given sports |
| UserSportService.UserSportService.UpdateUserSport | src/lib/services/user-sport.service.ts:49-96 | the new tables and the result are `UpdateSpec` of the old tables: an empty user id throws, a reported failure is rethrown, a missing row gives `UserSportNotFoundError`, otherwise the one row is updated and returned joined |
| UserSportService.UserSportService.AddUserSport | src/lib/services/user-sport.service.ts:149-212 | the new tables and the result are `AddSpec`: user id, then the sport must exist, then a lookup failure other than "no rows" is rethrown, then an existing row is a duplicate, then an insert failure is rethrown; otherwise the row is inserted and returned joined |
| UserSportService.UserSportService.DeleteUserSport | src/lib/services/user-sport.service.ts:222-245 | the new tables and the result are `DeleteSpec`: user id, then a zero sport id, then a reported failure; otherwise the row is removed and an absent or zero count raises `UserSportNotFoundError` |
| UserSportService.UserSportService.JoinedRows | src/lib/services/user-sport.service.ts:110-138 | the list holds each of the user's rows once, joined with its sport's name, and nothing else |
| UserSportService.UserSportService.GetUserSports | src/lib/services/user-sport.service.ts:105-139 | an empty user id throws; a reported failure is rethrown; data that is not an array is an invalid format; otherwise the result lists exactly the user's rows, joined |
| UserSportService.NoUserTouchesNothing | src/lib/services/user-sport.service.ts:50-52 | without a user id update, add and delete all fail with "User ID is required" and change no table (also lines 150-152, 223-225) |
| UserSportService.UpdatePayload | src/lib/services/user-sport.service.ts:57-62 | parsed parameters are always written, a `null` range is written as `null`, an absent range leaves the column, and an empty command leaves the row |
| UserSportService.UpdateTouchesOneRow | src/lib/services/user-sport.service.ts:65-88 | an update changes only the user's row for that sport, adds or removes no row, and fails with `UserSportNotFoundError` exactly when that row is absent |
| UserSportService.AddChecksSportFirst | src/lib/services/user-sport.service.ts:155-163 | an unknown sport is reported whatever the later calls would say |
| UserSportService.AddRethrowsLookupFailure | src/lib/services/user-sport.service.ts:173-175 | a failure of the duplicate lookup is rethrown unless it is the "no rows" answer, which counts as no failure |
| UserSportService.AddExistingIsDuplicate | src/lib/services/user-sport.service.ts:177-179 | adding a sport the user already has throws `DuplicateSportError` and changes nothing |
| UserSportService.AddTwiceIsDuplicate | src/lib/services/user-sport.service.ts:166-179 | a second add of the same sport is a duplicate |
| UserSportService.AddedIsListed | src/lib/services/user-sport.service.ts:182-189 | after a successful add the user's sport ids are the old ones plus the new one |
| UserSportService.DeleteWithCount | src/lib/services/user-sport.service.ts:231-244 | when the deleted rows are counted, a delete removes the row and succeeds exactly when it was there |
| UserSportService.DeleteWithoutCountAlwaysFails | src/lib/services/user-sport.service.ts:231-244 | when no count is reported, every delete throws `UserSportNotFoundError` though the row is gone |
| UserSportService.AddThenDelete | src/lib/services/user-sport.service.ts:149-245 | an add followed by a counted delete of the same sport restores the tables |
| UserSportService.DeleteRefusesZero | src/lib/services/user-sport.service.ts:226-228 | sport id 0 is refused before the table is touched |
| ProfileStore.MapProfileDtoToViewModel | src/components/profile/hooks/useProfileStore.ts:43-46 | the view model is the profile with links that are always truthy: kept when truthy, `{}` otherwise, and no other field changes |
| ProfileStore.MapUserSportDtoToViewModel | src/components/profile/hooks/useProfileStore.ts:51-61 | id, name, parameters and range are carried over field by field |
| ProfileStore.MapUserSports | src/components/profile/hooks/useProfileStore.ts:90 | the store's sports map one to one, in order |
| ProfileStore.CurrentLinks | src/components/profile/hooks/useProfileStore.ts:126-129 | stored links that are an object are used as they are; anything else counts as no links |
| ProfileStore.LinksWith | src/components/profile/hooks/useProfileStore.ts:126-133 | the new links hold the platform with the new URL, every other current link unchanged, and no other key |
| ProfileStore.LinksWithout | src/components/profile/hooks/useProfileStore.ts:199 | destructuring throws exactly for `null`/`undefined` links; otherwise the remaining links are the own properties without the platform, values unchanged |
| ProfileStore.StoreProfileOnSuccess | src/components/profile/hooks/useProfileStore.ts:105-111 | a successful response replaces the stored profile; a failed one changes nothing |
| ProfileStore.UpdateDisplayName | src/components/profile/hooks/useProfileStore.ts:95-117 | without a profile there is no request and no change; otherwise the request is `{display_name}`, and only a successful response's profile is stored |
| ProfileStore.AddSocialLink | src/components/profile/hooks/useProfileStore.ts:122-153 | without a profile there is no request; otherwise the request carries `LinksWith` of the stored links, and only a successful response's profile is stored |
| ProfileStore.EditSocialLink | src/components/profile/hooks/useProfileStore.ts:158-189 | the same request as adding, the platform's URL overwritten; only success changes the store |
| ProfileStore.DeleteSocialLink | src/components/profile/hooks/useProfileStore.ts:194-219 | without a profile, or when the links cannot be destructured, no request and no change; otherwise the request carries the links without the platform, and only success changes the store |
| ProfileStore.AddSport | src/components/profile/hooks/useProfileStore.ts:224-247 | on success the new sport is appended to the store and the sports change is reported; on failure nothing changes and nothing is reported |
| ProfileStore.EditSport | src/components/profile/hooks/useProfileStore.ts:252-275 | on success the store's entry for the id has the response spread over it and the change is reported; on failure nothing changes |
| ProfileStore.DeleteSport | src/components/profile/hooks/useProfileStore.ts:280-300 | on success the id's entries leave the store and the change is reported; on failure nothing changes |
| ProfileStore.ProfileMappingIdempotent | src/components/profile/hooks/useProfileStore.ts:43-46 | mapping a mapped profile again changes nothing |
| ProfileStore.SportMappingInvertible | src/components/profile/hooks/useProfileStore.ts:51-61 | the sport mapping loses nothing: its inverse gives the DTO back |
| ProfileStore.EditAfterAdd | src/components/profile/hooks/useProfileStore.ts:122-189 | editing a link just added equals adding it with the edited URL |
| ProfileStore.DeleteAfterAdd | src/components/profile/hooks/useProfileStore.ts:122-133 | deleting a link just added leaves the other current links (also lines 194-199) |
| ProfileStore.NonObjectLinksReplaced | src/components/profile/hooks/useProfileStore.ts:126-129 | links that are not an object are replaced by the new link alone |
| ProfileStore.DeleteOnNullThrows | src/components/profile/hooks/useProfileStore.ts:199 | deleting from `null` or absent links throws before any request, and from `{}` sends `{}` |
| ProfileView.ReplaceSportById | src/components/profile/hooks/useProfileView.ts:225-227 | the list keeps its length; each entry with the id becomes the server's record and every other entry is unchanged |
| ProfileView.SpreadLinksWith | src/components/profile/hooks/useProfileView.ts:135-161 | the links hold the platform with the new URL, every other own property of the shown links unchanged, and no other key |
| ProfileView.ProfileScreen.constructor | src/components/profile/hooks/useProfileView.ts:78-81 | nothing loaded yet, and loading |
| ProfileView.ProfileScreen.FetchData | src/components/profile/hooks/useProfileView.ts:83-112 | the profile, the catalogue and the user's sports are fetched in turn, each only after the previous succeeded; each fetched part replaces its state, the rest stays, and loading ends false |
| ProfileView.ProfileScreen.ProfileOnSuccess | src/components/profile/hooks/useProfileView.ts:123-125 | a successful response's profile, mapped, is shown; a failure changes nothing; the lists and the loading flag never change |
| ProfileView.ProfileScreen.UpdateDisplayName | src/components/profile/hooks/useProfileView.ts:114-130 | without a profile no request; otherwise `{display_name}` is sent and only success replaces the shown profile |
| ProfileView.ProfileScreen.AddSocialLink | src/components/profile/hooks/useProfileView.ts:132-153 | without a profile no request; otherwise the shown links with the platform set are sent, and only success replaces the profile |
| ProfileView.ProfileScreen.EditSocialLink | src/components/profile/hooks/useProfileView.ts:155-176 | the same payload as adding |
| ProfileView.ProfileScreen.DeleteSocialLink | src/components/profile/hooks/useProfileView.ts:178-196 | the shown links are always an object, so the request is always sent: the links without the platform |
| ProfileView.ProfileScreen.AddSport | src/components/profile/hooks/useProfileView.ts:198-213 | on success the new sport is appended to the list; nothing else changes |
| ProfileView.ProfileScreen.EditSport | src/components/profile/hooks/useProfileView.ts:215-232 | on success the id's entry is replaced by the server's record; nothing else changes |
| ProfileView.ProfileScreen.DeleteSport | src/components/profile/hooks/useProfileView.ts:234-246 | on success the id's entries leave the list; nothing else changes |
| ProfileView.ReplaceIsFullMerge | src/components/profile/hooks/useProfileView.ts:225-227 | replacing is the store's update with a patch that sets every field |
| ProfileView.ReplaceThenDelete | src/components/profile/hooks/useProfileView.ts:225-241 | replacing with a record that keeps the id and then deleting that id is deleting it |
| ProfileView.ReplaceIdempotent | src/components/profile/hooks/useProfileView.ts:225-227 | replacing twice with the same record is replacing once |
| ProfileView.SameLinksAsStore | src/components/profile/hooks/useProfileView.ts:135-138 | for links that are a plain object this screen and the store-backed one send the same payload |
| MainView.WithPanel | src/components/main/hooks/useMainView.ts:94 | setting one panel sets it and leaves the other panel, the active sheet and the counter alone (also lines 120-124, 158-161) |
| MainView.Other | src/components/main/hooks/useMainView.ts:102-109 | the other side panel is neither the map nor the given one |
| MainView.InitialState | src/components/main/hooks/useMainView.ts:14-46 | no active sheet and counter 0; on mobile both panels closed and collapsed, on desktop both open and expanded |
| MainView.IsMobileWidth | src/components/main/hooks/useMainView.ts:28-34 | mobile exactly when a window exists and is narrower than 768 |
| MainView.PanelsAfterMobileToggle | src/components/main/hooks/useMainView.ts:77-112 | the map closes every sheet; the active panel closes and the other is untouched; any other panel opens alone and becomes active; collapsed flags and counter never change, and both sheets are never open together |
| MainView.PanelsAfterDesktopToggle | src/components/main/hooks/useMainView.ts:117-126 | the panel's collapsed flag flips and it is open exactly when expanded; the other panel, the active sheet and the counter stay |
| MainView.PanelsAfterProfileDataChange | src/components/main/hooks/useMainView.ts:131-139 | the counter goes up by one exactly when a location, a range or a sports change is reported; otherwise nothing changes |
| MainView.PanelsAfterLocationUpdate | src/components/main/hooks/useMainView.ts:144-149 | the counter goes up by one and nothing else changes |
| MainView.PanelsAfterClose | src/components/main/hooks/useMainView.ts:154-163 | the panel closes keeping its collapsed flag, the other stays, and the active sheet is cleared only if it was this panel |
| MainView.PanelsOnDesktop | src/components/main/hooks/useMainView.ts:59-65 | moving to desktop clears the active sheet and closes and collapses both panels, keeping the counter |
| MainView.MainViewHook.constructor | src/components/main/hooks/useMainView.ts:28-46 | the viewport flag is the window's and the state is the initial state for it |
| MainView.MainViewHook.HandleResize | src/components/main/hooks/useMainView.ts:50-68 | only a crossing of the breakpoint changes the flag; crossing to desktop resets the panels, crossing to mobile keeps them |
| MainView.MainViewHook.ToggleMobilePanel | src/components/main/hooks/useMainView.ts:77-112 | the state becomes `PanelsAfterMobileToggle` of the old one |
| MainView.MainViewHook.ToggleDesktopPanel | src/components/main/hooks/useMainView.ts:117-126 | the state becomes `PanelsAfterDesktopToggle` of the old one |
| MainView.MainViewHook.HandleProfileDataChange | src/components/main/hooks/useMainView.ts:131-139 | the state becomes `PanelsAfterProfileDataChange` of the old one, and the counter does not go down |
| MainView.MainViewHook.HandleLocationUpdate | src/components/main/hooks/useMainView.ts:144-149 | the state becomes `PanelsAfterLocationUpdate` of the old one |
| MainView.MainViewHook.CloseMobilePanel | src/components/main/hooks/useMainView.ts:154-163 | the state becomes `PanelsAfterClose` of the old one |
| MainView.MobileHandlersKeepSheetsConsistent | src/components/main/hooks/useMainView.ts:33-46 | the initial states and every mobile handler keep "the active sheet is the only open one, and never the map" (also lines 59-65, 77-112, 154-163) |
| MainView.DesktopToggleCanOpenBoth | src/components/main/hooks/useMainView.ts:117-126 | a desktop toggle can open the second panel while a sheet is active |
| MainView.DesktopToggleTwice | src/components/main/hooks/useMainView.ts:117-126 | toggling twice restores the collapsed flag and leaves the panel open exactly when expanded |
| MainView.MobileToggleTwiceCloses | src/components/main/hooks/useMainView.ts:89-110 | selecting a sheet twice closes it and leaves the other closed |
| MainView.TriggerMonotone | src/components/main/hooks/useMainView.ts:131-149 | the counter never goes down, every sports change raises it, and panel toggles leave it |
| MainView.IrrelevantUpdateIgnored | src/components/main/hooks/useMainView.ts:133 | an update with none of the three fields, or `sportsChanged: false`, reloads nothing; a location of `null` does |
| MapView.RangeOrDefault | src/components/map/hooks/useMapView.ts:39 | `default_range_km \|\| 10`: a missing range or 0 becomes 10, any other range is kept, and the result is never 0 (also line 107) |
| MapView.IsDirty | src/components/map/hooks/useMapView.ts:55-62 | no contract of its own: CleanWithoutProfile, TakenOverProfileClean, MissingRangeDirty, DraftLocationDirty and SaveSettles state when the settings differ from the loaded profile |
| MapView.WithProfile | src/components/map/hooks/useMapView.ts:35-41 | the profile is stored and both drafts are taken from it, the range defaulted; the flags and the error stay (also lines 103-109) |
| MapView.MapViewHook.constructor | src/components/map/hooks/useMapView.ts:9-16 | no profile, no draft location, draft range 10, loading, not saving, no error |
| MapView.MapViewHook.FetchProfile | src/components/map/hooks/useMapView.ts:19-52 | success takes the profile into state with loading off and no error; failure turns loading off and shows the 401 message, the generic load message, or the thrown message |
| MapView.MapViewHook.SetDraftLocation | src/components/map/hooks/useMapView.ts:65-67 | only the draft location changes |
| MapView.MapViewHook.SetDraftRangeKm | src/components/map/hooks/useMapView.ts:70-72 | only the draft range changes |
| MapView.MapViewHook.SaveChanges | src/components/map/hooks/useMapView.ts:75-121 | nothing is sent unless the state is dirty and no save is running; otherwise both drafts are sent; success takes the returned profile and reports success; failure keeps the drafts, shows the 401 message, the generic save message or the thrown message, and rethrows it; saving always ends off unless a save was already running |
| MapView.MapViewHook.Retry | src/components/map/hooks/useMapView.ts:124-128 | the error is cleared and the loader shown; nothing else changes |
| MapView.CleanWithoutProfile | src/components/map/hooks/useMapView.ts:56 | nothing is dirty before a profile is loaded |
| MapView.TakenOverProfileClean | src/components/map/hooks/useMapView.ts:35-62 | a profile with a non-zero range is clean as soon as it is taken over |
| MapView.MissingRangeDirty | src/components/map/hooks/useMapView.ts:39-59 | a profile without a range, or with range 0, is dirty right after it is taken over, before any edit |
| MapView.DraftLocationDirty | src/components/map/hooks/useMapView.ts:58-67 | moving the draft location away from the profile's makes the state dirty, and moving it back undoes that |
| MapView.SaveSettles | src/components/map/hooks/useMapView.ts:55-109 | when the server stores what was sent, a save leaves the state clean with the same drafts, so a second save sends nothing |
| Logger.ErrorSummary | src/lib/logger.ts:69-75 | an `Error` becomes exactly `name`, `message` and `stack`, the stack only in development |
| Logger.IsSensitiveKey | src/lib/logger.ts:85-101 | no contract of its own: PasswordSensitive, AccessTokenSensitive, CapitalizedKeySensitive, NameNotSensitive, MessageNotSensitive and StackNotSensitive state which keys are masked, case-insensitively by substring |
| Logger.Sanitized | src/lib/logger.ts:65-116 | primitives are kept; arrays keep their length; objects keep exactly their keys; errors become the three-field summary |
| Logger.SanitizedItems | src/lib/logger.ts:78-80 | arrays are sanitized element by element |
| Logger.Sanitize | src/lib/logger.ts:65-116 | the method's result is `Sanitized` of its input |
| Logger.SanitizeItems | src/lib/logger.ts:79 | the loop over an array yields `SanitizedItems` |
| Logger.SanitizeFields | src/lib/logger.ts:84-112 | the loop over `Object.entries` yields, for every key, the redacted marker, the sanitized nested object or the value itself |
| Logger.SensitiveKeyRedacted | src/lib/logger.ts:85-103 | a key containing a sensitive word, in any case, is masked whatever its value: masking comes before recursion |
| Logger.OtherKeyKept | src/lib/logger.ts:104-109 | any other key keeps a primitive value and has a nested object or array sanitized |
| Logger.ArrayElementwise | src/lib/logger.ts:78-80 | element `i` of a sanitized array is element `i` sanitized |
| Logger.ErrorFlattened | src/lib/logger.ts:69-75 | the stack of an error is logged in development and dropped otherwise |
| Logger.NameNotSensitive | src/lib/logger.ts:85-95 | neither `name` nor `user` contains a sensitive word |
| Logger.MessageNotSensitive | src/lib/logger.ts:85-95 | `message` contains no sensitive word |
| Logger.StackNotSensitive | src/lib/logger.ts:85-95 | `stack` contains no sensitive word |
| Logger.ErrorSummaryRedacts | src/lib/logger.ts:69-75 | the summary of a plain error has nothing left to mask |
| Logger.SanitizedRedacts | src/lib/logger.ts:65-116 | nothing sensitive reaches the log: no `Error` remains and every sensitive key at any depth holds the marker |
| Logger.RedactedIsFixpoint | src/lib/logger.ts:65-116 | a value with nothing left to mask is logged as it is |
| Logger.SanitizeIdempotent | src/lib/logger.ts:65-116 | sanitizing twice is sanitizing once |
| Logger.NestedSecretsExample | src/lib/logger.ts:85-109 | `password` and a nested `access_token` are both masked |
| Logger.PasswordSensitive | src/lib/logger.ts:86 | `password` is sensitive |
| Logger.AccessTokenSensitive | src/lib/logger.ts:93 | `access_token` is sensitive |
| Logger.CapitalizedKeySensitive | src/lib/logger.ts:98-101 | `Authorization` is sensitive, because keys are lower-cased first |
| AddressSearch.Lookup | src/components/map/AddressSearch.tsx:59-60 | a lookup finds an entry exactly when the key is cached, and returns that entry's results |
| AddressSearch.IndexOf | src/components/map/AddressSearch.tsx:59 | the position of a cached key holds that key |
| AddressSearch.MapSet | src/components/map/AddressSearch.tsx:88-89 | `Map.set`: an existing key is overwritten in place, a new key is appended; keys stay distinct and every other entry is unchanged |
| AddressSearch.MapDeleteFirst | src/components/map/AddressSearch.tsx:92-95 | deleting the first key drops the oldest entry and keeps the others in order |
| AddressSearch.CachedWith | src/components/map/AddressSearch.tsx:87-98 | the new cache holds the results under the key, stays valid (distinct keys, at most 20, each at least 3 long); a known key is overwritten in place, a new key is appended, and when 20 were cached the oldest is evicted |
| AddressSearch.CacheKey | src/components/map/AddressSearch.tsx:59-89 | the key is the trimmed query lower-cased: as long as the trimmed query, with no upper-case letter |
| AddressSearch.AddressSearchBox.constructor | src/components/map/AddressSearch.tsx:23-27 | empty query, no results, not searching, list hidden, empty cache |
| AddressSearch.AddressSearchBox.SetQuery | src/components/map/AddressSearch.tsx:33-41 | typing sets the query; a query shorter than 3 after trimming clears and hides the results at once (also line 138) |
| AddressSearch.AddressSearchBox.SearchAddress | src/components/map/AddressSearch.tsx:50-108 | a short query does nothing; a cached key shows its cached results without a request; otherwise the geocoder is asked, and success shows the results and stores them under the key after all the old entries, dropping the oldest when twenty were already held, while failure clears the results and keeps the cache; the search flag ends down (also lines 122-123) |
| AddressSearch.AddressSearchBox.SelectResult | src/components/map/AddressSearch.tsx:110-119 | the chosen address becomes the query and the list closes and empties |
| AddressSearch.AddressSearchBox.Escape | src/components/map/AddressSearch.tsx:124-126 | Escape hides the list and keeps everything else |
| AddressSearch.AddressSearchBox.Focus | src/components/map/AddressSearch.tsx:140 | focusing the input shows the list exactly when it was shown or there are results; nothing else changes |
| AddressSearch.KeyIgnoresCaseAndPadding | src/components/map/AddressSearch.tsx:59-89 | for every query, trimming it or lower-casing it first does not change its cache key |
| AddressSearch.PaddedCapitalizedQueryExample | src/components/map/AddressSearch.tsx:59-89 | `" Gdynia "` and `"gdynia"` share a cache entry |
| AddressSearch.LookupAfterSet | src/components/map/AddressSearch.tsx:88-89 | setting a key and reading it gives the value; other keys read as before |
| AddressSearch.FullCacheEvictsOldest | src/components/map/AddressSearch.tsx:90-95 | a full cache evicts exactly its oldest key and keeps every other |
| ProfileUpdate.ParseDisplayName | src/lib/dto/profile.dto.ts:9-13 | accepted exactly when absent or a string of 3 to 50 characters; absence gives no value, a present name is returned unchanged; a rejection carries at least one issue |
| ProfileUpdate.ParseBounded | src/lib/dto/profile.dto.ts:19-20 | a number within `[-bound, bound]` is accepted and returned; anything else is rejected with at least one issue |
| ProfileUpdate.ParseLongitude | src/lib/dto/profile.dto.ts:19 | longitude accepted exactly when a number in `[-180, 180]` |
| ProfileUpdate.ParseLatitude | src/lib/dto/profile.dto.ts:20 | latitude accepted exactly when a number in `[-90, 90]` |
| ProfileUpdate.ParseCoordinates | src/lib/dto/profile.dto.ts:18-21 | accepted exactly for a two-element array of in-range numbers, returning them as the point; a shorter array gets the single "at least 2" issue, a longer one starts with the "at most 2" issue |
| ProfileUpdate.LiteralPointIssues | src/lib/dto/profile.dto.ts:17 | no issue exactly when `type` is the string `"Point"` |
| ProfileUpdate.ParseLocation | src/lib/dto/profile.dto.ts:15-23 | accepted exactly when absent or a valid point object; `null` is rejected; a result point is the one in `coordinates` |
| ProfileUpdate.ParseRange | src/lib/dto/profile.dto.ts:25-30 | accepted exactly when absent or a whole number in `[1, 100]`, which is returned |
| ProfileUpdate.LinkIssues | src/lib/dto/profile.dto.ts:35 | no issue exactly when the link is a string that is a URL |
| ProfileUpdate.LinksIssues | src/lib/dto/profile.dto.ts:32-36 | no issue exactly when every listed platform's link is a string URL |
| ProfileUpdate.AllKeysChecked | src/lib/dto/profile.dto.ts:32-36 | checking the keys of the record in any listing that covers them checks every entry of the record |
| ProfileUpdate.LinkUrls | src/lib/dto/profile.dto.ts:33-36 | the parsed links have exactly the record's platforms, each mapped to its own URL string |
| ProfileUpdate.ParseSocialLinks | src/lib/dto/profile.dto.ts:32-37 | accepted exactly when absent or a record of URL strings; the result keeps every platform and its URL |
| ProfileUpdate.QuotedKeys | src/lib/dto/profile.dto.ts:39 | the quoted key list is empty exactly when there are no keys |
| ProfileUpdate.UnknownKeysIssues | src/lib/dto/profile.dto.ts:39 | no issue exactly when there is no extra property; otherwise the single "Unrecognized key(s)" issue names them |
| ProfileUpdate.UnknownKeys | src/lib/dto/profile.dto.ts:8-39 | the extra properties are exactly the body's own keys outside the four of the schema |
| ProfileUpdate.ParseProfileUpdate | src/lib/dto/profile.dto.ts:7-39 | accepted exactly when the body is an object whose four fields are valid and which has no other property; the issues of a rejected object are the fields' issues in declaration order, under their field names, followed by the extra-keys issue |
| ProfileUpdate.ValidateProfileUpdate | src/lib/dto/profile.dto.ts:51-53 | returns the update exactly when the body is accepted; otherwise throws a `ZodError` with a non-empty `issues` array |
| ProfileUpdate.UpdateBody | src/lib/dto/profile.dto.ts:45 | the body written for an update is an object with only schema keys |
| ProfileUpdate.UpdateBodyFields | src/lib/dto/profile.dto.ts:45 | each field of the update appears in its body exactly when present, with its value |
| ProfileUpdate.LocationRoundTrip | src/lib/dto/profile.dto.ts:15-23 | an in-range point written as a GeoJSON point parses back to itself |
| ProfileUpdate.LinksRoundTrip | src/lib/dto/profile.dto.ts:32-37 | a map of URL links written as a record parses back to itself |
| ProfileUpdate.RangeRoundTrip | src/lib/dto/profile.dto.ts:25-30 | a whole range in `[1, 100]` parses back to itself |
| ProfileUpdate.FieldsRoundTrip | src/lib/dto/profile.dto.ts:9-37 | each field of a valid update parses back from its body |
| ProfileUpdate.UpdateRoundTrip | src/lib/dto/profile.dto.ts:7-39 | every valid update, written as a body, is accepted and parses back to itself |
| ProfileUpdate.WithoutSchemaFields | src/lib/dto/profile.dto.ts:5-39 | a body with none of the four fields is the empty update when it has no other property, and otherwise only the extra-keys issue |
| ProfileUpdate.EmptyBodyAccepted | src/lib/dto/profile.dto.ts:5-39 | `{}` is accepted as the empty patch |
| ProfileUpdate.ExtraPropertyRejected | src/lib/dto/profile.dto.ts:39 | any property outside the schema rejects the body, with the extra-keys issue last |
| ProfileUpdate.QuotedKeyExample | src/lib/dto/profile.dto.ts:39 | keys are listed quoted and comma-separated |
| ProfileUpdate.RoleRejected | src/lib/dto/profile.dto.ts:39 | `{role: "admin"}` is rejected with exactly the issue naming `'role'` |
| ProfileUpdate.RoleIssue | src/lib/dto/profile.dto.ts:39 | the extra-keys issue of `{role: "admin"}` names `'role'` |
| ProfileUpdate.NullLocationRejected | src/lib/dto/profile.dto.ts:15-23 | `{location: null}` is rejected with one type issue at path `location` |
| ProfileUpdate.NullLocationFields | src/lib/dto/profile.dto.ts:15-23 | in `{location: null}` the other fields are absent and the location's only issue is the type issue |
| ProfileUpdate.DisplayNameBounds | src/lib/dto/profile.dto.ts:9-13 | a name is valid exactly when it has 3 to 50 characters; 2 and 51 characters get the source's two messages |
| ProfileUpdate.RangeBounds | src/lib/dto/profile.dto.ts:25-30 | 1 and 100 are valid; 0, 101, 1.5 and `null` are not; 0.5 gets both the whole-number and the minimum messages |
| ProfileUpdate.CoordinateBounds | src/lib/dto/profile.dto.ts:18-21 | the corner points are valid; just outside either range, and arrays of one or three numbers, are not |
| ProfileUpdate.LatitudeTooHigh | src/lib/dto/profile.dto.ts:20 | latitude 91 is rejected at index 1 with the maximum message |
| ProfileUpdate.LatitudeIssuePath | src/lib/dto/profile.dto.ts:15-23 | the latitude issue of a location has the path `coordinates.1` |
| ProfileUpdate.BadLinkPath | src/lib/dto/profile.dto.ts:35 | a non-URL link is rejected with the link message at the platform's path |
| ProfileUpdate.LinksArrayRejected | src/lib/dto/profile.dto.ts:33 | an array is not a record of links |
| AuthCommands.StringField | src/lib/dto/auth.dto.ts:8-12 | a string field is accepted exactly when it is a string with no check issue, and yields the transformed string |
| AuthCommands.LoginIssues | src/lib/dto/auth.dto.ts:9 | no issue exactly when the login has at least one character |
| AuthCommands.PasswordIssues | src/lib/dto/auth.dto.ts:12 | no issue exactly when the password has at least one character |
| AuthCommands.UsernameIssues | src/lib/dto/auth.dto.ts:22-24 | no issue exactly when the username has 3 to 30 characters, all of `[a-z0-9_]` |
| AuthCommands.EmailIssues | src/lib/dto/auth.dto.ts:28-29 | no issue exactly when the email is non-empty and an email address |
| AuthCommands.StrongPasswordIssues | src/lib/dto/auth.dto.ts:33-36 | no issue exactly when the password has at least 8 characters, an upper-case letter, a lower-case letter and a digit |
| AuthCommands.ParseLogin | src/lib/dto/auth.dto.ts:8-10 | accepted exactly when a string of at least one character (before trimming); yields the trimmed string |
| AuthCommands.ParseLoginPassword | src/lib/dto/auth.dto.ts:11-12 | accepted exactly when a non-empty string, returned unchanged |
| AuthCommands.ParseUsername | src/lib/dto/auth.dto.ts:21-26 | accepted exactly when a valid username; yields it trimmed and lower-cased |
| AuthCommands.ParseEmail | src/lib/dto/auth.dto.ts:27-31 | accepted exactly when a valid email; yields it trimmed and lower-cased |
| AuthCommands.ParseNewPassword | src/lib/dto/auth.dto.ts:32-36 | accepted exactly when a strong password, returned unchanged |
| AuthCommands.ParseLoginCommand | src/lib/dto/auth.dto.ts:7-13 | accepted exactly when an object with a non-empty login and password; the login is trimmed; a rejected object collects the issues of both fields in order |
| AuthCommands.ParseRegisterCommand | src/lib/dto/auth.dto.ts:20-37 | accepted exactly when username, email and password are all valid; username and email are normalised; a rejected object collects the three fields' issues in order |
| AuthCommands.ParseResetPasswordCommand | src/lib/dto/auth.dto.ts:44-50 | accepted exactly when the email is valid, yielding it normalised; a rejection carries the email's issues |
| AuthCommands.Thrown | src/lib/dto/auth.dto.ts:57-73 | `parse` returns the value of a success and throws a `ZodError` carrying the issues of a failure |
| AuthCommands.ValidateLogin | src/lib/dto/auth.dto.ts:57-59 | returns exactly when the login schema accepts; otherwise throws a `ZodError` with issues |
| AuthCommands.ValidateRegister | src/lib/dto/auth.dto.ts:64-66 | returns exactly when the register schema accepts; otherwise throws a `ZodError` with issues |
| AuthCommands.ValidateResetPassword | src/lib/dto/auth.dto.ts:71-73 | returns exactly when the reset schema accepts; otherwise throws a `ZodError` with issues |
| AuthCommands.AcceptedUsernameUnchanged | src/lib/dto/auth.dto.ts:21-26 | trimming and lower-casing never change a username that passed the checks |
| AuthCommands.NormalizeIdempotent | src/lib/dto/auth.dto.ts:25-26 | trimming then lower-casing a second time changes nothing |
| AuthCommands.BlankLoginAccepted | src/lib/dto/auth.dto.ts:8-10 | a login of one space passes `min(1)` and is then trimmed to the empty string |
| AuthCommands.EmailLowerCasedAfterCheck | src/lib/dto/auth.dto.ts:27-31 | an accepted mixed-case email is returned lower-cased |
| AuthCommands.UpperCaseUsernameRejected | src/lib/dto/auth.dto.ts:24-26 | an upper-case username is rejected, although it would be lower-cased afterwards |
| AuthCommands.ResetEmailAsRegistration | src/lib/dto/auth.dto.ts:44-50 | a reset request is accepted exactly when its email field is, with the same result |
| AuthCommands.PasswordExamples | src/lib/dto/auth.dto.ts:33-36 | "password" lacks an upper-case letter and a digit, in that order; "Password1" is strong |
| AuthCommands.UsernameIssuesCollected | src/lib/dto/auth.dto.ts:22-24 | "Ab" gets both the length and the character issues |

## Left out

- Numbers: JavaScript numbers are modelled as mathematical reals (`real` inside a value, `int` in the codecs). Floating-point rounding, `NaN`, `Infinity` and `-0` are not modelled. Coordinates and distances are exact.
- Fractional values in the sport codecs and the badge: `secondsToPace` and `minutesToTime` are modelled on whole numbers. A fractional pace or time number shown by `SportBadge` is outside the model.
- Text: `toLowerCase` is modelled for ASCII letters only. String length counts characters, not UTF-16 code units.
- Property order of objects is not modelled. Lists built from keys use ascending key order instead of insertion order. Such lists are the rejected parameter keys, the unknown keys of the strict profile schema and the per-link issues.
- Prototype keys: only own properties of a value are seen. Properties inherited through the prototype chain are not modelled.
- Zod messages: a type issue keeps only the expected type, not Zod's full wording. The `message` text of a `ZodError` is left empty, and the `stack` of an `Error` is not modelled.
- ApiErrors.CreateValidationErrorResponse: the details carry each issue's `path` and `message` only. Zod's `code` (`too_small`, `invalid_type`, `unrecognized_keys`, …) and its per-code fields (`minimum`, `inclusive`, `expected`, `received`, `keys`, …) are not modelled. Array indexes in a path are written as strings, so the latitude's path is `["location", "coordinates", "1"]` where Zod gives the number 1. The same holds for the `issues` of every `ZodError` in the model.
- URL and e-mail format checks (`z.string().url()`, `z.string().email()`) are predicates passed as parameters.
- Concurrency: overlapping requests, two `loadMore` calls before a re-render, and the debounce timer of the address search are left out. Each handler is atomic.
- I/O and the network: every database call, `fetch` and Nominatim request is an input of the model. Each is either a datatype of possible outcomes or a map standing in for a table. An error thrown by `response.json()` is the outcome `NetworkError(message)` in the hooks, and an `Http` outcome whose body is `None` in the matches pager.
- The database function `get_matches_for_user` and its distance ranking are not part of this model.
- MatchesService.GetMatches: `total_count` is echoed without any check, as the code does. A non-numeric `total_count` is passed through as an opaque value.
- The pager's total is a whole number or not a number at all (a missing total reads as `undefined`, and every comparison with it is false). A `null` total, which JavaScript compares as 0, and a numeric string are not modelled. The JSON transport between the route and the pager is not modelled either.
- MatchesView.MatchesPager.LoadMore: a 400 answer while appending clears `matches` and `pagination`. This is the code's behaviour and is modelled as written, in preference to keeping the loaded list.
- Explicit `undefined` values in a patch object are not distinguished from absent keys. Object spread copies only present keys.
- UserSportService.UserSportService.DeleteUserSport: the code calls `delete()` without asking for a count. Whether the client library then reports one is a parameter (`countReported`). With no count reported, every delete fails with `UserSportNotFoundError`.
- UserSportService.UserSportService.UpdateUserSport: an update that matches no row is modelled as `null` data without an error. A "no rows" error from `.single()` is covered by the failure parameter.
- UserSportService.UserSportService.AddUserSport: requires `ConsistentLookup`, so a "no rows" answer of the duplicate lookup is never reported for a row that exists. The table's answers are assumed to agree with its contents.
- UserSportService: the `"Failed to create user sport"` error cannot arise, because a successful insert always returns its row. An absent `custom_range_km` is stored as `null`, standing in for the column default.
- UserSportService.UserSportService.GetUserSports: promises each of the user's rows exactly once, in some order. The database's own row order is not modelled.
- Logger.SanitizedRedacts and Logger.SanitizeIdempotent require `PlainErrors`. An `Error` whose own `name`, `message` or `stack` property holds an object would be copied into the log without redaction.
- Logger: console output, log levels, timestamps and the `NODE_ENV` check are left out. Only `sanitize` is modelled, with the development flag as a parameter.
- Toast notifications are not modelled.
- MapView.MapViewHook.Retry: the page reload that follows is outside the model.
- MapView: `isDirty` compares locations structurally, where the code compares their `JSON.stringify` output. A profile whose `default_range_km` is `null` is always dirty, because the draft range is a number. This is modelled as written.
- AddressSearch: `parseFloat` of the selected result's coordinates in `handleSelectResult` and the `onLocationSelect` callback are left out. Only the query gate, the cache and the result state are modelled.
- The auth, profile and sports route handlers are HTTP and session glue. `supabase.server.ts` and `supabase.client.ts` are foreign calls. None of them is part of this model. Neither is the `.tsx` presentation beyond the `SportBadge` value formatting and the `AddressSearch` state.
- `social-platforms.config.ts` (a lookup table of icons and labels) is not part of this model.

## Notes on the source

The repository disagrees with itself in two places. The model follows the code in both.
- A delete that removes nothing. The test at `src/lib/services/__tests__/user-sport.service.test.ts:359-371` expects `deleteUserSport` to resolve when the count is 0 ("idempotent"). The code at `src/lib/services/user-sport.service.ts:242-244` throws `UserSportNotFoundError` instead. `UserSportService.DeleteWithCount` states the code's behaviour: the delete succeeds exactly when the row was there.
- The HTTP method of an edited sport. `src/components/profile/hooks/useProfileView.ts:217-218` sends `PATCH` to `/api/profiles/me/sports/{id}`. The route `src/pages/api/profiles/me/sports/[sport_id].ts` exports only `PUT` (line 8) and `DELETE` (line 45), and the store hook uses `PUT` (`src/components/profile/hooks/useProfileStore.ts:255`). In the model the response is a parameter. The rejection that the route gives such a request is the failure case of `ProfileView.ProfileScreen.EditSport`, which leaves the list unchanged.
