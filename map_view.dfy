/**
 * The map screen's state: the saved profile, a draft location and range that
 * the user edits on the map, and the loading, saving and error flags. A save
 * sends the drafts only when they differ from the profile and no save is
 * running; an ok answer becomes the new profile and the new drafts.
 *
 * The responses are parameters (`Http.Response`); the page reload of `retry`
 * is not part of this model.
 */
module MapView {
  import opened Wrappers
  import opened Dtos
  import opened Http

  const DefaultRangeKm := 10

  const SessionExpiredOnLoad := "Sesja wygasła. Proszę zalogować się ponownie."
  const LoadFailed := "Nie udało się załadować danych profilu. Spróbuj odświeżyć stronę."
  const SessionExpiredOnSave := "Sesja wygasła. Zaloguj się ponownie, aby zapisać zmiany."
  const SaveFailed := "Wystąpił nieoczekiwany błąd podczas zapisu. Spróbuj ponownie."

  /** `MapViewViewModel` */
  datatype MapViewState = MapViewState(
    profile: Option<ProfileDto>,
    draftLocation: Option<GeoPoint>,
    draftRangeKm: int,
    isLoading: bool,
    isSaving: bool,
    error: Option<string>)

  const InitialState := MapViewState(None, None, DefaultRangeKm, true, false, None)

  /** `profile.default_range_km || 10`: an absent range and a range of 0 both become 10. */
  function RangeOrDefault(range: Option<int>): (r: int)
    ensures r != 0
    ensures range.Some? && range.value != 0 ==> r == range.value
    ensures range.None? || range.value == 0 ==> r == DefaultRangeKm
  {
    if range.Some? && range.value != 0 then range.value else DefaultRangeKm
  }

  /** `isDirty`: a profile is loaded and the draft location or the draft range differs from it. */
  predicate IsDirty(s: MapViewState) {
    s.profile.Some? &&
    (s.draftLocation != s.profile.value.location || s.profile.value.defaultRangeKm != Some(s.draftRangeKm))
  }

  /** The profile and both drafts taken from a profile the server returned. */
  function WithProfile(prev: MapViewState, p: ProfileDto): (r: MapViewState)
    ensures r.profile == Some(p) && r.draftLocation == p.location && r.draftRangeKm == RangeOrDefault(p.defaultRangeKm)
    ensures r.isLoading == prev.isLoading && r.isSaving == prev.isSaving && r.error == prev.error
  {
    prev.(profile := Some(p), draftLocation := p.location, draftRangeKm := RangeOrDefault(p.defaultRangeKm))
  }

  /** The message a failed load shows: the session has expired on 401, the load failed otherwise. */
  function LoadErrorMessage<T>(response: Response<T>): string
    requires !response.Success?
  {
    match response
    case HttpError(status) => if status == 401 then SessionExpiredOnLoad else LoadFailed
    case NetworkError(message) => message
  }

  /** The message a failed save shows and rethrows. */
  function SaveErrorMessage<T>(response: Response<T>): string
    requires !response.Success?
  {
    match response
    case HttpError(status) => if status == 401 then SessionExpiredOnSave else SaveFailed
    case NetworkError(message) => message
  }

  /** `{ location: draftLocation, default_range_km: draftRangeKm }` */
  datatype SaveRequest = SaveRequest(location: Option<GeoPoint>, defaultRangeKm: int)

  /** What `saveChanges()` gives its caller: nothing, `true`, or the error it rethrows. */
  datatype SaveOutcome = NotAttempted | Saved | Rethrown(message: string)

  class MapViewHook {
    var state: MapViewState

    constructor()
      ensures state == InitialState
    {
      state := InitialState;
    }

    /** `fetchProfile` on mount. */
    method FetchProfile(response: Response<ProfileDto>)
      modifies this
      ensures response.Success? ==>
        state == WithProfile(old(state), response.body).(isLoading := false, error := None)
      ensures !response.Success? ==>
        state == old(state).(isLoading := false, error := Some(LoadErrorMessage(response)))
    {
      state := state.(isLoading := true, error := None);
      if response.Success? {
        state := WithProfile(state, response.body).(isLoading := false);
      } else {
        state := state.(isLoading := false, error := Some(LoadErrorMessage(response)));
      }
    }

    method SetDraftLocation(location: GeoPoint)
      modifies this
      ensures state == old(state).(draftLocation := Some(location))
    {
      state := state.(draftLocation := Some(location));
    }

    method SetDraftRangeKm(rangeKm: int)
      modifies this
      ensures state == old(state).(draftRangeKm := rangeKm)
    {
      state := state.(draftRangeKm := rangeKm);
    }

    /** `saveChanges()`; `sent` is the request body, `None` when nothing is sent. */
    method SaveChanges(response: Response<ProfileDto>) returns (sent: Option<SaveRequest>, outcome: SaveOutcome)
      modifies this
      ensures !IsDirty(old(state)) || old(state).isSaving ==>
        sent.None? && outcome == NotAttempted && state == old(state)
      ensures IsDirty(old(state)) && !old(state).isSaving ==>
        sent == Some(SaveRequest(old(state).draftLocation, old(state).draftRangeKm))
      ensures IsDirty(old(state)) && !old(state).isSaving && response.Success? ==>
        outcome == Saved && state == WithProfile(old(state), response.body).(error := None)
      ensures IsDirty(old(state)) && !old(state).isSaving && !response.Success? ==>
        outcome == Rethrown(SaveErrorMessage(response))
        && state == old(state).(error := Some(SaveErrorMessage(response)))
      ensures !state.isSaving
        || (old(state).isSaving && state == old(state))
    {
      if !IsDirty(state) || state.isSaving {
        return None, NotAttempted;
      }
      state := state.(isSaving := true, error := None);
      sent := Some(SaveRequest(state.draftLocation, state.draftRangeKm));
      if response.Success? {
        state := WithProfile(state, response.body).(isSaving := false);
        outcome := Saved;
      } else {
        var message := SaveErrorMessage(response);
        state := state.(isSaving := false, error := Some(message));
        outcome := Rethrown(message);
      }
    }

    /** `retry()`: clears the error and shows the loader before the page reloads. */
    method Retry()
      modifies this
      ensures state == old(state).(error := None, isLoading := true)
    {
      state := state.(error := None, isLoading := true);
    }
  }

  // ---------------------------------------------------------------------------
  // Properties
  // ---------------------------------------------------------------------------

  /** Nothing is dirty before a profile is loaded. */
  lemma {:induction false} CleanWithoutProfile(s: MapViewState)
    requires s.profile.None?
    ensures !IsDirty(s)
  {
  }

  /** A profile with a non-zero range is clean as soon as it is taken over, by a load or by a save. */
  lemma {:induction false} TakenOverProfileClean(prev: MapViewState, p: ProfileDto)
    requires p.defaultRangeKm.Some? && p.defaultRangeKm.value != 0
    ensures !IsDirty(WithProfile(prev, p))
  {
  }

  /**
   * A profile without a range (or with range 0) is dirty right after it is
   * taken over: the draft range is 10 and the profile's is not, so a save is
   * offered before the user changes anything.
   */
  lemma {:induction false} MissingRangeDirty(prev: MapViewState, p: ProfileDto)
    requires p.defaultRangeKm.None? || p.defaultRangeKm == Some(0)
    ensures IsDirty(WithProfile(prev, p))
  {
  }

  /** Moving the draft location away from the profile's makes the state dirty, and moving it back undoes that. */
  lemma {:induction false} DraftLocationDirty(s: MapViewState, location: GeoPoint)
    requires s.profile.Some?
    ensures s.profile.value.location != Some(location) ==> IsDirty(s.(draftLocation := Some(location)))
    ensures s.profile.value.location == Some(location) && s.profile.value.defaultRangeKm == Some(s.draftRangeKm) ==>
      !IsDirty(s.(draftLocation := Some(location)))
  {
  }

  /** When the server stores what was sent, a save leaves the state clean, so a second save sends nothing. */
  lemma {:induction false} SaveSettles(s: MapViewState, p: ProfileDto)
    requires IsDirty(s) && s.draftRangeKm != 0
    requires p.location == s.draftLocation && p.defaultRangeKm == Some(s.draftRangeKm)
    ensures !IsDirty(WithProfile(s, p))
    ensures WithProfile(s, p).draftLocation == s.draftLocation && WithProfile(s, p).draftRangeKm == s.draftRangeKm
  {
  }
}
