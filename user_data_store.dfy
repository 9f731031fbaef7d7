/**
 * The client-side cache of the signed-in user's data: one shared state whose
 * fields each action overwrites, with list helpers for the user's sports.
 */
module UserDataStore {
  import opened Wrappers
  import opened Dtos

  // ---------------------------------------------------------------------------
  // List helpers
  // ---------------------------------------------------------------------------

  /** `sports.map(s => s.sport_id === id ? { ...s, ...updates } : s)` */
  function UpdateSportById(sports: seq<UserSportDto>, id: int, updates: UserSportPatch): (r: seq<UserSportDto>)
    ensures |r| == |sports|
    ensures forall i :: 0 <= i < |sports| && sports[i].sportId != id ==> r[i] == sports[i]
    ensures forall i :: 0 <= i < |sports| && sports[i].sportId == id ==> r[i] == MergeUserSport(sports[i], updates)
  {
    if sports == [] then []
    else
      [if sports[0].sportId == id then MergeUserSport(sports[0], updates) else sports[0]]
      + UpdateSportById(sports[1..], id, updates)
  }

  /** `sports.filter(s => s.sport_id !== id)` */
  function RemoveSportById(sports: seq<UserSportDto>, id: int): (r: seq<UserSportDto>)
    ensures |r| <= |sports|
    ensures forall i :: 0 <= i < |r| ==> r[i].sportId != id && r[i] in sports
  {
    if sports == [] then []
    else if sports[0].sportId == id then RemoveSportById(sports[1..], id)
    else [sports[0]] + RemoveSportById(sports[1..], id)
  }

  /** The number of elements with the given id. */
  function CountId(sports: seq<UserSportDto>, id: int): nat {
    if sports == [] then 0 else (if sports[0].sportId == id then 1 else 0) + CountId(sports[1..], id)
  }

  /** Removal drops exactly the matching elements: the length shrinks by their number. */
  lemma {:induction false} RemoveCount(sports: seq<UserSportDto>, id: int)
    ensures |RemoveSportById(sports, id)| == |sports| - CountId(sports, id)
  {
    if sports != [] {
      RemoveCount(sports[1..], id);
    }
  }

  /** Every element with another id survives removal. */
  lemma {:induction false} RemoveKeepsOthers(sports: seq<UserSportDto>, id: int, x: UserSportDto)
    requires x in sports && x.sportId != id
    ensures x in RemoveSportById(sports, id)
  {
    if sports[0] != x {
      RemoveKeepsOthers(sports[1..], id, x);
    }
  }

  /** Removal keeps the order of the rest: it distributes over concatenation. */
  lemma {:induction false} RemoveConcat(a: seq<UserSportDto>, b: seq<UserSportDto>, id: int)
    ensures RemoveSportById(a + b, id) == RemoveSportById(a, id) + RemoveSportById(b, id)
  {
    if a == [] {
      assert a + b == b;
    } else {
      assert (a + b)[0] == a[0];
      assert (a + b)[1..] == a[1..] + b;
      RemoveConcat(a[1..], b, id);
    }
  }

  /** Removing an id that is not there changes nothing. */
  lemma {:induction false} RemoveAbsent(sports: seq<UserSportDto>, id: int)
    requires forall i :: 0 <= i < |sports| ==> sports[i].sportId != id
    ensures RemoveSportById(sports, id) == sports
  {
    if sports != [] {
      RemoveAbsent(sports[1..], id);
    }
  }

  /** Updating an element and then removing its id is the same as removing it, when the update keeps the id. */
  lemma {:induction false} UpdateThenRemove(sports: seq<UserSportDto>, id: int, updates: UserSportPatch)
    requires updates.sportId.None? || updates.sportId == Some(id)
    ensures RemoveSportById(UpdateSportById(sports, id, updates), id) == RemoveSportById(sports, id)
  {
    if sports != [] {
      var u := UpdateSportById(sports, id, updates);
      assert u[1..] == UpdateSportById(sports[1..], id, updates);
      UpdateThenRemove(sports[1..], id, updates);
    }
  }

  // ---------------------------------------------------------------------------
  // The store
  // ---------------------------------------------------------------------------

  datatype StoreState = StoreState(
    profile: Option<ProfileDto>,
    sports: seq<UserSportDto>,
    availableSports: seq<SportDto>,
    location: Option<UserLocation>,
    isLoading: bool,
    error: Option<string>)

  /** `initialState`: no data, empty lists, not loading, no error. */
  const InitialState := StoreState(None, [], [], None, false, None)

  class Store {
    var profile: Option<ProfileDto>
    var sports: seq<UserSportDto>
    var availableSports: seq<SportDto>
    var location: Option<UserLocation>
    var isLoading: bool
    var error: Option<string>

    function State(): StoreState
      reads this
    {
      StoreState(profile, sports, availableSports, location, isLoading, error)
    }

    constructor()
      ensures State() == InitialState
    {
      profile, sports, availableSports, location, isLoading, error := None, [], [], None, false, None;
    }

    /** `initialize(data)`: the four data fields from `data`, loading off, no error. */
    method Initialize(p: Option<ProfileDto>, s: seq<UserSportDto>, available: seq<SportDto>, loc: Option<UserLocation>)
      modifies this
      ensures State() == StoreState(p, s, available, loc, false, None)
    {
      profile, sports, availableSports, location, isLoading, error := p, s, available, loc, false, None;
    }

    method SetProfile(p: ProfileDto)
      modifies this
      ensures State() == old(State()).(profile := Some(p))
    {
      profile := Some(p);
    }

    /** `updateProfile(updates)`: merged into a profile that is there; no profile stays no profile. */
    method UpdateProfile(updates: ProfilePatch)
      modifies this
      ensures old(profile).None? ==> State() == old(State())
      ensures old(profile).Some? ==> State() == old(State()).(profile := Some(MergeProfile(old(profile).value, updates)))
    {
      if profile.Some? {
        profile := Some(MergeProfile(profile.value, updates));
      }
    }

    /** `addSport(sport)`: appended at the end, with no check for a duplicate. */
    method AddSport(sport: UserSportDto)
      modifies this
      ensures State() == old(State()).(sports := old(sports) + [sport])
      ensures |sports| == |old(sports)| + 1 && sports[|sports| - 1] == sport
    {
      sports := sports + [sport];
    }

    method UpdateSport(sportId: int, updates: UserSportPatch)
      modifies this
      ensures State() == old(State()).(sports := UpdateSportById(old(sports), sportId, updates))
    {
      sports := UpdateSportById(sports, sportId, updates);
    }

    method RemoveSport(sportId: int)
      modifies this
      ensures State() == old(State()).(sports := RemoveSportById(old(sports), sportId))
    {
      sports := RemoveSportById(sports, sportId);
    }

    method SetSports(s: seq<UserSportDto>)
      modifies this
      ensures State() == old(State()).(sports := s)
    {
      sports := s;
    }

    method SetAvailableSports(s: seq<SportDto>)
      modifies this
      ensures State() == old(State()).(availableSports := s)
    {
      availableSports := s;
    }

    method SetLocation(loc: UserLocation)
      modifies this
      ensures State() == old(State()).(location := Some(loc))
    {
      location := Some(loc);
    }

    method SetLoading(loading: bool)
      modifies this
      ensures State() == old(State()).(isLoading := loading)
    {
      isLoading := loading;
    }

    method SetError(e: Option<string>)
      modifies this
      ensures State() == old(State()).(error := e)
    {
      error := e;
    }

    /** `reset()`: back to the initial state. */
    method Reset()
      modifies this
      ensures State() == InitialState
    {
      profile, sports, availableSports, location, isLoading, error := None, [], [], None, false, None;
    }
  }
}
