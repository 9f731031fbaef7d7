/**
 * The older profile screen that keeps its own copy of the data: the profile
 * (as a view model), the catalogue of sports, the user's sports and a loading
 * flag. Data is loaded once, in sequence, and every action changes the local
 * copy only after an ok response.
 *
 * The responses are parameters (`Http.Response`); console output is not part
 * of this model.
 */
module ProfileView {
  import opened Wrappers
  import opened JsValue
  import opened Dtos
  import opened Http
  import UserDataStore
  import ProfileStore

  /** `prev.map(sport => sport.sport_id === sportId ? updatedSport : sport)`: a wholesale replacement. */
  function ReplaceSportById(sports: seq<UserSportDto>, id: int, updated: UserSportDto): (r: seq<UserSportDto>)
    ensures |r| == |sports|
    ensures forall i :: 0 <= i < |sports| ==> r[i] == if sports[i].sportId == id then updated else sports[i]
  {
    if sports == [] then []
    else [if sports[0].sportId == id then updated else sports[0]] + ReplaceSportById(sports[1..], id, updated)
  }

  /** `{ ...links, [platform]: url }` on the view model's links, which are spread without a type check. */
  function SpreadLinksWith(links: Value, platform: string, url: string): (r: map<string, Value>)
    ensures platform in r && r[platform] == Str(url)
    ensures r.Keys == OwnEntries(links).Keys + {platform}
    ensures forall k :: k in OwnEntries(links) && k != platform ==> r[k] == OwnEntries(links)[k]
  {
    OwnEntries(links)[platform := Str(url)]
  }

  /** The screen's own state; a loaded profile always has truthy links, as the mapper makes them. */
  class ProfileScreen {
    var profile: Option<ProfileDto>
    var userSports: seq<UserSportDto>
    var allSports: seq<SportDto>
    var loading: bool

    predicate Valid()
      reads this
    {
      profile.Some? ==> Truthy(profile.value.socialLinks)
    }

    /** The first render: nothing loaded yet, and loading. */
    constructor()
      ensures Valid()
      ensures profile.None? && userSports == [] && allSports == [] && loading
    {
      profile, userSports, allSports, loading := None, [], [], true;
    }

    /**
     * `fetchData`: profile, then the catalogue, then the user's sports, each only
     * after the previous one succeeded; `loading` ends false whatever happened.
     */
    method FetchData(profileResponse: Response<ProfileDto>, sportsResponse: Response<seq<SportDto>>,
                     userSportsResponse: Response<seq<UserSportDto>>)
      returns (requests: nat)
      requires Valid()
      modifies this
      ensures Valid() && !loading
      ensures requests == if !profileResponse.Success? then 1 else if !sportsResponse.Success? then 2 else 3
      ensures profile == if profileResponse.Success? then Some(ProfileStore.MapProfileDtoToViewModel(profileResponse.body))
                         else old(profile)
      ensures allSports == if profileResponse.Success? && sportsResponse.Success? then sportsResponse.body
                           else old(allSports)
      ensures userSports == if profileResponse.Success? && sportsResponse.Success? && userSportsResponse.Success?
                            then userSportsResponse.body else old(userSports)
    {
      requests := 1;
      if profileResponse.Success? {
        profile := Some(ProfileStore.MapProfileDtoToViewModel(profileResponse.body));
        requests := 2;
        if sportsResponse.Success? {
          allSports := sportsResponse.body;
          requests := 3;
          if userSportsResponse.Success? {
            userSports := userSportsResponse.body;
          }
        }
      }
      loading := false;
    }

    /** Replaces the profile by the mapped server answer when the response is ok. */
    method ProfileOnSuccess(response: Response<ProfileDto>)
      requires Valid()
      modifies this
      ensures Valid()
      ensures response.Success? ==> profile == Some(ProfileStore.MapProfileDtoToViewModel(response.body))
      ensures !response.Success? ==> profile == old(profile)
      ensures userSports == old(userSports) && allSports == old(allSports) && loading == old(loading)
    {
      if response.Success? {
        profile := Some(ProfileStore.MapProfileDtoToViewModel(response.body));
      }
    }

    /** `updateDisplayName(newName)`; `request` is the body sent, `None` when nothing is sent. */
    method UpdateDisplayName(newName: string, response: Response<ProfileDto>) returns (request: Option<Value>)
      requires Valid()
      modifies this
      ensures Valid()
      ensures old(profile).None? ==> request.None? && profile == old(profile)
      ensures old(profile).Some? ==> request == Some(ProfileStore.DisplayNameBody(newName))
      ensures old(profile).Some? && response.Success? ==> profile == Some(ProfileStore.MapProfileDtoToViewModel(response.body))
      ensures !response.Success? ==> profile == old(profile)
      ensures userSports == old(userSports) && allSports == old(allSports) && loading == old(loading)
    {
      if profile.None? {
        return None;
      }
      request := Some(ProfileStore.DisplayNameBody(newName));
      ProfileOnSuccess(response);
    }

    /** `addSocialLink(platform, url)` and `editSocialLink(platform, url)` send the same payload. */
    method AddSocialLink(platform: string, url: string, response: Response<ProfileDto>) returns (request: Option<Value>)
      requires Valid()
      modifies this
      ensures Valid()
      ensures old(profile).None? ==> request.None? && profile == old(profile)
      ensures old(profile).Some? ==>
        request == Some(ProfileStore.SocialLinksBody(SpreadLinksWith(old(profile).value.socialLinks, platform, url)))
      ensures old(profile).Some? && response.Success? ==> profile == Some(ProfileStore.MapProfileDtoToViewModel(response.body))
      ensures !response.Success? ==> profile == old(profile)
      ensures userSports == old(userSports) && allSports == old(allSports) && loading == old(loading)
    {
      if profile.None? {
        return None;
      }
      request := Some(ProfileStore.SocialLinksBody(SpreadLinksWith(profile.value.socialLinks, platform, url)));
      ProfileOnSuccess(response);
    }

    method EditSocialLink(platform: string, url: string, response: Response<ProfileDto>) returns (request: Option<Value>)
      requires Valid()
      modifies this
      ensures Valid()
      ensures old(profile).None? ==> request.None? && profile == old(profile)
      ensures old(profile).Some? ==>
        request == Some(ProfileStore.SocialLinksBody(SpreadLinksWith(old(profile).value.socialLinks, platform, url)))
      ensures old(profile).Some? && response.Success? ==> profile == Some(ProfileStore.MapProfileDtoToViewModel(response.body))
      ensures !response.Success? ==> profile == old(profile)
      ensures userSports == old(userSports) && allSports == old(allSports) && loading == old(loading)
    {
      if profile.None? {
        return None;
      }
      request := Some(ProfileStore.SocialLinksBody(SpreadLinksWith(profile.value.socialLinks, platform, url)));
      ProfileOnSuccess(response);
    }

    /** `deleteSocialLink(platform)`: the view model's links are truthy, so the destructuring never throws. */
    method DeleteSocialLink(platform: string, response: Response<ProfileDto>) returns (request: Option<Value>)
      requires Valid()
      modifies this
      ensures Valid()
      ensures old(profile).None? ==> request.None? && profile == old(profile)
      ensures old(profile).Some? ==>
        request == Some(ProfileStore.SocialLinksBody(OwnEntries(old(profile).value.socialLinks) - {platform}))
      ensures old(profile).Some? && response.Success? ==> profile == Some(ProfileStore.MapProfileDtoToViewModel(response.body))
      ensures !response.Success? ==> profile == old(profile)
      ensures userSports == old(userSports) && allSports == old(allSports) && loading == old(loading)
    {
      if profile.None? {
        return None;
      }
      var remaining := ProfileStore.LinksWithout(profile.value.socialLinks, platform);
      request := Some(ProfileStore.SocialLinksBody(remaining.value));
      ProfileOnSuccess(response);
    }

    /** `addSport(data)`: the server's record is appended. */
    method AddSport(response: Response<UserSportDto>)
      requires Valid()
      modifies this
      ensures Valid()
      ensures userSports == if response.Success? then old(userSports) + [response.body] else old(userSports)
      ensures profile == old(profile) && allSports == old(allSports) && loading == old(loading)
    {
      if response.Success? {
        userSports := userSports + [response.body];
      }
    }

    /** `editSport(sportId, data)`: every sport with that id is replaced by the server's record. */
    method EditSport(sportId: int, response: Response<UserSportDto>)
      requires Valid()
      modifies this
      ensures Valid()
      ensures userSports == if response.Success? then ReplaceSportById(old(userSports), sportId, response.body)
                            else old(userSports)
      ensures profile == old(profile) && allSports == old(allSports) && loading == old(loading)
    {
      if response.Success? {
        userSports := ReplaceSportById(userSports, sportId, response.body);
      }
    }

    /** `deleteSport(sportId)`: every sport with that id is dropped. */
    method DeleteSport(sportId: int, response: Response<()>)
      requires Valid()
      modifies this
      ensures Valid()
      ensures userSports == if response.Success? then UserDataStore.RemoveSportById(old(userSports), sportId)
                            else old(userSports)
      ensures profile == old(profile) && allSports == old(allSports) && loading == old(loading)
    {
      if response.Success? {
        userSports := UserDataStore.RemoveSportById(userSports, sportId);
      }
    }
  }

  // ---------------------------------------------------------------------------
  // Properties
  // ---------------------------------------------------------------------------

  /** The complete update that a replacement amounts to. */
  function FullPatch(s: UserSportDto): UserSportPatch {
    UserSportPatch(Some(s.sportId), Some(s.name), Some(s.parameters), Some(s.customRangeKm))
  }

  /** Replacing by a whole record is the store's merge with a patch that sets every field. */
  lemma {:induction false} ReplaceIsFullMerge(sports: seq<UserSportDto>, id: int, updated: UserSportDto)
    ensures ReplaceSportById(sports, id, updated) == UserDataStore.UpdateSportById(sports, id, FullPatch(updated))
  {
    var a, b := ReplaceSportById(sports, id, updated), UserDataStore.UpdateSportById(sports, id, FullPatch(updated));
    forall i | 0 <= i < |sports| ensures a[i] == b[i] {
      if sports[i].sportId == id {
        assert MergeUserSport(sports[i], FullPatch(updated)) == updated;
      }
    }
  }

  /** Replacing with a record that keeps the id and then deleting that id is deleting it. */
  lemma {:induction false} ReplaceThenDelete(sports: seq<UserSportDto>, id: int, updated: UserSportDto)
    requires updated.sportId == id
    ensures UserDataStore.RemoveSportById(ReplaceSportById(sports, id, updated), id) == UserDataStore.RemoveSportById(sports, id)
  {
    ReplaceIsFullMerge(sports, id, updated);
    UserDataStore.UpdateThenRemove(sports, id, FullPatch(updated));
  }

  /** Replacing twice with the same record is replacing once, when the record keeps the id. */
  lemma {:induction false} ReplaceIdempotent(sports: seq<UserSportDto>, id: int, updated: UserSportDto)
    requires updated.sportId == id
    ensures ReplaceSportById(ReplaceSportById(sports, id, updated), id, updated) == ReplaceSportById(sports, id, updated)
  {
    var once := ReplaceSportById(sports, id, updated);
    var twice := ReplaceSportById(once, id, updated);
    forall i | 0 <= i < |sports| ensures twice[i] == once[i] {
    }
  }

  /** For a link map that is a plain object, this screen and the store-backed one send the same payload. */
  lemma {:induction false} SameLinksAsStore(links: Value, platform: string, url: string)
    requires links.Obj?
    ensures SpreadLinksWith(links, platform, url) == ProfileStore.LinksWith(links, platform, url)
  {
  }
}
