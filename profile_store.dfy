/**
 * The profile screen's actions over the shared user-data store: each sends a
 * request and writes the server's answer into the store only when the response
 * is ok; a failure leaves the store as it was. Sport changes are reported to
 * the main view so that it reloads the matches.
 *
 * The responses are parameters (`Http.Response`); toasts and console output are
 * not part of this model.
 */
module ProfileStore {
  import opened Wrappers
  import opened JsValue
  import opened Dtos
  import opened Http
  import UserDataStore
  import MainView

  // ---------------------------------------------------------------------------
  // View models
  // ---------------------------------------------------------------------------

  /** `mapProfileDtoToViewModel`: a falsy `social_links` becomes `{}`, everything else is kept. */
  function MapProfileDtoToViewModel(dto: ProfileDto): (r: ProfileDto)
    ensures Truthy(r.socialLinks)
    ensures Truthy(dto.socialLinks) ==> r == dto
    ensures !Truthy(dto.socialLinks) ==> r.socialLinks == Obj(map[])
    ensures r.(socialLinks := dto.socialLinks) == dto
  {
    if Truthy(dto.socialLinks) then dto else dto.(socialLinks := Obj(map[]))
  }

  /** `UserSportViewModel` as this screen builds it. */
  datatype UserSportViewModel = UserSportViewModel(sportId: int, sportName: string, customRangeKm: Option<int>, params: Value)

  /** `mapUserSportDtoToViewModel`: `name` becomes `sport_name` and `parameters` becomes `params`. */
  function MapUserSportDtoToViewModel(dto: UserSportDto): (r: UserSportViewModel)
    ensures r.sportId == dto.sportId && r.sportName == dto.name
    ensures r.params == dto.parameters && r.customRangeKm == dto.customRangeKm
  {
    UserSportViewModel(dto.sportId, dto.name, dto.customRangeKm, dto.parameters)
  }

  /** `sports.map(mapUserSportDtoToViewModel)` */
  function MapUserSports(sports: seq<UserSportDto>): (r: seq<UserSportViewModel>)
    ensures |r| == |sports|
    ensures forall i :: 0 <= i < |sports| ==> r[i] == MapUserSportDtoToViewModel(sports[i])
  {
    if sports == [] then [] else [MapUserSportDtoToViewModel(sports[0])] + MapUserSports(sports[1..])
  }

  /** The sport a view model was built from. */
  function UserSportOfViewModel(vm: UserSportViewModel): UserSportDto {
    UserSportDto(vm.sportId, vm.sportName, vm.params, vm.customRangeKm)
  }

  // ---------------------------------------------------------------------------
  // Social links
  // ---------------------------------------------------------------------------

  /** The entries of `typeof links === "object" && links !== null ? links : {}`, once spread. */
  function CurrentLinks(links: Value): (r: map<string, Value>)
    ensures !IsObject(links) ==> r == map[]
    ensures links.Obj? ==> r == links.fields
  {
    if IsObject(links) then OwnEntries(links) else map[]
  }

  /** `{ ...currentLinks, [platform]: url }`, the payload of adding and of editing a link. */
  function LinksWith(links: Value, platform: string, url: string): (r: map<string, Value>)
    ensures platform in r && r[platform] == Str(url)
    ensures r.Keys == CurrentLinks(links).Keys + {platform}
    ensures forall k :: k in CurrentLinks(links) && k != platform ==> r[k] == CurrentLinks(links)[k]
  {
    CurrentLinks(links)[platform := Str(url)]
  }

  /**
   * `const { [platform]: _removed, ...remainingLinks } = links`: every own
   * entry except `platform`. Destructuring `null` or `undefined` throws a `TypeError`.
   */
  function LinksWithout(links: Value, platform: string): (r: Option<map<string, Value>>)
    ensures r.None? <==> links.Null? || links.Undefined?
    ensures r.Some? ==> r.value.Keys == OwnEntries(links).Keys - {platform}
    ensures r.Some? ==> forall k :: k in r.value ==> r.value[k] == OwnEntries(links)[k]
  {
    if links.Null? || links.Undefined? then None else Some(OwnEntries(links) - {platform})
  }

  /** `{ social_links: links }` */
  function SocialLinksBody(links: map<string, Value>): Value {
    Obj(map["social_links" := Obj(links)])
  }

  /** `{ display_name: newName }` */
  function DisplayNameBody(newName: string): Value {
    Obj(map["display_name" := Str(newName)])
  }

  // ---------------------------------------------------------------------------
  // Actions
  // ---------------------------------------------------------------------------

  /** Writes a returned profile into the store when the response is ok, and nothing otherwise. */
  method StoreProfileOnSuccess(store: UserDataStore.Store, response: Response<ProfileDto>)
    modifies store
    ensures response.Success? ==> store.State() == old(store.State()).(profile := Some(response.body))
    ensures !response.Success? ==> store.State() == old(store.State())
  {
    if response.Success? {
      store.SetProfile(response.body);
    }
  }

  /** `updateDisplayName(newName)`; `request` is the body sent, `None` when nothing is sent. */
  method UpdateDisplayName(store: UserDataStore.Store, newName: string, response: Response<ProfileDto>)
    returns (request: Option<Value>)
    modifies store
    ensures old(store.profile).None? ==> request.None? && store.State() == old(store.State())
    ensures old(store.profile).Some? ==> request == Some(DisplayNameBody(newName))
    ensures old(store.profile).Some? && response.Success? ==>
      store.State() == old(store.State()).(profile := Some(response.body))
    ensures !response.Success? ==> store.State() == old(store.State())
  {
    if store.profile.None? {
      return None;
    }
    request := Some(DisplayNameBody(newName));
    StoreProfileOnSuccess(store, response);
  }

  /** `addSocialLink(platform, url)` */
  method AddSocialLink(store: UserDataStore.Store, platform: string, url: string, response: Response<ProfileDto>)
    returns (request: Option<Value>)
    modifies store
    ensures old(store.profile).None? ==> request.None? && store.State() == old(store.State())
    ensures old(store.profile).Some? ==>
      request == Some(SocialLinksBody(LinksWith(old(store.profile).value.socialLinks, platform, url)))
    ensures old(store.profile).Some? && response.Success? ==>
      store.State() == old(store.State()).(profile := Some(response.body))
    ensures !response.Success? ==> store.State() == old(store.State())
  {
    if store.profile.None? {
      return None;
    }
    request := Some(SocialLinksBody(LinksWith(store.profile.value.socialLinks, platform, url)));
    StoreProfileOnSuccess(store, response);
  }

  /** `editSocialLink(platform, url)`: the same payload as adding, `platform` overwritten. */
  method EditSocialLink(store: UserDataStore.Store, platform: string, url: string, response: Response<ProfileDto>)
    returns (request: Option<Value>)
    modifies store
    ensures old(store.profile).None? ==> request.None? && store.State() == old(store.State())
    ensures old(store.profile).Some? ==>
      request == Some(SocialLinksBody(LinksWith(old(store.profile).value.socialLinks, platform, url)))
    ensures old(store.profile).Some? && response.Success? ==>
      store.State() == old(store.State()).(profile := Some(response.body))
    ensures !response.Success? ==> store.State() == old(store.State())
  {
    if store.profile.None? {
      return None;
    }
    request := Some(SocialLinksBody(LinksWith(store.profile.value.socialLinks, platform, url)));
    StoreProfileOnSuccess(store, response);
  }

  /** `deleteSocialLink(platform)`: no request when the destructuring throws. */
  method DeleteSocialLink(store: UserDataStore.Store, platform: string, response: Response<ProfileDto>)
    returns (request: Option<Value>)
    modifies store
    ensures old(store.profile).None? ==> request.None? && store.State() == old(store.State())
    ensures old(store.profile).Some? ==>
      var remaining := LinksWithout(old(store.profile).value.socialLinks, platform);
      (remaining.None? ==> request.None? && store.State() == old(store.State())) &&
      (remaining.Some? ==> request == Some(SocialLinksBody(remaining.value)))
    ensures request.Some? && response.Success? ==> store.State() == old(store.State()).(profile := Some(response.body))
    ensures !response.Success? ==> store.State() == old(store.State())
  {
    if store.profile.None? {
      return None;
    }
    var remaining := LinksWithout(store.profile.value.socialLinks, platform);
    if remaining.None? {
      return None;
    }
    request := Some(SocialLinksBody(remaining.value));
    StoreProfileOnSuccess(store, response);
  }

  /** `addSport(data)`; `notified` is what `onDataChange` receives, if anything. */
  method AddSport(store: UserDataStore.Store, response: Response<UserSportDto>)
    returns (notified: Option<MainView.ProfileDataUpdates>)
    modifies store
    ensures response.Success? ==>
      store.State() == old(store.State()).(sports := old(store.sports) + [response.body])
      && notified == Some(MainView.SportsChanged)
    ensures !response.Success? ==> store.State() == old(store.State()) && notified.None?
  {
    notified := None;
    if response.Success? {
      store.AddSport(response.body);
      notified := Some(MainView.SportsChanged);
    }
  }

  /** `editSport(sportId, data)`: the returned record is merged into every sport with that id. */
  method EditSport(store: UserDataStore.Store, sportId: int, response: Response<UserSportPatch>)
    returns (notified: Option<MainView.ProfileDataUpdates>)
    modifies store
    ensures response.Success? ==>
      store.State() == old(store.State()).(sports := UserDataStore.UpdateSportById(old(store.sports), sportId, response.body))
      && notified == Some(MainView.SportsChanged)
    ensures !response.Success? ==> store.State() == old(store.State()) && notified.None?
  {
    notified := None;
    if response.Success? {
      store.UpdateSport(sportId, response.body);
      notified := Some(MainView.SportsChanged);
    }
  }

  /** `deleteSport(sportId)`: the body of the response is not read. */
  method DeleteSport(store: UserDataStore.Store, sportId: int, response: Response<()>)
    returns (notified: Option<MainView.ProfileDataUpdates>)
    modifies store
    ensures response.Success? ==>
      store.State() == old(store.State()).(sports := UserDataStore.RemoveSportById(old(store.sports), sportId))
      && notified == Some(MainView.SportsChanged)
    ensures !response.Success? ==> store.State() == old(store.State()) && notified.None?
  {
    notified := None;
    if response.Success? {
      store.RemoveSport(sportId);
      notified := Some(MainView.SportsChanged);
    }
  }

  // ---------------------------------------------------------------------------
  // Properties
  // ---------------------------------------------------------------------------

  /** Mapping a profile twice is mapping it once. */
  lemma {:induction false} ProfileMappingIdempotent(dto: ProfileDto)
    ensures MapProfileDtoToViewModel(MapProfileDtoToViewModel(dto)) == MapProfileDtoToViewModel(dto)
  {
  }

  /** The sport mapper loses nothing: the sport can be rebuilt from its view model. */
  lemma {:induction false} SportMappingInvertible(dto: UserSportDto)
    ensures UserSportOfViewModel(MapUserSportDtoToViewModel(dto)) == dto
  {
  }

  /** Editing a link after adding it is adding it with the new address. */
  lemma {:induction false} EditAfterAdd(links: Value, platform: string, url1: string, url2: string)
    ensures LinksWith(Obj(LinksWith(links, platform, url1)), platform, url2) == LinksWith(links, platform, url2)
  {
  }

  /** Deleting a link drops it and keeps the rest: after adding, it gives back the other links. */
  lemma {:induction false} DeleteAfterAdd(links: Value, platform: string, url: string)
    ensures LinksWithout(Obj(LinksWith(links, platform, url)), platform) == Some(CurrentLinks(links) - {platform})
  {
    var added := LinksWith(links, platform, url);
    assert OwnEntries(Obj(added)) == added;
    assert added - {platform} == CurrentLinks(links) - {platform};
  }

  /** Links that are not an object (a string, a number, `null`) are replaced by the new link alone. */
  lemma {:induction false} NonObjectLinksReplaced(links: Value, platform: string, url: string)
    requires !IsObject(links)
    ensures LinksWith(links, platform, url) == map[platform := Str(url)]
  {
  }

  /** Deleting with a `null` or absent link map throws before any request; any other value gives a payload. */
  lemma {:induction false} DeleteOnNullThrows(platform: string)
    ensures LinksWithout(Null, platform).None? && LinksWithout(Undefined, platform).None?
    ensures LinksWithout(Obj(map[]), platform) == Some(map[])
  {
  }
}
