/**
 * The records exchanged between the API and the client: profiles, sports, a
 * user's sports, and the partial updates applied to them with object spread
 * (`{ ...record, ...updates }`), where a property present in the update wins.
 */
module Dtos {
  import opened Wrappers
  import opened JsValue

  /** A GeoJSON point; coordinates are compared for equality only. */
  datatype GeoPoint = Point(lon: real, lat: real)

  datatype ProfileDto = ProfileDto(
    id: string,
    username: string,
    displayName: Option<string>,
    defaultRangeKm: Option<int>,
    location: Option<GeoPoint>,
    socialLinks: Value,
    createdAt: string,
    updatedAt: string)

  /** `Partial<ProfileDto>`: `None` is a property the update does not carry. */
  datatype ProfilePatch = ProfilePatch(
    id: Option<string>,
    username: Option<string>,
    displayName: Option<Option<string>>,
    defaultRangeKm: Option<Option<int>>,
    location: Option<Option<GeoPoint>>,
    socialLinks: Option<Value>,
    createdAt: Option<string>,
    updatedAt: Option<string>)

  const NoProfileChanges := ProfilePatch(None, None, None, None, None, None, None, None)

  /** `{ ...profile, ...updates }` */
  function MergeProfile(p: ProfileDto, u: ProfilePatch): ProfileDto {
    ProfileDto(
      u.id.GetOr(p.id), u.username.GetOr(p.username), u.displayName.GetOr(p.displayName),
      u.defaultRangeKm.GetOr(p.defaultRangeKm), u.location.GetOr(p.location),
      u.socialLinks.GetOr(p.socialLinks), u.createdAt.GetOr(p.createdAt), u.updatedAt.GetOr(p.updatedAt))
  }

  /** `{ ...first, ...second }` on two updates. */
  function ThenProfile(first: ProfilePatch, second: ProfilePatch): ProfilePatch {
    ProfilePatch(
      Later(first.id, second.id), Later(first.username, second.username),
      Later(first.displayName, second.displayName), Later(first.defaultRangeKm, second.defaultRangeKm),
      Later(first.location, second.location), Later(first.socialLinks, second.socialLinks),
      Later(first.createdAt, second.createdAt), Later(first.updatedAt, second.updatedAt))
  }

  /** The property of the later update when it has one, otherwise the earlier's. */
  function Later<T>(first: Option<T>, second: Option<T>): (r: Option<T>)
    ensures second.Some? ==> r == second
    ensures second.None? ==> r == first
  {
    if second.Some? then second else first
  }

  /** Merging an empty update changes nothing. */
  lemma {:induction false} MergeNothing(p: ProfileDto)
    ensures MergeProfile(p, NoProfileChanges) == p
  {
  }

  /** Two merges in a row are one merge of the combined update. */
  lemma {:induction false} MergeProfileTwice(p: ProfileDto, u1: ProfilePatch, u2: ProfilePatch)
    ensures MergeProfile(MergeProfile(p, u1), u2) == MergeProfile(p, ThenProfile(u1, u2))
  {
  }

  /** Merging the same update twice is merging it once. */
  lemma {:induction false} MergeProfileIdempotent(p: ProfileDto, u: ProfilePatch)
    ensures MergeProfile(MergeProfile(p, u), u) == MergeProfile(p, u)
  {
  }

  /** A row of the `sports` table. */
  datatype SportDto = SportDto(id: int, name: string)

  /** A user's sport: its id, the sport's name, its parameters and its own range. */
  datatype UserSportDto = UserSportDto(sportId: int, name: string, parameters: Value, customRangeKm: Option<int>)

  /** `Partial<UserSportDto>` */
  datatype UserSportPatch = UserSportPatch(
    sportId: Option<int>,
    name: Option<string>,
    parameters: Option<Value>,
    customRangeKm: Option<Option<int>>)

  /** `{ ...sport, ...updates }` */
  function MergeUserSport(s: UserSportDto, u: UserSportPatch): UserSportDto {
    UserSportDto(u.sportId.GetOr(s.sportId), u.name.GetOr(s.name), u.parameters.GetOr(s.parameters),
                 u.customRangeKm.GetOr(s.customRangeKm))
  }

  /** The user's location and search range, as the store keeps it. */
  datatype UserLocation = UserLocation(lat: real, lng: real, range: real)
}
