/**
 * The request schema of "update my profile": a strict object with four optional
 * fields (display name, GeoJSON location, default range, social links). Every
 * field check runs and all issues are reported together, under the field they
 * concern; properties outside the four are rejected with one issue at the root.
 */
module ProfileUpdate {
  import opened Wrappers
  import opened Text
  import opened JsValue
  import opened Validation
  import opened Dtos

  // ---------------------------------------------------------------------------
  // What is accepted, stated directly
  // ---------------------------------------------------------------------------

  const DisplayNameMin := 3
  const DisplayNameMax := 50
  const RangeMin := 1
  const RangeMax := 100

  /** A display name of 3 to 50 characters, or absent. */
  predicate ValidDisplayName(v: Value) {
    v.Undefined? || (v.Str? && DisplayNameMin <= |v.s| <= DisplayNameMax)
  }

  /** A number from `-bound` to `bound`. */
  predicate InBounds(v: Value, bound: real) {
    v.Num? && -bound <= v.n <= bound
  }

  /** Exactly two numbers: a longitude within 180 degrees and a latitude within 90. */
  predicate ValidCoordinates(v: Value) {
    v.Arr? && |v.items| == 2 && InBounds(v.items[0], 180.0) && InBounds(v.items[1], 90.0)
  }

  /** A GeoJSON point, or absent; `null` is not a location. */
  predicate ValidLocation(v: Value) {
    v.Undefined? || (IsRecord(v) && Get(v, "type") == Str("Point") && ValidCoordinates(Get(v, "coordinates")))
  }

  /** A whole number of kilometres from 1 to 100, or absent. */
  predicate ValidRange(v: Value) {
    v.Undefined? || (IsInteger(v) && RangeMin as real <= v.n <= RangeMax as real)
  }

  /** A string that is a URL. */
  predicate IsLinkValue(v: Value, isUrl: string -> bool) {
    v.Str? && isUrl(v.s)
  }

  /** An object whose every property is a URL string, or absent. */
  predicate ValidSocialLinks(v: Value, isUrl: string -> bool) {
    v.Undefined? || (IsRecord(v) && forall k :: k in OwnEntries(v) ==> IsLinkValue(OwnEntries(v)[k], isUrl))
  }

  const KnownKeys: set<string> := {"display_name", "location", "default_range_km", "social_links"}

  /** The properties of the body outside the four of the schema. */
  function UnknownKeys(body: Value): (r: set<string>)
    ensures forall k :: k in r <==> k in OwnEntries(body) && k !in KnownKeys
  {
    set k | k in OwnEntries(body) && k !in KnownKeys
  }

  /** A body the schema accepts. */
  predicate Accepted(body: Value, isUrl: string -> bool) {
    IsRecord(body)
    && ValidDisplayName(Field(body, "display_name"))
    && ValidLocation(Field(body, "location"))
    && ValidRange(Field(body, "default_range_km"))
    && ValidSocialLinks(Field(body, "social_links"), isUrl)
    && UnknownKeys(body) == {}
  }

  // ---------------------------------------------------------------------------
  // Field schemas
  // ---------------------------------------------------------------------------

  /** `z.string().min(3, …).max(50, …).optional()`: both length checks run. */
  function ParseDisplayName(v: Value): (r: Parsed<Option<string>>)
    ensures r.Ok? <==> ValidDisplayName(v)
    ensures r == Ok(None) <==> v.Undefined?
    ensures r.Ok? && r.value.Some? ==> v == Str(r.value.value)
    ensures r.Err? ==> r.error != []
  {
    match v
    case Undefined => Ok(None)
    case Str(s) =>
      var issues := (if |s| < DisplayNameMin then Fail("Display name must be at least 3 characters long") else [])
        + (if |s| > DisplayNameMax then Fail("Display name cannot exceed 50 characters") else []);
      if issues == [] then Ok(Some(s)) else Err(issues)
    case _ => Err(TypeIssue("string"))
  }

  /** `z.number().min(-bound).max(bound)` */
  function ParseBounded(v: Value, bound: real, lowText: string, highText: string): (r: Parsed<real>)
    ensures r.Ok? <==> InBounds(v, bound)
    ensures r.Ok? ==> v == Num(r.value)
    ensures r.Err? ==> r.error != []
  {
    match v
    case Undefined => Err(Required)
    case Num(n) =>
      var issues := (if n < -bound then Fail("Number must be greater than or equal to " + lowText) else [])
        + (if n > bound then Fail("Number must be less than or equal to " + highText) else []);
      if issues == [] then Ok(n) else Err(issues)
    case _ => Err(TypeIssue("number"))
  }

  function ParseLongitude(v: Value): (r: Parsed<real>)
    ensures r.Ok? <==> InBounds(v, 180.0)
    ensures r.Ok? ==> v == Num(r.value)
    ensures r.Err? ==> r.error != []
  {
    ParseBounded(v, 180.0, "-180", "180")
  }

  function ParseLatitude(v: Value): (r: Parsed<real>)
    ensures r.Ok? <==> InBounds(v, 90.0)
    ensures r.Ok? ==> v == Num(r.value)
    ensures r.Err? ==> r.error != []
  {
    ParseBounded(v, 90.0, "-90", "90")
  }

  /**
   * `z.tuple([longitude, latitude])`: fewer than two elements stop the check
   * with one issue; more than two add one issue and the first two are still
   * checked, their issues under the indexes "0" and "1".
   */
  function ParseCoordinates(v: Value): (r: Parsed<GeoPoint>)
    ensures r.Ok? <==> ValidCoordinates(v)
    ensures r.Ok? ==> v == Arr([Num(r.value.lon), Num(r.value.lat)])
    ensures v.Arr? && |v.items| < 2 ==> r == Err(Fail("Array must contain at least 2 element(s)"))
    ensures v.Arr? && |v.items| > 2 ==> r.Err? && |r.error| > 0 && r.error[0] == Issue([], "Array must contain at most 2 element(s)")
    ensures r.Err? ==> r.error != []
  {
    match v
    case Undefined => Err(Required)
    case Arr(items) =>
      if |items| < 2 then Err(Fail("Array must contain at least 2 element(s)"))
      else
        var lon := ParseLongitude(items[0]);
        var lat := ParseLatitude(items[1]);
        var issues := (if |items| > 2 then Fail("Array must contain at most 2 element(s)") else [])
          + Under(IndexKey(0), IssuesOf(lon)) + Under(IndexKey(1), IssuesOf(lat));
        if issues == [] then Ok(Point(lon.value, lat.value)) else Err(issues)
    case _ => Err(TypeIssue("array"))
  }

  /** `z.literal("Point")`: anything else, absence included, is one issue. */
  function LiteralPointIssues(v: Value): (r: seq<Issue>)
    ensures r == [] <==> v == Str("Point")
  {
    if v == Str("Point") then [] else Fail("Invalid literal value, expected \"Point\"")
  }

  /** The location object; `null` is a type issue, since only absence is optional. */
  function ParseLocation(v: Value): (r: Parsed<Option<GeoPoint>>)
    ensures r.Ok? <==> ValidLocation(v)
    ensures r == Ok(None) <==> v.Undefined?
    ensures r.Ok? && r.value.Some? ==>
      IsRecord(v) && Get(v, "coordinates") == Arr([Num(r.value.value.lon), Num(r.value.value.lat)])
    ensures r.Err? ==> r.error != []
  {
    if v.Undefined? then Ok(None)
    else if !IsRecord(v) then Err(TypeIssue("object"))
    else
      var coordinates := ParseCoordinates(Get(v, "coordinates"));
      var issues := Under("type", LiteralPointIssues(Get(v, "type"))) + Under("coordinates", IssuesOf(coordinates));
      if issues == [] then Ok(Some(coordinates.value)) else Err(issues)
  }

  /** `.int(…).min(1, …).max(100, …)`: all three checks run, in order. */
  function ParseRange(v: Value): (r: Parsed<Option<int>>)
    ensures r.Ok? <==> ValidRange(v)
    ensures r == Ok(None) <==> v.Undefined?
    ensures r.Ok? && r.value.Some? ==> v == Num(r.value.value as real) && RangeMin <= r.value.value <= RangeMax
    ensures r.Err? ==> r.error != []
  {
    match v
    case Undefined => Ok(None)
    case Num(n) =>
      var issues := (if n == n.Floor as real then [] else Fail("Range must be a whole number"))
        + (if n < RangeMin as real then Fail("Range must be at least 1 km") else [])
        + (if n > RangeMax as real then Fail("Range cannot exceed 100 km") else []);
      if issues == [] then Ok(Some(n.Floor)) else Err(issues)
    case _ => Err(TypeIssue("number"))
  }

  const InvalidLinkMessage := "Invalid URL format for social link"

  /** The value schema of the links record: a string, and a URL. */
  function LinkIssues(v: Value, isUrl: string -> bool): (r: seq<Issue>)
    ensures r == [] <==> IsLinkValue(v, isUrl)
  {
    match v
    case Undefined => Required
    case Str(s) => if isUrl(s) then [] else Fail(InvalidLinkMessage)
    case _ => TypeIssue("string")
  }

  /** The issues of the listed properties, each under its key, in the order listed. */
  function LinksIssues(keys: seq<string>, entries: map<string, Value>, isUrl: string -> bool): (r: seq<Issue>)
    requires forall i :: 0 <= i < |keys| ==> keys[i] in entries
    ensures r == [] <==> forall i :: 0 <= i < |keys| ==> IsLinkValue(entries[keys[i]], isUrl)
  {
    if keys == [] then []
    else Under(keys[0], LinkIssues(entries[keys[0]], isUrl)) + LinksIssues(keys[1..], entries, isUrl)
  }

  /** Checking the keys one by one checks every property when the keys are exactly the properties. */
  lemma {:induction false} AllKeysChecked(keys: seq<string>, entries: map<string, Value>, isUrl: string -> bool)
    requires forall k :: k in keys <==> k in entries
    ensures (forall i :: 0 <= i < |keys| ==> IsLinkValue(entries[keys[i]], isUrl))
      <==> (forall k :: k in entries ==> IsLinkValue(entries[k], isUrl))
  {
    if forall i :: 0 <= i < |keys| ==> IsLinkValue(entries[keys[i]], isUrl) {
      forall k | k in entries ensures IsLinkValue(entries[k], isUrl) {
        var i :| 0 <= i < |keys| && keys[i] == k;
      }
    }
  }

  /** The URL of each property. */
  function LinkUrls(entries: map<string, Value>): (r: map<string, string>)
    requires forall k :: k in entries ==> entries[k].Str?
    ensures r.Keys == entries.Keys
    ensures forall k :: k in r ==> entries[k] == Str(r[k])
  {
    map k | k in entries :: entries[k].s
  }

  /**
   * `z.record(z.string(), z.string().url(…)).optional()`. The schema library
   * reports the properties in the object's order; the model, which keeps no
   * property order, reports them in ascending key order.
   */
  function ParseSocialLinks(v: Value, isUrl: string -> bool): (r: Parsed<Option<map<string, string>>>)
    ensures r.Ok? <==> ValidSocialLinks(v, isUrl)
    ensures r == Ok(None) <==> v.Undefined?
    ensures r.Ok? && r.value.Some? ==>
      r.value.value.Keys == OwnEntries(v).Keys
      && forall k :: k in r.value.value ==> OwnEntries(v)[k] == Str(r.value.value[k]) && isUrl(r.value.value[k])
    ensures r.Ok? && r.value.Some? ==> r.value.value == LinkUrls(OwnEntries(v))
    ensures r.Err? ==> r.error != []
  {
    if v.Undefined? then Ok(None)
    else if !IsRecord(v) then Err(TypeIssue("object"))
    else
      var entries := OwnEntries(v);
      var keys := SortedKeys(entries.Keys);
      var issues := LinksIssues(keys, entries, isUrl);
      AllKeysChecked(keys, entries, isUrl);
      if issues == [] then Ok(Some(LinkUrls(entries))) else Err(issues)
  }

  // ---------------------------------------------------------------------------
  // The update
  // ---------------------------------------------------------------------------

  datatype UpdateProfile = UpdateProfile(
    displayName: Option<string>,
    location: Option<GeoPoint>,
    defaultRangeKm: Option<int>,
    socialLinks: Option<map<string, string>>)

  /** `'a', 'b'`: the keys, each quoted, separated by commas. */
  function QuotedKeys(keys: seq<string>): (r: string)
    ensures keys == [] <==> r == []
  {
    if keys == [] then ""
    else if |keys| == 1 then "'" + keys[0] + "'"
    else "'" + keys[0] + "', " + QuotedKeys(keys[1..])
  }

  /** The root issue of a strict object with extra properties, listed in ascending order. */
  function UnknownKeysIssues(body: Value): (r: seq<Issue>)
    ensures r == [] <==> UnknownKeys(body) == {}
    ensures r != [] ==> r == [Issue([], "Unrecognized key(s) in object: " + QuotedKeys(SortedKeys(UnknownKeys(body))))]
  {
    if UnknownKeys(body) == {} then []
    else Fail("Unrecognized key(s) in object: " + QuotedKeys(SortedKeys(UnknownKeys(body))))
  }

  /**
   * `UpdateProfileDtoSchema`: the four field schemas, their issues under the
   * field names in declaration order, then the issue of the extra properties.
   */
  function ParseProfileUpdate(body: Value, isUrl: string -> bool): (r: Parsed<UpdateProfile>)
    ensures r.Ok? <==> Accepted(body, isUrl)
    ensures r.Err? ==> r.error != []
    ensures IsRecord(body) && r.Err? ==> (r.error ==
      Under("display_name", IssuesOf(ParseDisplayName(Field(body, "display_name"))))
      + Under("location", IssuesOf(ParseLocation(Field(body, "location"))))
      + Under("default_range_km", IssuesOf(ParseRange(Field(body, "default_range_km"))))
      + Under("social_links", IssuesOf(ParseSocialLinks(Field(body, "social_links"), isUrl)))
      + UnknownKeysIssues(body))
  {
    if !IsRecord(body) then Err(TypeIssue("object"))
    else
      var name := ParseDisplayName(Field(body, "display_name"));
      var location := ParseLocation(Field(body, "location"));
      var range := ParseRange(Field(body, "default_range_km"));
      var links := ParseSocialLinks(Field(body, "social_links"), isUrl);
      var issues := Under("display_name", IssuesOf(name)) + Under("location", IssuesOf(location))
        + Under("default_range_km", IssuesOf(range)) + Under("social_links", IssuesOf(links))
        + UnknownKeysIssues(body);
      if issues == [] then Ok(UpdateProfile(name.value, location.value, range.value, links.value))
      else Err(issues)
  }

  /** `validateProfileUpdate`: the parsed update, or the `ZodError` that `parse` throws. */
  function ValidateProfileUpdate(data: Value, isUrl: string -> bool): (r: Result<UpdateProfile, Value>)
    ensures r.Ok? <==> Accepted(data, isUrl)
    ensures r.Err? ==> (r.error.ErrorObj? && r.error.name == "ZodError"
      && "issues" in r.error.props && r.error.props["issues"].Arr? && r.error.props["issues"].items != [])
  {
    match ParseProfileUpdate(data, isUrl)
    case Ok(u) => Ok(u)
    case Err(issues) => Err(ZodError(issues))
  }

  // ---------------------------------------------------------------------------
  // The body of a valid update, and its round trip
  // ---------------------------------------------------------------------------

  /** An update whose every present field is within the schema's bounds. */
  predicate ValidUpdate(u: UpdateProfile, isUrl: string -> bool) {
    (u.displayName.Some? ==> DisplayNameMin <= |u.displayName.value| <= DisplayNameMax)
    && (u.location.Some? ==> -180.0 <= u.location.value.lon <= 180.0 && -90.0 <= u.location.value.lat <= 90.0)
    && (u.defaultRangeKm.Some? ==> RangeMin <= u.defaultRangeKm.value <= RangeMax)
    && (u.socialLinks.Some? ==> forall k :: k in u.socialLinks.value ==> isUrl(u.socialLinks.value[k]))
  }

  function LocationValue(p: GeoPoint): Value {
    Obj(map["type" := Str("Point"), "coordinates" := Arr([Num(p.lon), Num(p.lat)])])
  }

  function LinksValue(links: map<string, string>): Value {
    Obj(map k | k in links :: Str(links[k]))
  }

  /** A field of the body: present exactly when the update carries it. */
  function Optional<T>(fields: map<string, Value>, key: string, x: Option<T>, f: T -> Value): map<string, Value> {
    if x.Some? then fields[key := f(x.value)] else fields
  }

  /** The JSON body a client sends for an update, with only the fields it carries. */
  function UpdateBody(u: UpdateProfile): (r: Value)
    ensures r.Obj? && r.fields.Keys <= KnownKeys
  {
    var fields := Optional(map[], "display_name", u.displayName, s => Str(s));
    var fields := Optional(fields, "location", u.location, LocationValue);
    var fields := Optional(fields, "default_range_km", u.defaultRangeKm, (n: int) => Num(n as real));
    Obj(Optional(fields, "social_links", u.socialLinks, LinksValue))
  }

  lemma {:induction false} UpdateBodyFields(u: UpdateProfile)
    ensures Field(UpdateBody(u), "display_name") == (if u.displayName.Some? then Str(u.displayName.value) else Undefined)
    ensures Field(UpdateBody(u), "location") == (if u.location.Some? then LocationValue(u.location.value) else Undefined)
    ensures Field(UpdateBody(u), "default_range_km") ==
      (if u.defaultRangeKm.Some? then Num(u.defaultRangeKm.value as real) else Undefined)
    ensures Field(UpdateBody(u), "social_links") == (if u.socialLinks.Some? then LinksValue(u.socialLinks.value) else Undefined)
  {
  }

  lemma {:induction false} LocationRoundTrip(p: GeoPoint)
    requires -180.0 <= p.lon <= 180.0 && -90.0 <= p.lat <= 90.0
    ensures ParseLocation(LocationValue(p)) == Ok(Some(p))
  {
    var coordinates := Arr([Num(p.lon), Num(p.lat)]);
    assert Get(LocationValue(p), "coordinates") == coordinates;
    assert Get(LocationValue(p), "type") == Str("Point");
    assert ParseCoordinates(coordinates) == Ok(p);
  }

  lemma {:induction false} LinksRoundTrip(links: map<string, string>, isUrl: string -> bool)
    requires forall k :: k in links ==> isUrl(links[k])
    ensures ParseSocialLinks(LinksValue(links), isUrl) == Ok(Some(links))
  {
    var v := LinksValue(links);
    var fields := map k | k in links :: Str(links[k]);
    assert OwnEntries(v) == fields;
    assert forall k :: k in fields ==> IsLinkValue(fields[k], isUrl);
    assert ValidSocialLinks(v, isUrl);
    var urls := LinkUrls(fields);
    assert urls.Keys == links.Keys;
    assert forall k :: k in urls ==> urls[k] == links[k] by {
      forall k | k in urls ensures urls[k] == links[k] {
        assert fields[k] == Str(urls[k]);
      }
    }
    assert urls == links;
  }

  lemma {:induction false} RangeRoundTrip(n: int)
    requires RangeMin <= n <= RangeMax
    ensures ParseRange(Num(n as real)) == Ok(Some(n))
  {
    assert (n as real).Floor == n;
  }

  lemma {:induction false} FieldsRoundTrip(u: UpdateProfile, isUrl: string -> bool)
    requires ValidUpdate(u, isUrl)
    ensures ParseDisplayName(Field(UpdateBody(u), "display_name")) == Ok(u.displayName)
    ensures ParseLocation(Field(UpdateBody(u), "location")) == Ok(u.location)
    ensures ParseRange(Field(UpdateBody(u), "default_range_km")) == Ok(u.defaultRangeKm)
    ensures ParseSocialLinks(Field(UpdateBody(u), "social_links"), isUrl) == Ok(u.socialLinks)
  {
    UpdateBodyFields(u);
    if u.location.Some? { LocationRoundTrip(u.location.value); }
    if u.socialLinks.Some? { LinksRoundTrip(u.socialLinks.value, isUrl); }
    if u.defaultRangeKm.Some? { RangeRoundTrip(u.defaultRangeKm.value); }
  }

  /** A valid update survives being sent: its body parses back to it. */
  lemma {:induction false} UpdateRoundTrip(u: UpdateProfile, isUrl: string -> bool)
    requires ValidUpdate(u, isUrl)
    ensures ParseProfileUpdate(UpdateBody(u), isUrl) == Ok(u)
  {
    var body := UpdateBody(u);
    FieldsRoundTrip(u, isUrl);
    assert UnknownKeys(body) == {};
    assert UnknownKeysIssues(body) == [];
    NothingUnder("display_name");
    NothingUnder("location");
    NothingUnder("default_range_km");
    NothingUnder("social_links");
    var none: seq<Issue> := [];
    assert none + none + none + none + none == none;
  }

  // ---------------------------------------------------------------------------
  // Properties and examples
  // ---------------------------------------------------------------------------

  lemma {:induction false} NothingUnder(key: string)
    ensures Under(key, []) == []
  {
  }

  /** A body without any of the four fields fails on its extra properties only. */
  lemma {:induction false} WithoutSchemaFields(fields: map<string, Value>, isUrl: string -> bool)
    requires forall k :: k in KnownKeys ==> k !in fields
    ensures ParseProfileUpdate(Obj(fields), isUrl) ==
      (if UnknownKeys(Obj(fields)) == {} then Ok(UpdateProfile(None, None, None, None)) else Err(UnknownKeysIssues(Obj(fields))))
  {
    var body := Obj(fields);
    assert Field(body, "display_name") == Undefined && Field(body, "location") == Undefined;
    assert Field(body, "default_range_km") == Undefined && Field(body, "social_links") == Undefined;
    NothingUnder("display_name");
    NothingUnder("location");
    NothingUnder("default_range_km");
    NothingUnder("social_links");
    var root := UnknownKeysIssues(body);
    assert [] + [] + [] + [] + root == root;
  }

  /** Every field is optional: the empty body is the empty update. */
  lemma {:induction false} EmptyBodyAccepted(isUrl: string -> bool)
    ensures ParseProfileUpdate(Obj(map[]), isUrl) == Ok(UpdateProfile(None, None, None, None))
  {
    WithoutSchemaFields(map[], isUrl);
    assert UnknownKeys(Obj(map[])) == {};
  }

  /** One extra property makes the body fail with one root issue naming it, after the field issues. */
  lemma {:induction false} ExtraPropertyRejected(fields: map<string, Value>, key: string, isUrl: string -> bool)
    requires key !in KnownKeys && key in fields
    ensures ParseProfileUpdate(Obj(fields), isUrl).Err?
    ensures UnknownKeysIssues(Obj(fields)) != [] && ParseProfileUpdate(Obj(fields), isUrl).error[|ParseProfileUpdate(Obj(fields), isUrl).error| - 1] == UnknownKeysIssues(Obj(fields))[0]
  {
    assert key in UnknownKeys(Obj(fields));
  }

  lemma {:induction false} QuotedKeyExample()
    ensures QuotedKeys(["age", "role"]) == "'age', 'role'"
  {
    assert ["age", "role"][1..] == ["role"];
  }

  /** `{ "role": "admin" }` fails with "Unrecognized key(s) in object: 'role'". */
  lemma {:induction false} RoleRejected(isUrl: string -> bool)
    ensures ParseProfileUpdate(Obj(map["role" := Str("admin")]), isUrl) == Err([Issue([], "Unrecognized key(s) in object: 'role'")])
  {
    RoleIssue();
    WithoutSchemaFields(map["role" := Str("admin")], isUrl);
  }

  lemma {:induction false} SortedSingleton(k: string)
    ensures SortedKeys({k}) == [k]
  {
    var r := SortedKeys({k});
    assert |r| == 1 && r[0] in r;
  }

  lemma {:induction false} RoleIssue()
    ensures UnknownKeysIssues(Obj(map["role" := Str("admin")])) == [Issue([], "Unrecognized key(s) in object: 'role'")]
  {
    var body := Obj(map["role" := Str("admin")]);
    assert UnknownKeys(body) == {"role"};
    SortedSingleton("role");
    assert QuotedKeys(["role"]) == "'" + "role" + "'";
    assert "Unrecognized key(s) in object: " + ("'" + "role" + "'") == "Unrecognized key(s) in object: 'role'";
  }

  /** A `null` location is rejected: only an absent one is optional. */
  lemma {:induction false} NullLocationRejected(isUrl: string -> bool)
    ensures ParseProfileUpdate(Obj(map["location" := Null]), isUrl) == Err([Issue(["location"], "Expected object")])
  {
    var body := Obj(map["location" := Null]);
    NullLocationFields();
    NothingUnder("display_name");
    NothingUnder("default_range_km");
    NothingUnder("social_links");
    var located := [Issue(["location"], "Expected object")];
    assert [] + located + [] + [] + [] == located;
  }

  lemma {:induction false} NullLocationFields()
    ensures UnknownKeysIssues(Obj(map["location" := Null])) == []
    ensures Field(Obj(map["location" := Null]), "display_name") == Undefined
    ensures Field(Obj(map["location" := Null]), "default_range_km") == Undefined
    ensures Field(Obj(map["location" := Null]), "social_links") == Undefined
    ensures Under("location", IssuesOf(ParseLocation(Field(Obj(map["location" := Null]), "location")))) == [Issue(["location"], "Expected object")]
  {
    var body := Obj(map["location" := Null]);
    assert UnknownKeys(body) == {};
    assert Field(body, "location") == Null;
    assert "Expected " + "object" == "Expected object";
    assert ["location"] + [] == ["location"];
    UnderOne("location", Issue([], "Expected object"));
  }

  /** A display name of 2, 3, 50 and 51 characters. */
  lemma {:induction false} DisplayNameBounds(s: string)
    ensures ValidDisplayName(Str(s)) <==> 3 <= |s| <= 50
    ensures |s| == 2 ==> ParseDisplayName(Str(s)) == Err(Fail("Display name must be at least 3 characters long"))
    ensures |s| == 51 ==> ParseDisplayName(Str(s)) == Err(Fail("Display name cannot exceed 50 characters"))
  {
    var low: seq<Issue> := Fail("Display name must be at least 3 characters long");
    var high: seq<Issue> := Fail("Display name cannot exceed 50 characters");
    assert low + [] == low;
    assert [] + high == high;
  }

  /** 1 and 100 are the range bounds; 0, 101 and 1.5 fall outside; 0.5 fails two checks. */
  lemma {:induction false} RangeBounds()
    ensures ValidRange(Num(1.0)) && ValidRange(Num(100.0))
    ensures !ValidRange(Num(0.0)) && !ValidRange(Num(101.0)) && !ValidRange(Num(1.5)) && !ValidRange(Null)
    ensures ParseRange(Num(0.5)) == Err(Fail("Range must be a whole number") + Fail("Range must be at least 1 km"))
  {
    assert (1.5).Floor == 1;
    assert (0.5).Floor == 0;
    var issues: seq<Issue> := Fail("Range must be a whole number") + Fail("Range must be at least 1 km");
    assert issues + [] == issues;
  }

  /** The corners of the coordinate box are accepted; one step past a side is not. */
  lemma {:induction false} CoordinateBounds()
    ensures ValidCoordinates(Arr([Num(-180.0), Num(-90.0)])) && ValidCoordinates(Arr([Num(180.0), Num(90.0)]))
    ensures !ValidCoordinates(Arr([Num(180.5), Num(0.0)])) && !ValidCoordinates(Arr([Num(0.0), Num(-90.5)]))
    ensures !ValidCoordinates(Arr([Num(0.0)])) && !ValidCoordinates(Arr([Num(0.0), Num(0.0), Num(0.0)]))
  {
  }

  lemma {:induction false} LatitudeTooHigh()
    ensures ParseCoordinates(Arr([Num(0.0), Num(91.0)])) == Err(Under(IndexKey(1), Fail("Number must be less than or equal to 90")))
  {
    assert "Number must be less than or equal to " + "90" == "Number must be less than or equal to 90";
    var high := Fail("Number must be less than or equal to 90");
    assert ParseLatitude(Num(91.0)) == Err(high) by { assert [] + high == high; }
    assert ParseLongitude(Num(0.0)) == Ok(0.0);
    var items := [Num(0.0), Num(91.0)];
    assert items[0] == Num(0.0) && items[1] == Num(91.0);
    NothingUnder(IndexKey(0));
    var underOne := Under(IndexKey(1), high);
    assert [] + [] + underOne == underOne;
  }

  lemma {:induction false} UnderOne(key: string, i: Issue)
    ensures Under(key, [i]) == [Issue([key] + i.path, i.message)]
  {
  }

  /** A latitude out of range is reported under `location.coordinates.1`. */
  lemma {:induction false} LatitudeIssuePath()
    ensures ParseLocation(LocationValue(Point(0.0, 91.0))) == Err([Issue(["coordinates", "1"], "Number must be less than or equal to 90")])
  {
    var v := LocationValue(Point(0.0, 91.0));
    assert Get(v, "coordinates") == Arr([Num(0.0), Num(91.0)]);
    assert Get(v, "type") == Str("Point");
    LatitudeTooHigh();
    var message := "Number must be less than or equal to 90";
    assert IndexKey(1) == "1";
    UnderOne("1", Issue([], message));
    assert ["1"] + [] == ["1"];
    assert ParseCoordinates(Get(v, "coordinates")) == Err([Issue(["1"], message)]);
    assert ["coordinates"] + ["1"] == ["coordinates", "1"];
    UnderOne("coordinates", Issue(["1"], message));
    NothingUnder("type");
    var located := [Issue(["coordinates", "1"], message)];
    assert [] + located == located;
  }

  /** A link that is not a URL is reported under `social_links.<platform>`. */
  lemma {:induction false} BadLinkPath(platform: string, url: string, isUrl: string -> bool)
    requires !isUrl(url)
    ensures ParseSocialLinks(Obj(map[platform := Str(url)]), isUrl) == Err([Issue([platform], InvalidLinkMessage)])
  {
    var entries := map[platform := Str(url)];
    assert entries.Keys == {platform};
    assert SortedKeys({platform}) == [platform];
    assert [platform][0] == platform && [platform][1..] == [];
    assert LinkIssues(entries[platform], isUrl) == Fail(InvalidLinkMessage);
    UnderOne(platform, Issue([], InvalidLinkMessage));
    assert [platform] + [] == [platform];
    var issues := [Issue([platform], InvalidLinkMessage)];
    assert LinksIssues([platform], entries, isUrl) == issues + LinksIssues([], entries, isUrl);
    assert issues + [] == issues;
  }

  /** An array is not a links record. */
  lemma {:induction false} LinksArrayRejected(isUrl: string -> bool)
    ensures ParseSocialLinks(Arr([]), isUrl) == Err(TypeIssue("object"))
  {
  }
}
