/**
 * The request schemas of the user-sport endpoints: the body of "add a sport to
 * my profile", the body of "update one of my sports", and the `sport_id` path
 * parameter. Every field check runs and all issues are reported together;
 * unknown body keys are dropped.
 */
module UserSportCommands {
  import opened Wrappers
  import opened Text
  import opened JsValue
  import opened Validation
  import JsParseInt

  // ---------------------------------------------------------------------------
  // What is accepted, stated directly
  // ---------------------------------------------------------------------------

  /** A value the catch-all of the parameters object admits: number, string, boolean, or an array of only strings or only numbers. */
  predicate IsParameterValue(v: Value) {
    v.Num? || v.Str? || v.Bool?
    || (v.Arr? && ((forall i :: 0 <= i < |v.items| ==> v.items[i].Str?)
                   || (forall i :: 0 <= i < |v.items| ==> v.items[i].Num?)))
  }

  /** A non-empty object, every property of which is a parameter value. */
  predicate ValidParameters(v: Value) {
    IsRecord(v) && OwnEntries(v) != map[]
    && forall k :: k in OwnEntries(v) ==> IsParameterValue(OwnEntries(v)[k])
  }

  /** An integer from 1 to 100, `null`, or absent. */
  predicate ValidCustomRange(v: Value) {
    v.Undefined? || v.Null? || (IsInteger(v) && 1.0 <= v.n <= 100.0)
  }

  /** A positive integer. */
  predicate ValidSportId(v: Value) {
    IsInteger(v) && v.n > 0.0
  }

  // ---------------------------------------------------------------------------
  // Field schemas
  // ---------------------------------------------------------------------------

  /** The properties whose values the catch-all rejects. */
  function RejectedKeys(fields: map<string, Value>): (r: set<string>)
    ensures forall k :: k in r <==> k in fields && !IsParameterValue(fields[k])
  {
    set k | k in fields && !IsParameterValue(fields[k])
  }

  /**
   * One issue under each rejected property. The schema library lists them in the
   * object's property order; the model, which keeps no property order, lists
   * them in ascending key order.
   */
  function RejectedKeyIssues(keys: seq<string>): (r: seq<Issue>)
    ensures |r| == |keys|
    ensures forall i :: 0 <= i < |r| ==> r[i] == Issue([keys[i]], "Invalid input")
  {
    seq(|keys|, i requires 0 <= i < |keys| => Issue([keys[i]], "Invalid input"))
  }

  /**
   * `SportParameters`: an object whose every property is a parameter value
   * (otherwise one issue per offending property), and then, only when that
   * holds, not empty.
   */
  function ParseSportParameters(v: Value): (r: Parsed<map<string, Value>>)
    ensures r.Ok? <==> ValidParameters(v)
    ensures r.Ok? ==> r.value == OwnEntries(v)
    ensures r.Err? ==> r.error != []
    ensures IsRecord(v) && RejectedKeys(OwnEntries(v)) != {} ==>
      r == Err(RejectedKeyIssues(SortedKeys(RejectedKeys(OwnEntries(v)))))
    ensures IsRecord(v) && OwnEntries(v) == map[] ==> r == Err(Fail("Parameters cannot be an empty object"))
  {
    if v.Undefined? then Err(Required)
    else if !IsRecord(v) then Err(TypeIssue("object"))
    else
      var bad := SortedKeys(RejectedKeys(OwnEntries(v)));
      if bad != [] then Err(RejectedKeyIssues(bad))
      else if OwnEntries(v) == map[] then Err(Fail("Parameters cannot be an empty object"))
      else Ok(OwnEntries(v))
  }

  /** The checks of `.int()`, `.min(lo)` / `.positive()` and `.max(hi)`, all run, in order. */
  function IntegerIssues(n: real): seq<Issue> {
    if n == n.Floor as real then [] else Fail("Expected integer, received float")
  }

  /**
   * `CustomRange`: absent (`None`), `null` (`Some(None)`), or an integer from 1
   * to 100 (`Some(Some(km))`).
   */
  function ParseCustomRange(v: Value): (r: Parsed<Option<Option<int>>>)
    ensures r.Ok? <==> ValidCustomRange(v)
    ensures r == Ok(None) <==> v.Undefined?
    ensures r == Ok(Some(None)) <==> v.Null?
    ensures r.Ok? && r.value.Some? && r.value.value.Some? ==> v == Num(r.value.value.value as real) && 1 <= r.value.value.value <= 100
    ensures r.Err? ==> r.error != []
  {
    match v
    case Undefined => Ok(None)
    case Null => Ok(Some(None))
    case Num(n) =>
      var issues := IntegerIssues(n)
        + (if n < 1.0 then Fail("Number must be greater than or equal to 1") else [])
        + (if n > 100.0 then Fail("Number must be less than or equal to 100") else []);
      if issues == [] then Ok(Some(Some(n.Floor))) else Err(issues)
    case _ => Err(TypeIssue("number"))
  }

  /** `sport_id: z.number().int().positive()` */
  function ParseBodySportId(v: Value): (r: Parsed<int>)
    ensures r.Ok? <==> ValidSportId(v)
    ensures r.Ok? ==> r.value >= 1 && v == Num(r.value as real)
    ensures r.Err? ==> r.error != []
  {
    match v
    case Undefined => Err(Required)
    case Num(n) =>
      var issues := IntegerIssues(n) + (if n <= 0.0 then Fail("Number must be greater than 0") else []);
      if issues == [] then Ok(n.Floor) else Err(issues)
    case _ => Err(TypeIssue("number"))
  }

  // ---------------------------------------------------------------------------
  // Commands
  // ---------------------------------------------------------------------------

  datatype AddCommand = AddCommand(sportId: int, parameters: map<string, Value>, customRangeKm: Option<Option<int>>)

  /**
   * `AddUserSportCommand`: the three field schemas, their issues under the
   * field names in declaration order.
   */
  function ParseAddCommand(body: Value): (r: Parsed<AddCommand>)
    ensures r.Ok? <==> (IsRecord(body) && ValidSportId(Field(body, "sport_id"))
      && ValidParameters(Field(body, "parameters")) && ValidCustomRange(Field(body, "custom_range_km")))
    ensures r.Ok? ==> r.value.sportId >= 1 && r.value.parameters == OwnEntries(Field(body, "parameters"))
    ensures r.Err? ==> r.error != []
    ensures IsRecord(body) && r.Err? ==> (r.error ==
      Under("sport_id", IssuesOf(ParseBodySportId(Field(body, "sport_id"))))
      + Under("parameters", IssuesOf(ParseSportParameters(Field(body, "parameters"))))
      + Under("custom_range_km", IssuesOf(ParseCustomRange(Field(body, "custom_range_km")))))
  {
    if !IsRecord(body) then Err(TypeIssue("object"))
    else
      var id := ParseBodySportId(Field(body, "sport_id"));
      var params := ParseSportParameters(Field(body, "parameters"));
      var range := ParseCustomRange(Field(body, "custom_range_km"));
      if id.Ok? && params.Ok? && range.Ok? then Ok(AddCommand(id.value, params.value, range.value))
      else Err(Under("sport_id", IssuesOf(id)) + Under("parameters", IssuesOf(params)) + Under("custom_range_km", IssuesOf(range)))
  }

  datatype UpdateCommand = UpdateCommand(parameters: Option<map<string, Value>>, customRangeKm: Option<Option<int>>)

  /** `SportParameters.optional()` */
  function ParseOptionalParameters(v: Value): (r: Parsed<Option<map<string, Value>>>)
    ensures r.Ok? <==> v.Undefined? || ValidParameters(v)
    ensures r == Ok(None) <==> v.Undefined?
  {
    if v.Undefined? then Ok(None)
    else
      match ParseSportParameters(v)
      case Ok(p) => Ok(Some(p))
      case Err(e) => Err(e)
  }

  /** Whether an object has its own property `key`; the refinement sees exactly these keys. */
  predicate HasKey(body: Value, key: string) {
    key in OwnEntries(body)
  }

  /**
   * `UpdateUserSportCommand`: both fields optional, and the refinement that the
   * parsed object has at least one key. A key is kept when the body had it, so
   * `{}` fails with "Request body cannot be empty". The refinement runs when
   * the fields pass; when one fails the body had a key, so it adds nothing.
   */
  function ParseUpdateCommand(body: Value): (r: Parsed<UpdateCommand>)
    ensures r.Ok? <==> (IsRecord(body)
      && (Field(body, "parameters").Undefined? || ValidParameters(Field(body, "parameters")))
      && ValidCustomRange(Field(body, "custom_range_km"))
      && (HasKey(body, "parameters") || HasKey(body, "custom_range_km")))
    ensures r.Err? ==> r.error != []
    ensures body == Obj(map[]) ==> r == Err(Fail("Request body cannot be empty"))
  {
    if !IsRecord(body) then Err(TypeIssue("object"))
    else
      var params := ParseOptionalParameters(Field(body, "parameters"));
      var range := ParseCustomRange(Field(body, "custom_range_km"));
      if params.Err? || range.Err? then Err(Under("parameters", IssuesOf(params)) + Under("custom_range_km", IssuesOf(range)))
      else if !HasKey(body, "parameters") && !HasKey(body, "custom_range_km") then Err(Fail("Request body cannot be empty"))
      else Ok(UpdateCommand(params.value, range.value))
  }

  /** The refinement can only fail alone: a field that fails was present in the body. */
  lemma {:induction false} FieldFailureMeansKeyPresent(body: Value)
    requires body.Obj?
    requires ParseUpdateCommand(body).Err?
    requires ParseUpdateCommand(body) != Err(Fail("Request body cannot be empty"))
    ensures HasKey(body, "parameters") || HasKey(body, "custom_range_km")
  {
  }

  // ---------------------------------------------------------------------------
  // The path parameter
  // ---------------------------------------------------------------------------

  const InvalidSportIdMessage := "Sport ID must be a valid positive number"

  /** The transform of the `sport_id` string: `parseInt(_, 10)`, and NaN or a value below 1 is rejected. */
  function SportIdOfText(raw: string): (r: Parsed<int>)
    ensures r.Ok? <==> JsParseInt.ParseInt(raw).Some? && JsParseInt.ParseInt(raw).value >= 1
    ensures r.Ok? ==> r.value == JsParseInt.ParseInt(raw).value
    ensures r.Err? ==> r == Err(Fail(InvalidSportIdMessage))
  {
    var parsed := JsParseInt.ParseInt(raw);
    if parsed.None? || parsed.value < 1 then Err(Fail(InvalidSportIdMessage)) else Ok(parsed.value)
  }

  /** `SportIdParam`: `sport_id` must be a string, which is then transformed. */
  function ParseSportIdParam(params: Value): (r: Parsed<int>)
    ensures r.Ok? <==> (IsRecord(params) && Field(params, "sport_id").Str? && SportIdOfText(Field(params, "sport_id").s).Ok?)
    ensures r.Ok? ==> r == SportIdOfText(Field(params, "sport_id").s)
    ensures r.Err? ==> r.error != []
  {
    if !IsRecord(params) then Err(TypeIssue("object"))
    else
      match Field(params, "sport_id")
      case Undefined => Err(Under("sport_id", Required))
      case Str(s) =>
        (match SportIdOfText(s)
         case Ok(n) => Ok(n)
         case Err(e) => Err(Under("sport_id", e)))
      case _ => Err(Under("sport_id", TypeIssue("string")))
  }

  function SportIdParams(raw: string): Value {
    Obj(map["sport_id" := Str(raw)])
  }

  /** The transform is all that happens to a path parameter that is a string. */
  lemma {:induction false} SportIdParamOf(raw: string)
    ensures ParseSportIdParam(SportIdParams(raw)).Ok? <==> SportIdOfText(raw).Ok?
    ensures SportIdOfText(raw).Ok? ==> ParseSportIdParam(SportIdParams(raw)) == SportIdOfText(raw)
  {
    assert Field(SportIdParams(raw), "sport_id") == Str(raw);
  }

  /** The decimal string of a positive integer is accepted as that integer; of any other integer, rejected. */
  lemma {:induction false} SportIdOfDecimal(n: int)
    ensures n >= 1 ==> SportIdOfText(IntToString(n)) == Ok(n)
    ensures n < 1 ==> SportIdOfText(IntToString(n)).Err?
  {
    JsParseInt.ParseIntToString(n);
  }

  lemma {:induction false} SplitExamples()
    ensures "1.5" == "" + "1" + ".5"
    ensures "001" == "" + "001" + ""
  {
  }

  lemma {:induction false} DigitValueExamples()
    ensures DigitsValue("1") == 1 && DigitsValue("001") == 1
  {
    assert "001"[..2] == "00" && "00"[..1] == "0" && "0"[..0] == [];
  }

  lemma {:induction false} ParseIntOfFraction()
    ensures JsParseInt.ParseInt("1.5") == Some(1)
  {
    SplitExamples();
    DigitValueExamples();
    JsParseInt.ParseDigitPrefix("", "1", ".5");
  }

  lemma {:induction false} ParseIntOfLeadingZeros()
    ensures JsParseInt.ParseInt("001") == Some(1)
  {
    SplitExamples();
    DigitValueExamples();
    JsParseInt.ParseDigitPrefix("", "001", "");
  }

  /** `"1.5"` reads as 1 and `"001"` as 1: only the leading run of digits counts. */
  lemma {:induction false} SportIdPrefixExamples()
    ensures SportIdOfText("1.5") == Ok(1)
    ensures SportIdOfText("001") == Ok(1)
  {
    ParseIntOfFraction();
    ParseIntOfLeadingZeros();
  }

  lemma {:induction false} IntToStringExamples()
    ensures IntToString(0) == "0" && IntToString(-1) == "-1"
  {
  }

  /** `"0"` and `"-1"` are below 1. */
  lemma {:induction false} SportIdNonPositiveExamples()
    ensures SportIdOfText("0").Err?
    ensures SportIdOfText("-1").Err?
  {
    IntToStringExamples();
    SportIdOfDecimal(0);
    SportIdOfDecimal(-1);
  }

  /** A string with no digit at all is NaN: `""`, `" "`, `"abc"`. */
  lemma {:induction false} SportIdWithoutDigits(raw: string)
    requires forall i :: 0 <= i < |raw| ==> !IsDigit(raw[i])
    ensures SportIdOfText(raw).Err?
  {
    JsParseInt.ParseIntWithoutDigits(raw);
  }

  lemma {:induction false} SportIdWithoutDigitsExamples()
    ensures SportIdOfText("").Err?
    ensures SportIdOfText(" ").Err?
    ensures SportIdOfText("abc").Err?
  {
    SportIdWithoutDigits("");
    SportIdWithoutDigits(" ");
    SportIdWithoutDigits("abc");
  }

  /** A missing path parameter, or one that is not a string, is rejected. */
  lemma {:induction false} SportIdMustBeString(params: map<string, Value>)
    requires "sport_id" !in params || !params["sport_id"].Str?
    ensures ParseSportIdParam(Obj(params)).Err?
  {
  }

  // ---------------------------------------------------------------------------
  // Examples of rejected bodies
  // ---------------------------------------------------------------------------

  function AddBody(sportId: Value, parameters: Value): Value {
    Obj(map["sport_id" := sportId, "parameters" := parameters])
  }

  const SomeParameters := Obj(map["distance" := Num(10.0)])

  /** A body with those two fields is accepted exactly when the sport id is a positive integer and the parameters are valid. */
  lemma {:induction false} AddBodyAccepted(sportId: Value, parameters: Value)
    ensures ParseAddCommand(AddBody(sportId, parameters)).Ok? <==> ValidSportId(sportId) && ValidParameters(parameters)
  {
    assert Field(AddBody(sportId, parameters), "custom_range_km") == Undefined;
  }

  /** 0, -1, 1.5 and the string "1" are not positive integers. */
  lemma {:induction false} AddRejectsBadSportIds()
    ensures !ValidSportId(Num(0.0)) && !ValidSportId(Num(-1.0)) && !ValidSportId(Num(1.5)) && !ValidSportId(Str("1"))
    ensures ValidSportId(Num(1.0))
  {
    assert (1.5).Floor == 1;
  }

  /** `null`, `{}`, and an object holding a nested object are not valid parameters. */
  lemma {:induction false} ParametersRejections()
    ensures !ValidParameters(Null)
    ensures !ValidParameters(Obj(map[]))
    ensures !ValidParameters(Obj(map["nested" := Obj(map["a" := Num(1.0)])]))
    ensures ValidParameters(SomeParameters)
    ensures ValidParameters(Obj(map["tags" := Arr([Str("a"), Str("b")])]))
  {
    var nested := map["nested" := Obj(map["a" := Num(1.0)])];
    assert "nested" in OwnEntries(Obj(nested)) && !IsParameterValue(nested["nested"]);
    var tags := Arr([Str("a"), Str("b")]);
    assert IsParameterValue(tags);
    assert "distance" in OwnEntries(SomeParameters);
    assert "tags" in OwnEntries(Obj(map["tags" := tags]));
  }

  /** An array that mixes strings and numbers is not a parameter value. */
  lemma {:induction false} MixedArrayRejected()
    ensures !IsParameterValue(Arr([Str("a"), Num(1.0)]))
  {
    var a := [Str("a"), Num(1.0)];
    assert !a[1].Str? && !a[0].Num?;
  }

  /** 1 and 100 are the bounds of the custom range; 0, 101 and 1.5 fall outside. */
  lemma {:induction false} CustomRangeBounds()
    ensures ValidCustomRange(Num(1.0)) && ValidCustomRange(Num(100.0))
    ensures !ValidCustomRange(Num(0.0)) && !ValidCustomRange(Num(101.0)) && !ValidCustomRange(Num(1.5))
    ensures !ValidCustomRange(Str("10"))
  {
    assert (1.5).Floor == 1;
  }

  /** An update with only parameters, or only the range (even `null`), is accepted. */
  lemma {:induction false} UpdateWithOneField()
    ensures ParseUpdateCommand(Obj(map["parameters" := SomeParameters])) == Ok(UpdateCommand(Some(map["distance" := Num(10.0)]), None))
    ensures ParseUpdateCommand(Obj(map["custom_range_km" := Null])) == Ok(UpdateCommand(None, Some(None)))
  {
    assert HasKey(Obj(map["parameters" := SomeParameters]), "parameters");
    ParametersRejections();
    assert ParseSportParameters(SomeParameters) == Ok(map["distance" := Num(10.0)]);
    assert HasKey(Obj(map["custom_range_km" := Null]), "custom_range_km");
  }
}
