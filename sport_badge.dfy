/**
 * How a sport badge shows a user's sport: the sport name and parameter map with
 * their fallbacks, the label of each parameter, and the text of each value,
 * chosen by the parameter's type in the sport-parameter table and followed by
 * its unit.
 *
 * A parameter value is an integer or a string; fractional numbers are not part
 * of this model.
 */
module SportBadge {
  import opened Wrappers
  import opened Text
  import opened SportParameters

  datatype ParamValue = PNum(n: int) | PStr(s: string)

  /** The display data of a sport; either spelling of the name and of the parameters may be present. */
  datatype SportBadgeData = SportBadgeData(
    sportName: Option<string>,
    name: Option<string>,
    params: Option<map<string, ParamValue>>,
    parameters: Option<map<string, ParamValue>>)

  /** `sport.sport_name || sport.name || ""`: the first non-empty spelling. */
  function SportName(sport: SportBadgeData): (r: string)
    ensures sport.sportName.Some? && sport.sportName.value != [] ==> r == sport.sportName.value
    ensures (sport.sportName.None? || sport.sportName.value == []) && sport.name.Some? ==> r == sport.name.value
    ensures r == [] <==> (sport.sportName.None? || sport.sportName.value == []) && (sport.name.None? || sport.name.value == [])
  {
    if sport.sportName.Some? && sport.sportName.value != [] then sport.sportName.value
    else if sport.name.Some? then sport.name.value
    else ""
  }

  /** `sport.params || sport.parameters || {}`: an object is truthy even when empty. */
  function SportParams(sport: SportBadgeData): (r: map<string, ParamValue>)
    ensures sport.params.Some? ==> r == sport.params.value
    ensures sport.params.None? && sport.parameters.Some? ==> r == sport.parameters.value
    ensures sport.params.None? && sport.parameters.None? ==> r == map[]
  {
    if sport.params.Some? then sport.params.value
    else if sport.parameters.Some? then sport.parameters.value
    else map[]
  }

  /** `configs.find((p) => p.name === paramName)`: the first field with that name. */
  function FindConfig(configs: seq<ParameterConfig>, paramName: string): (r: Option<ParameterConfig>)
    ensures r.None? <==> forall i :: 0 <= i < |configs| ==> configs[i].name != paramName
    ensures r.Some? ==> r.value.name == paramName && exists i :: (0 <= i < |configs| && configs[i] == r.value
      && forall j :: 0 <= j < i ==> configs[j].name != paramName)
  {
    if configs == [] then None
    else if configs[0].name == paramName then Some(configs[0])
    else
      var rest := FindConfig(configs[1..], paramName);
      assert rest.Some? ==> exists i :: (1 <= i < |configs| && configs[i] == rest.value
        && forall j :: 1 <= j < i ==> configs[j].name != paramName);
      rest
  }

  /** The configuration of parameter `paramName` of sport `sportName`, if the table has one. */
  function ParamConfig(sportName: string, paramName: string): Option<ParameterConfig> {
    FindConfig(GetSportParametersConfig(sportName), paramName)
  }

  /** `String(value)` */
  function ValueString(value: ParamValue): string {
    match value
    case PNum(n) => IntToString(n)
    case PStr(s) => s
  }

  /** The value text chosen by the parameter type, before the unit. */
  function FormattedValue(kind: ParameterType, value: ParamValue): string {
    match kind
    case Pace => if value.PNum? then SecondsToPace(value.n) else ValueString(value)
    case Time =>
      if value.PNum? then MinutesToTime(value.n)
      else
        var minutes := TimeToMinutes(value.s);
        if minutes.Some? then MinutesToTime(minutes.value) else value.s
    case Number => ValueString(value)
    case Enum => ValueString(value)
  }

  /** A unit, when present and non-empty, follows the value after one space. */
  function WithUnit(text: string, unit: Option<string>): string {
    if unit.Some? && unit.value != [] then text + " " + unit.value else text
  }

  /** `formatParameterValue(paramName, value)` */
  function FormatParameterValue(sportName: string, paramName: string, value: ParamValue): string {
    var config := ParamConfig(sportName, paramName);
    if config.None? then ValueString(value)
    else WithUnit(FormattedValue(config.value.kind, value), config.value.unit)
  }

  /** `getParameterLabel(paramName)`: the configured label, or the key when there is none or it is empty. */
  function GetParameterLabel(sportName: string, paramName: string): (r: string)
    ensures ParamConfig(sportName, paramName).None? ==> r == paramName
    ensures ParamConfig(sportName, paramName).Some? && ParamConfig(sportName, paramName).value.labelText != [] ==>
      r == ParamConfig(sportName, paramName).value.labelText
    ensures r == [] ==> paramName == []
  {
    var config := ParamConfig(sportName, paramName);
    if config.Some? && config.value.labelText != [] then config.value.labelText else paramName
  }

  // ---------------------------------------------------------------------------
  // Properties
  // ---------------------------------------------------------------------------

  /** A parameter the table does not describe (an unknown sport, or an unknown key) is shown as `String(value)`. */
  lemma {:induction false} UnknownParameterShownRaw(sportName: string, paramName: string, value: ParamValue)
    requires forall i :: 0 <= i < |GetSportParametersConfig(sportName)| ==>
      GetSportParametersConfig(sportName)[i].name != paramName
    ensures FormatParameterValue(sportName, paramName, value) == ValueString(value)
    ensures GetParameterLabel(sportName, paramName) == paramName
  {
  }

  /** A known parameter is its formatted value, then exactly `" " + unit` when the unit is non-empty. */
  lemma {:induction false} UnitAppended(sportName: string, paramName: string, value: ParamValue)
    requires ParamConfig(sportName, paramName).Some?
    ensures var c := ParamConfig(sportName, paramName).value;
      var shown := FormatParameterValue(sportName, paramName, value);
      var text := FormattedValue(c.kind, value);
      (c.unit.Some? && c.unit.value != [] ==> shown == text + " " + c.unit.value) &&
      (c.unit.None? || c.unit.value == [] ==> shown == text)
  {
  }

  /** `number` and `enum` parameters show `String(value)`. */
  lemma {:induction false} PlainKindsShownRaw(kind: ParameterType, value: ParamValue)
    requires kind == Number || kind == Enum
    ensures FormattedValue(kind, value) == ValueString(value)
  {
  }

  /** A pace in seconds is shown as `m:ss`, and that text reads back as the same number of seconds. */
  lemma {:induction false} PaceNumberReadsBack(n: int)
    requires 0 <= n < 6000
    ensures FormattedValue(Pace, PNum(n)) == SecondsToPace(n)
    ensures PaceToSeconds(FormattedValue(Pace, PNum(n))) == Some(n)
  {
    PaceRoundTrip(n);
  }

  /** A pace given as text is shown verbatim, even when it is not a valid pace. */
  lemma {:induction false} PaceTextVerbatim(s: string)
    ensures FormattedValue(Pace, PStr(s)) == s
  {
  }

  /** A duration given as text that does not parse is shown verbatim. */
  lemma {:induction false} UnparsableTimeVerbatim(s: string)
    requires TimeToMinutes(s).None?
    ensures FormattedValue(Time, PStr(s)) == s
  {
  }

  /** A canonical `H:MMh` duration text is shown unchanged after its round trip through minutes. */
  lemma {:induction false} CanonicalTimeVerbatim(t: string)
    requires |t| >= 1 && t[|t| - 1] == 'h' && CanonicalClock(t[..|t| - 1])
    ensures FormattedValue(Time, PStr(t)) == t
  {
    TimeRoundTripCanonical(t);
  }

  /** Formatting a duration is idempotent: the text it shows is shown the same way again. */
  lemma {:induction false} TimeFormatIdempotent(value: ParamValue)
    requires value.PNum? ==> 0 <= value.n < 6000
    ensures FormattedValue(Time, PStr(FormattedValue(Time, value))) == FormattedValue(Time, value)
  {
    if value.PNum? {
      TimeRoundTrip(value.n);
    } else {
      var minutes := TimeToMinutes(value.s);
      if minutes.Some? {
        TimeReformatStable(value.s);
      }
    }
  }

  /** The mountain-bike duration has the empty unit, so nothing follows it: 90 minutes is "1:30h". */
  lemma {:induction false} MtbDurationWithoutUnit()
    ensures FormatParameterValue("rower mtb", "czas", PNum(90)) == "1:30h"
  {
    var config := GetSportParametersConfig("rower mtb");
    assert config[0].name != "czas" && config[1].name == "czas";
    assert ParamConfig("rower mtb", "czas") == Some(config[1]);
    assert FloorDiv(90, 60) == 1 && JsRem(90, 60) == 30;
    assert NatToString(30) == "30" by { assert NatToString(3) == "3"; }
  }

  /** A running pace of 330 seconds is shown as "5:30 min/km". */
  lemma {:induction false} RunningPaceExample()
    ensures FormatParameterValue("bieganie", "tempo", PNum(330)) == "5:30 min/km"
  {
    var config := GetSportParametersConfig("bieganie");
    assert config[0].name == "dystans" && config[1].name == "tempo";
    assert ParamConfig("bieganie", "tempo") == Some(config[1]);
    assert FloorDiv(330, 60) == 5 && JsRem(330, 60) == 30;
    assert NatToString(30) == "30" by { assert NatToString(3) == "3"; }
  }

  /** A running distance of 10 is shown as "10 km", under the label "Dystans". */
  lemma {:induction false} RunningDistanceExample()
    ensures FormatParameterValue("bieganie", "dystans", PNum(10)) == "10 km"
    ensures GetParameterLabel("bieganie", "dystans") == "Dystans"
  {
    var config := GetSportParametersConfig("bieganie");
    assert config[0].name == "dystans";
    assert ParamConfig("bieganie", "dystans") == Some(config[0]);
    assert NatToString(10) == "10" by { assert NatToString(1) == "1"; }
  }
}
