/**
 * The sport-parameter configuration: the pace codec `m:ss` <-> seconds, the
 * duration codec `H:MMh` <-> minutes, and the per-sport table of form fields.
 *
 * The regular expressions `^(\d{1,2}):(\d{2})$` and `^(\d{1,2}):(\d{2})h?$` are
 * modelled by `ClockShape`: one or two ASCII digits, a colon, two ASCII digits.
 */
module SportParameters {
  import opened Wrappers
  import opened Text

  // ---------------------------------------------------------------------------
  // JavaScript arithmetic on integers
  // ---------------------------------------------------------------------------

  /** `Math.floor(n / d)` for a positive divisor. */
  function FloorDiv(n: int, d: int): (q: int)
    requires d > 0
    ensures q * d <= n < q * d + d
  {
    n / d
  }

  /** The `%` operator of JavaScript: the remainder takes the sign of the dividend. */
  function JsRem(n: int, d: int): (r: int)
    requires d > 0
    ensures n >= 0 ==> 0 <= r < d && r == n % d
    ensures n < 0 ==> -d < r <= 0 && r == -((-n) % d)
  {
    if n >= 0 then n % d else -((-n) % d)
  }

  // ---------------------------------------------------------------------------
  // The clock shape shared by both codecs
  // ---------------------------------------------------------------------------

  /** `^(\d{1,2}):(\d{2})$` */
  predicate ClockShape(s: string) {
    (|s| == 4 || |s| == 5) && AllDigits(s[..|s| - 3]) && s[|s| - 3] == ':' && AllDigits(s[|s| - 2..])
  }

  /** The first capture group of a clock-shaped string. */
  function LeadField(s: string): (r: string)
    requires ClockShape(s)
    ensures 1 <= |r| <= 2 && AllDigits(r)
  {
    s[..|s| - 3]
  }

  /** The second capture group of a clock-shaped string. */
  function TrailField(s: string): (r: string)
    requires ClockShape(s)
    ensures |r| == 2 && AllDigits(r)
  {
    s[|s| - 2..]
  }

  lemma {:induction false} ClockFields(s: string)
    requires ClockShape(s)
    ensures s == LeadField(s) + ":" + TrailField(s)
  {
  }

  lemma {:induction false} ClockOfFields(a: string, b: string)
    requires 1 <= |a| <= 2 && AllDigits(a) && |b| == 2 && AllDigits(b)
    ensures ClockShape(a + ":" + b)
    ensures LeadField(a + ":" + b) == a && TrailField(a + ":" + b) == b
  {
    var s := a + ":" + b;
    assert s[..|s| - 3] == a;
    assert s[|s| - 2..] == b;
  }

  /** `^(\d{1,2}):(\d{2})h?$`: the clock shape, optionally followed by one `h`. */
  function WithoutHourSuffix(s: string): string {
    if s != [] && s[|s| - 1] == 'h' then s[..|s| - 1] else s
  }

  // ---------------------------------------------------------------------------
  // Pace: "m:ss" <-> seconds
  // ---------------------------------------------------------------------------

  /** `paceToSeconds`: `None` is `null`; at most 99 minutes and 99 seconds. */
  function PaceToSeconds(pace: string): (r: Option<int>)
    ensures r.Some? <==> ClockShape(pace)
    ensures r.Some? ==> 0 <= r.value <= 99 * 60 + 99
  {
    if ClockShape(pace) then
      DigitsValueBound(LeadField(pace));
      DigitsValueBound(TrailField(pace));
      Some(DigitsValue(LeadField(pace)) * 60 + DigitsValue(TrailField(pace)))
    else None
  }

  /** For 0 <= n < 6000 the minutes and the padded seconds of `n` make a canonical clock. */
  lemma {:induction false} CanonicalPrinted(n: int)
    ensures 0 <= n < 6000 ==> CanonicalClock(NatToString(n / 60) + ":" + PadStart2(NatToString(n % 60)))
  {
    if n < 0 || n >= 6000 {
      return;
    }
    var a, b := NatToString(n / 60), PadStart2(NatToString(n % 60));
    PaddedField(n % 60);
    ClockOfFields(a, b);
  }

  /** `secondsToPace`, for integer arguments: below 100 minutes it prints a canonical `m:ss`. */
  function SecondsToPace(seconds: int): (r: string)
    ensures 0 <= seconds < 6000 ==> CanonicalClock(r)
  {
    CanonicalPrinted(seconds);
    IntToString(FloorDiv(seconds, 60)) + ":" + PadStart2(IntToString(JsRem(seconds, 60)))
  }

  /**
   * A pace is read exactly from "one or two digits, a colon, two digits", and the
   * value is 60 times the minutes plus the seconds, with no bound on the seconds.
   */
  lemma {:induction false} PaceOfFields(m: string, s: string)
    requires 1 <= |m| <= 2 && AllDigits(m) && |s| == 2 && AllDigits(s)
    ensures PaceToSeconds(m + ":" + s) == Some(60 * DigitsValue(m) + DigitsValue(s))
  {
    ClockOfFields(m, s);
  }

  /** Conversely, every accepted pace has that form. */
  lemma {:induction false} PaceAccepted(pace: string)
    requires PaceToSeconds(pace).Some?
    ensures exists m: string, s: string ::
      1 <= |m| <= 2 && AllDigits(m) && |s| == 2 && AllDigits(s) && pace == m + ":" + s
      && PaceToSeconds(pace) == Some(60 * DigitsValue(m) + DigitsValue(s))
  {
    ClockFields(pace);
    var m, s := LeadField(pace), TrailField(pace);
    assert 1 <= |m| <= 2 && AllDigits(m) && |s| == 2 && AllDigits(s) && pace == m + ":" + s;
  }

  /** Strings the pattern refuses: the empty string, a short seconds field, a sign, no colon. */
  lemma {:induction false} PaceRejections()
    ensures PaceToSeconds("") == None
    ensures PaceToSeconds("5:3") == None
    ensures PaceToSeconds("-5:30") == None
    ensures PaceToSeconds("530") == None
    ensures PaceToSeconds("123:45") == None
  {
    assert !IsDigit("-5:30"[0]);
  }

  /** Seconds of 60 and more are accepted as they are: "5:60" is 360 and "5:99" is 399. */
  lemma {:induction false} PaceSecondsUnbounded()
    ensures PaceToSeconds("5:60") == Some(360)
    ensures PaceToSeconds("5:99") == Some(399)
  {
    PaceOfFields("5", "60");
    PaceOfFields("5", "99");
    assert "5:60" == "5" + ":" + "60";
    assert "5:99" == "5" + ":" + "99";
    assert DigitsValue("5") == 5 by { assert "5"[..0] == []; }
    assert DigitsValue("60") == 60 by { assert "60"[..1] == "6"; assert "6"[..0] == []; }
    assert DigitsValue("99") == 99 by { assert "99"[..1] == "9"; assert "9"[..0] == []; }
  }

  /** The two-digit zero-padded decimal of a number below 60 reads back as that number. */
  lemma {:induction false} PaddedField(k: nat)
    requires k < 100
    ensures |PadStart2(NatToString(k))| == 2 && AllDigits(PadStart2(NatToString(k)))
    ensures DigitsValue(PadStart2(NatToString(k))) == k
  {
    var t := NatToString(k);
    var p := PadStart2(t);
    if k < 10 {
      assert p == "0" + t;
      assert p[..1] == "0" && p[1] == t[0];
      assert "0"[..0] == [];
      assert t[..0] == [];
      assert DigitsValue(t) == DigitValue(t[0]);
    }
  }

  /** The printed field reads back: `paceToSeconds(secondsToPace(n)) == n` for 0 <= n < 6000. */
  lemma {:induction false} PaceRoundTrip(n: int)
    requires 0 <= n < 6000
    ensures PaceToSeconds(SecondsToPace(n)) == Some(n)
  {
    var m := NatToString(n / 60);
    var s := PadStart2(NatToString(n % 60));
    PaddedField(n % 60);
    PrintedFields(n);
    PaceOfFields(m, s);
  }

  /** For 0 <= n < 6000 the printer writes the minutes without padding and the seconds padded to two digits. */
  lemma {:induction false} PrintedFields(n: int)
    requires 0 <= n < 6000
    ensures SecondsToPace(n) == NatToString(n / 60) + ":" + PadStart2(NatToString(n % 60))
    ensures 1 <= |NatToString(n / 60)| <= 2
  {
    assert FloorDiv(n, 60) == n / 60;
    assert JsRem(n, 60) == n % 60;
    assert IntToString(n / 60) == NatToString(n / 60);
    assert IntToString(n % 60) == NatToString(n % 60);
  }

  /**
   * A canonical pace, with no leading zero in the minutes and seconds below 60,
   * prints back to itself: `secondsToPace(paceToSeconds(p)) == p`.
   */
  predicate CanonicalClock(s: string) {
    ClockShape(s) && Canonical(LeadField(s)) && DigitsValue(TrailField(s)) < 60
  }

  /** A two-digit field below 60 is what `padStart(2, "0")` prints for its value. */
  lemma {:induction false} PaddedFieldOfValue(b: string)
    requires |b| == 2 && AllDigits(b) && DigitsValue(b) < 100
    ensures PadStart2(NatToString(DigitsValue(b))) == b
  {
    var v := DigitsValue(b);
    var p := b[..1];
    assert p[..0] == [];
    assert b[..|b| - 1] == p;
    if b[0] == '0' {
      assert DigitsValue(p) == 0;
      assert v == DigitValue(b[1]);
      assert NatToString(v) == [DigitChar(v)];
      assert DigitChar(v) == b[1];
      assert b == "0" + [b[1]];
    } else {
      assert Canonical(b);
      CanonicalRoundTrip(b);
    }
  }

  lemma {:induction false} DivModSixty(a: nat, b: nat)
    requires b < 60
    ensures (60 * a + b) / 60 == a && (60 * a + b) % 60 == b
  {
  }

  /** A canonical clock is what the printer writes for its value. */
  lemma {:induction false} PrintedClock(c: string)
    requires CanonicalClock(c)
    ensures SecondsToPace(60 * DigitsValue(LeadField(c)) + DigitsValue(TrailField(c))) == c
  {
    var a, b := LeadField(c), TrailField(c);
    DivModSixty(DigitsValue(a), DigitsValue(b));
    CanonicalRoundTrip(a);
    assert IntToString(DigitsValue(a)) == a;
    PaddedFieldOfValue(b);
    assert PadStart2(IntToString(DigitsValue(b))) == b;
    ClockFields(c);
  }

  lemma {:induction false} PaceRoundTripCanonical(p: string)
    requires CanonicalClock(p)
    ensures PaceToSeconds(p).Some? && SecondsToPace(PaceToSeconds(p).value) == p
  {
    var v := 60 * DigitsValue(LeadField(p)) + DigitsValue(TrailField(p));
    assert PaceToSeconds(p) == Some(v);
    PrintedClock(p);
  }

  // ---------------------------------------------------------------------------
  // Duration: "H:MMh" <-> minutes
  // ---------------------------------------------------------------------------

  /** `timeToMinutes`: `None` is `null`; minutes of 60 or more are refused. */
  function TimeToMinutes(time: string): (r: Option<int>)
    ensures r.Some? <==> ClockShape(WithoutHourSuffix(time)) && DigitsValue(TrailField(WithoutHourSuffix(time))) < 60
    ensures r.Some? ==> r.value % 60 == DigitsValue(TrailField(WithoutHourSuffix(time)))
  {
    ClockMinutes(WithoutHourSuffix(time))
  }

  /** The `H:MM` part of `timeToMinutes`, once the optional `h` is gone. */
  function ClockMinutes(core: string): Option<int> {
    if !ClockShape(core) then None
    else
      var hours := DigitsValue(LeadField(core));
      var minutes := DigitsValue(TrailField(core));
      if minutes >= 60 then None else Some(hours * 60 + minutes)
  }

  lemma {:induction false} ClockMinutesOfFields(h: string, m: string)
    requires 1 <= |h| <= 2 && AllDigits(h) && |m| == 2 && AllDigits(m)
    ensures ClockMinutes(h + ":" + m)
         == if DigitsValue(m) >= 60 then None else Some(60 * DigitsValue(h) + DigitsValue(m))
  {
    var x := h + ":" + m;
    ClockOfFields(h, m);
    assert ClockShape(x) && LeadField(x) == h && TrailField(x) == m;
  }

  /** `minutesToTime`, for integer arguments: below 100 hours it prints a canonical `H:MM` and then `h`. */
  function MinutesToTime(totalMinutes: int): (r: string)
    ensures 0 <= totalMinutes < 6000 ==> |r| >= 1 && r[|r| - 1] == 'h' && CanonicalClock(r[..|r| - 1])
  {
    CanonicalPrinted(totalMinutes);
    IntToString(FloorDiv(totalMinutes, 60)) + ":" + PadStart2(IntToString(JsRem(totalMinutes, 60))) + "h"
  }

  /** The duration printer is the pace printer followed by `h`. */
  lemma {:induction false} TimeIsPaceWithSuffix(n: int)
    ensures MinutesToTime(n) == SecondsToPace(n) + "h"
  {
  }

  /** What `timeToMinutes` accepts: an `H:MM` or `HH:MM` clock with MM below 60, and an optional `h`. */
  lemma {:induction false} TimeOfFields(h: string, m: string, suffix: string)
    requires 1 <= |h| <= 2 && AllDigits(h) && |m| == 2 && AllDigits(m)
    requires suffix == "" || suffix == "h"
    ensures TimeToMinutes(h + ":" + m + suffix)
         == if DigitsValue(m) >= 60 then None else Some(60 * DigitsValue(h) + DigitsValue(m))
  {
    ClockMinutesOfFields(h, m);
    var c := h + ":" + m;
    var t := c + suffix;
    if suffix == "h" {
      assert t[|t| - 1] == 'h';
      assert t[..|t| - 1] == c;
    } else {
      assert t == c;
      assert t[|t| - 1] == m[1];
      assert IsDigit(m[1]);
    }
    assert WithoutHourSuffix(t) == c;
  }

  lemma {:induction false} SixtyDigits()
    ensures DigitsValue("60") == 60
  {
    assert "60"[..1] == "6";
    assert "6"[..0] == [];
  }

  /** Minutes of 60 or more make the duration unreadable: "1:60h" and "1:60" are `null`. */
  lemma {:induction false} TimeRejectsMinutesOver59()
    ensures TimeToMinutes("1:60h") == None
    ensures TimeToMinutes("1:60") == None
  {
    var h, m := "1", "60";
    SixtyDigits();
    TimeOfFields(h, m, "h");
    TimeOfFields(h, m, "");
    assert "1:60h" == h + ":" + m + "h";
    assert "1:60" == h + ":" + m + "";
  }

  /** Only one `h` may follow the clock, and the empty string is not a duration. */
  lemma {:induction false} TimeRejectsMalformed()
    ensures TimeToMinutes("1:30hh") == None
    ensures TimeToMinutes("") == None
  {
    var t := "1:30hh";
    assert WithoutHourSuffix(t) == "1:30h";
    assert "1:30h"[2] != ':';
  }

  /** `timeToMinutes(minutesToTime(n)) == n` for 0 <= n < 6000. */
  lemma {:induction false} TimeRoundTrip(n: int)
    requires 0 <= n < 6000
    ensures TimeToMinutes(MinutesToTime(n)) == Some(n)
  {
    var h := NatToString(n / 60);
    var m := PadStart2(NatToString(n % 60));
    PaddedField(n % 60);
    PrintedFields(n);
    TimeIsPaceWithSuffix(n);
    var t, c := MinutesToTime(n), h + ":" + m;
    assert t == c + "h";
    TimeOfFields(h, m, "h");
    assert TimeToMinutes(t) == Some(60 * (n / 60) + n % 60);
  }

  /** Every duration `timeToMinutes` accepts is below 100 hours. */
  lemma {:induction false} TimeValueBounded(t: string)
    requires TimeToMinutes(t).Some?
    ensures 0 <= TimeToMinutes(t).value < 6000
  {
    var c := WithoutHourSuffix(t);
    DigitsValueBound(LeadField(c));
    DigitsValueBound(TrailField(c));
  }

  /** Reformatting an accepted duration and reading it again gives the same number of minutes. */
  lemma {:induction false} TimeReformatStable(t: string)
    requires TimeToMinutes(t).Some?
    ensures TimeToMinutes(MinutesToTime(TimeToMinutes(t).value)) == TimeToMinutes(t)
  {
    TimeValueBounded(t);
    TimeRoundTrip(TimeToMinutes(t).value);
  }

  /** A canonical `H:MMh` prints back to itself: `minutesToTime(timeToMinutes(t)) == t`. */
  lemma {:induction false} TimeRoundTripCanonical(t: string)
    requires |t| >= 1 && t[|t| - 1] == 'h' && CanonicalClock(t[..|t| - 1])
    ensures TimeToMinutes(t).Some? && MinutesToTime(TimeToMinutes(t).value) == t
  {
    var c := t[..|t| - 1];
    assert WithoutHourSuffix(t) == c;
    var v := 60 * DigitsValue(LeadField(c)) + DigitsValue(TrailField(c));
    assert TimeToMinutes(t) == Some(v);
    PrintedClock(c);
    TimeIsPaceWithSuffix(v);
    assert t == c + "h";
  }

  // ---------------------------------------------------------------------------
  // The parameter table
  // ---------------------------------------------------------------------------

  datatype ParameterType = Number | Pace | Time | Enum

  /** One form field; an absent optional property is `None`. */
  datatype ParameterConfig = ParameterConfig(
    name: string,
    labelText: string,
    kind: ParameterType,
    unit: Option<string>,
    placeholder: Option<string>,
    options: Option<seq<string>>,
    min: Option<int>,
    max: Option<int>)

  function NumberField(name: string, labelText: string, unit: string, placeholder: string, min: int, max: int): ParameterConfig {
    ParameterConfig(name, labelText, Number, Some(unit), Some(placeholder), None, Some(min), Some(max))
  }

  function PaceField(unit: string, placeholder: string): ParameterConfig {
    ParameterConfig("tempo", "Tempo", Pace, Some(unit), Some(placeholder), None, None, None)
  }

  /** `SPORT_PARAMETERS_CONFIG` */
  const SportParametersConfig: map<string, seq<ParameterConfig>> := map[
    "bieganie" := [
      NumberField("dystans", "Dystans", "km", "10", 1, 200),
      PaceField("min/km", "5:30")],
    "rower szosowy" := [
      NumberField("dystans", "Dystans", "km", "50", 1, 200),
      NumberField("prędkość", "Prędkość", "km/h", "30", 10, 60)],
    "rower mtb" := [
      NumberField("dystans", "Dystans", "km", "25", 1, 200),
      ParameterConfig("czas", "Czas", Time, Some(""), Some("1:30h"), None, None, None),
      NumberField("przewyższenie", "Przewyższenie", "m", "800", 0, 5000)],
    "pływanie w basenie" := [
      NumberField("dystans", "Dystans", "m", "1500", 100, 10000),
      PaceField("min/100m", "2:00")],
    "pływanie na wodach otwartych" := [
      NumberField("dystans", "Dystans", "m", "2000", 100, 20000),
      PaceField("min/100m", "2:00")],
    "rolki" := [
      NumberField("dystans", "Dystans", "km", "15", 1, 100),
      ParameterConfig("styl", "Styl", Enum, None, Some("Wybierz styl"),
        Some(["rekreacyjny", "szybki", "freestyle"]), None, None)],
    "nurkowanie" := [
      NumberField("głębokość", "Głębokość", "m", "30", 5, 100)],
    "tenis" := [
      ParameterConfig("poziom", "Poziom NTRP", Enum, None, Some("Wybierz poziom"),
        Some(["1.0", "1.5", "2.0", "2.5", "3.0", "3.5", "4.0", "4.5", "5.0", "5.5", "6.0+"]), None, None)]
  ]

  /** `getSportParametersConfig`: the table entry, or the empty list for an unknown sport. */
  function GetSportParametersConfig(sportName: string): (r: seq<ParameterConfig>)
    ensures sportName !in SportParametersConfig ==> r == []
    ensures sportName in SportParametersConfig ==> r == SportParametersConfig[sportName]
  {
    if sportName in SportParametersConfig then SportParametersConfig[sportName] else []
  }

  /** Every table entry is non-empty, so an unknown sport is the only way to get `[]`. */
  lemma {:induction false} ConfigEmptyOnlyForUnknown(sportName: string)
    ensures GetSportParametersConfig(sportName) == [] <==> sportName !in SportParametersConfig
  {
  }

  /** Every `enum` field has a non-empty list of options, and only `enum` fields have options. */
  lemma {:induction false} EnumFieldsHaveOptions()
    ensures forall sport, i :: sport in SportParametersConfig && 0 <= i < |SportParametersConfig[sport]| ==>
      var p := SportParametersConfig[sport][i];
      (p.kind == Enum <==> p.options.Some?) && (p.options.Some? ==> |p.options.value| > 0)
  {
  }

  /** Every field with bounds has `min <= max`, and every `number` field has both bounds. */
  lemma {:induction false} NumberFieldsBounded()
    ensures forall sport, i :: sport in SportParametersConfig && 0 <= i < |SportParametersConfig[sport]| ==>
      var p := SportParametersConfig[sport][i];
      (p.kind == Number <==> p.min.Some? && p.max.Some?) && (p.min.Some? && p.max.Some? ==> p.min.value <= p.max.value)
  {
  }
}
