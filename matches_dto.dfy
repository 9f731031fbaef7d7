/**
 * The query of `GET /api/matches`: `limit` and `offset` arrive as optional
 * strings, are read with `parseInt(_, 10)` falling back to 20 and 0, and are
 * then range-checked: `limit` in [1, 100], `offset` at least 0.
 */
module MatchesDto {
  import opened Wrappers
  import opened Text
  import opened JsParseInt
  import opened Validation

  datatype MatchesQuery = MatchesQuery(limit: int, offset: int)

  /** The transform of one field: absent, `null` and `""` take the default, and so does `NaN`. */
  function ParseOrDefault(raw: Option<string>, default: int): (r: int)
    ensures raw.None? || raw.value == "" ==> r == default
    ensures raw.Some? && ParseInt(raw.value).Some? ==> r == ParseInt(raw.value).value
    ensures raw.Some? && ParseInt(raw.value).None? ==> r == default
  {
    if raw.None? || raw.value == "" then default
    else match ParseInt(raw.value)
      case None => default
      case Some(n) => n
  }

  function LimitIssues(limit: int): (r: seq<Issue>)
    ensures r == [] <==> 1 <= limit <= 100
  {
    (if limit < 1 then Fail("Limit must be a positive number") else [])
    + (if limit > 100 then Fail("Maximum limit is 100 items per page") else [])
  }

  function OffsetIssues(offset: int): (r: seq<Issue>)
    ensures r == [] <==> offset >= 0
  {
    if offset < 0 then Fail("Offset cannot be negative") else []
  }

  /** `matchesQuerySchema.parse({ limit, offset })`; both fields are checked and their issues collected. */
  function ParseMatchesQuery(limit: Option<string>, offset: Option<string>): (r: Parsed<MatchesQuery>)
    ensures r.Ok? <==> 1 <= ParseOrDefault(limit, 20) <= 100 && ParseOrDefault(offset, 0) >= 0
    ensures r.Ok? ==> r.value == MatchesQuery(ParseOrDefault(limit, 20), ParseOrDefault(offset, 0))
    ensures r.Err? ==> r.error == Under("limit", LimitIssues(ParseOrDefault(limit, 20)))
                                  + Under("offset", OffsetIssues(ParseOrDefault(offset, 0)))
  {
    var l := ParseOrDefault(limit, 20);
    var o := ParseOrDefault(offset, 0);
    var issues := Under("limit", LimitIssues(l)) + Under("offset", OffsetIssues(o));
    if issues == [] then Ok(MatchesQuery(l, o)) else Err(issues)
  }

  // ---------------------------------------------------------------------------
  // URLSearchParams
  // ---------------------------------------------------------------------------

  /** The name/value pairs of a query string, in order. */
  type SearchParams = seq<(string, string)>

  /** `URLSearchParams.get`: the value of the first pair with that name, or `null`. */
  function Get(q: SearchParams, key: string): (r: Option<string>)
    ensures r.None? <==> forall i :: 0 <= i < |q| ==> q[i].0 != key
    ensures r.Some? ==> exists i :: 0 <= i < |q| && q[i] == (key, r.value) && forall j :: 0 <= j < i ==> q[j].0 != key
  {
    if q == [] then None
    else if q[0].0 == key then Some(q[0].1)
    else
      var r := Get(q[1..], key);
      assert r.Some? ==> exists i :: 1 <= i < |q| && q[i] == (key, r.value) && forall j :: 0 <= j < i ==> q[j].0 != key by {
        if r.Some? {
          var i :| 0 <= i < |q[1..]| && q[1..][i] == (key, r.value) && forall j :: 0 <= j < i ==> q[1..][j].0 != key;
          assert q[i + 1] == (key, r.value);
          assert forall j :: 0 <= j < i + 1 ==> q[j].0 != key by {
            forall j | 0 <= j < i + 1 ensures q[j].0 != key {
              if j > 0 { assert q[j] == q[1..][j - 1]; }
            }
          }
        }
      }
      r
  }

  /** `validateMatchesQuery(query)`: reads `limit` and `offset` and nothing else. */
  function ValidateMatchesQuery(q: SearchParams): Parsed<MatchesQuery> {
    ParseMatchesQuery(Get(q, "limit"), Get(q, "offset"))
  }

  // ---------------------------------------------------------------------------
  // Properties
  // ---------------------------------------------------------------------------

  /** Absent, `null` or empty fields give the defaults 20 and 0, which are valid. */
  lemma {:induction false} DefaultsWhenAbsent()
    ensures ParseMatchesQuery(None, None) == Ok(MatchesQuery(20, 0))
    ensures ParseMatchesQuery(Some(""), Some("")) == Ok(MatchesQuery(20, 0))
  {
  }

  /** A value without digits is not an error: it falls back to the default too. */
  lemma {:induction false} NoDigitsGivesDefault(raw: string, default: int)
    requires forall i :: 0 <= i < |raw| ==> !IsDigit(raw[i])
    ensures ParseOrDefault(Some(raw), default) == default
  {
    ParseIntWithoutDigits(raw);
  }

  lemma {:induction false} ValueOf10()
    ensures DigitsValue("10") == 10 && DigitsValue("010") == 10
  {
    assert "10"[..1] == "1" && "1"[..0] == [];
    assert "010"[..2] == "01" && "01"[..1] == "0" && "0"[..0] == [];
  }

  lemma {:induction false} SplitExamples()
    ensures "10.5" == "" + "10" + ".5"
    ensures "010" == "" + "010" + ""
    ensures " 30 " == " " + "30" + " "
  {
  }

  lemma {:induction false} ParseIntOfDecimalFraction()
    ensures ParseInt("10.5") == Some(10)
  {
    ValueOf10();
    SplitExamples();
    ParseDigitPrefix("", "10", ".5");
  }

  lemma {:induction false} ParseIntOfLeadingZero()
    ensures ParseInt("010") == Some(10)
  {
    ValueOf10();
    SplitExamples();
    ParseDigitPrefix("", "010", "");
  }

  lemma {:induction false} ParseIntOfPadded()
    ensures ParseInt(" 30 ") == Some(30)
  {
    SplitExamples();
    assert DigitsValue("30") == 30 by { assert "30"[..1] == "3" && "3"[..0] == []; }
    assert AllWhitespace(" ");
    ParseDigitPrefix(" ", "30", " ");
  }

  /** Prefix parsing: "10.5" and "010" read as 10, " 30 " as 30. */
  lemma {:induction false} PrefixParsing()
    ensures ParseOrDefault(Some("10.5"), 20) == 10
    ensures ParseOrDefault(Some("010"), 20) == 10
    ensures ParseOrDefault(Some(" 30 "), 0) == 30
  {
    ParseIntOfDecimalFraction();
    ParseIntOfLeadingZero();
    ParseIntOfPadded();
  }

  /** A limit that parses to a number outside [1, 100] is refused. */
  lemma {:induction false} LimitOutOfRange(raw: string, n: int)
    requires raw != "" && ParseInt(raw) == Some(n)
    requires n < 1 || n > 100
    ensures ParseMatchesQuery(Some(raw), None).Err?
  {
  }

  /** A limit whose decimal text is outside [1, 100] is refused. */
  lemma {:induction false} LimitOfDecimalOutOfRange(n: int)
    requires n < 1 || n > 100
    ensures ParseMatchesQuery(Some(IntToString(n)), None).Err?
  {
    ParseIntToString(n);
  }

  /** An offset whose decimal text is negative is refused. */
  lemma {:induction false} OffsetOfDecimalNegative(m: int)
    requires m < 0
    ensures ParseMatchesQuery(None, Some(IntToString(m))).Err?
  {
    ParseIntToString(m);
  }

  lemma {:induction false} IntToStringExamples()
    ensures IntToString(0) == "0" && IntToString(-5) == "-5" && IntToString(-1) == "-1"
    ensures IntToString(101) == "101" && IntToString(150) == "150"
  {
    assert NatToString(10) == "10" && NatToString(15) == "15";
  }

  /** Out-of-range values are refused after parsing: limits "0", "-5", "101", "150" and offset "-1". */
  lemma {:induction false} RangeRejections()
    ensures ParseMatchesQuery(Some("0"), None).Err?
    ensures ParseMatchesQuery(Some("-5"), None).Err?
    ensures ParseMatchesQuery(Some("101"), None).Err?
    ensures ParseMatchesQuery(Some("150"), None).Err?
    ensures ParseMatchesQuery(None, Some("-1")).Err?
  {
    IntToStringExamples();
    LimitOfDecimalOutOfRange(0);
    LimitOfDecimalOutOfRange(-5);
    LimitOfDecimalOutOfRange(101);
    LimitOfDecimalOutOfRange(150);
    OffsetOfDecimalNegative(-1);
  }

  /** The offset has no upper bound. */
  lemma {:induction false} OffsetUnbounded(m: nat)
    ensures ParseMatchesQuery(None, Some(IntToString(m))) == Ok(MatchesQuery(20, m))
  {
    ParseIntToString(m);
  }

  /** The decimal string of any n in [1, 100] and any m >= 0 is read back exactly. */
  lemma {:induction false} DecimalRoundTrip(n: int, m: int)
    requires 1 <= n <= 100 && m >= 0
    ensures ParseMatchesQuery(Some(IntToString(n)), Some(IntToString(m))) == Ok(MatchesQuery(n, m))
  {
    ParseIntToString(n);
    ParseIntToString(m);
  }

  /** The pairs of a query string that carry `limit` or `offset`. */
  function PaginationPairs(q: SearchParams): (r: SearchParams)
    ensures forall i :: 0 <= i < |r| ==> r[i].0 == "limit" || r[i].0 == "offset"
  {
    if q == [] then []
    else if q[0].0 == "limit" || q[0].0 == "offset" then [q[0]] + PaginationPairs(q[1..])
    else PaginationPairs(q[1..])
  }

  lemma {:induction false} GetOfPaginationPairs(q: SearchParams, key: string)
    requires key == "limit" || key == "offset"
    ensures Get(PaginationPairs(q), key) == Get(q, key)
  {
    if q != [] {
      GetOfPaginationPairs(q[1..], key);
      if q[0].0 == "limit" || q[0].0 == "offset" {
        assert ([q[0]] + PaginationPairs(q[1..]))[1..] == PaginationPairs(q[1..]);
      }
    }
  }

  /** Every other parameter is ignored: dropping all of them changes nothing. */
  lemma {:induction false} OnlyPaginationRead(q: SearchParams)
    ensures ValidateMatchesQuery(q) == ValidateMatchesQuery(PaginationPairs(q))
  {
    GetOfPaginationPairs(q, "limit");
    GetOfPaginationPairs(q, "offset");
  }

  /** The first occurrence wins: later duplicates of `limit` are ignored. */
  lemma {:induction false} FirstOccurrenceWins(q: SearchParams, v: string, later: SearchParams)
    requires forall i :: 0 <= i < |q| ==> q[i].0 != "limit"
    ensures Get(q + [("limit", v)] + later, "limit") == Some(v)
  {
    if q != [] {
      assert (q + [("limit", v)] + later)[1..] == q[1..] + [("limit", v)] + later;
      FirstOccurrenceWins(q[1..], v, later);
    }
  }
}
