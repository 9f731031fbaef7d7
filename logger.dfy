/**
 * The redaction the logger applies to every value it prints: falsy values and
 * primitives pass through, an `Error` is flattened to its name, message and
 * (in development only) stack, arrays are redacted element by element, and in
 * an object every key whose lower-cased name contains a sensitive word has its
 * value replaced by a fixed marker; other nested objects are redacted in turn.
 *
 * Console output, the timestamp and the log levels are not part of this model;
 * whether the process runs in development is the parameter `development`.
 */
module Logger {
  import opened Text
  import opened JsValue
  import Choice

  /** The words whose presence in a lower-cased key marks it as sensitive. */
  const SensitiveFields: seq<string> := [
    "password", "token", "jwt", "secret", "authorization",
    "cookie", "session", "access_token", "refresh_token"]

  const Redacted := "***REDACTED***"

  /** `sensitiveFields.some((field) => key.toLowerCase().includes(field))` */
  predicate IsSensitiveKey(key: string) {
    exists i :: 0 <= i < |SensitiveFields| && Contains(ToLower(key), SensitiveFields[i])
  }

  /** What an `Error` becomes: its `name`, `message` and, in development, its `stack`. */
  function ErrorSummary(e: Value, development: bool): (r: Value)
    requires e.ErrorObj?
    ensures r.Obj? && r.fields.Keys == {"name", "message", "stack"}
    ensures r.fields["name"] == Get(e, "name") && r.fields["message"] == Get(e, "message")
    ensures development ==> r.fields["stack"] == Get(e, "stack")
    ensures !development ==> r.fields["stack"] == Undefined
  {
    Obj(map["name" := Get(e, "name"), "message" := Get(e, "message"),
            "stack" := if development then Get(e, "stack") else Undefined])
  }

  /** `sanitize(data)` */
  function Sanitized(v: Value, development: bool): (r: Value)
    ensures !IsObject(v) ==> r == v
    ensures v.Arr? ==> r.Arr? && |r.items| == |v.items|
    ensures v.Obj? ==> r.Obj? && r.fields.Keys == v.fields.Keys
    ensures v.ErrorObj? ==> r.Obj? && r.fields.Keys == {"name", "message", "stack"}
    decreases v, 1
  {
    if !Truthy(v) then v
    else
      match v
      case ErrorObj(_, _, _, _) => ErrorSummary(v, development)
      case Arr(items) => Arr(SanitizedItems(items, development))
      case Obj(fields) => Obj(map k | k in fields :: SanitizedEntry(k, fields[k], development))
      case _ => v
  }

  /** `items.map((item) => sanitize(item))` */
  function SanitizedItems(items: seq<Value>, development: bool): (r: seq<Value>)
    ensures |r| == |items|
    ensures forall i :: 0 <= i < |items| ==> r[i] == Sanitized(items[i], development)
    decreases items, 0
  {
    if items == [] then [] else [Sanitized(items[0], development)] + SanitizedItems(items[1..], development)
  }

  /** The value stored under `key` in the sanitized copy of an object. */
  function SanitizedEntry(key: string, value: Value, development: bool): Value
    decreases value, 2
  {
    if IsSensitiveKey(key) then Str(Redacted)
    else if IsObject(value) then Sanitized(value, development)
    else value
  }

  /**
   * `sanitize` itself: a loop over the entries of an object that fills a fresh
   * record, and a recursive call for every nested object and array element.
   */
  method Sanitize(data: Value, development: bool) returns (r: Value)
    ensures r == Sanitized(data, development)
    decreases data, 1
  {
    if !Truthy(data) {
      return data;
    }
    match data
    case ErrorObj(_, _, _, _) =>
      r := ErrorSummary(data, development);
    case Arr(items) =>
      var out := SanitizeItems(items, development);
      r := Arr(out);
    case Obj(fields) =>
      var sanitized := SanitizeFields(data, development);
      r := Obj(sanitized);
    case _ =>
      r := data;
  }

  /** `data.map((item) => this.sanitize(item))` */
  method SanitizeItems(items: seq<Value>, development: bool) returns (out: seq<Value>)
    ensures out == SanitizedItems(items, development)
    decreases items, 0
  {
    out := [];
    var i := 0;
    while i < |items|
      invariant 0 <= i <= |items| && |out| == i
      invariant forall j :: 0 <= j < i ==> out[j] == Sanitized(items[j], development)
    {
      var item := Sanitize(items[i], development);
      out := out + [item];
      i := i + 1;
    }
  }

  /** The `for (const [key, value] of Object.entries(data))` loop that fills `sanitized`. */
  method SanitizeFields(data: Value, development: bool) returns (sanitized: map<string, Value>)
    requires data.Obj?
    ensures sanitized == map k | k in data.fields :: SanitizedEntry(k, data.fields[k], development)
    decreases data, 0
  {
    var fields := data.fields;
    sanitized := map[];
    var left := fields.Keys;
    while left != {}
      invariant left <= fields.Keys
      invariant sanitized.Keys == fields.Keys - left
      invariant forall k :: k in sanitized ==> sanitized[k] == SanitizedEntry(k, fields[k], development)
      decreases |left|
    {
      var key := Choice.Pick(left);
      var value := fields[key];
      if IsSensitiveKey(key) {
        sanitized := sanitized[key := Str(Redacted)];
      } else if IsObject(value) {
        var nested := Sanitize(value, development);
        sanitized := sanitized[key := nested];
      } else {
        sanitized := sanitized[key := value];
      }
      left := left - {key};
    }
  }

  // ---------------------------------------------------------------------------
  // Properties
  // ---------------------------------------------------------------------------

  /** A sensitive key is redacted whatever its value, nested objects included: masking comes before recursion. */
  lemma {:induction false} SensitiveKeyRedacted(fields: map<string, Value>, key: string, development: bool)
    requires key in fields && IsSensitiveKey(key)
    ensures Sanitized(Obj(fields), development).fields[key] == Str(Redacted)
  {
  }

  /** Any other key keeps its primitive value and has a nested object or array sanitized. */
  lemma {:induction false} OtherKeyKept(fields: map<string, Value>, key: string, development: bool)
    requires key in fields && !IsSensitiveKey(key)
    ensures !IsObject(fields[key]) ==> Sanitized(Obj(fields), development).fields[key] == fields[key]
    ensures IsObject(fields[key]) ==>
      Sanitized(Obj(fields), development).fields[key] == Sanitized(fields[key], development)
  {
  }

  /** Arrays are sanitized element by element. */
  lemma {:induction false} ArrayElementwise(items: seq<Value>, development: bool, i: int)
    requires 0 <= i < |items|
    ensures Sanitized(Arr(items), development).items[i] == Sanitized(items[i], development)
  {
  }

  /** Errors lose every own property except what is copied, and the stack only shows in development. */
  lemma {:induction false} ErrorFlattened(e: Value)
    requires e.ErrorObj? && e.stack.Some? && "stack" !in e.props
    ensures Sanitized(e, true).fields["stack"] == Str(e.stack.value)
    ensures Sanitized(e, false).fields["stack"] == Undefined
  {
  }

  /**
   * Every error inside `v` has ordinary `name`, `message` and `stack`: no own
   * property under those names holds an object (such an object would be
   * copied into the log without redaction).
   */
  predicate PlainErrors(v: Value)
    decreases v
  {
    match v
    case ErrorObj(_, _, _, props) =>
      forall k :: k in props && (k == "name" || k == "message" || k == "stack") ==> !IsObject(props[k])
    case Arr(items) => forall i :: 0 <= i < |items| ==> PlainErrors(items[i])
    case Obj(fields) => forall k :: k in fields ==> PlainErrors(fields[k])
    case _ => true
  }

  /** A logged value: no `Error` left, and every sensitive key at any depth holds the marker. */
  predicate Redacts(v: Value)
    decreases v
  {
    match v
    case ErrorObj(_, _, _, _) => false
    case Arr(items) => forall i :: 0 <= i < |items| ==> Redacts(items[i])
    case Obj(fields) =>
      forall k :: k in fields ==> (IsSensitiveKey(k) ==> fields[k] == Str(Redacted)) && Redacts(fields[k])
    case _ => true
  }

  lemma {:induction false} FirstCharAbsent(s: string, sub: string)
    requires |sub| >= 1
    requires forall i :: 0 <= i <= |s| - |sub| ==> s[i] != sub[0]
    ensures !Contains(s, sub)
  {
    forall i | 0 <= i <= |s| - |sub| ensures !OccursAt(s, sub, i) {
      assert s[i..i + |sub|][0] == s[i];
    }
  }

  /** Neither `name` (a field of every error summary) nor `user` holds a sensitive word. */
  lemma {:induction false} NameNotSensitive()
    ensures !IsSensitiveKey("name") && !IsSensitiveKey("user")
  {
    LowerOfLower("name");
    LowerOfLower("user");
    forall i | 0 <= i < |SensitiveFields|
      ensures !Contains("name", SensitiveFields[i]) && !Contains("user", SensitiveFields[i])
    {
      if i == 2 {
        FirstCharAbsent("name", "jwt");
        FirstCharAbsent("user", "jwt");
      }
    }
  }

  lemma {:induction false} MessageNotSensitive()
    ensures !IsSensitiveKey("message")
  {
    LowerOfLower("message");
    forall i | 0 <= i < |SensitiveFields| ensures !Contains("message", SensitiveFields[i]) {
      if |SensitiveFields[i]| <= 7 {
        FirstCharAbsent("message", SensitiveFields[i]);
      }
    }
  }

  lemma {:induction false} StackNotSensitive()
    ensures !IsSensitiveKey("stack")
  {
    LowerOfLower("stack");
    forall i | 0 <= i < |SensitiveFields| ensures !Contains("stack", SensitiveFields[i]) {
      if |SensitiveFields[i]| <= 5 {
        FirstCharAbsent("stack", SensitiveFields[i]);
      }
    }
  }

  /** The summary of a plain error is already a logged value. */
  lemma {:induction false} ErrorSummaryRedacts(e: Value, development: bool)
    requires e.ErrorObj? && PlainErrors(e)
    ensures Redacts(ErrorSummary(e, development))
  {
    NameNotSensitive();
    MessageNotSensitive();
    StackNotSensitive();
    var r := ErrorSummary(e, development);
    forall k | k in r.fields ensures Redacts(r.fields[k]) && !IsObject(r.fields[k]) {
    }
  }

  /** Nothing sensitive reaches the log: the output of `sanitize` redacts, at every depth. */
  lemma {:induction false} SanitizedRedacts(v: Value, development: bool)
    requires PlainErrors(v)
    ensures Redacts(Sanitized(v, development))
    decreases v
  {
    match v
    case ErrorObj(_, _, _, _) =>
      ErrorSummaryRedacts(v, development);
    case Arr(items) =>
      var r := Sanitized(v, development);
      forall i | 0 <= i < |items| ensures Redacts(r.items[i]) {
        SanitizedRedacts(items[i], development);
      }
    case Obj(fields) =>
      var r := Sanitized(v, development);
      forall k | k in fields ensures (IsSensitiveKey(k) ==> r.fields[k] == Str(Redacted)) && Redacts(r.fields[k]) {
        assert r.fields[k] == SanitizedEntry(k, fields[k], development);
        if !IsSensitiveKey(k) && IsObject(fields[k]) {
          SanitizedRedacts(fields[k], development);
        }
      }
    case _ =>
  }

  /** A value that already redacts is logged as it is. */
  lemma {:induction false} RedactedIsFixpoint(v: Value, development: bool)
    requires Redacts(v)
    ensures Sanitized(v, development) == v
    decreases v
  {
    match v
    case Arr(items) =>
      var r := Sanitized(v, development);
      forall i | 0 <= i < |items| ensures r.items[i] == items[i] {
        RedactedIsFixpoint(items[i], development);
      }
      assert r.items == items;
    case Obj(fields) =>
      var r := Sanitized(v, development);
      forall k | k in fields ensures r.fields[k] == fields[k] {
        assert r.fields[k] == SanitizedEntry(k, fields[k], development);
        if !IsSensitiveKey(k) && IsObject(fields[k]) {
          RedactedIsFixpoint(fields[k], development);
        }
      }
      assert r.fields == fields;
    case _ =>
  }

  /** Sanitizing twice is sanitizing once. */
  lemma {:induction false} SanitizeIdempotent(v: Value, development: bool)
    requires PlainErrors(v)
    ensures Sanitized(Sanitized(v, development), development) == Sanitized(v, development)
  {
    SanitizedRedacts(v, development);
    RedactedIsFixpoint(Sanitized(v, development), development);
  }

  /** `{ password: "x", user: { access_token: "t", name: "n" } }` logs both secrets as the marker. */
  lemma {:induction false} NestedSecretsExample()
    ensures var user := Obj(map["access_token" := Str("t"), "name" := Str("n")]);
      var r := Sanitized(Obj(map["password" := Str("x"), "user" := user]), false);
      r.fields["password"] == Str(Redacted) && r.fields["user"].Obj? &&
      r.fields["user"].fields["access_token"] == Str(Redacted)
  {
    AccessTokenSensitive();
    PasswordSensitive();
    NameNotSensitive();
  }

  lemma {:induction false} PasswordSensitive()
    ensures IsSensitiveKey("password")
  {
    LowerOfLower("password");
    assert OccursAt("password", SensitiveFields[0], 0);
  }

  lemma {:induction false} AccessTokenSensitive()
    ensures IsSensitiveKey("access_token")
  {
    LowerOfLower("access_token");
    assert OccursAt("access_token", SensitiveFields[7], 0);
  }

  /** Matching is case-insensitive on the key: `Authorization` is sensitive. */
  lemma {:induction false} CapitalizedKeySensitive()
    ensures IsSensitiveKey("Authorization")
  {
    assert ToLower("Authorization") == "authorization";
    assert OccursAt("authorization", SensitiveFields[4], 0);
  }
}
