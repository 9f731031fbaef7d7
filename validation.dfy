/**
 * The outcome of a schema parse: the parsed value, or the list of issues found.
 * Every check of every field runs, so all issues are reported together, each
 * under the path of the field it concerns.
 */
module Validation {
  import opened Wrappers
  import opened JsValue

  datatype Issue = Issue(path: seq<string>, message: string)

  type Parsed<T> = Result<T, seq<Issue>>

  /** The property `key` of an object, as an object schema reads it. */
  function Field(body: Value, key: string): Value
    requires IsRecord(body)
  {
    Get(body, key)
  }

  /** The issues of one field, put under that field's name. */
  function Under(key: string, issues: seq<Issue>): (r: seq<Issue>)
    ensures |r| == |issues|
    ensures forall i :: 0 <= i < |r| ==> r[i] == Issue([key] + issues[i].path, issues[i].message)
  {
    if issues == [] then [] else [Issue([key] + issues[0].path, issues[0].message)] + Under(key, issues[1..])
  }

  /** One issue at the root of the field being checked. */
  function Fail(message: string): seq<Issue> {
    [Issue([], message)]
  }

  /** The issues of a parse, none when it succeeded. */
  function IssuesOf<T>(r: Parsed<T>): (issues: seq<Issue>)
    ensures r.Ok? ==> issues == []
  {
    if r.Err? then r.error else []
  }

  /**
   * A type mismatch. The schema library's message also names the type received;
   * the model keeps only the expected one.
   */
  function TypeIssue(expected: string): seq<Issue> {
    Fail("Expected " + expected)
  }

  /** A required field that is absent. */
  const Required := Fail("Required")

  /** An issue as the JSON value a response body carries. */
  function IssueValue(i: Issue): Value {
    Obj(map["path" := Arr(seq(|i.path|, k requires 0 <= k < |i.path| => Str(i.path[k]))), "message" := Str(i.message)])
  }

  function IssuesValue(issues: seq<Issue>): (r: Value)
    ensures r.Arr? && |r.items| == |issues|
  {
    Arr(seq(|issues|, k requires 0 <= k < |issues| => IssueValue(issues[k])))
  }

  /**
   * The `ZodError` that `parse` throws: an `Error` named "ZodError" whose own
   * enumerable `issues` property lists the issues. Its message, the JSON text of
   * the issues, is not modelled and left empty.
   */
  function ZodError(issues: seq<Issue>): (e: Value)
    ensures e.ErrorObj? && e.name == "ZodError"
    ensures "issues" in e.props && e.props["issues"] == IssuesValue(issues)
  {
    ErrorObj("ZodError", "", None, map["issues" := IssuesValue(issues), "name" := Str("ZodError")])
  }
}
