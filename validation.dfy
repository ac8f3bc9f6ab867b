/**
 * The class-validator decorators the request bodies use, as predicates over a parsed JSON
 * body. A body is a map from property name to value; a property that was not sent reads
 * as `undefined`.
 */
module Validation {
  import opened Js
  import Patterns

  type Body = map<string, JsValue>

  function Field(body: Body, name: string): JsValue {
    if name in body then body[name] else Undefined
  }

  /** `@IsString()`. */
  predicate IsString(v: JsValue) { v.Str? }

  /** `@IsBoolean()`. */
  predicate IsBoolean(v: JsValue) { v.Bool? }

  /** `@IsNumber()`: any number (NaN and the infinities are not modelled). */
  predicate IsNumber(v: JsValue) { v.Num? }

  /** `@Min(m)`: a number no smaller than `m`; anything else fails. */
  predicate Min(v: JsValue, m: int) { v.Num? && v.n >= m }

  /** `@Max(m)`: a number no larger than `m`; anything else fails. */
  predicate Max(v: JsValue, m: int) { v.Num? && v.n <= m }

  /** `@IsEnum(E)`: one of the enum's values. */
  predicate IsEnum(v: JsValue, values: set<string>) { v.Str? && v.s in values }

  /** `@Matches(pattern)`: a string the pattern matches. */
  predicate MatchesPattern(v: JsValue, pattern: seq<Patterns.CharClass>) { v.Str? && Patterns.Match(v.s, pattern) }

  /** `@IsUUID()`. */
  predicate IsUuid(v: JsValue) { MatchesPattern(v, Patterns.UUID) }

  /** `@IsOptional()`: null and undefined skip the property's other checks. */
  predicate Absent(v: JsValue) { v.Undefined? || v.Null? }

  /** The names of the properties whose checks fail, in declaration order. */
  function Failing(checks: seq<(string, bool)>): (names: seq<string>)
    ensures forall n :: n in names <==> exists i :: 0 <= i < |checks| && !checks[i].1 && checks[i].0 == n
    ensures names == [] <==> forall i :: 0 <= i < |checks| ==> checks[i].1
  {
    if checks == [] then []
    else (if checks[0].1 then [] else [checks[0].0]) + Failing(checks[1..])
  }
}
