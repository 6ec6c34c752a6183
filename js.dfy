/**
 The few JavaScript value rules the Token Details page relies on: optional
 values, the `undefined`/`null`/value split, truthiness of strings, the
 nullish-coalescing operator `??`, template-string interpolation and
 `String.prototype.toLowerCase` on the ASCII range.
 */
module Js {

  /** A value that is either absent (`undefined`) or present. */
  datatype Option<+T> = None | Some(value: T)

  /** A JavaScript value of type `T | null | undefined`. */
  datatype Nullable<+T> = Undefined | Null | Val(value: T)

  /** `Boolean(s)` for an optional string: absent and empty strings are falsy. */
  predicate StrTruthy(s: Option<string>)
  {
    s.Some? && s.value != ""
  }

  /** `Boolean(x)` for a nullable object: only a present object is truthy. */
  predicate Present<T>(x: Nullable<T>)
  {
    x.Val?
  }

  /** `a ?? b`: the right operand is taken exactly when the left is null or undefined. */
  function Coalesce<T>(a: Nullable<T>, b: Nullable<T>): (r: Nullable<T>)
    ensures a.Val? ==> r == a
    ensures !a.Val? ==> r == b
    ensures r.Null? <==> !a.Val? && b.Null?
  {
    if a.Val? then a else b
  }

  /** `${s}` for an optional string: an absent value prints as "undefined". */
  function Interpolate(s: Option<string>): (r: string)
    ensures s.Some? ==> r == s.value
    ensures s.None? ==> r == "undefined"
  {
    match s
    case Some(v) => v
    case None => "undefined"
  }

  function LowerChar(c: char): char
  {
    if 'A' <= c <= 'Z' then (c as int + 32) as char else c
  }

  /** `s.toLowerCase()`, restricted to the ASCII letters. */
  function Lower(s: string): (r: string)
    ensures |r| == |s|
    ensures forall i :: 0 <= i < |s| ==> !('A' <= r[i] <= 'Z')
    ensures forall i :: 0 <= i < |s| ==> (s[i] == r[i] || 'A' <= s[i] <= 'Z')
    ensures forall i :: 0 <= i < |s| ==> ('A' <= s[i] <= 'Z' ==> r[i] as int == s[i] as int + 32)
  {
    seq(|s|, i requires 0 <= i < |s| => LowerChar(s[i]))
  }

  /** Lower-casing keeps every character it does not touch, so a separator stays absent. */
  lemma LowerKeepsSlashFree(s: string)
    requires '/' !in s
    ensures '/' !in Lower(s)
  {
  }
}
