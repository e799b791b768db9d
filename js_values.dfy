/** The few JavaScript value rules the gallery code relies on: truthiness,
    `||` defaults, default parameters and template-literal rendering. */
module JsValues {

  datatype Option<T> = None | Some(value: T)

  /** Each element of `s` wrapped as a present value, in order. */
  function AsSome<T>(s: seq<T>): (r: seq<Option<T>>)
    ensures |r| == |s| && forall k :: 0 <= k < |s| ==> r[k] == Some(s[k])
  {
    seq(|s|, k requires 0 <= k < |s| => Some(s[k]))
  }

  lemma AsSomeCons<T>(x: T, s: seq<T>)
    ensures AsSome([x] + s) == [Some(x)] + AsSome(s)
  {
    assert forall k :: 0 < k < |s| + 1 ==> ([x] + s)[k] == s[k - 1];
  }

  predicate IsSome<T>(v: Option<T>) {
    v.Some?
  }

  /** A string-valued slot of a decoded JSON object: the property may be
      missing (`undefined`), `null`, or a string. */
  datatype JsString = Undefined | Null | Str(s: string)

  /** JavaScript truthiness of a string slot: only a non-empty string is truthy. */
  predicate Truthy(v: JsString) {
    v.Str? && v.s != ""
  }

  /** `v || fallback` for a string slot. */
  function OrElse(v: JsString, fallback: string): string {
    if Truthy(v) then v.s else fallback
  }

  /** `r` is what `v || fallback` gives: the slot's own string when it is
      truthy, the fallback when it is missing, null or empty. */
  predicate KeptOr(v: JsString, fallback: string, r: string) {
    (Truthy(v) ==> r == v.s) && (!Truthy(v) ==> r == fallback)
  }

  /** `${v}` in a template literal. */
  function Render(v: JsString): string {
    match v
    case Undefined => "undefined"
    case Null => "null"
    case Str(s) => s
  }

  /** An argument bound to a parameter declared `p = d`: the default
      replaces `undefined` only; the function then uses it as a string. */
  function DefaultParam(v: JsString, d: string): string {
    if v.Undefined? then d else Render(v)
  }

  /** The outcome of `await fetch(url)` followed by `await response.json()`:
      either the decoded body or a rejected promise. */
  datatype Fetched<T> = Failed | Got(value: T)
}
