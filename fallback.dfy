/** Optional values and the two JavaScript fallback operators the core relies on.

    `a ?? d` replaces only a missing value; `a || d` replaces every falsy value.
    For the values that occur in the core that means: a string falls back when it
    is missing or empty, an array falls back only when it is missing (an empty
    array is truthy), and a boolean under `??` keeps an explicit `false`. */
module Fallback {

  /** A value that may be absent (`undefined` in the source). */
  datatype Option<+T> = None | Some(value: T)

  /** Result of an operation whose error path the source can take. */
  datatype Result<+T, +E> = Ok(value: T) | Err(error: E)

  /** `a ?? d`: the supplied value, whatever it is, or `d` when none is supplied. */
  function Nullish<T>(a: Option<T>, d: T): (r: T)
    ensures a.Some? ==> r == a.value
    ensures a.None? ==> r == d
  {
    match a
    case Some(v) => v
    case None => d
  }

  /** JavaScript truthiness of a string: only the empty string is falsy. */
  predicate TruthyText(s: string) {
    s != ""
  }

  /** `a || d` on an optional string: a missing or empty string takes `d`. */
  function OrText(a: Option<string>, d: string): (r: string)
    ensures r == d || (a == Some(r) && TruthyText(r))
    ensures a.Some? && TruthyText(a.value) ==> r == a.value
    ensures TruthyText(d) ==> TruthyText(r)
  {
    if a.Some? && TruthyText(a.value) then a.value else d
  }

  /** `a || d` on an optional array: every array is truthy, so only a missing one takes `d`. */
  function OrList<T>(a: Option<seq<T>>, d: seq<T>): (r: seq<T>)
    ensures a.Some? ==> r == a.value
    ensures a.None? ==> r == d
  {
    if a.Some? then a.value else d
  }

  /** `??` keeps an explicit `false` and an explicit empty string; `||` keeps neither. */
  lemma NullishVersusOr(d: string)
    requires TruthyText(d)
    ensures Nullish(Some(false), true) == false
    ensures Nullish(Some(""), d) == ""
    ensures OrText(Some(""), d) == d
  {
  }

  /** On arrays `||` and `??` agree, because no array is falsy; in particular an empty list is kept. */
  lemma OrListIsNullish<T>(a: Option<seq<T>>, d: seq<T>)
    ensures OrList(a, d) == Nullish(a, d)
    ensures OrList(Some([]), d) == []
  {
  }
}
