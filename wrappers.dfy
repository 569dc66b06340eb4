/** Optional values: `undefined`/`null` fields of the platforms' payloads and `null` results. */
module Wrappers {

  datatype Option<+T> = None | Some(value: T) {

    /** The wrapped value, or `default` when there is none. */
    function GetOr(default: T): T
    {
      match this
      case Some(v) => v
      case None => default
    }
  }

  /** JavaScript's `x || y` on an optional number: `undefined`, `null` and `0` are falsy. */
  function OrNumber(x: Option<real>, y: real): (r: real)
    ensures x.Some? && x.value != 0.0 ==> r == x.value
    ensures (x.None? || x.value == 0.0) ==> r == y
  {
    if x.Some? && x.value != 0.0 then x.value else y
  }

  /** JavaScript's `x || y` on optional numbers, keeping the result optional. */
  function OrOption(x: Option<real>, y: Option<real>): (r: Option<real>)
    ensures x.Some? && x.value != 0.0 ==> r == x
    ensures (x.None? || x.value == 0.0) ==> r == y
  {
    if x.Some? && x.value != 0.0 then x else y
  }

  /** JavaScript's `s || t` on strings: only the empty string is falsy. */
  function OrString(s: string, t: string): (r: string)
    ensures s != "" ==> r == s
    ensures s == "" ==> r == t
  {
    if s != "" then s else t
  }
}
