/** The optional-value datatype used throughout the model.
    JavaScript's `null` and `undefined` both become `None`. Most reads in the
    modelled code go through `??`, optional chaining or a truthiness test,
    which treat the two alike; the `!== undefined` tests of
    `updateGoalsConfig` and `setStreamInfo` do tell them apart, and there a
    `null` field is modelled as an omitted one. */
module Wrappers {

  datatype Option<+T> = None | Some(value: T) {

    /** The value, or `default` when absent (the `??` operator). */
    function GetOr(default: T): T {
      match this
      case Some(v) => v
      case None => default
    }
  }

  /** A list that is omitted when empty: `list.length > 0 ? list : undefined`. */
  function NonEmpty<T>(s: seq<T>): (r: Option<seq<T>>)
    ensures r.None? <==> |s| == 0
    ensures r.Some? ==> r.value == s
  {
    if |s| > 0 then Some(s) else None
  }
}
