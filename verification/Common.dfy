/** What several components share: optional results, sequences, and constants of
    libraries/chain/include/graphene/chain/config.hpp. */
module Common {

  const MAX_SHARE_SUPPLY: nat := 1000000000000000000
  const HUNDRED_PERCENT: nat := 10000
  const MIN_UNDO_HISTORY: nat := 10

  datatype Option<+T> = None | Some(value: T)

  /** Popping from the front while there are more than `limit` elements. */
  function Trim<T>(s: seq<T>, limit: nat): seq<T> {
    if |s| > limit then s[|s| - limit..] else s
  }

  function Reversed<T>(s: seq<T>): (r: seq<T>)
    ensures |r| == |s| && forall i :: 0 <= i < |s| ==> r[i] == s[|s| - 1 - i]
  {
    if s == [] then [] else Reversed(s[1..]) + [s[0]]
  }

  function Total(s: seq<nat>): nat {
    if s == [] then 0 else s[0] + Total(s[1..])
  }
}
