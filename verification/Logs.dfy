/** Entries of a history that satisfy a condition. */
module Logs {
  /** How many do. */
  function Tally<X>(log: seq<X>, p: X -> bool): nat {
    if log == [] then 0 else Tally(log[..|log| - 1], p) + if p(log[|log| - 1]) then 1 else 0
  }

  /** Those that do, in order. */
  function Kept<X>(log: seq<X>, p: X -> bool): seq<X> {
    if log == [] then [] else Kept(log[..|log| - 1], p) + if p(log[|log| - 1]) then [log[|log| - 1]] else []
  }

  /** Those that do from entry `i` up to `j`. */
  function KeptFrom<X>(log: seq<X>, i: nat, j: nat, p: X -> bool): seq<X>
    requires j <= |log|
    decreases j
  {
    if j <= i then [] else KeptFrom(log, i, j - 1, p) + if p(log[j - 1]) then [log[j - 1]] else []
  }
}
