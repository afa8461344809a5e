/** Which records the overlay shows expanded: a set of record indices. */
module Expansion {

  /** `toggleExpand(index)`: a copy of the set with `index` removed if present, added if absent. */
  function Toggle(expanded: set<nat>, index: nat): (r: set<nat>)
    ensures index in r <==> index !in expanded
    ensures forall j :: j != index ==> (j in r <==> j in expanded)
  {
    if index in expanded then expanded - {index} else expanded + {index}
  }

  /** Toggling the same record twice gives back the original set. */
  lemma ToggleTwice(expanded: set<nat>, index: nat)
    ensures Toggle(Toggle(expanded, index), index) == expanded
  {
  }

  /** Toggles of two different records do not interfere. */
  lemma ToggleCommutes(expanded: set<nat>, i: nat, j: nat)
    ensures Toggle(Toggle(expanded, i), j) == Toggle(Toggle(expanded, j), i)
  {
  }
}
