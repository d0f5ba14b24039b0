/**
 * First-match search over an ordered sequence: the one rule behind every
 * handler registry of the search bridge (condition, sorting and facet
 * handlers), behind Criteria::getCondition and behind the lookup of a filter
 * node by name in the provider's response.
 */
module FirstMatch {
  import opened Wrappers

  /** The position of the first element that `accepts`, or None when no element does. */
  function Index<T>(xs: seq<T>, accepts: T -> bool): (r: Option<nat>)
    ensures r.Some? ==> r.value < |xs| && accepts(xs[r.value])
    ensures r.Some? ==> forall j :: 0 <= j < r.value ==> !accepts(xs[j])
    ensures r.None? <==> forall j :: 0 <= j < |xs| ==> !accepts(xs[j])
    decreases |xs|
  {
    if |xs| == 0 then None
    else if accepts(xs[0]) then Some(0)
    else match Index(xs[1..], accepts)
      case None => None
      case Some(k) => Some(k + 1)
  }

  /** The first element that `accepts`, or None. */
  function Find<T>(xs: seq<T>, accepts: T -> bool): (r: Option<T>)
  {
    match Index(xs, accepts)
    case None => None
    case Some(i) => Some(xs[i])
  }

  /** Index is characterised by its contract: an accepted position with nothing accepted before it is the answer. */
  lemma IndexIs<T>(xs: seq<T>, accepts: T -> bool, i: nat)
    requires i < |xs| && accepts(xs[i])
    requires forall j :: 0 <= j < i ==> !accepts(xs[j])
    ensures Index(xs, accepts) == Some(i)
  {
  }

  /**
   * Registration order is the tie-break: when two positions both accept,
   * the later one is never chosen.
   */
  lemma EarlierWins<T>(xs: seq<T>, accepts: T -> bool, i: nat, j: nat)
    requires i < j < |xs| && accepts(xs[i])
    ensures Index(xs, accepts) != Some(j)
    ensures Index(xs, accepts).Some? && Index(xs, accepts).value <= i
  {
  }
}
