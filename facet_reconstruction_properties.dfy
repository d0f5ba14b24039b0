/**
 * Properties of createFacets: at most one facet per requested facet, in
 * requested order; the first node with the facet's field name is used; which
 * facets are dropped; which missing facets end the run with an error; and
 * how a missing price filter is meant to be synthesised.
 */
module FacetReconstructionProperties {
  import opened Wrappers
  import opened SearchTypes
  import FirstMatch
  import opened ProductNumberSearch

  /** Sequencing of two createFacets runs: the first error wins, otherwise the facets are joined. */
  function Then(first: Result<seq<PartialFacet>, FacetError>, second: Result<seq<PartialFacet>, FacetError>)
    : Result<seq<PartialFacet>, FacetError>
  {
    match first
    case Err(e) => Err(e)
    case Ok(xs) =>
      match second
      case Err(e) => Err(e)
      case Ok(ys) => Ok(xs + ys)
  }

  /**
   * Requested facets are handled one after another in requested order: the
   * facets of a + b are those of a followed by those of b.
   */
  lemma {:induction false} FacetsAppend(
    handlers: seq<FacetHandler>, criteria: Criteria, a: seq<Facet>, b: seq<Facet>, filters: seq<FilterNode>)
    ensures Facets(handlers, criteria, a + b, filters)
         == Then(Facets(handlers, criteria, a, filters), Facets(handlers, criteria, b, filters))
    decreases |b|
  {
    if |b| == 0 {
      assert a + b == a;
      match Facets(handlers, criteria, a, filters)
      case Err(_) =>
      case Ok(xs) => assert xs + [] == xs;
    } else {
      var b' := b[..|b| - 1];
      var f := b[|b| - 1];
      assert (a + b)[..|a + b| - 1] == a + b';
      assert (a + b)[|a + b| - 1] == f;
      FacetsAppend(handlers, criteria, a, b', filters);
      match Facets(handlers, criteria, a, filters)
      case Err(_) =>
      case Ok(xs) =>
        match Facets(handlers, criteria, b', filters)
        case Err(_) =>
        case Ok(ys) =>
          match FacetStep(handlers, criteria, f, filters)
          case Err(_) =>
          case Ok(None) =>
          case Ok(Some(p)) => assert xs + ys + [p] == xs + (ys + [p]);
    }
  }

  /** A single requested facet gives no facet, exactly one, or the error. */
  lemma FacetsOfOne(handlers: seq<FacetHandler>, criteria: Criteria, facet: Facet, filters: seq<FilterNode>)
    ensures Facets(handlers, criteria, [facet], filters)
         == match FacetStep(handlers, criteria, facet, filters)
            case Err(e) => Err(e)
            case Ok(None) => Ok([])
            case Ok(Some(p)) => Ok([p])
  {
    assert [facet][..0] == [];
    assert Facets(handlers, criteria, [], filters) == Ok([]);
    match FacetStep(handlers, criteria, facet, filters)
    case Err(_) =>
    case Ok(None) =>
    case Ok(Some(p)) => assert [] + [p] == [p];
  }

  /**
   * Hence the facet produced for a requested facet sits between those of the
   * facets requested before and after it, and is at most one.
   */
  lemma FacetInPlace(
    handlers: seq<FacetHandler>, criteria: Criteria, a: seq<Facet>, facet: Facet, b: seq<Facet>, filters: seq<FilterNode>)
    requires Facets(handlers, criteria, a, filters).Ok? && Facets(handlers, criteria, b, filters).Ok?
    requires FacetStep(handlers, criteria, facet, filters).Ok?
    ensures Facets(handlers, criteria, a + [facet] + b, filters)
         == Ok(Facets(handlers, criteria, a, filters).value
               + (match FacetStep(handlers, criteria, facet, filters).value
                  case None => []
                  case Some(p) => [p])
               + Facets(handlers, criteria, b, filters).value)
  {
    FacetsAppend(handlers, criteria, a + [facet], b, filters);
    FacetsAppend(handlers, criteria, a, [facet], filters);
    FacetsOfOne(handlers, criteria, facet, filters);
  }

  /** When several nodes carry the facet's field name, the first of them is the one used. */
  lemma FirstNodeUsed(criteria: Criteria, facet: Facet, filters: seq<FilterNode>, i: nat)
    requires i < |filters| && filters[i].name == facet.field
    requires forall j :: 0 <= j < i ==> filters[j].name != facet.field
    ensures SelectFilter(criteria, facet, filters) == Selected(filters[i])
  {
    FirstMatch.IndexIs(filters, NamedFilter(facet.field), i);
  }

  /**
   * A requested facet is dropped exactly when the provider returned no node
   * for it and the user set no condition of that name, or when no handler
   * supports its node, or when the handler makes nothing of it.
   */
  lemma FacetDropped(handlers: seq<FacetHandler>, criteria: Criteria, facet: Facet, filters: seq<FilterNode>)
    ensures FacetStep(handlers, criteria, facet, filters) == Ok(None)
        <==> || (FirstMatch.Find(filters, NamedFilter(facet.field)).None? && !criteria.HasUserCondition(facet.name))
             || (SelectFilter(criteria, facet, filters).Selected?
                 && var node := SelectFilter(criteria, facet, filters).node;
                    || FirstMatch.Find(handlers, SupportsFilter(node)).None?
                    || FirstMatch.Find(handlers, SupportsFilter(node)).value.behaviour.generatePartialFacet(facet, criteria, node).None?)
  {
  }

  /**
   * As intended, a price facet the provider left out while the user filtered
   * by price is rebuilt as a range-slider node whose total and selected ranges
   * are both the user's [min, max], an absent or zero max reading as
   * PHP_INT_MAX.
   */
  lemma MissingPriceFacetSynthesised(criteria: Criteria, facet: Facet, filters: seq<FilterNode>)
    requires NoNodeNamed(filters, facet.field)
    requires IsPriceFacet(facet)
    requires criteria.HasUserCondition(facet.name)
    ensures criteria.GetCondition(facet.name).Some?
    ensures var c := criteria.GetCondition(facet.name).value;
            c.PriceCondition? ==>
              var range := Bounds(c.minPrice, if c.maxPrice == None || c.maxPrice == Some(0) then PHP_INT_MAX else c.maxPrice.value);
              RepairedSelectFilter(criteria, facet, filters) == Selected(RangeFilter(c.field, range, range))
  {
    UserConditionIsFound(criteria, facet.name);
  }

  /**
   * As written, any facet the provider left out while the user set a condition
   * of its name ends createFacets with an error: createSelectedFilter's parse
   * failure to build a node for a price facet, the TypeError for any other.
   */
  lemma MissingFacetFails(
    handlers: seq<FacetHandler>, criteria: Criteria, facets: seq<Facet>, filters: seq<FilterNode>, i: nat)
    requires i < |facets|
    requires NoNodeNamed(filters, facets[i].field)
    requires criteria.HasUserCondition(facets[i].name)
    ensures FacetStep(handlers, criteria, facets[i], filters)
         == Err(if IsPriceFacet(facets[i]) then SelectedFilterNotBuilt(facets[i].name) else FilterIsNotAnElement(facets[i].name))
    ensures Facets(handlers, criteria, facets, filters).Err?
  {
    assert FacetFails(criteria, facets[i], filters);
  }

  /**
   * The discrepancy on one input: a user price filter from 10 with no maximum,
   * a requested price facet and an answer without filter nodes. As written the
   * search fails because no node is built; as intended the price facet is
   * rebuilt as the range [10, PHP_INT_MAX].
   */
  lemma PriceFacetWithoutNodeFails(handlers: seq<FacetHandler>)
    ensures var facet := Facet("price", "price", RangeMode);
            var criteria := Criteria([], [PriceCondition("price", 10, None)], [], [facet], None, None, true);
            && Facets(handlers, criteria, criteria.facets, []) == Err(SelectedFilterNotBuilt("price"))
            && RepairedSelectFilter(criteria, facet, [])
               == Selected(RangeFilter("price", Bounds(10, PHP_INT_MAX), Bounds(10, PHP_INT_MAX)))
  {
    var facet := Facet("price", "price", RangeMode);
    var criteria := Criteria([], [PriceCondition("price", 10, None)], [], [facet], None, None, true);
    FirstMatch.IndexIs(criteria.userConditions, NamedCondition("price"), 0);
    MissingFacetFails(handlers, criteria, criteria.facets, [], 0);
    FacetsOfOne(handlers, criteria, facet, []);
    MissingPriceFacetSynthesised(criteria, facet, []);
  }
}
