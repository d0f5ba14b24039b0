/**
 * The host shop's generic search model as the search bridge sees it: the
 * Criteria with its conditions, sortings and requested facets, the shop
 * context, the provider's filter nodes and the result types. These types
 * belong to the shop framework; only the members the bridge calls are
 * modelled.
 */
module SearchTypes {
  import opened Wrappers
  import FirstMatch

  /** The largest PHP integer on a 64-bit build, used as "no upper bound". */
  const PHP_INT_MAX: int := 0x7FFF_FFFF_FFFF_FFFF

  /**
   * A search condition. Shopware's PriceCondition is named "price" and carries
   * a minimum and an optional maximum price; every other condition is
   * described by its name, its field and the scalar values it was given
   * (the keys set in getValues(), such as "min" and "max").
   */
  datatype Condition =
    | PriceCondition(field: string, minPrice: int, maxPrice: Option<int>)
    | GenericCondition(name: string, field: string, values: map<string, int>)
  {
    function Name(): string {
      match this
      case PriceCondition(_, _, _) => "price"
      case GenericCondition(n, _, _) => n
    }
  }

  /** A sorting: its kind and its direction string ("ASC" or "DESC" in Shopware). */
  datatype Sorting =
    | PopularitySorting(direction: string)
    | PriceSorting(direction: string)
    | ProductNameSorting(direction: string)
    | ReleaseDateSorting(direction: string)
    | OtherSorting(name: string, direction: string)

  /** The display mode of a product attribute facet; NoMode for facets without one. */
  datatype FacetMode = ValueListMode | RadioMode | BooleanMode | RangeMode | NoMode

  /** A facet the caller asked for: its name, the field it is bound to, and its mode. */
  datatype Facet = Facet(name: string, field: string, mode: FacetMode)

  /**
   * The Criteria object. Conditions are kept in two ordered groups, base
   * conditions and user conditions; getConditions() lists the base group
   * first. Offset and limit stay null (None) until the caller sets them.
   */
  datatype Criteria = Criteria(
    baseConditions: seq<Condition>,
    userConditions: seq<Condition>,
    sortings: seq<Sorting>,
    facets: seq<Facet>,
    offset: Option<int>,
    limit: Option<int>,
    fetchCount: bool)
  {
    function Conditions(): seq<Condition> {
      baseConditions + userConditions
    }

    /** The condition called `name`, base conditions first, or None. */
    function GetCondition(name: string): Option<Condition> {
      FirstMatch.Find(Conditions(), NamedCondition(name))
    }

    /** Whether the user (not the shop) set a condition called `name`. */
    predicate HasUserCondition(name: string) {
      FirstMatch.Index(userConditions, NamedCondition(name)).Some?
    }
  }

  function NamedCondition(name: string): Condition -> bool {
    (c: Condition) => c.Name() == name
  }

  /** The parts of the shop context the bridge reads: the current customer group's key. */
  datatype ShopContext = ShopContext(customerGroupKey: string)

  /** A closed numeric range as the provider writes it: min and max. */
  datatype Bounds = Bounds(min: int, max: int)

  /**
   * A filter node of the provider's response: a list filter (type "label",
   * "select", "image", "color", ...) with its item names, or a "range-slider"
   * filter with its total and selected range.
   */
  datatype FilterNode =
    | ListFilter(name: string, filterType: string, items: seq<string>)
    | RangeFilter(name: string, totalRange: Bounds, selectedRange: Bounds)
  {
    function FilterType(): string {
      match this
      case ListFilter(_, t, _) => t
      case RangeFilter(_, _, _) => "range-slider"
    }
  }

  /** A renderable facet produced by a facet handler. */
  datatype PartialFacet = PartialFacet(facetName: string, title: string, items: seq<string>)

  /** ProductNumberSearchResult: the product numbers, the total count and the facets. */
  datatype SearchResult = SearchResult(products: seq<string>, totalCount: int, facets: seq<PartialFacet>)

  /** A user condition is also found by GetCondition, so the lookups of the facet code agree. */
  lemma UserConditionIsFound(criteria: Criteria, name: string)
    requires criteria.HasUserCondition(name)
    ensures criteria.GetCondition(name).Some?
    ensures criteria.GetCondition(name).value.Name() == name
  {
    var i := FirstMatch.Index(criteria.userConditions, NamedCondition(name)).value;
    var all := criteria.Conditions();
    assert all[|criteria.baseConditions| + i] == criteria.userConditions[i];
    assert NamedCondition(name)(all[|criteria.baseConditions| + i]);
  }
}
