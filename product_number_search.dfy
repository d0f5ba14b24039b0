/**
 * ProductNumberSearch: decides whether the provider is asked at all, runs the
 * product query, falls back to the shop's own search on an empty answer, and
 * turns the provider's filter nodes back into facets.
 */
module ProductNumberSearch {
  import opened Wrappers
  import opened SearchTypes
  import opened QueryBuilders
  import FirstMatch
  import QueryBuilderFactory

  // ----- facet handlers -----

  datatype FacetHandlerKind =
    | CategoryFacetHandler
    | ColorFacetHandler
    | ImageFacetHandler
    | RangeFacetHandler
    | TextFacetHandler

  /**
   * The rules of a facet handler whose code is not part of this model:
   * supportsFilter, and generatePartialFacet, which may return null.
   */
  datatype FacetBehaviour = FacetBehaviour(
    supportsFilter: FilterNode -> bool,
    generatePartialFacet: (Facet, Criteria, FilterNode) -> Option<PartialFacet>)

  datatype FacetHandler = FacetHandler(kind: FacetHandlerKind, behaviour: FacetBehaviour)
  {
    predicate SupportsFilter(filter: FilterNode) {
      behaviour.supportsFilter(filter)
    }
  }

  /**
   * registerFacetHandlers: each of the five facet handlers once, in the order
   * Category, Color, Image, Range, Text, each with its own rules.
   */
  function RegisteredFacetHandlers(
    category: FacetBehaviour, color: FacetBehaviour, image: FacetBehaviour,
    range: FacetBehaviour, text: FacetBehaviour): (r: seq<FacetHandler>)
    ensures |r| == 5
    ensures forall i, j :: 0 <= i < j < |r| ==> r[i].kind != r[j].kind
    ensures r[0].kind == CategoryFacetHandler && r[0].behaviour == category
    ensures r[1].kind == ColorFacetHandler && r[1].behaviour == color
    ensures r[2].kind == ImageFacetHandler && r[2].behaviour == image
    ensures r[3].kind == RangeFacetHandler && r[3].behaviour == range
    ensures r[4].kind == TextFacetHandler && r[4].behaviour == text
  {
    [ FacetHandler(CategoryFacetHandler, category),
      FacetHandler(ColorFacetHandler, color),
      FacetHandler(ImageFacetHandler, image),
      FacetHandler(RangeFacetHandler, range),
      FacetHandler(TextFacetHandler, text) ]
  }

  function SupportsFilter(filter: FilterNode): FacetHandler -> bool {
    (h: FacetHandler) => h.SupportsFilter(filter)
  }

  // ----- facet reconstruction -----

  /** PHP's `$max ?: PHP_INT_MAX`: an absent or zero maximum means "no upper bound". */
  function UpperPriceBound(maxPrice: Option<int>): int {
    match maxPrice
    case None => PHP_INT_MAX
    case Some(m) => if m == 0 then PHP_INT_MAX else m
  }

  /** `isset($values[key]) ? $values[key] : default`. */
  function ValueOr(values: map<string, int>, key: string, default: int): int {
    if key in values then values[key] else default
  }

  /**
   * createSelectedFilter: the filter node its branches set out to build for a
   * facet the provider did not return although the user set a condition for
   * it. Every branch first parses the empty string as an XML document, which
   * throws, so as written no node is ever returned (SelectFilter models that);
   * this is the node the branches evidently intend, used by RepairedSelectFilter.
   */
  function CreateSelectedFilter(facet: Facet, condition: Condition): (node: FilterNode)
    ensures node.name == condition.field
    ensures node.RangeFilter? <==> condition.PriceCondition? || facet.mode == RangeMode
    ensures node.RangeFilter? ==> node.totalRange == node.selectedRange
    ensures condition.PriceCondition? ==> node.selectedRange.min == condition.minPrice
    ensures condition.PriceCondition? && condition.maxPrice.Some? && condition.maxPrice.value != 0 ==>
              node.selectedRange.max == condition.maxPrice.value
    ensures condition.PriceCondition? && (condition.maxPrice == None || condition.maxPrice == Some(0)) ==>
              node.selectedRange.max == PHP_INT_MAX
    ensures condition.GenericCondition? && facet.mode == RangeMode ==>
              && node.selectedRange.min == (if "min" in condition.values then condition.values["min"] else 0)
              && node.selectedRange.max == (if "max" in condition.values then condition.values["max"] else PHP_INT_MAX)
    ensures node.ListFilter? ==> node.filterType == "label" && node.items == []
  {
    match condition
    case PriceCondition(field, minPrice, maxPrice) =>
      var range := Bounds(minPrice, UpperPriceBound(maxPrice));
      RangeFilter(field, range, range)
    case GenericCondition(_, field, values) =>
      if facet.mode == RangeMode then
        var range := Bounds(ValueOr(values, "min", 0), ValueOr(values, "max", PHP_INT_MAX));
        RangeFilter(field, range, range)
      else
        ListFilter(field, "label", [])
  }

  function NamedFilter(name: string): FilterNode -> bool {
    (n: FilterNode) => n.name == name
  }

  /** No node of the provider's answer carries the name `name`. */
  predicate NoNodeNamed(filters: seq<FilterNode>, name: string) {
    forall j :: 0 <= j < |filters| ==> filters[j].name != name
  }

  /** The facets createFacets tries to rebuild when the provider left them out. */
  predicate IsPriceFacet(facet: Facet) {
    facet.name == "price" || facet.field == "price"
  }

  /**
   * What createFacets hands to getFacetHandler for one facet: a node, nothing
   * (the facet is skipped), the failure of createSelectedFilter, or the empty
   * lookup result itself, which is not a node at all.
   */
  datatype SelectedFilter = Selected(node: FilterNode) | Skipped | SynthesisFailed | EmptyLookup

  /**
   * The selection as the code is written: the first node carrying the facet's
   * field name; when there is none, nothing unless the user set a condition of
   * the facet's name; then, for a price facet, the failure of
   * createSelectedFilter, and for any other facet the empty lookup result.
   */
  function SelectFilter(criteria: Criteria, facet: Facet, filters: seq<FilterNode>): (r: SelectedFilter)
    ensures r.Selected? ==> r.node in filters && r.node.name == facet.field
    ensures r.Selected? <==> !NoNodeNamed(filters, facet.field)
    ensures r.Skipped? <==> NoNodeNamed(filters, facet.field) && !criteria.HasUserCondition(facet.name)
    ensures r.SynthesisFailed? <==>
              NoNodeNamed(filters, facet.field) && criteria.HasUserCondition(facet.name) && IsPriceFacet(facet)
    ensures r.EmptyLookup? <==>
              NoNodeNamed(filters, facet.field) && criteria.HasUserCondition(facet.name) && !IsPriceFacet(facet)
  {
    match FirstMatch.Find(filters, NamedFilter(facet.field))
    case Some(node) => Selected(node)
    case None =>
      if !criteria.HasUserCondition(facet.name) then Skipped
      else if IsPriceFacet(facet) then SynthesisFailed
      else EmptyLookup
  }

  /**
   * The selection as evidently intended: where SelectFilter fails to build a
   * price node, the node createSelectedFilter sets out to build from the
   * user's condition; everywhere else the same as SelectFilter.
   */
  function RepairedSelectFilter(criteria: Criteria, facet: Facet, filters: seq<FilterNode>): (r: SelectedFilter)
    ensures !r.SynthesisFailed?
    ensures !SelectFilter(criteria, facet, filters).SynthesisFailed? ==> r == SelectFilter(criteria, facet, filters)
  {
    match SelectFilter(criteria, facet, filters)
    case SynthesisFailed =>
      UserConditionIsFound(criteria, facet.name);
      Selected(CreateSelectedFilter(facet, criteria.GetCondition(facet.name).value))
    case other => other
  }

  /**
   * The errors that end createFacets: the empty lookup result reaching
   * getFacetHandler's SimpleXMLElement parameter (a TypeError), and
   * createSelectedFilter throwing before it returns a node (every branch
   * reaches `new SimpleXMLElement('')`, which cannot parse the empty string;
   * the range branch may fail earlier still, on the condition's getValues()).
   */
  datatype FacetError = FilterIsNotAnElement(facetName: string) | SelectedFilterNotBuilt(facetName: string)

  /** The facet the first supporting handler makes of a node, or None. */
  function PartialFacetFor(handlers: seq<FacetHandler>, criteria: Criteria, facet: Facet, node: FilterNode): Option<PartialFacet> {
    match FirstMatch.Find(handlers, SupportsFilter(node))
    case None => None
    case Some(h) => h.behaviour.generatePartialFacet(facet, criteria, node)
  }

  /**
   * One pass of the createFacets loop: a facet, no facet, or the error that
   * ends the loop. A facet comes only from a node the provider returned, and
   * the error comes exactly from a facet the provider left out although the
   * user set a condition of its name.
   */
  function FacetStep(handlers: seq<FacetHandler>, criteria: Criteria, facet: Facet, filters: seq<FilterNode>)
    : (r: Result<Option<PartialFacet>, FacetError>)
    ensures r.Ok? && r.value.Some? ==> !NoNodeNamed(filters, facet.field)
    ensures r.Err? <==> NoNodeNamed(filters, facet.field) && criteria.HasUserCondition(facet.name)
    ensures r.Err? ==> r.error.facetName == facet.name
    ensures r.Err? ==> (r.error.SelectedFilterNotBuilt? <==> IsPriceFacet(facet))
  {
    match SelectFilter(criteria, facet, filters)
    case Skipped => Ok(None)
    case SynthesisFailed => Err(SelectedFilterNotBuilt(facet.name))
    case EmptyLookup => Err(FilterIsNotAnElement(facet.name))
    case Selected(node) => Ok(PartialFacetFor(handlers, criteria, facet, node))
  }

  /** The provider left the facet out although the user set a condition of its name. */
  predicate FacetFails(criteria: Criteria, facet: Facet, filters: seq<FilterNode>) {
    NoNodeNamed(filters, facet.field) && criteria.HasUserCondition(facet.name)
  }

  /** The facets createFacets produces for the requested facets `facets`, in their order. */
  function Facets(handlers: seq<FacetHandler>, criteria: Criteria, facets: seq<Facet>, filters: seq<FilterNode>)
    : (r: Result<seq<PartialFacet>, FacetError>)
    ensures r.Ok? ==> |r.value| <= |facets|
    ensures r.Ok? <==> forall k :: 0 <= k < |facets| ==> !FacetFails(criteria, facets[k], filters)
    ensures r.Err? ==> exists k :: 0 <= k < |facets| && FacetFails(criteria, facets[k], filters)
                                  && r.error.facetName == facets[k].name
    decreases |facets|
  {
    if |facets| == 0 then Ok([])
    else
      match Facets(handlers, criteria, facets[..|facets| - 1], filters)
      case Err(e) => Err(e)
      case Ok(done) =>
        match FacetStep(handlers, criteria, facets[|facets| - 1], filters)
        case Err(e) => Err(e)
        case Ok(None) => Ok(done)
        case Ok(Some(p)) => Ok(done + [p])
  }

  // ----- the search -----

  /** The provider's answer: nothing usable, or the parsed XML document. */
  datatype Response =
    | EmptyResponse
    | XmlResponse(totalResults: int, productIds: seq<string>, filters: seq<FilterNode>, landingPage: Option<string>)

  /** How a search ends. */
  datatype SearchOutcome =
    | Delegated(result: SearchResult)
    | Redirected(location: string)
    | Found(result: SearchResult)
    | Failed(error: FacetError)

  /** `$hasLandingpage != null` is a loose comparison: an empty location is no redirect. */
  function RedirectTarget(landingPage: Option<string>): (target: Option<string>)
    ensures target.Some? <==> landingPage.Some? && landingPage.value != ""
    ensures target.Some? ==> target.value == landingPage.value
  {
    match landingPage
    case Some(url) => if url != "" then Some(url) else None
    case None => None
  }

  /**
   * The provider's search endpoint as the query builder's execute() reaches
   * it: the answer is a function of the query sent, and `sent` records every
   * query sent so far, in order.
   */
  class Provider {
    const respond: QueryState -> Response
    var sent: seq<QueryState>

    constructor (respond: QueryState -> Response)
      ensures this.respond == respond && sent == []
    {
      this.respond := respond;
      sent := [];
    }

    /** execute(): sends one query and returns the answer to it. */
    method Execute(query: QueryState) returns (response: Response)
      modifies this
      ensures sent == old(sent) + [query]
      ensures response == respond(query)
    {
      sent := sent + [query];
      response := respond(query);
    }
  }

  class ProductNumberSearch {
    const originalService: (Criteria, ShopContext) -> SearchResult
    const queryBuilderFactory: QueryBuilderFactory.NewQueryBuilderFactory
    const facetHandlers: seq<FacetHandler>
    /** The shop's lookup of product numbers by the provider's product ids. */
    const articlesFromFindologicIds: seq<string> -> seq<string>

    constructor (
      service: (Criteria, ShopContext) -> SearchResult,
      factory: QueryBuilderFactory.NewQueryBuilderFactory,
      category: FacetBehaviour, color: FacetBehaviour, image: FacetBehaviour,
      range: FacetBehaviour, text: FacetBehaviour,
      articles: seq<string> -> seq<string>)
      ensures originalService == service && queryBuilderFactory == factory
      ensures facetHandlers == RegisteredFacetHandlers(category, color, image, range, text)
      ensures articlesFromFindologicIds == articles
    {
      originalService := service;
      queryBuilderFactory := factory;
      facetHandlers := RegisteredFacetHandlers(category, color, image, range, text);
      articlesFromFindologicIds := articles;
    }

    /** The query createProductQuery builds for these inputs. */
    function ProductQuery(criteria: Criteria, context: ShopContext, isSearchPage: bool): QueryState {
      QueryBuilderFactory.ProductQueryState(
        queryBuilderFactory.conditionHandlers, queryBuilderFactory.sortingHandlers, criteria, context, isSearchPage)
    }

    /** getFacetHandler: the first registered handler that supports the node, or null. */
    method GetFacetHandler(filter: FilterNode) returns (handler: Option<FacetHandler>)
      ensures handler == FirstMatch.Find(facetHandlers, SupportsFilter(filter))
    {
      var i := 0;
      while i < |facetHandlers|
        invariant i <= |facetHandlers|
        invariant forall j :: 0 <= j < i ==> !facetHandlers[j].SupportsFilter(filter)
      {
        if facetHandlers[i].SupportsFilter(filter) {
          FirstMatch.IndexIs(facetHandlers, SupportsFilter(filter), i);
          return Some(facetHandlers[i]);
        }
        i := i + 1;
      }
      return None;
    }

    /** The body of one createFacets pass: the facet made for `facet`, none, or the error. */
    method FacetFor(criteria: Criteria, facet: Facet, filters: seq<FilterNode>)
      returns (step: Result<Option<PartialFacet>, FacetError>)
      ensures step == FacetStep(facetHandlers, criteria, facet, filters)
    {
      var selected := SelectFilter(criteria, facet, filters);
      if selected.Skipped? {
        return Ok(None);
      }
      if selected.SynthesisFailed? {
        return Err(SelectedFilterNotBuilt(facet.name));
      }
      if selected.EmptyLookup? {
        return Err(FilterIsNotAnElement(facet.name));
      }
      var handler := GetFacetHandler(selected.node);
      if handler.None? {
        return Ok(None);
      }
      var partialFacet := handler.value.behaviour.generatePartialFacet(facet, criteria, selected.node);
      return Ok(partialFacet);
    }

    /** createFacets: one pass per requested facet, appending the facets that come out. */
    method CreateFacets(criteria: Criteria, filters: seq<FilterNode>) returns (facets: Result<seq<PartialFacet>, FacetError>)
      ensures facets == Facets(facetHandlers, criteria, criteria.facets, filters)
    {
      var requested := criteria.facets;
      var found: seq<PartialFacet> := [];
      var i := 0;
      while i < |requested|
        invariant i <= |requested|
        invariant Facets(facetHandlers, criteria, requested[..i], filters) == Ok(found)
      {
        FacetsExtend(facetHandlers, criteria, requested, filters, i, found);
        var step := FacetFor(criteria, requested[i], filters);
        match step {
          case Err(e) =>
            FacetsErrorPersists(facetHandlers, criteria, requested[..i + 1], requested[i + 1..], filters);
            assert requested[..i + 1] + requested[i + 1..] == requested;
            return Err(e);
          case Ok(None) =>
          case Ok(Some(p)) =>
            found := found + [p];
        }
        i := i + 1;
      }
      assert requested[..i] == requested;
      return Ok(found);
    }

    /**
     * search: bypass, fallback on an empty answer, landing-page redirect, or
     * the result assembled from the provider's answer. The returned flag is
     * the value written to the "Fallback" cookie, None when none is written.
     * The product query is sent to the provider exactly once, and not at all
     * on a bypass.
     */
    method Search(criteria: Criteria, context: ShopContext, useShopSearch: bool, isSearchPage: bool, provider: Provider)
      returns (outcome: SearchOutcome, fallbackFlag: Option<int>)
      modifies provider
      ensures !criteria.fetchCount || useShopSearch ==>
                && outcome == Delegated(originalService(criteria, context))
                && fallbackFlag == None
                && provider.sent == old(provider.sent)
      ensures criteria.fetchCount && !useShopSearch ==>
                provider.sent == old(provider.sent) + [ProductQuery(criteria, context, isSearchPage)]
      ensures criteria.fetchCount && !useShopSearch && provider.respond(ProductQuery(criteria, context, isSearchPage)).EmptyResponse? ==>
                && fallbackFlag == Some(1)
                && outcome == Delegated(originalService(criteria, context))
      ensures criteria.fetchCount && !useShopSearch && provider.respond(ProductQuery(criteria, context, isSearchPage)).XmlResponse? ==>
                var response := provider.respond(ProductQuery(criteria, context, isSearchPage));
                var facets := Facets(facetHandlers, criteria, criteria.facets, response.filters);
                && fallbackFlag == Some(0)
                && (RedirectTarget(response.landingPage).Some? ==> outcome == Redirected(RedirectTarget(response.landingPage).value))
                && (RedirectTarget(response.landingPage).None? && facets.Err? ==> outcome == Failed(facets.error))
                && (RedirectTarget(response.landingPage).None? && facets.Ok? ==>
                      outcome == Found(SearchResult(articlesFromFindologicIds(response.productIds), response.totalResults, facets.value)))
    {
      if !criteria.fetchCount || useShopSearch {
        return Delegated(originalService(criteria, context)), None;
      }

      var query := queryBuilderFactory.CreateProductQuery(criteria, context, isSearchPage);
      var response := provider.Execute(query.State());

      if response.EmptyResponse? {
        fallbackFlag := Some(1);
        outcome := Delegated(originalService(criteria, context));
      } else {
        fallbackFlag := Some(0);
        var target := RedirectTarget(response.landingPage);
        if target.Some? {
          return Redirected(target.value), fallbackFlag;
        }
        var products := articlesFromFindologicIds(response.productIds);
        var facets := CreateFacets(criteria, response.filters);
        if facets.Err? {
          return Failed(facets.error), fallbackFlag;
        }
        outcome := Found(SearchResult(products, response.totalResults, facets.value));
      }
    }
  }

  /** One more pass of the loop: the facets of one more requested facet, from FacetStep. */
  lemma FacetsExtend(
    handlers: seq<FacetHandler>, criteria: Criteria, facets: seq<Facet>, filters: seq<FilterNode>,
    i: nat, found: seq<PartialFacet>)
    requires i < |facets|
    requires Facets(handlers, criteria, facets[..i], filters) == Ok(found)
    ensures Facets(handlers, criteria, facets[..i + 1], filters)
         == match FacetStep(handlers, criteria, facets[i], filters)
            case Err(e) => Err(e)
            case Ok(None) => Ok(found)
            case Ok(Some(p)) => Ok(found + [p])
  {
    assert facets[..i + 1][..i] == facets[..i];
  }

  /** Once a requested facet has raised the error, the facets after it change nothing. */
  lemma {:induction false} FacetsErrorPersists(
    handlers: seq<FacetHandler>, criteria: Criteria, a: seq<Facet>, b: seq<Facet>, filters: seq<FilterNode>)
    requires Facets(handlers, criteria, a, filters).Err?
    ensures Facets(handlers, criteria, a + b, filters) == Facets(handlers, criteria, a, filters)
    decreases |b|
  {
    if |b| == 0 {
      assert a + b == a;
    } else {
      var b' := b[..|b| - 1];
      assert (a + b)[..|a + b| - 1] == a + b';
      FacetsErrorPersists(handlers, criteria, a, b', filters);
    }
  }
}
