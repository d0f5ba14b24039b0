/**
 * NewQueryBuilderFactory: translates a Criteria into a provider query. Its
 * condition and sorting handler lists are fixed when the factory is built;
 * each condition and each sorting goes to the first handler that supports it,
 * and one without a handler is skipped.
 */
module QueryBuilderFactory {
  import opened Wrappers
  import opened SearchTypes
  import opened QueryBuilders
  import FirstMatch
  import PopularitySortingHandler
  import ReleaseDateSortingHandler

  // ----- handlers -----

  datatype ConditionHandlerKind =
    | CategoryConditionHandler
    | PriceConditionHandler
    | ProductAttributeConditionHandler
    | SearchTermConditionHandler
    | SimpleConditionHandler

  /**
   * The rules of a condition handler whose code is not part of this model:
   * supportsCondition, and the clauses generateCondition appends.
   */
  datatype ConditionBehaviour = ConditionBehaviour(
    supports: Condition -> bool,
    contribution: (Condition, ShopContext) -> seq<Clause>)

  datatype ConditionHandler = ConditionHandler(kind: ConditionHandlerKind, behaviour: ConditionBehaviour)
  {
    predicate SupportsCondition(condition: Condition) {
      behaviour.supports(condition)
    }

    /** generateCondition: appends this handler's clauses; nothing else changes. */
    method GenerateCondition(condition: Condition, query: QueryBuilder, context: ShopContext)
      modifies query
      ensures query.State() == old(query.State()).(clauses := old(query.clauses) + behaviour.contribution(condition, context))
    {
      query.AddClauses(behaviour.contribution(condition, context));
    }
  }

  /**
   * The rules of a sorting handler whose code is not part of this model
   * (price, product name): supportsSorting, and the one order clause it adds.
   */
  datatype SortingBehaviour = SortingBehaviour(supports: Sorting -> bool, orderClause: Sorting -> string)

  datatype SortingHandler =
    | PopularityHandler
    | PriceSortingHandler(behaviour: SortingBehaviour)
    | ProductNameSortingHandler(behaviour: SortingBehaviour)
    | ReleaseDateHandler
  {
    predicate SupportsSorting(sorting: Sorting) {
      match this
      case PopularityHandler => PopularitySortingHandler.SupportsSorting(sorting)
      case PriceSortingHandler(b) => b.supports(sorting)
      case ProductNameSortingHandler(b) => b.supports(sorting)
      case ReleaseDateHandler => ReleaseDateSortingHandler.SupportsSorting(sorting)
    }

    function OrderClause(sorting: Sorting): string {
      match this
      case PopularityHandler => PopularitySortingHandler.OrderClause(sorting)
      case PriceSortingHandler(b) => b.orderClause(sorting)
      case ProductNameSortingHandler(b) => b.orderClause(sorting)
      case ReleaseDateHandler => ReleaseDateSortingHandler.OrderClause(sorting)
    }

    /** generateSorting: appends one order clause; nothing else changes. */
    method GenerateSorting(sorting: Sorting, query: QueryBuilder, context: ShopContext)
      modifies query
      ensures query.State() == old(query.State()).(orders := old(query.orders) + [OrderClause(sorting)])
    {
      match this
      case PopularityHandler =>
        PopularitySortingHandler.GenerateSorting(sorting, query, context);
      case ReleaseDateHandler =>
        ReleaseDateSortingHandler.GenerateSorting(sorting, query, context);
      case PriceSortingHandler(b) =>
        query.AddOrder(b.orderClause(sorting));
      case ProductNameSortingHandler(b) =>
        query.AddOrder(b.orderClause(sorting));
    }
  }

  /**
   * The condition handlers: each of the five once, in the order Category,
   * Price, ProductAttribute, SearchTerm, Simple, each with its own rules.
   */
  function RegisteredConditionHandlers(
    category: ConditionBehaviour, price: ConditionBehaviour, productAttribute: ConditionBehaviour,
    searchTerm: ConditionBehaviour, simple: ConditionBehaviour): (r: seq<ConditionHandler>)
    ensures |r| == 5
    ensures forall i, j :: 0 <= i < j < |r| ==> r[i].kind != r[j].kind
    ensures r[0].kind == CategoryConditionHandler && r[0].behaviour == category
    ensures r[1].kind == PriceConditionHandler && r[1].behaviour == price
    ensures r[2].kind == ProductAttributeConditionHandler && r[2].behaviour == productAttribute
    ensures r[3].kind == SearchTermConditionHandler && r[3].behaviour == searchTerm
    ensures r[4].kind == SimpleConditionHandler && r[4].behaviour == simple
  {
    [ ConditionHandler(CategoryConditionHandler, category),
      ConditionHandler(PriceConditionHandler, price),
      ConditionHandler(ProductAttributeConditionHandler, productAttribute),
      ConditionHandler(SearchTermConditionHandler, searchTerm),
      ConditionHandler(SimpleConditionHandler, simple) ]
  }

  /**
   * The sorting handlers: each of the four once, in the order Popularity,
   * Price, ProductName, ReleaseDate.
   */
  function RegisteredSortingHandlers(price: SortingBehaviour, productName: SortingBehaviour): (r: seq<SortingHandler>)
    ensures |r| == 4
    ensures forall i, j :: 0 <= i < j < |r| ==> !SameHandlerKind(r[i], r[j])
    ensures r[0].PopularityHandler? && r[3].ReleaseDateHandler?
    ensures r[1] == PriceSortingHandler(price) && r[2] == ProductNameSortingHandler(productName)
  {
    [PopularityHandler, PriceSortingHandler(price), ProductNameSortingHandler(productName), ReleaseDateHandler]
  }

  /** Whether two sorting handlers are of the same class. */
  predicate SameHandlerKind(a: SortingHandler, b: SortingHandler) {
    match (a, b)
    case (PopularityHandler, PopularityHandler) => true
    case (PriceSortingHandler(_), PriceSortingHandler(_)) => true
    case (ProductNameSortingHandler(_), ProductNameSortingHandler(_)) => true
    case (ReleaseDateHandler, ReleaseDateHandler) => true
    case _ => false
  }

  // ----- specification of the translation -----

  function SupportsCondition(condition: Condition): ConditionHandler -> bool {
    (h: ConditionHandler) => h.SupportsCondition(condition)
  }

  function SupportsSorting(sorting: Sorting): SortingHandler -> bool {
    (h: SortingHandler) => h.SupportsSorting(sorting)
  }

  /** What one condition adds: its first supporting handler's clauses, or nothing. */
  function ClausesFor(handlers: seq<ConditionHandler>, condition: Condition, context: ShopContext): seq<Clause> {
    match FirstMatch.Find(handlers, SupportsCondition(condition))
    case None => []
    case Some(h) => h.behaviour.contribution(condition, context)
  }

  /** ClausesFor is what the handler found by first match contributes. */
  lemma ClausesForHandler(
    handlers: seq<ConditionHandler>, condition: Condition, context: ShopContext, handler: Option<ConditionHandler>)
    requires handler == FirstMatch.Find(handlers, SupportsCondition(condition))
    ensures handler.None? ==> ClausesFor(handlers, condition, context) == []
    ensures handler.Some? ==> ClausesFor(handlers, condition, context) == handler.value.behaviour.contribution(condition, context)
  {
  }

  /** What addConditions adds for a list of conditions, taken in order. */
  function ConditionClauses(handlers: seq<ConditionHandler>, conditions: seq<Condition>, context: ShopContext): seq<Clause>
    decreases |conditions|
  {
    if |conditions| == 0 then []
    else ConditionClauses(handlers, conditions[..|conditions| - 1], context)
         + ClausesFor(handlers, conditions[|conditions| - 1], context)
  }

  /** The clauses of one more condition are appended after those of the ones before it. */
  lemma ConditionClausesStep(handlers: seq<ConditionHandler>, conditions: seq<Condition>, i: nat, context: ShopContext)
    requires i < |conditions|
    ensures ConditionClauses(handlers, conditions[..i + 1], context)
         == ConditionClauses(handlers, conditions[..i], context) + ClausesFor(handlers, conditions[i], context)
  {
    assert conditions[..i + 1][..i] == conditions[..i];
  }

  /** What one sorting adds: its first supporting handler's order clause, or nothing. */
  function OrdersFor(handlers: seq<SortingHandler>, sorting: Sorting): seq<string> {
    match FirstMatch.Find(handlers, SupportsSorting(sorting))
    case None => []
    case Some(h) => [h.OrderClause(sorting)]
  }

  /** What addSorting adds for a list of sortings, taken in order. */
  function SortingOrders(handlers: seq<SortingHandler>, sortings: seq<Sorting>): seq<string>
    decreases |sortings|
  {
    if |sortings| == 0 then []
    else SortingOrders(handlers, sortings[..|sortings| - 1]) + OrdersFor(handlers, sortings[|sortings| - 1])
  }

  /** The orders of one more sorting are appended after those of the ones before it. */
  lemma SortingOrdersStep(handlers: seq<SortingHandler>, sortings: seq<Sorting>, i: nat)
    requires i < |sortings|
    ensures SortingOrders(handlers, sortings[..i + 1]) == SortingOrders(handlers, sortings[..i]) + OrdersFor(handlers, sortings[i])
  {
    assert sortings[..i + 1][..i] == sortings[..i];
  }

  /** The builder variant chosen from the session's isSearchPage flag. */
  function VariantFor(isSearchPage: bool): BuilderVariant {
    if isSearchPage then SearchQuery else NavigationQuery
  }

  /**
   * The page size given to the provider: a count-only probe (offset exactly 0,
   * limit exactly 1) asks for no limit, written 0; any other limit, null
   * included, is passed on as it is.
   */
  function MaxResults(offset: Option<int>, limit: Option<int>): (r: Option<int>)
    ensures offset == Some(0) && limit == Some(1) ==> r == Some(0)
    ensures !(offset == Some(0) && limit == Some(1)) ==> r == limit
  {
    if offset == Some(0) && limit == Some(1) then Some(0) else limit
  }

  function CreateQueryState(handlers: seq<ConditionHandler>, criteria: Criteria, context: ShopContext, isSearchPage: bool): QueryState {
    Initial(VariantFor(isSearchPage)).(
      userGroups := [context.customerGroupKey],
      clauses := ConditionClauses(handlers, criteria.Conditions(), context))
  }

  function QueryWithSortingState(
    conditionHandlers: seq<ConditionHandler>, sortingHandlers: seq<SortingHandler>,
    criteria: Criteria, context: ShopContext, isSearchPage: bool): QueryState
  {
    CreateQueryState(conditionHandlers, criteria, context, isSearchPage).(
      orders := SortingOrders(sortingHandlers, criteria.sortings))
  }

  function ProductQueryState(
    conditionHandlers: seq<ConditionHandler>, sortingHandlers: seq<SortingHandler>,
    criteria: Criteria, context: ShopContext, isSearchPage: bool): QueryState
  {
    QueryWithSortingState(conditionHandlers, sortingHandlers, criteria, context, isSearchPage).(
      firstResult := criteria.offset,
      maxResults := MaxResults(criteria.offset, criteria.limit))
  }

  /** The one condition the reduced query looks at: "search" on a search page, "category" otherwise. */
  function KeyConditionName(variant: BuilderVariant): string {
    match variant
    case SearchQuery => "search"
    case NavigationQuery => "category"
  }

  function WithoutAdditionalFiltersState(
    handlers: seq<ConditionHandler>, criteria: Criteria, context: ShopContext, isSearchPage: bool): QueryState
  {
    var variant := VariantFor(isSearchPage);
    Initial(variant).(clauses :=
      match criteria.GetCondition(KeyConditionName(variant))
      case None => []
      case Some(c) => ClausesFor(handlers, c, context))
  }

  // ----- the factory -----

  class NewQueryBuilderFactory {
    const conditionHandlers: seq<ConditionHandler>
    const sortingHandlers: seq<SortingHandler>

    /** Registers the handlers once, in their fixed order. */
    constructor (
      category: ConditionBehaviour, price: ConditionBehaviour, productAttribute: ConditionBehaviour,
      searchTerm: ConditionBehaviour, simple: ConditionBehaviour,
      priceSorting: SortingBehaviour, productNameSorting: SortingBehaviour)
      ensures conditionHandlers == RegisteredConditionHandlers(category, price, productAttribute, searchTerm, simple)
      ensures sortingHandlers == RegisteredSortingHandlers(priceSorting, productNameSorting)
    {
      sortingHandlers := RegisteredSortingHandlers(priceSorting, productNameSorting);
      conditionHandlers := RegisteredConditionHandlers(category, price, productAttribute, searchTerm, simple);
    }

    /** getConditionHandler: the first registered handler that supports the condition, or null. */
    method GetConditionHandler(condition: Condition) returns (handler: Option<ConditionHandler>)
      ensures handler == FirstMatch.Find(conditionHandlers, SupportsCondition(condition))
    {
      var i := 0;
      while i < |conditionHandlers|
        invariant i <= |conditionHandlers|
        invariant forall j :: 0 <= j < i ==> !conditionHandlers[j].SupportsCondition(condition)
      {
        if conditionHandlers[i].SupportsCondition(condition) {
          FirstMatch.IndexIs(conditionHandlers, SupportsCondition(condition), i);
          return Some(conditionHandlers[i]);
        }
        i := i + 1;
      }
      return None;
    }

    /** getSortingHandler: the first registered handler that supports the sorting, or null. */
    method GetSortingHandler(sorting: Sorting) returns (handler: Option<SortingHandler>)
      ensures handler == FirstMatch.Find(sortingHandlers, SupportsSorting(sorting))
    {
      var i := 0;
      while i < |sortingHandlers|
        invariant i <= |sortingHandlers|
        invariant forall j :: 0 <= j < i ==> !sortingHandlers[j].SupportsSorting(sorting)
      {
        if sortingHandlers[i].SupportsSorting(sorting) {
          FirstMatch.IndexIs(sortingHandlers, SupportsSorting(sorting), i);
          return Some(sortingHandlers[i]);
        }
        i := i + 1;
      }
      return None;
    }

    /** One pass of the addConditions loop: look the handler up and, if there is one, let it contribute. */
    method ApplyCondition(condition: Condition, query: QueryBuilder, context: ShopContext)
      modifies query
      ensures query.State() == old(query.State()).(
        clauses := old(query.clauses) + ClausesFor(conditionHandlers, condition, context))
    {
      var handler := GetConditionHandler(condition);
      ClausesForHandler(conditionHandlers, condition, context, handler);
      if handler.Some? {
        handler.value.GenerateCondition(condition, query, context);
      }
    }

    /** addConditions: each condition of the criteria, in order, through its handler. */
    method AddConditions(criteria: Criteria, query: QueryBuilder, context: ShopContext)
      modifies query
      ensures query.State() == old(query.State()).(
        clauses := old(query.clauses) + ConditionClauses(conditionHandlers, criteria.Conditions(), context))
    {
      var conditions := criteria.Conditions();
      var i := 0;
      while i < |conditions|
        invariant i <= |conditions|
        invariant query.State() == old(query.State()).(
          clauses := old(query.clauses) + ConditionClauses(conditionHandlers, conditions[..i], context))
      {
        ConditionClausesStep(conditionHandlers, conditions, i, context);
        ghost var done := ConditionClauses(conditionHandlers, conditions[..i], context);
        ApplyCondition(conditions[i], query, context);
        assert old(query.clauses) + done + ClausesFor(conditionHandlers, conditions[i], context)
            == old(query.clauses) + (done + ClausesFor(conditionHandlers, conditions[i], context));
        i := i + 1;
      }
      assert conditions[..i] == conditions;
    }

    /** addSorting: each sorting of the criteria, in order, through its handler. */
    method AddSorting(criteria: Criteria, query: QueryBuilder, context: ShopContext)
      modifies query
      ensures query.State() == old(query.State()).(
        orders := old(query.orders) + SortingOrders(sortingHandlers, criteria.sortings))
    {
      var sortings := criteria.sortings;
      var i := 0;
      while i < |sortings|
        invariant i <= |sortings|
        invariant query.State() == old(query.State()).(
          orders := old(query.orders) + SortingOrders(sortingHandlers, sortings[..i]))
      {
        SortingOrdersStep(sortingHandlers, sortings, i);
        var handler := GetSortingHandler(sortings[i]);
        if handler.Some? {
          handler.value.GenerateSorting(sortings[i], query, context);
        }
        i := i + 1;
      }
      assert sortings[..i] == sortings;
    }

    /** createQueryBuilder: the search-page builder iff the session says so. */
    method CreateQueryBuilder(isSearchPage: bool) returns (query: QueryBuilder)
      ensures fresh(query)
      ensures query.State() == Initial(VariantFor(isSearchPage))
    {
      if isSearchPage {
        query := new QueryBuilder(SearchQuery);
      } else {
        query := new QueryBuilder(NavigationQuery);
      }
    }

    /** createQuery: the customer group first, then the conditions. */
    method CreateQuery(criteria: Criteria, context: ShopContext, isSearchPage: bool) returns (query: QueryBuilder)
      ensures fresh(query)
      ensures query.State() == CreateQueryState(conditionHandlers, criteria, context, isSearchPage)
    {
      query := CreateQueryBuilder(isSearchPage);
      query.AddUserGroup(context.customerGroupKey);
      AddConditions(criteria, query, context);
    }

    /** createQueryWithSorting: createQuery, then the sortings. */
    method CreateQueryWithSorting(criteria: Criteria, context: ShopContext, isSearchPage: bool) returns (query: QueryBuilder)
      ensures fresh(query)
      ensures query.State() == QueryWithSortingState(conditionHandlers, sortingHandlers, criteria, context, isSearchPage)
    {
      query := CreateQuery(criteria, context, isSearchPage);
      AddSorting(criteria, query, context);
    }

    /** createProductQuery: createQueryWithSorting, then offset and page size. */
    method CreateProductQuery(criteria: Criteria, context: ShopContext, isSearchPage: bool) returns (query: QueryBuilder)
      ensures fresh(query)
      ensures query.State() == ProductQueryState(conditionHandlers, sortingHandlers, criteria, context, isSearchPage)
    {
      query := CreateQueryWithSorting(criteria, context, isSearchPage);
      query.SetFirstResult(criteria.offset);
      var limit: Option<int>;
      if criteria.offset == Some(0) && criteria.limit == Some(1) {
        limit := Some(0);
      } else {
        limit := criteria.limit;
      }
      query.SetMaxResults(limit);
    }

    /**
     * createSearchNavigationQueryWithoutAdditionalFilters: a bare builder and
     * at most the one key condition of the page type, through its handler.
     */
    method CreateSearchNavigationQueryWithoutAdditionalFilters(criteria: Criteria, context: ShopContext, isSearchPage: bool)
      returns (query: QueryBuilder)
      ensures fresh(query)
      ensures query.State() == WithoutAdditionalFiltersState(conditionHandlers, criteria, context, isSearchPage)
    {
      query := CreateQueryBuilder(isSearchPage);
      var condition: Option<Condition> := None;
      if query.variant == SearchQuery {
        condition := criteria.GetCondition("search");
      }
      if query.variant == NavigationQuery {
        condition := criteria.GetCondition("category");
      }
      if condition.Some? {
        var handler := GetConditionHandler(condition.value);
        if handler.Some? {
          handler.value.GenerateCondition(condition.value, query, context);
        }
      }
    }
  }
}
