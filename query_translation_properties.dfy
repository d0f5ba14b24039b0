/**
 * Properties of the query translation: criteria order is kept, an item with
 * no handler leaves the query as it was, registration order decides between
 * handlers, and the reduced query is the full query for the key condition
 * alone.
 */
module QueryTranslationProperties {
  import opened Wrappers
  import opened SearchTypes
  import opened QueryBuilders
  import opened QueryBuilderFactory
  import FirstMatch
  import PopularitySortingHandler
  import ReleaseDateSortingHandler

  /** Conditions are applied in criteria order: the clauses of a + b are those of a, then those of b. */
  lemma {:induction false} ConditionClausesAppend(
    handlers: seq<ConditionHandler>, a: seq<Condition>, b: seq<Condition>, context: ShopContext)
    ensures ConditionClauses(handlers, a + b, context)
         == ConditionClauses(handlers, a, context) + ConditionClauses(handlers, b, context)
    decreases |b|
  {
    if |b| == 0 {
      assert a + b == a;
    } else {
      var b' := b[..|b| - 1];
      assert (a + b)[..|a + b| - 1] == a + b';
      assert (a + b)[|a + b| - 1] == b[|b| - 1];
      ConditionClausesAppend(handlers, a, b', context);
    }
  }

  /**
   * One condition in the middle of the list adds exactly the clauses of its
   * first supporting handler, once, between those of its neighbours; with no
   * supporting handler it adds nothing.
   */
  lemma ConditionContributes(
    handlers: seq<ConditionHandler>, a: seq<Condition>, c: Condition, b: seq<Condition>, context: ShopContext)
    ensures ConditionClauses(handlers, a + [c] + b, context)
         == ConditionClauses(handlers, a, context) + ClausesFor(handlers, c, context) + ConditionClauses(handlers, b, context)
    ensures FirstMatch.Find(handlers, SupportsCondition(c)).None? ==>
              ConditionClauses(handlers, a + [c] + b, context) == ConditionClauses(handlers, a + b, context)
  {
    var before, one, after :=
      ConditionClauses(handlers, a, context), ClausesFor(handlers, c, context), ConditionClauses(handlers, b, context);
    ConditionClausesStep(handlers, [c], 0, context);
    assert [c][..1] == [c] && [c][..0] == [];
    assert ConditionClauses(handlers, [c], context) == one;
    ConditionClausesAppend(handlers, a + [c], b, context);
    ConditionClausesAppend(handlers, a, [c], context);
    assert ConditionClauses(handlers, a + [c] + b, context) == before + one + after;
    if FirstMatch.Find(handlers, SupportsCondition(c)).None? {
      assert one == [];
      ConditionClausesAppend(handlers, a, b, context);
      assert before + one + after == before + after;
    }
  }

  /** Sortings are applied in criteria order: the orders of a + b are those of a, then those of b. */
  lemma {:induction false} SortingOrdersAppend(handlers: seq<SortingHandler>, a: seq<Sorting>, b: seq<Sorting>)
    ensures SortingOrders(handlers, a + b) == SortingOrders(handlers, a) + SortingOrders(handlers, b)
    decreases |b|
  {
    if |b| == 0 {
      assert a + b == a;
    } else {
      var b' := b[..|b| - 1];
      assert (a + b)[..|a + b| - 1] == a + b';
      assert (a + b)[|a + b| - 1] == b[|b| - 1];
      SortingOrdersAppend(handlers, a, b');
    }
  }

  /**
   * One sorting in the middle of the list adds at most one order clause, in
   * its place, and none when no handler supports it; earlier clauses are never
   * replaced.
   */
  lemma SortingContributes(handlers: seq<SortingHandler>, a: seq<Sorting>, s: Sorting, b: seq<Sorting>)
    ensures SortingOrders(handlers, a + [s] + b)
         == SortingOrders(handlers, a) + OrdersFor(handlers, s) + SortingOrders(handlers, b)
    ensures |OrdersFor(handlers, s)| <= 1
    ensures FirstMatch.Find(handlers, SupportsSorting(s)).None? ==>
              SortingOrders(handlers, a + [s] + b) == SortingOrders(handlers, a + b)
  {
    var before, one, after := SortingOrders(handlers, a), OrdersFor(handlers, s), SortingOrders(handlers, b);
    SortingOrdersStep(handlers, [s], 0);
    assert [s][..1] == [s] && [s][..0] == [];
    assert SortingOrders(handlers, [s]) == one;
    SortingOrdersAppend(handlers, a + [s], b);
    SortingOrdersAppend(handlers, a, [s]);
    assert SortingOrders(handlers, a + [s] + b) == before + one + after;
    match FirstMatch.Find(handlers, SupportsSorting(s))
    case None =>
      assert one == [];
      SortingOrdersAppend(handlers, a, b);
      assert before + one + after == before + after;
    case Some(h) =>
  }

  /** Every sorting adds at most one order clause. */
  lemma {:induction false} SortingOrdersBound(handlers: seq<SortingHandler>, sortings: seq<Sorting>)
    ensures |SortingOrders(handlers, sortings)| <= |sortings|
    decreases |sortings|
  {
    if |sortings| > 0 {
      SortingOrdersBound(handlers, sortings[..|sortings| - 1]);
    }
  }

  /**
   * The popularity handler is registered first, so a popularity sorting always
   * gets the "salesfrequency" clause, whatever the other handlers support.
   */
  lemma PopularityAlwaysHandled(price: SortingBehaviour, productName: SortingBehaviour, sorting: Sorting)
    requires sorting.PopularitySorting?
    ensures OrdersFor(RegisteredSortingHandlers(price, productName), sorting)
         == ["salesfrequency " + sorting.direction]
  {
    var handlers := RegisteredSortingHandlers(price, productName);
    FirstMatch.IndexIs(handlers, SupportsSorting(sorting), 0);
  }

  /**
   * The release-date handler is registered last: a release-date sorting gets
   * the "dateadded" clause exactly when neither the price nor the product-name
   * handler claims it first.
   */
  lemma ReleaseDateHandledLast(price: SortingBehaviour, productName: SortingBehaviour, sorting: Sorting)
    requires sorting.ReleaseDateSorting?
    ensures !price.supports(sorting) && !productName.supports(sorting) ==>
              OrdersFor(RegisteredSortingHandlers(price, productName), sorting) == ["dateadded " + sorting.direction]
    ensures price.supports(sorting) ==>
              OrdersFor(RegisteredSortingHandlers(price, productName), sorting) == [price.orderClause(sorting)]
    ensures !price.supports(sorting) && productName.supports(sorting) ==>
              OrdersFor(RegisteredSortingHandlers(price, productName), sorting) == [productName.orderClause(sorting)]
  {
    var handlers := RegisteredSortingHandlers(price, productName);
    var p := SupportsSorting(sorting);
    assert !p(handlers[0]);
    if price.supports(sorting) {
      FirstMatch.IndexIs(handlers, p, 1);
    } else if productName.supports(sorting) {
      FirstMatch.IndexIs(handlers, p, 2);
    } else {
      FirstMatch.IndexIs(handlers, p, 3);
    }
  }

  /**
   * supportsSorting of the popularity handler is a type test: the popularity
   * handler is chosen for a sorting exactly when it is a popularity sorting.
   */
  lemma PopularityHandlerOnlyForPopularity(price: SortingBehaviour, productName: SortingBehaviour, sorting: Sorting)
    ensures var found := FirstMatch.Find(RegisteredSortingHandlers(price, productName), SupportsSorting(sorting));
            (found.Some? && found.value.PopularityHandler?) <==> sorting.PopularitySorting?
  {
    var handlers := RegisteredSortingHandlers(price, productName);
    var p := SupportsSorting(sorting);
    if sorting.PopularitySorting? {
      FirstMatch.IndexIs(handlers, p, 0);
    } else {
      match FirstMatch.Index(handlers, p)
      case None =>
      case Some(i) => assert i != 0;
    }
  }

  /**
   * supportsSorting of the release-date handler is a type test: the
   * release-date handler is chosen only for release-date sortings.
   */
  lemma ReleaseDateHandlerOnlyForReleaseDate(price: SortingBehaviour, productName: SortingBehaviour, sorting: Sorting)
    ensures var found := FirstMatch.Find(RegisteredSortingHandlers(price, productName), SupportsSorting(sorting));
            found.Some? && found.value.ReleaseDateHandler? ==> sorting.ReleaseDateSorting?
  {
    var handlers := RegisteredSortingHandlers(price, productName);
    match FirstMatch.Index(handlers, SupportsSorting(sorting))
    case None =>
    case Some(i) => assert handlers[i].ReleaseDateHandler? ==> i == 3;
  }

  /**
   * The generic SimpleConditionHandler is consulted last: it handles a
   * condition exactly when it supports it and none of the four specific
   * handlers does.
   */
  lemma SimpleConditionHandlerLast(
    category: ConditionBehaviour, price: ConditionBehaviour, productAttribute: ConditionBehaviour,
    searchTerm: ConditionBehaviour, simple: ConditionBehaviour, condition: Condition)
    ensures var found := FirstMatch.Find(
              RegisteredConditionHandlers(category, price, productAttribute, searchTerm, simple),
              SupportsCondition(condition));
            (found.Some? && found.value.kind == SimpleConditionHandler)
            <==> (simple.supports(condition) && !category.supports(condition) && !price.supports(condition)
                  && !productAttribute.supports(condition) && !searchTerm.supports(condition))
  {
    var handlers := RegisteredConditionHandlers(category, price, productAttribute, searchTerm, simple);
    var p := SupportsCondition(condition);
    var found := FirstMatch.Find(handlers, p);
    if found.Some? && found.value.kind == SimpleConditionHandler {
      var i := FirstMatch.Index(handlers, p).value;
      assert handlers[i].kind == SimpleConditionHandler;
      assert i == 4;
      assert !p(handlers[0]) && !p(handlers[1]) && !p(handlers[2]) && !p(handlers[3]);
    }
    if simple.supports(condition) && !category.supports(condition) && !price.supports(condition)
       && !productAttribute.supports(condition) && !searchTerm.supports(condition) {
      FirstMatch.IndexIs(handlers, p, 4);
    }
  }

  /**
   * The product query: the customer group once, the conditions' clauses in
   * criteria order, the sortings' orders in criteria order, the criteria's
   * offset, and the criteria's limit except for the count-only probe.
   */
  lemma ProductQueryLayout(
    conditionHandlers: seq<ConditionHandler>, sortingHandlers: seq<SortingHandler>,
    criteria: Criteria, context: ShopContext, isSearchPage: bool)
    ensures var q := ProductQueryState(conditionHandlers, sortingHandlers, criteria, context, isSearchPage);
            && q.variant == (if isSearchPage then SearchQuery else NavigationQuery)
            && q.userGroups == [context.customerGroupKey]
            && q.clauses == ConditionClauses(conditionHandlers, criteria.baseConditions, context)
                            + ConditionClauses(conditionHandlers, criteria.userConditions, context)
            && |q.orders| <= |criteria.sortings|
            && q.firstResult == criteria.offset
            && (q.maxResults == Some(0) <==> (criteria.offset == Some(0) && criteria.limit == Some(1)) || criteria.limit == Some(0))
  {
    ConditionClausesAppend(conditionHandlers, criteria.baseConditions, criteria.userConditions, context);
    SortingOrdersBound(sortingHandlers, criteria.sortings);
  }

  function KeyConditionList(criteria: Criteria, isSearchPage: bool): seq<Condition> {
    match criteria.GetCondition(KeyConditionName(VariantFor(isSearchPage)))
    case None => []
    case Some(c) => [c]
  }

  /**
   * The reduced query carries no customer group, no sorting and no paging,
   * and its clauses are those the full query would have for the page's key
   * condition alone ("search" or "category"), when the criteria has one.
   */
  lemma ReducedQueryIsKeyConditionOnly(
    handlers: seq<ConditionHandler>, criteria: Criteria, context: ShopContext, isSearchPage: bool)
    ensures var only := criteria.(baseConditions := KeyConditionList(criteria, isSearchPage), userConditions := [], sortings := []);
            WithoutAdditionalFiltersState(handlers, criteria, context, isSearchPage)
              == CreateQueryState(handlers, only, context, isSearchPage).(userGroups := [])
  {
    var key := KeyConditionList(criteria, isSearchPage);
    var only := criteria.(baseConditions := key, userConditions := [], sortings := []);
    assert only.Conditions() == key;
    match criteria.GetCondition(KeyConditionName(VariantFor(isSearchPage)))
    case None =>
    case Some(c) =>
      assert key[..0] == [];
      assert ConditionClauses(handlers, key, context) == ClausesFor(handlers, c, context);
  }
}
