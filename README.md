# Search bridge translation layer — a Dafny model

This project models the core of the FINDOLOGIC search bridge for a Shopware shop: the layer
that turns the shop's generic search request (a `Criteria` with conditions, sortings,
requested facets and paging) into a query for the external search provider, and turns the
provider's answer back into a product-number search result with facets.

Three pieces are modelled, plus the small leaves they dispatch to:

- **Query translation** (`NewQueryBuilderFactory`, file `query_builder_factory.dfy`). The factory
  registers its condition handlers (Category, Price, ProductAttribute, SearchTerm, Simple) and its
  sorting handlers (Popularity, Price, ProductName, ReleaseDate) once, in that order. Each condition
  and each sorting goes to the first handler that supports it. An item that no handler supports is
  skipped. The provider query is a `QueryBuilder` object (`query_builder.dfy`) whose methods only
  append: user groups, condition clauses and order clauses. Offset and page size are set last.
  Every factory method is proved against a specification function of the resulting query state.
  The properties of those functions are lemmas in `query_translation_properties.dfy`.
- **Facet reconstruction** (`ProductNumberSearch::createFacets`, `product_number_search.dfy`). For
  each requested facet, in order, the model looks up the first filter node named after the facet's
  field. If there is none, the facet is skipped when the user set no condition of its name;
  otherwise `createFacets` ends with an error (see below). The node then goes to the first supporting facet handler (Category, Color, Image, Range,
  Text). The facet-level lemmas are in `facet_reconstruction_properties.dfy`.
- **Search orchestration** (`ProductNumberSearch::search`). The search is bypassed when the caller
  does not fetch a count or the shop search is forced. An empty provider answer falls back to the
  shop's own search. A landing page ends the call with a redirect. Otherwise the result is assembled
  from the answer.
- **Leaves.** `PopularitySortingHandler` and `ReleaseDateSortingHandler` (one file each) append
  `"salesfrequency <direction>"` and `"dateadded <direction>"`. `ColorListItem`
  (`color_list_item.dfy`) is a list item with a mutable color code.

`first_match.dfy` states the first-match rule once. It is used by all three registries, by
`Criteria::getCondition`, and by the lookup of a filter node by name. `search_types.dfy` holds the
shop's generic types as far as the bridge reads them.

Inputs that the source reads from ambient state or the network are parameters of the model:

- the session flag `isSearchPage`;
- the `useShopSearch` decision;
- the provider behind `execute()`, as a `Provider` object whose answer is a function of the query
  state and which records every query sent to it;
- the original (fallback) search service;
- the lookup of shop articles by provider id.

The "Fallback" cookie is returned as a value: `None` when no cookie is written, otherwise 1 or 0.

Behaviour of the code worth noting:

- When the provider omits a facet that the user filtered on, the code tries to rebuild a node only
  for the price facet (`ProductNumberSearch.php:167-169`), through `createSelectedFilter`. Every
  branch of that function reaches `new SimpleXMLElement('')` (lines 197, 213, 227) before
  returning a node, and PHP cannot parse an empty document, so no node is ever returned; the range
  branch first calls `getMode()` and `getValues()` (lines 211-212), which can fail earlier. The
  model returns the error `SelectedFilterNotBuilt` (see "## Findings"). For any other facet, the empty lookup result is passed to
  `getFacetHandler`, whose parameter must be a `SimpleXMLElement`, so PHP raises a `TypeError`;
  the model returns the error `FilterIsNotAnElement`. Either error ends `createFacets` and the
  search (`Failed`).
- `$hasLandingpage != null` is a loose comparison, so an empty location string is not a redirect.
- The paging test is strict (`=== 0`, `=== 1`). A null offset or null limit never triggers the
  rewrite, and a null limit is passed on unchanged.

`PHP_INT_MAX` is fixed at 9223372036854775807, the value on a 64-bit build.

## Model

| member | source | states |
|---|---|---|
| `FirstMatch.Index` | FinSearchUnified/Bundle/SearchBundleFindologic/QueryBuilder/NewQueryBuilderFactory.php:94-103 | the chosen position supports the item and no earlier position does; None exactly when no position supports it (registration order breaks ties) |
| `FirstMatch.EarlierWins` | FinSearchUnified/Bundle/SearchBundleFindologic/QueryBuilder/NewQueryBuilderFactory.php:94-103 | registration order breaks ties: when two positions both support an item, the later one is never chosen and the choice is at or before the earlier one |
| `SearchTypes.UserConditionIsFound` | FinSearchUnified/Bundle/ProductNumberSearch.php:163-168 | a condition the user set under a facet's name is also found by getCondition, so the price branch always has a condition to read |
| `QueryBuilders.QueryBuilder.constructor` | FinSearchUnified/Bundle/SearchBundleFindologic/QueryBuilder/NewQueryBuilderFactory.php:224-232 | a new builder of the given variant has no user group, clause, order, offset or page size |
| `QueryBuilders.QueryBuilder.AddUserGroup` | FinSearchUnified/Bundle/SearchBundleFindologic/QueryBuilder/NewQueryBuilderFactory.php:210 | appends the customer group key and changes nothing else |
| `QueryBuilders.QueryBuilder.AddClauses` | FinSearchUnified/Bundle/SearchBundleFindologic/QueryBuilder/NewQueryBuilderFactory.php:115 | appends a handler's clauses after the existing ones and changes nothing else |
| `QueryBuilders.QueryBuilder.AddOrder` | FinSearchUnified/Bundle/SearchBundleFindologic/SortingHandler/PopularitySortingHandler.php:37 | appends one order clause, keeping the earlier ones, and changes nothing else |
| `QueryBuilders.QueryBuilder.SetFirstResult` | FinSearchUnified/Bundle/SearchBundleFindologic/QueryBuilder/NewQueryBuilderFactory.php:183 | sets only the offset |
| `QueryBuilders.QueryBuilder.SetMaxResults` | FinSearchUnified/Bundle/SearchBundleFindologic/QueryBuilder/NewQueryBuilderFactory.php:191 | sets only the page size |
| `PopularitySortingHandler.SupportsSorting` | FinSearchUnified/Bundle/SearchBundleFindologic/SortingHandler/PopularitySortingHandler.php:20-23 | the handler accepts exactly the popularity sortings (an instanceof test) |
| `PopularitySortingHandler.GenerateSorting` | FinSearchUnified/Bundle/SearchBundleFindologic/SortingHandler/PopularitySortingHandler.php:34-38 | appends exactly one order clause, "salesfrequency " followed by the direction; earlier orders and every other part of the query stay as they were |
| `PopularitySortingHandler.ClauseDeterminedByDirection` | FinSearchUnified/Bundle/SearchBundleFindologic/SortingHandler/PopularitySortingHandler.php:34-38 | the clause is the field followed by the direction, and two sortings give the same clause exactly when their directions agree |
| `ReleaseDateSortingHandler.SupportsSorting` | FinSearchUnified/Bundle/SearchBundleFindologic/SortingHandler/ReleaseDateSortingHandler.php:20-23 | the handler accepts exactly the release-date sortings (an instanceof test) |
| `ReleaseDateSortingHandler.GenerateSorting` | FinSearchUnified/Bundle/SearchBundleFindologic/SortingHandler/ReleaseDateSortingHandler.php:32-36 | appends exactly one order clause, "dateadded " followed by the direction; earlier orders and every other part of the query stay as they were |
| `ReleaseDateSortingHandler.ClauseDeterminedByDirection` | FinSearchUnified/Bundle/SearchBundleFindologic/SortingHandler/ReleaseDateSortingHandler.php:32-36 | the clause is the field followed by the direction, and two sortings give the same clause exactly when their directions agree |
| `QueryBuilderFactory.ConditionHandler.GenerateCondition` | FinSearchUnified/Bundle/SearchBundleFindologic/QueryBuilder/NewQueryBuilderFactory.php:115 | a condition handler appends its clauses for the condition and context; nothing else changes |
| `QueryBuilderFactory.SortingHandler.GenerateSorting` | FinSearchUnified/Bundle/SearchBundleFindologic/QueryBuilder/NewQueryBuilderFactory.php:146 | a sorting handler appends its one order clause; nothing else changes |
| `QueryBuilderFactory.MaxResults` | FinSearchUnified/Bundle/SearchBundleFindologic/QueryBuilder/NewQueryBuilderFactory.php:185-189 | page size 0 (no limit) for offset exactly 0 with limit exactly 1; the criteria's limit, null included, in every other case |
| `QueryBuilderFactory.NewQueryBuilderFactory.constructor` | FinSearchUnified/Bundle/SearchBundleFindologic/QueryBuilder/NewQueryBuilderFactory.php:47-87 | condition handlers registered as Category, Price, ProductAttribute, SearchTerm, Simple; sorting handlers as Popularity, Price, ProductName, ReleaseDate |
| `QueryBuilderFactory.NewQueryBuilderFactory.GetConditionHandler` | FinSearchUnified/Bundle/SearchBundleFindologic/QueryBuilder/NewQueryBuilderFactory.php:94-103 | returns the first registered condition handler that supports the condition, or null |
| `QueryBuilderFactory.NewQueryBuilderFactory.GetSortingHandler` | FinSearchUnified/Bundle/SearchBundleFindologic/QueryBuilder/NewQueryBuilderFactory.php:125-134 | returns the first registered sorting handler that supports the sorting, or null |
| `QueryBuilderFactory.RegisteredConditionHandlers` | FinSearchUnified/Bundle/SearchBundleFindologic/QueryBuilder/NewQueryBuilderFactory.php:76-87 | five condition handlers, each kind once, in the order Category, Price, ProductAttribute, SearchTerm, Simple, each with its own rules |
| `QueryBuilderFactory.RegisteredSortingHandlers` | FinSearchUnified/Bundle/SearchBundleFindologic/QueryBuilder/NewQueryBuilderFactory.php:61-71 | four sorting handlers, each class once, in the order Popularity, Price, ProductName, ReleaseDate |
| `QueryBuilderFactory.NewQueryBuilderFactory.ApplyCondition` | FinSearchUnified/Bundle/SearchBundleFindologic/QueryBuilder/NewQueryBuilderFactory.php:112-116 | one condition appends the clauses of its first supporting handler, or nothing when none supports it; the rest of the query is unchanged |
| `QueryBuilderFactory.NewQueryBuilderFactory.AddConditions` | FinSearchUnified/Bundle/SearchBundleFindologic/QueryBuilder/NewQueryBuilderFactory.php:110-118 | appends, in criteria order, the clauses of each condition's first supporting handler; nothing for unsupported conditions; the rest of the query is unchanged |
| `QueryBuilderFactory.NewQueryBuilderFactory.AddSorting` | FinSearchUnified/Bundle/SearchBundleFindologic/QueryBuilder/NewQueryBuilderFactory.php:141-149 | appends, in criteria order, the order clause of each sorting's first supporting handler; nothing for unsupported sortings; the rest of the query is unchanged |
| `QueryBuilderFactory.NewQueryBuilderFactory.CreateQueryBuilder` | FinSearchUnified/Bundle/SearchBundleFindologic/QueryBuilder/NewQueryBuilderFactory.php:219-236 | a fresh, empty builder: the search variant iff isSearchPage is set, the navigation variant otherwise |
| `QueryBuilderFactory.NewQueryBuilderFactory.CreateQuery` | FinSearchUnified/Bundle/SearchBundleFindologic/QueryBuilder/NewQueryBuilderFactory.php:207-214 | a fresh builder holding the customer group key and the clauses of the criteria's conditions, with no orders and no paging |
| `QueryBuilderFactory.NewQueryBuilderFactory.CreateQueryWithSorting` | FinSearchUnified/Bundle/SearchBundleFindologic/QueryBuilder/NewQueryBuilderFactory.php:162-169 | createQuery's state plus the orders of the criteria's sortings |
| `QueryBuilderFactory.NewQueryBuilderFactory.CreateProductQuery` | FinSearchUnified/Bundle/SearchBundleFindologic/QueryBuilder/NewQueryBuilderFactory.php:180-194 | createQueryWithSorting's state with the criteria's offset and the page size given by MaxResults |
| `QueryBuilderFactory.NewQueryBuilderFactory.CreateSearchNavigationQueryWithoutAdditionalFilters` | FinSearchUnified/Bundle/SearchBundleFindologic/QueryBuilder/NewQueryBuilderFactory.php:245-267 | a fresh builder with no user group, orders or paging, holding only the clauses of the "search" (search page) or "category" (navigation) condition, if present and supported |
| `QueryTranslationProperties.ConditionClausesAppend` | FinSearchUnified/Bundle/SearchBundleFindologic/QueryBuilder/NewQueryBuilderFactory.php:110-118 | conditions are applied in order: the clauses for a + b are those for a followed by those for b |
| `QueryTranslationProperties.ConditionContributes` | FinSearchUnified/Bundle/SearchBundleFindologic/QueryBuilder/NewQueryBuilderFactory.php:112-117 | a condition adds exactly its first supporting handler's clauses, once, between its neighbours'; an unsupported condition adds nothing |
| `QueryTranslationProperties.SortingOrdersAppend` | FinSearchUnified/Bundle/SearchBundleFindologic/QueryBuilder/NewQueryBuilderFactory.php:141-149 | sortings are applied in order: the orders for a + b are those for a followed by those for b |
| `QueryTranslationProperties.SortingContributes` | FinSearchUnified/Bundle/SearchBundleFindologic/QueryBuilder/NewQueryBuilderFactory.php:143-148 | a sorting adds at most one order clause in its place and never replaces an earlier one; an unsupported sorting adds nothing |
| `QueryTranslationProperties.SortingOrdersBound` | FinSearchUnified/Bundle/SearchBundleFindologic/QueryBuilder/NewQueryBuilderFactory.php:141-149 | there are never more order clauses than sortings |
| `QueryTranslationProperties.PopularityAlwaysHandled` | FinSearchUnified/Bundle/SearchBundleFindologic/QueryBuilder/NewQueryBuilderFactory.php:61-71 | the popularity handler is registered first, so a popularity sorting always yields "salesfrequency " + direction, whatever the other handlers support |
| `QueryTranslationProperties.ReleaseDateHandledLast` | FinSearchUnified/Bundle/SearchBundleFindologic/QueryBuilder/NewQueryBuilderFactory.php:65-68 | a release-date sorting yields "dateadded " + direction only when neither the price nor the product-name handler claims it first; otherwise the first of those that does decides |
| `QueryTranslationProperties.PopularityHandlerOnlyForPopularity` | FinSearchUnified/Bundle/SearchBundleFindologic/SortingHandler/PopularitySortingHandler.php:20-23 | the popularity handler is chosen exactly for popularity sortings |
| `QueryTranslationProperties.ReleaseDateHandlerOnlyForReleaseDate` | FinSearchUnified/Bundle/SearchBundleFindologic/SortingHandler/ReleaseDateSortingHandler.php:20-23 | the release-date handler is chosen only for release-date sortings |
| `QueryTranslationProperties.SimpleConditionHandlerLast` | FinSearchUnified/Bundle/SearchBundleFindologic/QueryBuilder/NewQueryBuilderFactory.php:76-87 | the generic Simple handler handles a condition iff it supports it and none of the four specific handlers does |
| `QueryTranslationProperties.ProductQueryLayout` | FinSearchUnified/Bundle/SearchBundleFindologic/QueryBuilder/NewQueryBuilderFactory.php:180-214 | the product query has the page's variant, exactly the one customer group, base then user condition clauses, at most one order per sorting, the criteria's offset, and page size 0 iff it is the probe or the limit is 0 |
| `QueryTranslationProperties.ReducedQueryIsKeyConditionOnly` | FinSearchUnified/Bundle/SearchBundleFindologic/QueryBuilder/NewQueryBuilderFactory.php:245-267 | the reduced query equals createQuery for the page's key condition alone, without the customer group |
| `ProductNumberSearch.CreateSelectedFilter` | FinSearchUnified/Bundle/ProductNumberSearch.php:194-233 | the node the branches set out to build (as written they throw first, see "## Findings"): is named after the condition's field; a range-slider node (total range = selected range) iff price condition or range mode; price: [min, max], max 0 or null read as PHP_INT_MAX; range mode: unset min 0, unset max PHP_INT_MAX; otherwise an empty label node |
| `ProductNumberSearch.Facets` | FinSearchUnified/Bundle/ProductNumberSearch.php:153-186 | createFacets fails iff some requested facet is missing from the answer while the user set a condition of its name, and the error names such a facet; when it completes it yields no more facets than were requested |
| `ProductNumberSearch.FacetsErrorPersists` | FinSearchUnified/Bundle/ProductNumberSearch.php:168-174 | once an error is raised for a facet, the facets requested after it are never reached |
| `ProductNumberSearch.RegisteredFacetHandlers` | FinSearchUnified/Bundle/ProductNumberSearch.php:128-140 | five facet handlers, each kind once, in the order Category, Color, Image, Range, Text, each with its own rules |
| `ProductNumberSearch.SelectFilter` | FinSearchUnified/Bundle/ProductNumberSearch.php:158-172 | a selected node is one of the answer's nodes carrying the facet's field name, and there is one iff such a node exists; otherwise skipped iff the user set no condition of the facet's name; with such a condition, the rebuild failure for a price facet and the empty lookup for any other |
| `ProductNumberSearch.RepairedSelectFilter` | FinSearchUnified/Bundle/ProductNumberSearch.php:167-169 | the selection as intended: never the rebuild failure, and the same as SelectFilter wherever that one does not fail to rebuild |
| `ProductNumberSearch.FacetStep` | FinSearchUnified/Bundle/ProductNumberSearch.php:158-182 | a facet comes only from a node the answer contains; an error comes exactly when the node is missing and the user set a condition of the facet's name, carries the facet's name, and is the not-built error iff the facet is the price facet |
| `ProductNumberSearch.RedirectTarget` | FinSearchUnified/Bundle/ProductNumberSearch.php:108-116 | a redirect happens iff the answer names a landing page that is not the empty string (loose `!= null`), and it goes to that page |
| `ProductNumberSearch.Provider.Execute` | FinSearchUnified/Bundle/ProductNumberSearch.php:80 | sending a query records it after the earlier ones and returns the provider's answer to it |
| `ProductNumberSearch.ProductNumberSearch.constructor` | FinSearchUnified/Bundle/ProductNumberSearch.php:46-53 | keeps the original service and the factory, and registers the facet handlers in the order Category, Color, Image, Range, Text |
| `ProductNumberSearch.ProductNumberSearch.GetFacetHandler` | FinSearchUnified/Bundle/ProductNumberSearch.php:142-151 | returns the first registered facet handler that supports the node, or null |
| `ProductNumberSearch.ProductNumberSearch.FacetFor` | FinSearchUnified/Bundle/ProductNumberSearch.php:158-182 | one pass of the loop body gives the step FacetStep specifies: skipped, the not-built error of a missing price facet, the type error of any other missing facet, no handler or no facet, or the handler's facet |
| `ProductNumberSearch.ProductNumberSearch.CreateFacets` | FinSearchUnified/Bundle/ProductNumberSearch.php:153-186 | the loop's result is the facet sequence specified by Facets, the first error included |
| `ProductNumberSearch.ProductNumberSearch.Search` | FinSearchUnified/Bundle/ProductNumberSearch.php:66-101 | bypass: the original service's result, no cookie, and the provider receives nothing. Otherwise: the provider receives exactly one query, the product query. Empty answer: cookie 1 and the original service's result. Non-empty answer: cookie 0, then a redirect to a non-empty landing page, or the facet error, or (articles for the ids, count, facets) |
| `FacetReconstructionProperties.FacetsAppend` | FinSearchUnified/Bundle/ProductNumberSearch.php:157-183 | requested facets are handled in order: the result for a + b is that for a followed by that for b, the first error winning |
| `FacetReconstructionProperties.FacetsOfOne` | FinSearchUnified/Bundle/ProductNumberSearch.php:174-182 | a single requested facet yields no facet, exactly one, or the error |
| `FacetReconstructionProperties.FacetInPlace` | FinSearchUnified/Bundle/ProductNumberSearch.php:157-185 | the facet made for a requested facet, if any, sits between those made for the facets before and after it |
| `FacetReconstructionProperties.FirstNodeUsed` | FinSearchUnified/Bundle/ProductNumberSearch.php:160-171 | when several filter nodes carry the facet's field name, the first one is used |
| `FacetReconstructionProperties.FacetDropped` | FinSearchUnified/Bundle/ProductNumberSearch.php:162-181 | a facet is dropped iff (no node and no user condition) or no handler supports its node or the handler returns null |
| `FacetReconstructionProperties.MissingPriceFacetSynthesised` | FinSearchUnified/Bundle/ProductNumberSearch.php:167-208 | as intended (the repaired selection), a price facet missing from the answer, with a user price condition, becomes a range-slider node with total = selected = [min, max or PHP_INT_MAX] |
| `FacetReconstructionProperties.MissingFacetFails` | FinSearchUnified/Bundle/ProductNumberSearch.php:162-197 | as written, a facet missing from the answer with a user condition of its name ends createFacets with an error: the not-built error for a price facet, the type error for any other |
| `FacetReconstructionProperties.PriceFacetWithoutNodeFails` | FinSearchUnified/Bundle/ProductNumberSearch.php:167-197 | on one concrete input (user price filter from 10, requested price facet, no filter nodes) createFacets fails with the not-built error, where the repaired selection yields the range [10, PHP_INT_MAX] |
| `FacetResult.ColorListItem.constructor` | FinSearchUnified/Bundle/SearchBundle/FacetResult/ColorListItem.php:21-25 | id, label, active and attributes are passed to the parent, media is null, and getColorcode returns the color argument |
| `FacetResult.ColorListItem.GetColorcode` | FinSearchUnified/Bundle/SearchBundle/FacetResult/ColorListItem.php:30-33 | reads the stored color code; what it returns after construction and after setColorcode is stated by the constructor and SetThenGet |
| `FacetResult.ColorListItem.SetColorcode` | FinSearchUnified/Bundle/SearchBundle/FacetResult/ColorListItem.php:38-41 | replaces the color code; id, label, active, media and attributes are untouched |
| `FacetResult.CreateWithDefaults` | FinSearchUnified/Bundle/SearchBundle/FacetResult/ColorListItem.php:21 | built without color and attributes, the item has a null color code, no attributes and no media |
| `FacetResult.SetThenGet` | FinSearchUnified/Bundle/SearchBundle/FacetResult/ColorListItem.php:30-41 | setColorcode(c) followed by getColorcode() returns c, and id, label, active, media and attributes are untouched |

## Findings

| source | as written | input that shows it | evidently intended | confidence | as-written member | corrected member |
|---|---|---|---|---|---|---|
| FinSearchUnified/Bundle/ProductNumberSearch.php:197 | every branch of `createSelectedFilter` reaches `new SimpleXMLElement('')` before returning a node, and that constructor throws on the empty document, so a price facet missing from the answer while the user filters by price ends the search with an exception | a user `PriceCondition` on "price" from 10 with no maximum, a requested facet named "price" on field "price", an answer without filter nodes | the missing price facet is rebuilt as a range-slider node with total = selected = [10, PHP_INT_MAX] | high; not executed | `FacetReconstructionProperties.PriceFacetWithoutNodeFails` | `ProductNumberSearch.RepairedSelectFilter` |

`SelectFilter`, `FacetStep`, `Facets`, `CreateFacets` and `Search` follow the code as written.
`RepairedSelectFilter` builds the intended node with `CreateSelectedFilter`, and
`MissingPriceFacetSynthesised` proves the intended range about it.

## Left out

- FacetStep: the model does not tell apart which call inside `createSelectedFilter` throws (the
  range branch's `getValues()` on a condition without it, or the `SimpleXMLElement` constructor);
  every such failure is the one error `SelectedFilterNotBuilt`.
- HTTP and cookies. `execute()` is `Provider.Execute`, whose answer is the function field
  `respond`. The "Fallback" cookie (`setcookie`) is a
  returned value. The landing-page `header`/`exit` is the terminal `Redirected` outcome.
- `StaticHelper::setPromotion` and `StaticHelper::setSmartDidYouMean` only record state elsewhere.
  They are not modelled.
- XML parsing. The response is already parsed into count, product ids, filter nodes and landing
  page. The xpath `//name[.="field"]/parent::*` becomes a search for the first filter node with
  that name. The real xpath searches the whole document, so an element inside a filter's items
  that has a matching `name` child could also match. The model does not capture this.
- The `StaticHelper` functions are not part of this model (`useShopSearch`, `getXmlFromResponse`,
  `getProductsFromXml`, `getShopwareArticlesFromFindologicId`, `checkIfRedirect`). Their results
  are inputs or a function field.
- The concrete condition handlers, the price and product-name sorting handlers, and the five facet
  handlers are not part of this model. Each is a datatype carrying its `supports` predicate and
  its contribution as function values. A condition handler's contribution is a list of clauses
  appended to the query. A sorting handler's contribution is one order clause. Traits are not
  used.
- The construction of `ImageFacetHandler` needs an HTTP client factory. Handler construction is
  reduced to its registration order.
- Shopware's `Criteria` keys conditions by name. The model keeps base and user conditions as two
  sequences, and `getConditions()` is base followed by user. It does not model `array_merge`
  replacing a base condition with a user condition of the same name.
- A context without a customer group is a fatal error in the source. Here `ShopContext` always
  carries a key.
- Prices are floats in the shop. The model uses integers. Only the defaulting of absent bounds is
  modelled.
- Call counts. The provider records each query it receives, so the single `execute` per search
  (none on a bypass) is proved. Calls to `createProductQuery` are not counted; the query sent is
  its result.
