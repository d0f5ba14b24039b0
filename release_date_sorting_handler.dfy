/** ReleaseDateSortingHandler: orders by the date a product was added in the sorting's direction. */
module ReleaseDateSortingHandler {
  import opened SearchTypes
  import opened QueryBuilders

  const OrderField: string := "dateadded "

  /** supportsSorting: a type test. */
  predicate SupportsSorting(sorting: Sorting) {
    sorting.ReleaseDateSorting?
  }

  /** The order clause generateSorting appends. */
  function OrderClause(sorting: Sorting): string {
    OrderField + sorting.direction
  }

  /**
   * generateSorting: appends exactly one order clause through addOrder, so the
   * clauses of earlier sortings stay in place; nothing else in the query
   * changes and the context is not read.
   */
  method GenerateSorting(sorting: Sorting, query: QueryBuilder, context: ShopContext)
    modifies query
    ensures query.State() == old(query.State()).(orders := old(query.orders) + [OrderClause(sorting)])
  {
    query.AddOrder(OrderClause(sorting));
  }

  /**
   * The clause is the field followed by the direction, and two sortings give
   * the same clause exactly when their directions agree: the clause depends on
   * the direction alone and the direction can be read back from it.
   */
  lemma {:induction false} ClauseDeterminedByDirection(a: Sorting, b: Sorting)
    ensures OrderClause(a)[..|OrderField|] == OrderField
    ensures OrderClause(a)[|OrderField|..] == a.direction
    ensures OrderClause(a) == OrderClause(b) <==> a.direction == b.direction
  {
    assert OrderClause(a)[|OrderField|..] == a.direction;
    assert OrderClause(b)[|OrderField|..] == b.direction;
  }
}
