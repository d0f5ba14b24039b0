/**
 * The provider query under construction (NewQueryBuilder). Handlers only
 * ever append to it; pagination is set by the factory. Two variants exist,
 * one for the search page and one for category navigation.
 */
module QueryBuilders {
  import opened Wrappers

  datatype BuilderVariant = SearchQuery | NavigationQuery

  /** An opaque parameter a condition handler adds to the query. */
  type Clause = string

  /** The value seen through a builder: everything contributed so far. */
  datatype QueryState = QueryState(
    variant: BuilderVariant,
    userGroups: seq<string>,
    clauses: seq<Clause>,
    orders: seq<string>,
    firstResult: Option<int>,
    maxResults: Option<int>)

  /** The state of a freshly created builder of the given variant. */
  function Initial(variant: BuilderVariant): QueryState {
    QueryState(variant, [], [], [], None, None)
  }

  class QueryBuilder {
    const variant: BuilderVariant
    var userGroups: seq<string>
    var clauses: seq<Clause>
    var orders: seq<string>
    var firstResult: Option<int>
    var maxResults: Option<int>

    function State(): QueryState
      reads this
    {
      QueryState(variant, userGroups, clauses, orders, firstResult, maxResults)
    }

    constructor (variant: BuilderVariant)
      ensures State() == Initial(variant)
    {
      this.variant := variant;
      userGroups, clauses, orders := [], [], [];
      firstResult, maxResults := None, None;
    }

    method AddUserGroup(key: string)
      modifies this
      ensures State() == old(State()).(userGroups := old(userGroups) + [key])
    {
      userGroups := userGroups + [key];
    }

    /** What one condition handler call appends. */
    method AddClauses(cs: seq<Clause>)
      modifies this
      ensures State() == old(State()).(clauses := old(clauses) + cs)
    {
      clauses := clauses + cs;
    }

    /** addOrder: appends one order clause, keeping the ones added before. */
    method AddOrder(order: string)
      modifies this
      ensures State() == old(State()).(orders := old(orders) + [order])
    {
      orders := orders + [order];
    }

    method SetFirstResult(offset: Option<int>)
      modifies this
      ensures State() == old(State()).(firstResult := offset)
    {
      firstResult := offset;
    }

    method SetMaxResults(limit: Option<int>)
      modifies this
      ensures State() == old(State()).(maxResults := limit)
    {
      maxResults := limit;
    }
  }
}
