/**
  Laws relating the service's configuration to its queries: the defaults refuse
  to query, the page count behaves as ceiling division at its boundaries, and
  each setter affects exactly the queries that read its field.
*/
module PaginationLaws {
  import opened Results
  import opened Pagination

  /** A fresh service has no entity class, so every query fails without reading the store. */
  lemma FreshServiceNeedsEntityClass<R>(route: string, templatePath: string, store: Store<R>)
    ensures GetPages(New(route, templatePath), store) == Err(MissingEntityClass)
    ensures GetData(New(route, templatePath), store) == Err(MissingEntityClass)
    ensures Display(New(route, templatePath), store) == Err(MissingEntityClass)
  {
  }

  /** With an empty entity class the queries give the same answer whatever the store holds. */
  lemma EmptyEntityClassIgnoresStore<R>(p: Paginator, store: Store<R>, other: Store<R>)
    requires IsEmpty(p.entityClass)
    ensures GetPages(p, store) == GetPages(p, other) == Err(MissingEntityClass)
    ensures GetData(p, store) == GetData(p, other) == Err(MissingEntityClass)
  {
  }

  /** The boundary cases of the ceiling: 0 records, exactly one page, one record more. */
  lemma {:induction false} PageCountBoundaries(limit: int)
    requires limit > 0
    ensures PageCount(0, limit) == Ok(0)
    ensures PageCount(limit, limit) == Ok(1)
    ensures PageCount(limit + 1, limit) == Ok(2)
  {
    CeilQuotientUnique(0, limit, PageCount(0, limit).value, 0);
    CeilQuotientUnique(limit, limit, PageCount(limit, limit).value, 1);
    CeilQuotientUnique(limit + 1, limit, PageCount(limit + 1, limit).value, 2);
  }

  /** No stale page size: after `SetLimit` both queries use the new size. */
  lemma SetLimitRecomputesQueries<R>(p: Paginator, store: Store<R>, limit: int)
    requires Configured(p, store)
    ensures GetPages(SetLimit(p, limit), store) == PageCount(|Records(p, store)|, limit)
    ensures GetData(SetLimit(p, limit), store)
         == FindWindow(Records(p, store), limit, (p.currentPage - 1) * limit)
  {
  }

  /** The page count does not depend on the current page, the route or the template. */
  lemma PageCountIgnoresPageRouteAndTemplate<R>(p: Paginator, store: Store<R>, page: int, route: string, templatePath: string)
    ensures GetPages(SetPage(p, page), store) == GetPages(p, store)
    ensures GetPages(SetRoute(p, route), store) == GetPages(p, store)
    ensures GetPages(SetTemplatePath(p, templatePath), store) == GetPages(p, store)
  {
  }

  /** Neither do the current page's records depend on the route or the template. */
  lemma DataIgnoresRouteAndTemplate<R>(p: Paginator, store: Store<R>, route: string, templatePath: string)
    ensures GetData(SetRoute(p, route), store) == GetData(p, store)
    ensures GetData(SetTemplatePath(p, templatePath), store) == GetData(p, store)
  {
  }

  /** With a positive page size and a page from 1 on, a configured service always answers. */
  lemma ConfiguredQueriesSucceed<R>(p: Paginator, store: Store<R>)
    requires Configured(p, store) && p.limit > 0 && p.currentPage >= 1
    ensures GetPages(p, store).Ok? && GetData(p, store).Ok? && Display(p, store).Ok?
    ensures Display(p, store).value.bag == DataBag(p.currentPage, GetPages(p, store).value, p.route)
  {
  }
}
