/**
  The pagination service: a builder-style configuration (entity class, page size,
  current page, route, template path) and the three queries computed from it — the
  number of pages, the records of the current page, and the data bag handed to the
  navigation template.

  The persistence layer is a `Store`: for every entity class it knows, the records
  of that class in the store's natural order. Rendering is a pure function that
  returns the template path and the data bag instead of writing to the response.
*/
module Pagination {
  import opened Results

  /** Records of every known entity class, in the store's natural order. */
  type Store<R> = map<string, seq<R>>

  /**
    The service's state. `getPage` reads `currentPage`; every other getter reads
    the field of the same name.
  */
  datatype Paginator = Paginator(
    entityClass: Option<string>,
    limit: int,
    currentPage: int,
    route: string,
    templatePath: string)

  datatype PaginationError =
    | MissingEntityClass                 // the entity class was never set, or is empty
    | UnknownEntityClass(name: string)   // the store has no repository for the class
    | DivisionByZero                     // page count asked with a page size of zero
    | InvalidWindow(limit: int, offset: int) // the store refuses a negative size or offset

  const DefaultLimit: int := 10
  const DefaultPage: int := 1

  /** PHP's `empty()` on the entity-class property: null, "" and "0" are all empty. */
  predicate IsEmpty(c: Option<string>) {
    c.None? || c.value == "" || c.value == "0"
  }

  /** The configured entity class is non-empty and the store has records for it. */
  predicate Configured<R>(p: Paginator, store: Store<R>) {
    !IsEmpty(p.entityClass) && p.entityClass.value in store
  }

  function Records<R>(p: Paginator, store: Store<R>): (records: seq<R>)
    requires Configured(p, store)
  {
    store[p.entityClass.value]
  }

  /** A freshly constructed service; the route is the one of the current request. */
  function New(route: string, templatePath: string): (p: Paginator)
    ensures p.limit == 10 && p.currentPage == 1
    ensures IsEmpty(p.entityClass)
    ensures p.route == route && p.templatePath == templatePath
  {
    Paginator(None, DefaultLimit, DefaultPage, route, templatePath)
  }

  // Setters. Each one changes its own field and nothing else; the PHP versions
  // return the service itself so that calls can be chained.

  function SetEntityClass(p: Paginator, entityClass: Option<string>): (r: Paginator)
    ensures r.entityClass == entityClass
    ensures r.(entityClass := p.entityClass) == p
  {
    p.(entityClass := entityClass)
  }

  function SetLimit(p: Paginator, limit: int): (r: Paginator)
    ensures r.limit == limit
    ensures r.(limit := p.limit) == p
  {
    p.(limit := limit)
  }

  function SetPage(p: Paginator, page: int): (r: Paginator)
    ensures r.currentPage == page
    ensures r.(currentPage := p.currentPage) == p
  {
    p.(currentPage := page)
  }

  function SetRoute(p: Paginator, route: string): (r: Paginator)
    ensures r.route == route
    ensures r.(route := p.route) == p
  {
    p.(route := route)
  }

  function SetTemplatePath(p: Paginator, templatePath: string): (r: Paginator)
    ensures r.templatePath == templatePath
    ensures r.(templatePath := p.templatePath) == p
  {
    p.(templatePath := templatePath)
  }

  /**
    `pages` is the ceiling of the rational quotient `total / limit`: the least
    integer not below it. Multiplying through by `limit` flips the comparisons
    when `limit` is negative.
  */
  ghost predicate IsCeilQuotient(total: int, limit: int, pages: int) {
    if limit > 0 then (pages - 1) * limit < total <= pages * limit
    else if limit < 0 then pages * limit <= total < (pages - 1) * limit
    else false
  }

  lemma CeilQuotientUnique(total: int, limit: int, a: int, b: int)
    requires IsCeilQuotient(total, limit, a) && IsCeilQuotient(total, limit, b)
    ensures a == b
  {
  }

  /** Ceiling division for a positive divisor. */
  function CeilDiv(total: nat, limit: int): (pages: nat)
    requires limit > 0
    ensures IsCeilQuotient(total, limit, pages)
  {
    var q := (total + limit - 1) / limit;
    assert q * limit <= total + limit - 1 < (q + 1) * limit;
    q
  }

  /**
    `ceil($total / $limit)` for a record count: an error when the divisor is zero,
    the integer ceiling of the quotient otherwise (also for a negative divisor,
    where the quotient is negative and its ceiling is minus the floor of `total / -limit`).
  */
  function PageCount(total: nat, limit: int): (r: Result<int, PaginationError>)
    ensures r.Err? <==> limit == 0
    ensures r.Err? ==> r.error == DivisionByZero
    ensures r.Ok? ==> IsCeilQuotient(total, limit, r.value)
  {
    if limit == 0 then Err(DivisionByZero)
    else if limit > 0 then Ok(CeilDiv(total, limit))
    else
      var q := total / -limit;
      assert q * -limit <= total < (q + 1) * -limit;
      Ok(-q)
  }

  /** `getPages`: the number of pages of the configured entity's records. */
  function GetPages<R>(p: Paginator, store: Store<R>): (r: Result<int, PaginationError>)
    ensures r == Err(MissingEntityClass) <==> IsEmpty(p.entityClass)
    ensures (r.Err? && r.error.UnknownEntityClass?)
        <==> !IsEmpty(p.entityClass) && p.entityClass.value !in store
    ensures r == Err(DivisionByZero) <==> Configured(p, store) && p.limit == 0
    ensures r.Ok? <==> Configured(p, store) && p.limit != 0
    ensures r.Ok? ==> IsCeilQuotient(|Records(p, store)|, p.limit, r.value)
    ensures r.Ok? && p.limit > 0 ==> r.value >= 0
  {
    if IsEmpty(p.entityClass) then Err(MissingEntityClass)
    else if p.entityClass.value !in store then Err(UnknownEntityClass(p.entityClass.value))
    else PageCount(|store[p.entityClass.value]|, p.limit)
  }

  /** The offset of the current page: `currentPage * limit - limit`. */
  function Offset(p: Paginator): (offset: int)
    ensures offset == (p.currentPage - 1) * p.limit
    ensures p.currentPage >= 1 && p.limit >= 0 ==> offset >= 0
  {
    p.currentPage * p.limit - p.limit
  }

  /**
    The store's `findBy([], [], limit, offset)`: at most `limit` records starting
    at `offset`, in natural order; a negative size or offset is refused.
  */
  function FindWindow<R>(records: seq<R>, limit: int, offset: int): (r: Result<seq<R>, PaginationError>)
    ensures r.Err? <==> limit < 0 || offset < 0
    ensures r.Err? ==> r.error == InvalidWindow(limit, offset)
    ensures r.Ok? ==> |r.value| <= limit
    ensures r.Ok? && offset >= |records| ==> r.value == []
    ensures r.Ok? && offset < |records| ==> |r.value| == Min(limit, |records| - offset)
    ensures r.Ok? ==> forall i :: 0 <= i < |r.value| ==> offset + i < |records| && r.value[i] == records[offset + i]
  {
    if limit < 0 || offset < 0 then Err(InvalidWindow(limit, offset))
    else Ok(records[Min(offset, |records|)..Min(offset + limit, |records|)])
  }

  /** `getData`: the records of the current page. */
  function GetData<R>(p: Paginator, store: Store<R>): (r: Result<seq<R>, PaginationError>)
    ensures r == Err(MissingEntityClass) <==> IsEmpty(p.entityClass)
    ensures (r.Err? && r.error.UnknownEntityClass?)
        <==> !IsEmpty(p.entityClass) && p.entityClass.value !in store
    ensures r.Ok? <==> Configured(p, store) && p.limit >= 0 && Offset(p) >= 0
    ensures r.Ok? ==> |r.value| <= p.limit
    ensures r.Ok? ==> forall i :: 0 <= i < |r.value| ==>
      Offset(p) + i < |Records(p, store)| && r.value[i] == Records(p, store)[Offset(p) + i]
    ensures r.Ok? && Offset(p) >= |Records(p, store)| ==> r.value == []
    ensures r.Ok? && Offset(p) < |Records(p, store)| ==>
      |r.value| == Min(p.limit, |Records(p, store)| - Offset(p))
  {
    if IsEmpty(p.entityClass) then Err(MissingEntityClass)
    else
      var offset := Offset(p);
      if p.entityClass.value !in store then Err(UnknownEntityClass(p.entityClass.value))
      else
        var records := store[p.entityClass.value];
        assert records == Records(p, store);
        FindWindow(records, p.limit, offset)
  }

  /** The variables the navigation template receives. */
  datatype DataBag = DataBag(page: int, pages: int, route: string)

  /** What `display` hands to the template engine. */
  datatype Rendering = Rendering(template: string, bag: DataBag)

  /** `display`: the navigation fragment's template and data bag. */
  function Display<R>(p: Paginator, store: Store<R>): (r: Result<Rendering, PaginationError>)
    ensures r.Ok? <==> Configured(p, store) && p.limit != 0
    ensures r.Err? ==> GetPages(p, store) == Err(r.error)
    ensures r.Ok? ==> r.value.template == p.templatePath
    ensures r.Ok? ==> r.value.bag.page == p.currentPage && r.value.bag.route == p.route
    ensures r.Ok? ==> IsCeilQuotient(|Records(p, store)|, p.limit, r.value.bag.pages)
  {
    match GetPages(p, store)
    case Err(e) => Err(e)
    case Ok(pages) => Ok(Rendering(p.templatePath, DataBag(p.currentPage, pages, p.route)))
  }
}
