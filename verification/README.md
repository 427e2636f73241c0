# Pagination service and form-field configuration, in Dafny

This project models the two pieces of logic in a Symfony classified-ads application
that are more than framework glue.

- **The pagination service** (`PaginationService`). It holds a builder-style
  configuration: entity class, page size (`limit`, default 10), current page
  (default 1), route and template path. From that configuration it computes the
  number of pages, the records of the current page, and the data bag
  `{page, pages, route}` that the navigation template receives. Both queries fail
  before touching the database when no entity class is set.
- **The base form type's field configuration** (`ApplicationType::getConfiguration`).
  It builds `['label' => $label, 'attr' => ['placeholder' => $placeholder]]` and
  merges the caller's `$options` over it with `array_merge`.

The model is functional. The service is an immutable `Paginator` record. Each
setter returns an updated copy, and each getter is a record field: `getPage`
reads `p.currentPage`, and the other getters read the field of the same name
(`p.limit`, `p.route`, …). The database is a `Store<R>`: a map from
entity class to that class's records in one fixed natural order, the same for
every query (see "## Left out"). `findAll` is the length
of that sequence. `findBy([], [], limit, offset)` is a clamped slice. Rendering
returns the template path and data bag instead of writing output.

Files and modules:

- `results.dfy` (`Results`): `Option`, `Result`, `Min`.
- `pagination.dfy` (`Pagination`): state, defaults, setters, `GetPages`, `Offset`,
  `FindWindow`, `GetData`, `Display`.
- `page_cover.dfy` (`PageCover`): pages 1..n concatenated in order.
- `pagination_laws.dfy` (`PaginationLaws`): how the configuration relates to the queries.
- `comment_index.dfy` (`CommentIndex`): the comment back-office as a sample client.
- `php_array.dfy` (`PhpArray`): string-keyed PHP arrays, `array_merge`, and the
  proof that it is a right-biased map union.
- `application_type.dfy` (`ApplicationType`): `getConfiguration`.

Behaviour of the code that the model keeps:

- Besides a missing entity class, a page size of 0 also fails, in
  `ceil($total / $this->limit)` (src/Service/PaginationService.php:81). PHP 7 returns
  INF or NAN there, which the `: int` return type rejects; PHP 8 throws
  `DivisionByZeroError`. The model returns `Err(DivisionByZero)` for this case. A
  negative page size gives the exact integer ceiling of the negative quotient.
- The route is read once at construction and can be replaced with `setRoute`
  (src/Service/PaginationService.php:184-189).
- "Empty" means PHP `empty()`. The model treats null, `""` and `"0"` as no entity
  class.

## Model

| member | source | states |
|---|---|---|
| Pagination.New | src/Service/PaginationService.php:13-38 | a fresh service has page size 10, current page 1, no (empty) entity class, and keeps the route and template path it was built with |
| Pagination.SetEntityClass | src/Service/PaginationService.php:124-129 | the entity class becomes the given value and every other field is unchanged |
| Pagination.SetLimit | src/Service/PaginationService.php:144-149 | the page size becomes the given value and every other field is unchanged |
| Pagination.SetPage | src/Service/PaginationService.php:164-169 | the current page becomes the given value and every other field is unchanged |
| Pagination.SetRoute | src/Service/PaginationService.php:184-189 | the route becomes the given value and every other field is unchanged |
| Pagination.SetTemplatePath | src/Service/PaginationService.php:204-209 | the template path becomes the given value and every other field is unchanged |
| Pagination.PageCount | src/Service/PaginationService.php:81 | `ceil($total / $limit)` fails exactly when the page size is 0; otherwise the result is the least integer not below the rational quotient |
| Pagination.GetPages | src/Service/PaginationService.php:72-84 | fails with the missing-entity error exactly when the entity class is empty; fails with unknown-entity exactly when the store has no entry for the class (a known class with zero records gives 0 pages); fails with division by zero exactly when the size is 0; otherwise returns the ceiling of record count / page size, which is non-negative for a positive size |
| Pagination.Offset | src/Service/PaginationService.php:103 | `currentPage*limit - limit` equals `(currentPage-1)*limit` and is non-negative when the page is at least 1 and the size non-negative |
| Pagination.FindWindow | src/Service/PaginationService.php:105-106 | the store's window fails exactly for a negative size or offset; otherwise it has at most `limit` records, is the contiguous run starting at `offset`, is empty past the end, and holds `min(limit, total-offset)` records before it |
| Pagination.GetData | src/Service/PaginationService.php:97-109 | fails with the missing-entity error exactly when the entity class is empty, and with unknown-entity exactly when the store lacks the class; succeeds exactly when configured with a non-negative size and offset; then returns at most `limit` consecutive records starting at offset `(page-1)*limit`, none past the end |
| Pagination.Display | src/Service/PaginationService.php:53-59 | succeeds exactly when `GetPages` does, and otherwise fails with the same error; on success it hands the template path and a bag with `page = currentPage`, `pages` = the ceiling of count / size, and `route = route` |
| PageCover.PageWindow | src/Service/PaginationService.php:103-106 | with a positive size, page k holds the records from `(k-1)*limit` up to `k*limit`, both clamped to the collection's length |
| PageCover.ReadPagesIsPrefix | src/Service/PaginationService.php:103-106 | pages 1..k concatenated in order are exactly the first `min(k*limit, total)` records |
| PageCover.AllPagesReproduceCollection | src/Service/PaginationService.php:72-108 | with a positive size, pages 1..getPages() concatenated in order reproduce the whole collection exactly once, given the store's fixed record order |
| PageCover.PagesBeyondTheLastAreEmpty | src/Service/PaginationService.php:72-108 | with a positive size, a page from 1 on is empty exactly when its number exceeds the page count |
| PaginationLaws.FreshServiceNeedsEntityClass | src/Service/PaginationService.php:53-101 | on a fresh service, `getPages`, `getData` and `display` all fail with the missing-entity error, whatever the store |
| PaginationLaws.EmptyEntityClassIgnoresStore | src/Service/PaginationService.php:72-101 | with an empty entity class both queries fail with the same missing-entity error for any two stores, so the store is never consulted |
| PaginationLaws.PageCountBoundaries | src/Service/PaginationService.php:81 | for a positive size: 0 records give 0 pages, `limit` records give 1 page, `limit+1` records give 2 pages |
| PaginationLaws.SetLimitRecomputesQueries | src/Service/PaginationService.php:144-149 | after `setLimit(n)` the page count is the count for size n and the data is the window of size n at offset `(page-1)*n`, so no stale size is used |
| PaginationLaws.PageCountIgnoresPageRouteAndTemplate | src/Service/PaginationService.php:72-84 | the page count is the same whatever the current page, route or template path |
| PaginationLaws.DataIgnoresRouteAndTemplate | src/Service/PaginationService.php:97-109 | the current page's records are the same whatever the route or template path |
| PaginationLaws.ConfiguredQueriesSucceed | src/Service/PaginationService.php:53-109 | with a known entity class, a positive size and a page from 1 on, all three queries succeed and the data bag is exactly `{currentPage, getPages(), route}` |
| CommentIndex.Configure | src/Controller/AdminCommentController.php:21-23 | the comment listing's chained configuration sets the Comment class, page size 5 and the route's page, leaving route and template path as constructed |
| CommentIndex.TwentyThreeComments | src/Controller/AdminCommentController.php:17-27 | with 23 comments there are 5 pages, page 3 holds comments 10..14 (0-based), and the navigation bag is `{3, 5, route}` |
| CommentIndex.NoComments | src/Controller/AdminCommentController.php:17-27 | with no comments there are 0 pages, page 1 is empty, and the navigation renders with 0 pages |
| CommentIndex.PageZeroIsRefusedByTheStore | src/Controller/AdminCommentController.php:17-23 | the route's digits-only pattern admits page 0, whose offset -5 the store refuses, while the page count is still answered |
| PhpArray.Put | src/Form/ApplicationType.php:18-23 | writing a key overwrites its value in place or appends it at the end; other keys' values and all existing positions are unchanged, and keys stay distinct |
| PhpArray.ArrayMerge | src/Form/ApplicationType.php:18-23 | `array_merge` on string keys: the keys are the union; keys of the second array take its values; other keys keep the first array's values; the first array's keys keep their positions |
| PhpArray.MergeIsRightBiasedUnion | src/Form/ApplicationType.php:18-23 | seen as a finite map, `array_merge` is the right-biased map union |
| ApplicationType.GetConfiguration | src/Form/ApplicationType.php:17-24 | the keys are exactly `{label, attr}` ∪ keys(options), with `label` first and `attr` second; every option key maps to its option value; `label` maps to the label unless overridden; `attr` maps to `{placeholder}` unless overridden |
| ApplicationType.DefaultOptions | src/Form/ApplicationType.php:17-23 | with empty options the result is exactly `[label => $label, attr => [placeholder => $placeholder]]` |
| ApplicationType.AttrOptionReplacesPlaceholder | src/Form/ApplicationType.php:18-23 | an `attr` option replaces the whole base `attr` array: the result's placeholder is whatever the option's `attr` holds, so the base placeholder is lost unless the option supplies one |
| ApplicationType.ConfigurationAsMap | src/Form/ApplicationType.php:18-23 | as a map, the configuration is `{label, attr: {placeholder}}` overridden by the options |

## Left out

- The Doctrine entity manager and repositories are not modelled. They are replaced by
  a `Store` that maps entity classes to records. A class the store does not know
  gives `Err(UnknownEntityClass)`. The store's window refuses a negative size or
  offset and clamps everything else. This is an assumed contract of the store.
  Doctrine's database layer rejects negative offsets. A negative `LIMIT` is an
  error on MySQL and PostgreSQL, but SQLite reads it as "no limit"; the model
  follows the former.
  The ORM's own code is not part of this model.
- Twig's `display` side effect is not modelled. `Display` returns the template path
  and data bag it would render.
- Reading the route from the request stack in the constructor is not modelled. The
  route is a plain argument to `New`. A request without a `_route` attribute,
  which would give null, is not modelled.
- The dependency-injected collaborators (`$manager`, `$twig`) are not fields of the
  state. They are the `store` argument, or absent.
- `getEntityClass`, `getLimit`, `getPage`, `getRoute` and `getTemplatePath` are the
  record's field accessors. They have no separate functions.
- Pagination.PageCount: PHP computes `ceil` on floats. The model uses exact integer
  arithmetic. The two agree for record counts below 2^53.
- PageCover.AllPagesReproduceCollection: the store is assumed to return a class's
  records in one fixed order on every query. `getData` calls `findBy` without an
  order, and SQL without ORDER BY does not guarantee one, so on a real database
  pages may overlap or skip records. The same assumption underlies
  `PageCover.ReadPagesIsPrefix`, `PageCover.PageWindow` and
  `PageCover.PagesBeyondTheLastAreEmpty`.
- Pagination.GetPages: `findAll` loads every record to count them. The model takes
  the sequence's length and does not model that cost or the two separate store
  round trips.
- Pagination.Offset: PHP integers are 64 bits wide. When `currentPage * limit`
  exceeds PHP_INT_MAX, PHP turns the product into a float, and the store receives
  that float offset. The model computes the offset `(currentPage - 1) * limit` as
  an unbounded integer, so `Pagination.GetData` only matches PHP while
  `currentPage * limit` fits in 64 bits.
- The page size and page number are modelled as integers. PHP's coercion of numeric
  strings taken from the route is not modelled.
- PhpArray.ArrayMerge: integer keys are not modelled, so neither is their
  renumbering by `array_merge`. This includes decimal-integer strings such as
  `"0"` or `"5"`, which PHP stores as integer keys: the model treats them as
  string keys and overwrites them in place, where PHP appends them renumbered.
  Floats, objects and closures are not modelled as option values.
- ApplicationType.GetConfiguration: its key-set and override clauses hold only for
  option keys that are not decimal integers, for the reason given on the
  `PhpArray.ArrayMerge` line.
- The controllers are not modelled (`AdController`, `AdminBookingController`,
  `HomeController`, and the rest of `AdminCommentController`). They are routing,
  form binding, persistence and redirects with no algorithm. The comment listing's
  configuration is kept as a sample client.
- `public/js/ad.js` is not modelled. It is DOM manipulation of the image widget
  and has no state worth verifying.
