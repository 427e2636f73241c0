/**
  The administration's comment listing as a client of the pagination service:
  comments, five per page, the page number taken from the route
  (`/admin/comments/{page}`, digits only, default 1).
*/
module CommentIndex {
  import opened Results
  import opened Pagination

  const CommentClass: string := "App\\Entity\\Comment"

  /** The chained configuration `setEntityClass(Comment)->setLimit(5)->setPage($page)`. */
  function Configure(page: nat, route: string, templatePath: string): (p: Paginator)
    ensures p.entityClass == Some(CommentClass) && !IsEmpty(p.entityClass)
    ensures p.limit == 5 && p.currentPage == page
    ensures p.route == route && p.templatePath == templatePath
  {
    SetPage(SetLimit(SetEntityClass(New(route, templatePath), Some(CommentClass)), 5), page)
  }

  /** 23 comments make 5 pages; page 3 shows comments 10 to 14 (0-based). */
  lemma TwentyThreeComments<R>(comments: seq<R>, route: string, templatePath: string)
    requires |comments| == 23
    ensures GetPages(Configure(3, route, templatePath), map[CommentClass := comments]) == Ok(5)
    ensures GetData(Configure(3, route, templatePath), map[CommentClass := comments]) == Ok(comments[10..15])
    ensures Display(Configure(3, route, templatePath), map[CommentClass := comments])
         == Ok(Rendering(templatePath, DataBag(3, 5, route)))
  {
  }

  /** No comments: zero pages, an empty first page, and a navigation with zero pages. */
  lemma NoComments<R>(comments: seq<R>, route: string, templatePath: string)
    requires comments == []
    ensures GetPages(Configure(1, route, templatePath), map[CommentClass := comments]) == Ok(0)
    ensures GetData(Configure(1, route, templatePath), map[CommentClass := comments]) == Ok(comments)
    ensures Display(Configure(1, route, templatePath), map[CommentClass := comments])
         == Ok(Rendering(templatePath, DataBag(1, 0, route)))
  {
  }

  /**
    The route admits page 0; its offset is -5, which the store refuses, while the
    page count is still answered.
  */
  lemma PageZeroIsRefusedByTheStore<R>(comments: seq<R>, route: string, templatePath: string)
    ensures GetData(Configure(0, route, templatePath), map[CommentClass := comments]) == Err(InvalidWindow(5, -5))
    ensures GetPages(Configure(0, route, templatePath), map[CommentClass := comments]).Ok?
  {
  }
}
