/** The page switch of `loadPage`: a page id selects one of four renderers by
    exact string match, and any other id selects none. */
module Router {
  import opened Entities

  datatype Page = Dashboard | Expenses | Friends | Groups

  /** The id under which each page is dispatched. */
  function PageId(p: Page): string {
    match p
    case Dashboard => "dashboard"
    case Expenses => "expenses"
    case Friends => "friends"
    case Groups => "groups"
  }

  /** The renderer `loadPage` runs for `id`, or None when no case matches
      (the content region is left empty). */
  function Route(id: string): (r: Option<Page>)
    ensures r.Some? <==> id in {"dashboard", "expenses", "friends", "groups"}
    ensures r.Some? ==> PageId(r.value) == id
  {
    if id == "dashboard" then Some(Dashboard)
    else if id == "expenses" then Some(Expenses)
    else if id == "friends" then Some(Friends)
    else if id == "groups" then Some(Groups)
    else None
  }

  /** Every page is reached through its own id, so no renderer is
      unreachable and no two pages share an id. */
  lemma RouteOfPageId(p: Page)
    ensures Route(PageId(p)) == Some(p)
  {
  }
}
