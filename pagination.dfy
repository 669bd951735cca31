/** The pagination controls (src/features/users/components/pagination.tsx and its copy with
    default props, src/features/users/components/users-list/pagination.tsx). The API gives
    no page count, so a next page is assumed to exist exactly when the current page is full. */
module Pagination {
  import opened ApiResult
  import Schemas
  import UsersConfig
  import PaginationPrefetch

  /** What the controls show and do: which neighbours exist, where each button navigates,
      and whether it is disabled. */
  datatype Controls = Controls(hasNextPage: bool, hasPrevPage: bool, prevTarget: int, nextTarget: int,
                               prevDisabled: bool, nextDisabled: bool)

  /** `Pagination({ users, currentPage, isPending })`. */
  function PaginationControls(users: seq<Schemas.User>, currentPage: int, isPending: bool): (c: Controls)
    ensures c.hasNextPage <==> |users| == UsersConfig.UsersPerPage
    ensures c.hasPrevPage <==> currentPage > 1
    ensures c.prevTarget == currentPage - 1 && c.nextTarget == currentPage + 1
    ensures c.prevDisabled <==> isPending || !c.hasPrevPage
    ensures c.nextDisabled <==> isPending || !c.hasNextPage
  {
    var hasNextPage := |users| == UsersConfig.UsersPerPage;
    var hasPrevPage := currentPage > 1;
    Controls(hasNextPage, hasPrevPage, currentPage - 1, currentPage + 1,
             isPending || !hasPrevPage, isPending || !hasNextPage)
  }

  /** The list's `Pagination`, whose props default to no users, page 1 and not pending. */
  function ListPaginationControls(users: Option<seq<Schemas.User>>, currentPage: Option<int>,
                                  isPending: Option<bool>): (c: Controls)
    ensures c == PaginationControls(users.GetOr([]), currentPage.GetOr(1), isPending.GetOr(false))
  {
    PaginationControls(users.GetOr([]), currentPage.GetOr(1), isPending.GetOr(false))
  }

  /** Rendered with every default, as a placeholder, both buttons are disabled. */
  lemma DefaultsDisableBoth()
    ensures ListPaginationControls(None, None, None).prevDisabled
    ensures ListPaginationControls(None, None, None).nextDisabled
  {
  }

  /** While a navigation is pending both buttons are disabled. */
  lemma PendingDisablesBoth(users: seq<Schemas.User>, currentPage: int)
    ensures PaginationControls(users, currentPage, true).prevDisabled
    ensures PaginationControls(users, currentPage, true).nextDisabled
  {
  }

  /** From a real page, an enabled Previous button never leads below page 1. */
  lemma PreviousNeverBelowOne(users: seq<Schemas.User>, currentPage: int, isPending: bool)
    requires currentPage >= 1
    ensures !PaginationControls(users, currentPage, isPending).prevDisabled ==>
              PaginationControls(users, currentPage, isPending).prevTarget >= 1
  {
  }

  /** A next page is offered only for a page of exactly `USERS_PER_PAGE` users: a short page
      and an over-full page both disable Next. */
  lemma NextRequiresExactlyFullPage(users: seq<Schemas.User>, currentPage: int)
    ensures !PaginationControls(users, currentPage, false).nextDisabled <==> |users| == 12
  {
  }

  /** Every page an enabled button leads to has been prefetched for the current page. */
  lemma EnabledTargetsArePrefetched(users: seq<Schemas.User>, currentPage: int, isPending: bool)
    ensures var c := PaginationControls(users, currentPage, isPending);
      && (!c.nextDisabled ==> c.nextTarget in PaginationPrefetch.PrefetchPages(currentPage))
      && (!c.prevDisabled ==> c.prevTarget in PaginationPrefetch.PrefetchPages(currentPage))
  {
    var pages := PaginationPrefetch.PrefetchPages(currentPage);
    assert pages[0] == currentPage + 1;
    if currentPage > 1 {
      assert pages[1] == currentPage - 1;
    }
  }
}
