/** Prefetching the pages next to the current one (src/features/users/hooks/usePaginationPrefetch.ts).
    The router is modelled by the log of pages it was asked to prefetch; the URL of a page
    (built by `buildPaginationUrl`) is not part of this model. */
module PaginationPrefetch {

  /** The pages prefetched for `currentPage`, in order: always the next page, then the
      previous page when there is one. */
  function PrefetchPages(currentPage: int): (pages: seq<int>)
    ensures 1 <= |pages| <= 2 && pages[0] == currentPage + 1
    ensures |pages| == 2 <==> currentPage > 1
    ensures |pages| == 2 ==> pages[1] == currentPage - 1
  {
    if currentPage > 1 then [currentPage + 1, currentPage - 1] else [currentPage + 1]
  }

  /** The app router, reduced to the pages it has been asked to prefetch. */
  class Router {
    var prefetched: seq<int>

    constructor()
      ensures prefetched == []
    {
      prefetched := [];
    }
  }

  /** The effect of `usePaginationPrefetch(currentPage)`: prefetch the next page, then the
      previous one if `currentPage > 1`. */
  method UsePaginationPrefetch(router: Router, currentPage: int)
    modifies router
    ensures router.prefetched == old(router.prefetched) + PrefetchPages(currentPage)
  {
    router.prefetched := router.prefetched + [currentPage + 1];
    if currentPage > 1 {
      router.prefetched := router.prefetched + [currentPage - 1];
    }
  }

  /** From a real page (1 or more) no page below 1 is ever prefetched, and the pages are
      exactly the neighbours that exist. */
  lemma PrefetchStaysInRange(currentPage: int)
    requires currentPage >= 1
    ensures forall p :: p in PrefetchPages(currentPage) ==> p >= 1
    ensures forall p :: p in PrefetchPages(currentPage) <==> p >= 1 && (p == currentPage + 1 || p == currentPage - 1)
  {
  }

  /** `usePaginationPrefetch(2)` prefetches pages 3 and 1, in that order. */
  lemma PrefetchExample()
    ensures PrefetchPages(2) == [3, 1]
  {
  }
}
