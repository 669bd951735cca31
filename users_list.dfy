/** The users list (src/features/users/components/users-list/list.tsx): an empty page shows
    the no-users alert; otherwise the page's cards, then placeholders up to a full page,
    each tile with its stagger index, then the pagination controls. The adjacent pages are
    prefetched in both cases, because the prefetch runs before the empty check. */
module UsersList {
  import Schemas
  import UsersConfig
  import Pagination
  import PaginationPrefetch

  /** One grid slot: a user's card or a placeholder, with its stagger index. */
  datatype Tile = Card(user: Schemas.User, index: int) | Placeholder(index: int)

  /** What the list renders. */
  datatype View = NoUsers | Grid(tiles: seq<Tile>, controls: Pagination.Controls)

  /** The list's effects: the pages it prefetches, and its view. */
  datatype Rendered = Rendered(prefetched: seq<int>, view: View)

  /** `Math.max(0, USERS_PER_PAGE - users.length)`. */
  function SkeletonsNeeded(count: nat): (k: nat)
    ensures count <= UsersConfig.UsersPerPage ==> count + k == UsersConfig.UsersPerPage
    ensures count >= UsersConfig.UsersPerPage ==> k == 0
  {
    if count >= UsersConfig.UsersPerPage then 0 else UsersConfig.UsersPerPage - count
  }

  /** The grid: a card per user at indices `0..n-1`, then the placeholders at `n..n+k-1`. */
  function Tiles(users: seq<Schemas.User>): (tiles: seq<Tile>)
    ensures |tiles| == |users| + SkeletonsNeeded(|users|)
    ensures forall i :: 0 <= i < |tiles| ==> tiles[i].index == i
    ensures forall i :: 0 <= i < |users| ==> tiles[i] == Card(users[i], i)
    ensures forall i :: |users| <= i < |tiles| ==> tiles[i].Placeholder?
  {
    var n := |users|;
    seq(n + SkeletonsNeeded(n), i requires 0 <= i < n + SkeletonsNeeded(n) =>
      if i < n then Card(users[i], i) else Placeholder(i))
  }

  /** `UsersList({ users, currentPage })` while a navigation is or is not pending. */
  function RenderUsersList(users: seq<Schemas.User>, currentPage: int, isPending: bool): (r: Rendered)
    ensures r.prefetched == PaginationPrefetch.PrefetchPages(currentPage)
    ensures r.view.NoUsers? <==> users == []
    ensures r.view.Grid? ==> r.view.tiles == Tiles(users)
    ensures r.view.Grid? ==> r.view.controls == Pagination.PaginationControls(users, currentPage, isPending)
  {
    var prefetched := PaginationPrefetch.PrefetchPages(currentPage);
    if users == [] then Rendered(prefetched, NoUsers)
    else Rendered(prefetched, Grid(Tiles(users), Pagination.PaginationControls(users, currentPage, isPending)))
  }

  /** A page of at most `USERS_PER_PAGE` users always fills the grid exactly, and the users
      appear in order, each once. */
  lemma GridIsFull(users: seq<Schemas.User>)
    requires |users| <= UsersConfig.UsersPerPage
    ensures |Tiles(users)| == UsersConfig.UsersPerPage
    ensures forall i :: 0 <= i < |users| ==> Tiles(users)[i].Card? && Tiles(users)[i].user == users[i]
  {
  }

  /** The stagger indices are distinct and contiguous from 0. */
  lemma IndicesDistinct(users: seq<Schemas.User>)
    ensures forall i, j :: 0 <= i < j < |Tiles(users)| ==> Tiles(users)[i].index < Tiles(users)[j].index
    ensures forall i :: 0 <= i < |Tiles(users)| ==> 0 <= Tiles(users)[i].index < |Tiles(users)|
  {
  }

  /** The users shown by a sequence of tiles, in tile order. */
  function CardsOf(tiles: seq<Tile>): seq<Schemas.User>
    decreases |tiles|
  {
    if tiles == [] then []
    else
      var last := tiles[|tiles| - 1];
      CardsOf(tiles[..|tiles| - 1]) + (if last.Card? then [last.user] else [])
  }

  /** Tiles holding the cards of `users` first and placeholders after show exactly `users`. */
  lemma {:induction false} CardsInOrder(tiles: seq<Tile>, users: seq<Schemas.User>)
    requires |users| <= |tiles|
    requires forall i :: 0 <= i < |users| ==> tiles[i] == Card(users[i], i)
    requires forall i :: |users| <= i < |tiles| ==> tiles[i].Placeholder?
    ensures CardsOf(tiles) == users
    decreases |tiles|
  {
    if tiles != [] {
      var init := tiles[..|tiles| - 1];
      if |tiles| > |users| {
        CardsInOrder(init, users);
      } else {
        CardsInOrder(init, users[..|users| - 1]);
        assert users == users[..|users| - 1] + [users[|users| - 1]];
      }
    }
  }

  /** The grid shows every user of the page, in order, once each; placeholders add none. */
  lemma GridShowsExactlyTheUsers(users: seq<Schemas.User>)
    ensures CardsOf(Tiles(users)) == users
  {
    CardsInOrder(Tiles(users), users);
  }

  /** An empty page still prefetches its neighbours, and shows no pagination. */
  lemma EmptyPageStillPrefetches(currentPage: int, isPending: bool)
    ensures RenderUsersList([], currentPage, isPending).prefetched == PaginationPrefetch.PrefetchPages(currentPage)
    ensures RenderUsersList([], currentPage, isPending).view == NoUsers
  {
  }
}
