/**
 * `viewmodel/RentalViewModel.kt`: the listing state, the favorite state, the
 * auth-error event and the page counter. Each launched coroutine is one
 * atomic step: a method is given the outcome the repository produced for
 * the call it makes, and returns that call (none when it makes no call).
 */
module RentalViewModel {
  import opened Common
  import opened Models
  import opened RentalRepository
  import opened UserManager
  import Seqs

  datatype ListState = Loading | Success(rentals: seq<Listing>) | Error(message: string)

  datatype FavoriteState = FavLoading | FavSuccess(isFavorite: bool) | FavError(message: string)

  datatype RentalEvent = AuthError

  const PAGE_SIZE: int := 10

  /** The list state a finished request settles in. */
  function SettleList(o: Outcome<seq<Listing>>, fallback: string): (s: ListState)
    ensures s.Success? <==> o.Ok?
    ensures o.Ok? ==> s.rentals == o.value
    ensures o.Fail? ==> s == Error(o.MessageOr(fallback))
    ensures !s.Loading?
  {
    match o
    case Ok(items) => Success(items)
    case Fail(_) => Error(o.MessageOr(fallback))
  }

  /** The favorite state a finished request settles in. */
  function SettleFavorite(o: Outcome<bool>, fallback: string): (s: FavoriteState)
    ensures s.FavSuccess? <==> o.Ok?
    ensures o.Ok? ==> s.isFavorite == o.value
    ensures o.Fail? ==> s == FavError(o.MessageOr(fallback))
    ensures !s.FavLoading?
  {
    match o
    case Ok(b) => FavSuccess(b)
    case Fail(_) => FavError(o.MessageOr(fallback))
  }

  class RentalController {
    var listState: ListState
    var favoriteState: FavoriteState
    var event: Option<RentalEvent>
    var currentPage: int
    /** Every value assigned to the list state and to the favorite state, in order. */
    ghost var listTrace: seq<ListState>
    ghost var favoriteTrace: seq<FavoriteState>

    predicate Valid()
      reads this
    {
      currentPage >= 1
    }

    constructor ()
      ensures Valid()
      ensures listState == Loading && favoriteState == FavLoading && event == None && currentPage == 1
      ensures listTrace == [] && favoriteTrace == []
    {
      listState := Loading;
      favoriteState := FavLoading;
      event := None;
      currentPage := 1;
      listTrace := [];
      favoriteTrace := [];
    }

    /**
     * `loadRentalList`: shows `Loading`, requests the current page (it does
     * not reset it), then settles on the outcome with default "加载失败".
     */
    method LoadRentalList(outcome: Outcome<seq<Listing>>) returns (call: Call)
      requires Valid()
      modifies this
      ensures Valid()
      ensures call == ListCall(old(currentPage), PAGE_SIZE)
      ensures currentPage == old(currentPage)
      ensures listState == SettleList(outcome, "加载失败")
      ensures listTrace == old(listTrace) + [Loading, listState]
      ensures favoriteState == old(favoriteState) && event == old(event) && favoriteTrace == old(favoriteTrace)
    {
      listState := Loading;
      listTrace := listTrace + [Loading];
      call := ListCall(currentPage, PAGE_SIZE);
      match outcome {
        case Ok(rentals) =>
          listState := Success(rentals);
        case Fail(_) =>
          listState := Error(outcome.MessageOr("加载失败"));
      }
      listTrace := listTrace + [listState];
    }

    /**
     * `loadMore`: nothing at all unless the list is showing; otherwise the
     * next page is requested and its items are appended, or the whole list
     * is replaced by an error with default "加载更多失败".
     */
    method LoadMore(outcome: Outcome<seq<Listing>>) returns (call: Option<Call>)
      requires Valid()
      modifies this
      ensures Valid()
      ensures !old(listState).Success? ==> call == None && unchanged(this)
      ensures old(listState).Success? ==>
                && currentPage == old(currentPage) + 1
                && call == Some(ListCall(currentPage, PAGE_SIZE))
                && (outcome.Ok? ==> listState == Success(old(listState).rentals + outcome.value))
                && (outcome.Fail? ==> listState == Error(outcome.MessageOr("加载更多失败")))
                && listTrace == old(listTrace) + [listState]
      ensures currentPage >= old(currentPage)
      ensures favoriteState == old(favoriteState) && event == old(event) && favoriteTrace == old(favoriteTrace)
    {
      if !listState.Success? {
        return None;
      }
      currentPage := currentPage + 1;
      call := Some(ListCall(currentPage, PAGE_SIZE));
      match outcome {
        case Ok(newRentals) =>
          listState := Success(listState.rentals + newRentals);
        case Fail(_) =>
          listState := Error(outcome.MessageOr("加载更多失败"));
      }
      listTrace := listTrace + [listState];
    }

    /** `refresh`: back to page 1, then exactly `loadRentalList`. */
    method Refresh(outcome: Outcome<seq<Listing>>) returns (call: Call)
      requires Valid()
      modifies this
      ensures Valid()
      ensures call == ListCall(1, PAGE_SIZE) && currentPage == 1
      ensures listState == SettleList(outcome, "加载失败")
      ensures listTrace == old(listTrace) + [Loading, listState]
      ensures favoriteState == old(favoriteState) && event == old(event) && favoriteTrace == old(favoriteTrace)
    {
      currentPage := 1;
      call := LoadRentalList(outcome);
    }

    /**
     * `toggleFavorite`: shows `Loading`; without a stored token raises
     * `AuthError` and makes no call; otherwise settles on the server's
     * answer with default "操作失败".
     */
    method ToggleFavorite(session: UserStore, rentalId: int, outcome: Outcome<bool>) returns (call: Option<Call>)
      requires Valid() && session.Valid()
      modifies this
      ensures Valid() && currentPage == old(currentPage)
      ensures listState == old(listState) && listTrace == old(listTrace)
      ensures session.GetToken().None? ==>
                call == None && favoriteState == FavLoading && event == Some(AuthError)
                && favoriteTrace == old(favoriteTrace) + [FavLoading]
      ensures session.GetToken().Some? ==>
                call == Some(ToggleCall(session.GetToken().value, rentalId))
                && favoriteState == SettleFavorite(outcome, "操作失败") && event == old(event)
                && favoriteTrace == old(favoriteTrace) + [FavLoading, favoriteState]
    {
      favoriteState := FavLoading;
      favoriteTrace := favoriteTrace + [FavLoading];
      var token := session.GetToken();
      if token.None? {
        event := Some(AuthError);
        return None;
      }
      call := Some(ToggleCall(token.value, rentalId));
      favoriteState := SettleFavorite(outcome, "操作失败");
      favoriteTrace := favoriteTrace + [favoriteState];
    }

    /** `checkFavorite`: as `toggleFavorite`, with default "检查收藏状态失败". */
    method CheckFavorite(session: UserStore, rentalId: int, outcome: Outcome<bool>) returns (call: Option<Call>)
      requires Valid() && session.Valid()
      modifies this
      ensures Valid() && currentPage == old(currentPage)
      ensures listState == old(listState) && listTrace == old(listTrace)
      ensures session.GetToken().None? ==>
                call == None && favoriteState == FavLoading && event == Some(AuthError)
                && favoriteTrace == old(favoriteTrace) + [FavLoading]
      ensures session.GetToken().Some? ==>
                call == Some(CheckCall(session.GetToken().value, rentalId))
                && favoriteState == SettleFavorite(outcome, "检查收藏状态失败") && event == old(event)
                && favoriteTrace == old(favoriteTrace) + [FavLoading, favoriteState]
    {
      favoriteState := FavLoading;
      favoriteTrace := favoriteTrace + [FavLoading];
      var token := session.GetToken();
      if token.None? {
        event := Some(AuthError);
        return None;
      }
      call := Some(CheckCall(token.value, rentalId));
      favoriteState := SettleFavorite(outcome, "检查收藏状态失败");
      favoriteTrace := favoriteTrace + [favoriteState];
    }

    /** `clearEvent`. */
    method ClearEvent()
      modifies this
      ensures event == None
      ensures listState == old(listState) && favoriteState == old(favoriteState) && currentPage == old(currentPage)
      ensures listTrace == old(listTrace) && favoriteTrace == old(favoriteTrace)
    {
      event := None;
    }
  }

  /**
   * Paging from a first result: after `loadRentalList` shows `first` and
   * `n` successful `loadMore` calls bring `pages`, the list is `first`
   * followed by every page in order, and page n + 1 was the last requested.
   */
  method PagingShowsEveryPage(first: seq<Listing>, pages: seq<seq<Listing>>)
    returns (vm: RentalController)
    ensures vm.Valid() && vm.listState == Success(first + Seqs.Flatten(pages))
    ensures vm.currentPage == 1 + |pages|
  {
    vm := new RentalController();
    var _ := vm.LoadRentalList(Ok(first));
    var i := 0;
    while i < |pages|
      invariant 0 <= i <= |pages|
      invariant vm.Valid() && vm.currentPage == 1 + i
      invariant vm.listState == Success(first + Seqs.Flatten(pages[..i]))
    {
      var call := vm.LoadMore(Ok(pages[i]));
      assert pages[..i + 1] == pages[..i] + [pages[i]];
      Seqs.FlattenSnoc(pages[..i], pages[i]);
      i := i + 1;
    }
    assert pages[..i] == pages;
  }
}
