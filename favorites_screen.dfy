/**
 * The unfavorite protocol of `screens/FavoritesScreen.kt`: a heart tap asks
 * for confirmation, confirming asks the view model to toggle the favorite,
 * and the favorite state's answer ends the operation (reloading the list
 * when the listing is no longer a favorite).
 */
module FavoritesScreen {
  import opened Common
  import opened Models
  import opened RentalViewModel

  /** What the screen asks the view model for. */
  datatype FavoritesRequest = LoadFavorites | ToggleFavorite(rentalId: int)

  class FavoritesScreenState {
    var currentRentalId: Option<int>
    var showConfirmDialog: bool
    var isOperating: bool

    /** The dialog flag is only ever raised together with an id. */
    predicate Valid()
      reads this
    {
      showConfirmDialog ==> currentRentalId.Some?
    }

    constructor ()
      ensures Valid() && currentRentalId == None && !showConfirmDialog && !isOperating
    {
      currentRentalId := None;
      showConfirmDialog := false;
      isOperating := false;
    }

    /**
     * First composition: the favorites are requested once, and the favorite
     * state effect runs with whatever state the view model holds, so a
     * `Loading` state marks an operation running from the start.
     */
    method OnEnter(vm: RentalController) returns (requests: seq<FavoritesRequest>)
      requires Valid()
      modifies this
      ensures Valid()
      ensures requests == [LoadFavorites] + (if vm.favoriteState == FavSuccess(false) then [LoadFavorites] else [])
      ensures isOperating <==> vm.favoriteState.FavLoading?
      ensures currentRentalId == old(currentRentalId) && showConfirmDialog == old(showConfirmDialog)
    {
      var reload := OnFavoriteState(vm.favoriteState);
      requests := [LoadFavorites] + (if reload.Some? then [reload.value] else []);
    }

    /** The confirmation dialog is shown when its flag is set and an id is recorded. */
    function DialogVisible(): (visible: bool)
      reads this
      ensures Valid() ==> (visible <==> showConfirmDialog)
    {
      showConfirmDialog && currentRentalId.Some?
    }

    /** A heart tap records the listing and opens the dialog; nothing is requested. */
    method OnHeartTap(rentalId: int)
      modifies this
      ensures Valid()
      ensures currentRentalId == Some(rentalId) && showConfirmDialog && isOperating == old(isOperating)
    {
      currentRentalId := Some(rentalId);
      showConfirmDialog := true;
    }

    /**
     * Confirm: with an id recorded, marks the operation running, asks to
     * toggle that listing and hides the dialog (the id stays recorded).
     */
    method OnConfirm() returns (request: Option<FavoritesRequest>)
      requires Valid()
      modifies this
      ensures Valid()
      ensures old(currentRentalId).Some? ==>
                request == Some(ToggleFavorite(old(currentRentalId).value))
                && isOperating && !showConfirmDialog && currentRentalId == old(currentRentalId)
      ensures old(currentRentalId).None? ==> request == None && unchanged(this)
    {
      if currentRentalId.Some? {
        isOperating := true;
        request := Some(ToggleFavorite(currentRentalId.value));
        showConfirmDialog := false;
      } else {
        request := None;
      }
    }

    /** A tap outside the dialog closes it and forgets the id, unless an operation is running. */
    method OnDismissRequest()
      requires Valid()
      modifies this
      ensures Valid()
      ensures old(isOperating) ==> unchanged(this)
      ensures !old(isOperating) ==> !showConfirmDialog && currentRentalId == None && !isOperating
    {
      if !isOperating {
        showConfirmDialog := false;
        currentRentalId := None;
      }
    }

    /** The cancel button always closes the dialog and forgets the id. */
    method OnCancel()
      modifies this
      ensures Valid()
      ensures !showConfirmDialog && currentRentalId == None && isOperating == old(isOperating)
    {
      showConfirmDialog := false;
      currentRentalId := None;
    }

    /**
     * The reaction to a new favorite state: `Loading` marks the operation
     * running; `Success` and `Error` end it, and `Success(false)` reloads the
     * favorites.
     */
    method OnFavoriteState(s: FavoriteState) returns (request: Option<FavoritesRequest>)
      requires Valid()
      modifies this
      ensures Valid()
      ensures isOperating <==> s.FavLoading?
      ensures request == (if s == FavSuccess(false) then Some(LoadFavorites) else None)
      ensures currentRentalId == old(currentRentalId) && showConfirmDialog == old(showConfirmDialog)
    {
      request := None;
      match s {
        case FavSuccess(isFavorite) =>
          isOperating := false;
          if !isFavorite {
            request := Some(LoadFavorites);
          }
        case FavError(_) =>
          isOperating := false;
        case FavLoading =>
          isOperating := true;
      }
    }
  }

  /**
   * On a screen opened over a fresh view model, whose favorite state starts
   * as `Loading`, a tap outside the dialog is ignored: the dialog stays open
   * on the tapped listing until a toggle settles.
   */
  method FreshScreenIgnoresDismiss(rentalId: int) returns (requests: seq<FavoritesRequest>, screen: FavoritesScreenState)
    ensures requests == [LoadFavorites]
    ensures screen.isOperating && screen.DialogVisible() && screen.currentRentalId == Some(rentalId)
  {
    var vm := new RentalController();
    screen := new FavoritesScreenState();
    requests := screen.OnEnter(vm);
    screen.OnHeartTap(rentalId);
    screen.OnDismissRequest();
  }

  /** Only a settled favorite state lets a later tap outside the dialog close it. */
  method SettledStateReenablesDismiss(screen: FavoritesScreenState, s: FavoriteState)
    requires screen.Valid()
    modifies screen
    ensures s.FavLoading? ==> screen.isOperating && screen.currentRentalId == old(screen.currentRentalId)
                              && screen.showConfirmDialog == old(screen.showConfirmDialog)
    ensures !s.FavLoading? ==> !screen.isOperating && screen.currentRentalId == None && !screen.showConfirmDialog
  {
    var _ := screen.OnFavoriteState(s);
    screen.OnDismissRequest();
  }

  /** The list area: a spinner, the error text, "暂无收藏", or one card per favorite with a filled heart. */
  datatype FavoritesView =
    | Spinner
    | ErrorText(message: string)
    | NoFavorites
    | Cards(cards: seq<(Listing, bool)>)

  function View(state: ListState): (v: FavoritesView)
    ensures state.Loading? <==> v.Spinner?
    ensures state.Error? <==> v.ErrorText?
    ensures state.Error? ==> v.message == state.message
    ensures v.NoFavorites? <==> state == Success([])
    ensures v.Cards? ==> state.Success? && |v.cards| == |state.rentals| > 0
                         && forall i :: 0 <= i < |v.cards| ==> v.cards[i] == (state.rentals[i], true)
  {
    match state
    case Loading => Spinner
    case Error(m) => ErrorText(m)
    case Success(rentals) =>
      if rentals == [] then NoFavorites
      else Cards(seq(|rentals|, i requires 0 <= i < |rentals| => (rentals[i], true)))
  }
}
