/**
 * The decision rules of `screens/HomeScreen.kt`: what a change of the search
 * text asks for, what the list area shows, and how the auth-error event is
 * handled.
 */
module HomeScreen {
  import opened Common
  import opened Text
  import opened Models
  import opened RentalRepository
  import opened RentalViewModel

  /** What the screen asks for when the search text changes. */
  datatype Dispatch = LoadList | Search(call: Call)

  /**
   * A blank query reloads the list; any other query searches for its
   * trimmed text with every filter argument null.
   */
  function DispatchFor(query: string): (d: Dispatch)
    ensures d.LoadList? <==> IsBlank(query)
    ensures d.Search? ==> d.call == SearchCall(Trim(query), None, None, None, None, None, None, None, None)
  {
    BlankIffTrimEmpty(query);
    if IsBlank(query) then LoadList
    else Search(SearchCall(Trim(query), None, None, None, None, None, None, None, None))
  }

  /** A search is never sent for empty text, and the text it sends has no surrounding whitespace. */
  lemma SearchTextIsTrimmed(query: string)
    requires DispatchFor(query).Search?
    ensures var q := DispatchFor(query).call.query;
            q != [] && !IsWhitespace(q[0]) && !IsWhitespace(q[|q| - 1]) && exists i :: InfixAt(q, query, i)
  {
    BlankIffTrimEmpty(query);
  }

  /** `filteredHouses`: the listings of a `Success`, and nothing otherwise. */
  function Displayed(state: ListState): (r: seq<Listing>)
    ensures state.Success? ==> r == state.rentals
    ensures !state.Success? ==> r == []
  {
    if state.Success? then state.rentals else []
  }

  /** A home card: its listing and the heart it shows. */
  datatype Card = Card(rental: Listing, isFavorite: bool)

  /** The list area. */
  datatype HomeView =
    | Spinner
    | ErrorText(message: string)
    | EmptyState(title: string, hint: Option<string>)
    | Cards(cards: seq<Card>)

  /**
   * A spinner while loading, the message on error; on success with no
   * listings "暂无房源" for a blank query and "未找到相关房源" with the hint
   * "试试其他关键词" otherwise; else one card per listing, in order, every
   * heart empty.
   */
  function View(state: ListState, query: string): (v: HomeView)
    ensures state.Loading? <==> v.Spinner?
    ensures state.Error? <==> v.ErrorText?
    ensures state.Error? ==> v.message == state.message
    ensures v.EmptyState? <==> state.Success? && Displayed(state) == []
    ensures v.EmptyState? ==> (v.title == "暂无房源" <==> IsBlank(query))
    ensures v.EmptyState? ==> (v.hint.Some? <==> !IsBlank(query))
    ensures v.EmptyState? && !IsBlank(query) ==> v == EmptyState("未找到相关房源", Some("试试其他关键词"))
    ensures v.Cards? ==> |v.cards| == |Displayed(state)| > 0
                         && forall i :: 0 <= i < |v.cards| ==> v.cards[i] == Card(Displayed(state)[i], false)
  {
    match state
    case Loading => Spinner
    case Error(m) => ErrorText(m)
    case Success(rentals) =>
      if rentals == [] then
        if IsBlank(query) then EmptyState("暂无房源", None) else EmptyState("未找到相关房源", Some("试试其他关键词"))
      else Cards(seq(|rentals|, i requires 0 <= i < |rentals| => Card(rentals[i], false)))
  }

  /** The event handler: an auth error navigates to the login screen, then clears the event. */
  method HandleEvent(vm: RentalController) returns (navigateToAuth: bool)
    modifies vm
    ensures navigateToAuth <==> old(vm.event) == Some(AuthError)
    ensures vm.event == None || vm.event == old(vm.event)
    ensures navigateToAuth ==> vm.event == None
    ensures vm.listState == old(vm.listState) && vm.favoriteState == old(vm.favoriteState)
    ensures vm.currentPage == old(vm.currentPage)
  {
    navigateToAuth := vm.event == Some(AuthError);
    if navigateToAuth {
      vm.ClearEvent();
    }
  }
}
