/**
 * The home screen over mock data, `ui/screens/HomeScreen.kt`: the search
 * filter, the favorite click that replaces a house by id, and the cached list
 * the screen shows.
 */
module MockHomeScreen {
  import opened Text
  import opened Seqs
  import opened Models

  /** A house matches a query when its title or its location contains it, ignoring case. */
  predicate MatchesQuery(h: RentalHouse, query: string) {
    ContainsIgnoreCase(h.title, query) || ContainsIgnoreCase(h.location, query)
  }

  /**
   * `filteredHouses`: every house for a blank query, otherwise the houses
   * that match it, in their order.
   */
  function FilteredHouses(houses: seq<RentalHouse>, query: string): (r: seq<RentalHouse>)
    ensures IsBlank(query) ==> r == houses
    ensures !IsBlank(query) ==> forall h :: h in r <==> h in houses && MatchesQuery(h, query)
    ensures IsSubsequence(r, houses)
    ensures !IsBlank(query) ==> forall h :: multiset(r)[h] == if MatchesQuery(h, query) then multiset(houses)[h] else 0
  {
    SubsequenceRefl(houses);
    FilterIsSubsequence(houses, h => MatchesQuery(h, query));
    FilterCountsAll(houses, h => MatchesQuery(h, query));
    if IsBlank(query) then houses else Filter(houses, h => MatchesQuery(h, query))
  }

  /** The tab row shows only while the query is blank, that is, while every house is listed. */
  predicate TabsShown(query: string): (shown: bool)
    ensures shown <==> Trim(query) == []
  {
    BlankIffTrimEmpty(query);
    IsBlank(query)
  }

  lemma TabsMeanEveryHouse(houses: seq<RentalHouse>, query: string)
    requires TabsShown(query)
    ensures FilteredHouses(houses, query) == houses
  {
  }

  /** What a card's heart reports: the house with its favorite flag flipped and nothing else changed. */
  function ToggledCopy(h: RentalHouse): (r: RentalHouse)
    ensures r.isFavorite == !h.isFavorite
    ensures r.(isFavorite := h.isFavorite) == h
    ensures r.id == h.id && r.title == h.title && r.location == h.location
  {
    h.(isFavorite := !h.isFavorite)
  }

  /** `houses.map { if (it.id == updated.id) updated else it }`. */
  function ReplaceById(houses: seq<RentalHouse>, updated: RentalHouse): (r: seq<RentalHouse>)
    ensures |r| == |houses|
    ensures forall i :: 0 <= i < |r| && houses[i].id == updated.id ==> r[i] == updated
    ensures forall i :: 0 <= i < |r| && houses[i].id != updated.id ==> r[i] == houses[i]
  {
    seq(|houses|, i requires 0 <= i < |houses| => if houses[i].id == updated.id then updated else houses[i])
  }

  /** Replacing with the same house twice is replacing once. */
  lemma ReplaceIdempotent(houses: seq<RentalHouse>, updated: RentalHouse)
    ensures ReplaceById(ReplaceById(houses, updated), updated) == ReplaceById(houses, updated)
  {
  }

  /** Putting back the only version of a house undoes a replacement of it. */
  lemma ReplaceRestores(houses: seq<RentalHouse>, h: RentalHouse, updated: RentalHouse)
    requires updated.id == h.id
    requires forall i :: 0 <= i < |houses| && houses[i].id == h.id ==> houses[i] == h
    ensures ReplaceById(ReplaceById(houses, updated), h) == houses
  {
  }

  /** No two houses share an id. */
  predicate UniqueIds(houses: seq<RentalHouse>) {
    forall i, j :: 0 <= i < |houses| && 0 <= j < |houses| && houses[i].id == houses[j].id ==> i == j
  }

  /** The screen: the houses, the query, and the list last computed for the cards. */
  datatype HomeState = HomeState(houses: seq<RentalHouse>, query: string, shown: seq<RentalHouse>)

  /** The cards show the filter of the current houses by the current query. */
  predicate Consistent(s: HomeState) {
    s.shown == FilteredHouses(s.houses, s.query)
  }

  /** The screen opens on the given houses with an empty query. */
  function Initial(houses: seq<RentalHouse>): (s: HomeState)
    ensures Consistent(s) && s.query == "" && s.houses == houses
  {
    HomeState(houses, "", FilteredHouses(houses, ""))
  }

  /** Typing a new query recomputes the list; the same query keeps it. */
  function OnQueryChange(s: HomeState, query: string): (r: HomeState)
    ensures r.houses == s.houses && r.query == query
    ensures Consistent(s) ==> Consistent(r)
  {
    if query == s.query then s else HomeState(s.houses, query, FilteredHouses(s.houses, query))
  }

  /**
   * A favorite click as written: the houses are updated, but the list is
   * remembered under the query alone, so the cards keep the old list.
   */
  function OnFavoriteClickAsWritten(s: HomeState, k: nat): (r: HomeState)
    requires k < |s.shown|
    ensures r.houses == ReplaceById(s.houses, ToggledCopy(s.shown[k]))
    ensures r.query == s.query && r.shown == s.shown
  {
    HomeState(ReplaceById(s.houses, ToggledCopy(s.shown[k])), s.query, s.shown)
  }

  /** As written, the clicked card keeps showing its old heart while the houses hold the new one. */
  lemma StaleHeartAsWritten(s: HomeState, k: nat)
    requires Consistent(s) && k < |s.shown|
    ensures var r := OnFavoriteClickAsWritten(s, k);
            r.shown[k].isFavorite == s.shown[k].isFavorite
            && ToggledCopy(s.shown[k]) in r.houses
            && r.shown[k].isFavorite != ToggledCopy(s.shown[k]).isFavorite
  {
    var h := s.shown[k];
    ShownAreHouses(s, h);
    var m :| 0 <= m < |s.houses| && s.houses[m] == h;
    assert ReplaceById(s.houses, ToggledCopy(h))[m] == ToggledCopy(h);
  }

  /** A house that is not yet a favorite, for the example below. */
  const SAMPLE: RentalHouse :=
    RentalHouse(1, "阳光花园精装两房", 3500, "海淀区", 89, 2, "", [], "", "南北通透", false, 0, "", "", "", [], [])

  /**
   * As written, tapping the same heart twice does not undo the first tap:
   * the second tap reports the same flipped copy again, and the house stays
   * a favorite.
   */
  lemma DoubleTapAsWritten()
    ensures var s0 := Initial([SAMPLE]);
            var s1 := OnFavoriteClickAsWritten(s0, 0);
            var s2 := OnFavoriteClickAsWritten(s1, 0);
            s2.houses != s0.houses && s2.houses[0].isFavorite
  {
    var s0 := Initial([SAMPLE]);
    assert s0.shown == [SAMPLE];
    var s1 := OnFavoriteClickAsWritten(s0, 0);
    assert s1.houses[0] == ToggledCopy(SAMPLE);
    var s2 := OnFavoriteClickAsWritten(s1, 0);
    assert s2.houses[0] == ToggledCopy(SAMPLE);
  }

  /** A favorite click that recomputes the cards from the updated houses. */
  function OnFavoriteClick(s: HomeState, k: nat): (r: HomeState)
    requires k < |s.shown|
    ensures r.houses == ReplaceById(s.houses, ToggledCopy(s.shown[k]))
    ensures r.query == s.query && Consistent(r)
  {
    var houses := ReplaceById(s.houses, ToggledCopy(s.shown[k]));
    HomeState(houses, s.query, FilteredHouses(houses, s.query))
  }

  /** Every card is one of the houses. */
  lemma ShownAreHouses(s: HomeState, h: RentalHouse)
    requires Consistent(s) && h in s.shown
    ensures h in s.houses
  {
  }

  /**
   * After a click the clicked house is still listed, and every card with its
   * id shows the new heart.
   */
  lemma ClickShowsNewHeart(s: HomeState, k: nat)
    requires Consistent(s) && k < |s.shown|
    ensures var r := OnFavoriteClick(s, k);
            ToggledCopy(s.shown[k]) in r.shown
            && forall j :: 0 <= j < |r.shown| && r.shown[j].id == s.shown[k].id ==> r.shown[j] == ToggledCopy(s.shown[k])
  {
    var h := s.shown[k];
    var u := ToggledCopy(h);
    var hs := ReplaceById(s.houses, u);
    ShownAreHouses(s, h);
    var m :| 0 <= m < |s.houses| && s.houses[m] == h;
    assert hs[m] == u;
    var r := OnFavoriteClick(s, k);
    forall j | 0 <= j < |r.shown| && r.shown[j].id == h.id
      ensures r.shown[j] == u
    {
      assert r.shown[j] in hs;
    }
  }

  /**
   * With unique ids, tapping the heart of the same house again restores the
   * screen exactly.
   */
  lemma SecondClickRestores(s: HomeState, k: nat, j: nat)
    requires Consistent(s) && UniqueIds(s.houses) && k < |s.shown|
    requires j < |OnFavoriteClick(s, k).shown| && OnFavoriteClick(s, k).shown[j].id == s.shown[k].id
    ensures OnFavoriteClick(OnFavoriteClick(s, k), j) == s
  {
    var h := s.shown[k];
    ClickShowsNewHeart(s, k);
    ShownAreHouses(s, h);
    var m :| 0 <= m < |s.houses| && s.houses[m] == h;
    ReplaceRestores(s.houses, h, ToggledCopy(h));
  }

  /** The list area: the empty texts, or one card per listed house. */
  datatype MockHomeView = Empty(title: string, hint: string) | Cards(houses: seq<RentalHouse>)

  function View(s: HomeState): (v: MockHomeView)
    ensures v.Empty? <==> s.shown == []
    ensures v.Empty? && IsBlank(s.query) ==> v == Empty("暂无房源", "敬请期待")
    ensures v.Empty? && !IsBlank(s.query) ==> v == Empty("未找到相关房源", "试试其他关键词")
    ensures v.Cards? ==> v.houses == s.shown
  {
    if s.shown == [] then
      if IsBlank(s.query) then Empty("暂无房源", "敬请期待") else Empty("未找到相关房源", "试试其他关键词")
    else Cards(s.shown)
  }
}
