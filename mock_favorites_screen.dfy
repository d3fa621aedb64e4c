/**
 * The favorites screen over mock data, `ui/screens/FavoritesScreen.kt`: the
 * list starts as the houses marked favorite, and a heart tap drops the
 * houses with that id.
 */
module MockFavoritesScreen {
  import opened Seqs
  import opened Models

  /** The two tests the screen filters with. */
  function IsFavorite(h: RentalHouse): bool { h.isFavorite }

  function OtherThan(id: int): RentalHouse -> bool {
    (h: RentalHouse) => h.id != id
  }

  /** The houses marked favorite, in their order. */
  function InitialFavorites(houses: seq<RentalHouse>): (r: seq<RentalHouse>)
    ensures forall h :: h in r <==> h in houses && h.isFavorite
    ensures IsSubsequence(r, houses)
    ensures forall h :: multiset(r)[h] == if h.isFavorite then multiset(houses)[h] else 0
  {
    FilterIsSubsequence(houses, IsFavorite);
    FilterCountsAll(houses, IsFavorite);
    Filter(houses, IsFavorite)
  }

  /** `houses.filter { it.id != id }`. */
  function RemoveById(houses: seq<RentalHouse>, id: int): (r: seq<RentalHouse>)
    ensures forall h :: h in r <==> h in houses && h.id != id
    ensures IsSubsequence(r, houses)
    ensures |r| <= |houses|
    ensures forall h :: multiset(r)[h] == if h.id != id then multiset(houses)[h] else 0
  {
    FilterIsSubsequence(houses, OtherThan(id));
    FilterCountsAll(houses, OtherThan(id));
    Filter(houses, OtherThan(id))
  }

  /** Removing an id twice is removing it once. */
  lemma RemoveIdempotent(houses: seq<RentalHouse>, id: int)
    ensures RemoveById(RemoveById(houses, id), id) == RemoveById(houses, id)
  {
    FilterIdempotent(houses, OtherThan(id));
  }

  /** Removing an id absent from the list changes nothing. */
  lemma {:induction false} RemoveAbsent(houses: seq<RentalHouse>, id: int)
    requires forall i :: 0 <= i < |houses| ==> houses[i].id != id
    ensures RemoveById(houses, id) == houses
  {
    if houses != [] {
      RemoveAbsent(houses[1..], id);
    }
  }

  /** Removal distributes over the two parts of a list: each keeps its own survivors. */
  lemma RemoveSplits(a: seq<RentalHouse>, b: seq<RentalHouse>, id: int)
    ensures RemoveById(a + b, id) == RemoveById(a, id) + RemoveById(b, id)
  {
    FilterAppend(a, b, OtherThan(id));
  }

  /** Two removals commute. */
  lemma {:induction false} RemovalsCommute(houses: seq<RentalHouse>, x: int, y: int)
    ensures RemoveById(RemoveById(houses, x), y) == RemoveById(RemoveById(houses, y), x)
  {
    if houses != [] {
      RemovalsCommute(houses[1..], x, y);
    }
  }

  /** A list of favorites stays a list of favorites. */
  lemma RemoveKeepsFavorites(houses: seq<RentalHouse>, id: int)
    requires forall h :: h in houses ==> h.isFavorite
    ensures forall h :: h in RemoveById(houses, id) ==> h.isFavorite
  {
  }

  /** The list area: the empty state, or one card per house. */
  datatype MockFavoritesView = NoFavorites | Cards(houses: seq<RentalHouse>)

  function View(houses: seq<RentalHouse>): (v: MockFavoritesView)
    ensures v.NoFavorites? <==> houses == []
    ensures v.Cards? ==> v.houses == houses
  {
    if houses == [] then NoFavorites else Cards(houses)
  }
}
