/**
 * The rules of `screens/RentalDetailScreen.kt`: the requests made on entry,
 * the favorite flag the screen shows, the image retry counter, whether the
 * tags section appears, and how `TagList` lays tags out in rows of three.
 */
module RentalDetailScreen {
  import opened Common
  import opened Text
  import opened Models
  import opened Seqs
  import opened RentalViewModel

  /** What the screen asks the view model for. */
  datatype DetailRequest = CheckFavorite(rentalId: int) | GetRentalDetail(rentalId: int)

  /** On entry: the favorite flag of the listing, then the listing itself. */
  function EntryRequests(id: int): (r: seq<DetailRequest>)
    ensures |r| == 2 && r[0].CheckFavorite? && r[1].GetRentalDetail?
    ensures forall k :: 0 <= k < |r| ==> r[k].rentalId == id
  {
    [CheckFavorite(id), GetRentalDetail(id)]
  }

  /** The most times a failed cover image is retried. */
  const MAX_RETRIES: int := 3

  class DetailScreenState {
    var isFavorite: bool
    var retryCount: int

    predicate Valid()
      reads this
    {
      0 <= retryCount <= MAX_RETRIES
    }

    constructor ()
      ensures Valid() && !isFavorite && retryCount == 0
    {
      isFavorite := false;
      retryCount := 0;
    }

    /** The shown flag copies a favorite `Success` and ignores every other state. */
    method OnFavoriteState(s: FavoriteState)
      modifies this
      ensures s.FavSuccess? ==> isFavorite == s.isFavorite
      ensures !s.FavSuccess? ==> isFavorite == old(isFavorite)
      ensures retryCount == old(retryCount)
    {
      if s.FavSuccess? {
        isFavorite := s.isFavorite;
      }
    }

    /** A failed image load counts one more retry, up to the cap; nothing reads the count to reload. */
    method OnImageError()
      requires Valid()
      modifies this
      ensures Valid()
      ensures retryCount == if old(retryCount) < MAX_RETRIES then old(retryCount) + 1 else old(retryCount)
      ensures isFavorite == old(isFavorite)
    {
      if retryCount < MAX_RETRIES {
        retryCount := retryCount + 1;
      }
    }
  }

  /** The tags section appears only for tags that are not blank. */
  predicate ShowTags(rental: Listing): (shown: bool)
    ensures shown <==> Trim(rental.tags) != []
  {
    BlankIffTrimEmpty(rental.tags);
    !IsBlank(rental.tags)
  }

  /** The tags the section lists: the comma-separated pieces, empty ones included. */
  function TagPieces(rental: Listing): (pieces: seq<string>)
    ensures |pieces| >= 1
    ensures Join(pieces, ',') == rental.tags
    ensures forall k :: 0 <= k < |pieces| ==> ',' !in pieces[k]
  {
    SplitJoin(rental.tags, ',');
    Split(rental.tags, ',')
  }

  /** Every tag trimmed, in order. */
  function Trimmed(tags: seq<string>): (r: seq<string>)
    ensures |r| == |tags| && forall k :: 0 <= k < |tags| ==> r[k] == Trim(tags[k])
  {
    seq(|tags|, k requires 0 <= k < |tags| => Trim(tags[k]))
  }

  /**
   * `TagList`: the trimmed tags, in order, in rows of three; only the last
   * row may be shorter, and no row is empty.
   */
  method TagList(tags: seq<string>) returns (rows: seq<seq<string>>)
    ensures Flatten(rows) == Trimmed(tags)
    ensures forall k :: 0 <= k < |rows| ==> 1 <= |rows[k]| <= 3
    ensures forall k :: 0 <= k < |rows| - 1 ==> |rows[k]| == 3
    ensures |rows| == (|tags| + 2) / 3
  {
    rows := InRowsOfThree(Trimmed(tags));
  }

  /** The row building of `TagList`: a row is closed once it holds three items. */
  method InRowsOfThree<T>(items: seq<T>) returns (rows: seq<seq<T>>)
    ensures Flatten(rows) == items
    ensures forall k :: 0 <= k < |rows| ==> 1 <= |rows[k]| <= 3
    ensures forall k :: 0 <= k < |rows| - 1 ==> |rows[k]| == 3
    ensures |rows| == (|items| + 2) / 3
  {
    var currentRow: seq<T> := [];
    rows := [];
    var i := 0;
    while i < |items|
      invariant 0 <= i <= |items|
      invariant Flatten(rows) + currentRow == items[..i]
      invariant forall k :: 0 <= k < |rows| ==> |rows[k]| == 3
      invariant |currentRow| <= 3
      invariant i > 0 ==> |currentRow| >= 1
      invariant 3 * |rows| + |currentRow| == i
    {
      if |currentRow| >= 3 {
        FlattenSnoc(rows, currentRow);
        rows := rows + [currentRow];
        currentRow := [];
      }
      assert items[..i + 1] == items[..i] + [items[i]];
      currentRow := currentRow + [items[i]];
      i := i + 1;
    }
    assert items[..i] == items;
    RowCount(|rows|, |currentRow|, i);
    if |currentRow| > 0 {
      FlattenSnoc(rows, currentRow);
      rows := rows + [currentRow];
    }
  }

  /** Full rows plus a partial last row of 1 to 3 tags: the row count rounds up. */
  lemma RowCount(full: nat, last: nat, n: nat)
    requires 3 * full + last == n && last <= 3 && (n > 0 ==> last >= 1)
    ensures (if last > 0 then full + 1 else full) == (n + 2) / 3
  {
  }
}
