/** `model/FilterOption.kt`: the filter dimensions, their values and the predefined tables. */
module FilterModel {
  import opened Common
  import opened Seqs

  datatype FilterType = Location | Price | HouseType | Area | Orientation

  /** A filter's value; bounds are whole numbers. */
  datatype FilterValue =
    | Range(min: Option<int>, max: Option<int>, displayText: string)
    | SingleChoice(value: string, displayText: string)
    | Location(province: Option<string>, city: Option<string>, displayText: string)
    | None

  /** The text shown for "no restriction". */
  const UNRESTRICTED: string := "不限"

  /** `FilterValue.Range()`. */
  function DefaultRange(): (v: FilterValue)
    ensures v.Range? && v.min.None? && v.max.None? && v.displayText == UNRESTRICTED
  {
    Range(Option.None, Option.None, UNRESTRICTED)
  }

  /** `FilterValue.SingleChoice(value)`: the display text defaults to the value. */
  function Choice(value: string): (v: FilterValue)
    ensures v.SingleChoice? && v.value == value && v.displayText == value
  {
    SingleChoice(value, value)
  }

  /** `FilterValue.Location()`. */
  function DefaultLocation(): (v: FilterValue)
    ensures v.Location? && v.province.None? && v.city.None? && v.displayText == UNRESTRICTED
  {
    FilterValue.Location(Option.None, Option.None, UNRESTRICTED)
  }

  /** A `FilterOption`; `type` is a Dafny keyword, so the field is `filterType`. */
  datatype FilterOption = FilterOption(filterType: FilterType, title: string, value: FilterValue, isSelected: bool)

  /** `FilterOption(type, title)`: value `None`, not selected. */
  function NewFilterOption(t: FilterType, title: string): (f: FilterOption)
    ensures f.filterType == t && f.title == title && f.value.None? && !f.isSelected
  {
    FilterOption(t, title, FilterValue.None, false)
  }

  /**
   * A range table: it opens with the unrestricted entry, every other entry
   * has a lower bound starting at 0, each bounded entry has min < max and ends
   * where the next begins, and the last entry is open at the top.
   */
  predicate ContiguousRanges(r: seq<FilterValue>) {
    && |r| >= 2
    && (forall i :: 0 <= i < |r| ==> r[i].Range?)
    && r[0] == DefaultRange()
    && r[1].min == Some(0)
    && (forall i :: 1 <= i < |r| ==> r[i].min.Some?)
    && (forall i :: 1 <= i < |r| - 1 ==>
          r[i].max.Some? && r[i].min.value < r[i].max.value && r[i].max == r[i + 1].min)
    && r[|r| - 1].max.None?
  }

  function PriceRanges(): (r: seq<FilterValue>)
    ensures |r| == 7 && ContiguousRanges(r) && Distinct(r)
  {
    [ DefaultRange(),
      Range(Some(0), Some(1000), "1000元以下"),
      Range(Some(1000), Some(2000), "1000-2000元"),
      Range(Some(2000), Some(3000), "2000-3000元"),
      Range(Some(3000), Some(4000), "3000-4000元"),
      Range(Some(4000), Some(5000), "4000-5000元"),
      Range(Some(5000), Option.None, "5000元以上") ]
  }

  function AreaRanges(): (r: seq<FilterValue>)
    ensures |r| == 6 && ContiguousRanges(r) && Distinct(r)
  {
    [ DefaultRange(),
      Range(Some(0), Some(30), "30㎡以下"),
      Range(Some(30), Some(50), "30-50㎡"),
      Range(Some(50), Some(70), "50-70㎡"),
      Range(Some(70), Some(90), "70-90㎡"),
      Range(Some(90), Option.None, "90㎡以上") ]
  }

  /** A choice table: it opens with "不限" and holds distinct choices whose text is their value. */
  predicate ChoiceTable(r: seq<FilterValue>) {
    && |r| >= 1
    && r[0] == Choice(UNRESTRICTED)
    && (forall i :: 0 <= i < |r| ==> r[i].SingleChoice? && r[i].displayText == r[i].value)
    && Distinct(r)
  }

  function HouseTypes(): (r: seq<FilterValue>)
    ensures |r| == 4 && ChoiceTable(r)
  {
    [Choice(UNRESTRICTED), Choice("整租"), Choice("合租"), Choice("公寓")]
  }

  function Orientations(): (r: seq<FilterValue>)
    ensures |r| == 9 && ChoiceTable(r)
  {
    [ Choice(UNRESTRICTED), Choice("东"), Choice("南"), Choice("西"), Choice("北"),
      Choice("东南"), Choice("东北"), Choice("西南"), Choice("西北") ]
  }

  /**
   * Contiguity means the bounded entries of a range table partition
   * [0, +inf): every non-negative amount lies in exactly one of them
   * (lower bound inclusive, upper bound exclusive).
   */
  predicate InRange(v: FilterValue, x: int)
    requires v.Range?
  {
    (v.min.None? || v.min.value <= x) && (v.max.None? || x < v.max.value)
  }

  lemma {:induction false} RangesCoverAmount(r: seq<FilterValue>, x: int)
    requires ContiguousRanges(r) && x >= 0
    ensures exists i :: 1 <= i < |r| && InRange(r[i], x)
    ensures forall i, j :: 1 <= i < |r| && 1 <= j < |r| && InRange(r[i], x) && InRange(r[j], x) ==> i == j
  {
    var k := 1;
    while k < |r| - 1 && r[k].max.value <= x
      invariant 1 <= k <= |r| - 1
      invariant r[k].min.value <= x
    {
      k := k + 1;
    }
    assert InRange(r[k], x);
    forall i, j | 1 <= i < |r| && 1 <= j < |r| && InRange(r[i], x) && InRange(r[j], x)
      ensures i == j
    {
      if i < j { MinsIncrease(r, i, j); }
      if j < i { MinsIncrease(r, j, i); }
    }
  }

  /** In a range table an entry ends no later than any later entry starts. */
  lemma {:induction false} MinsIncrease(r: seq<FilterValue>, i: int, j: int)
    requires ContiguousRanges(r) && 1 <= i < j < |r|
    ensures r[i].max.Some? && r[i].max.value <= r[j].min.value
    decreases j - i
  {
    if j > i + 1 {
      MinsIncrease(r, i + 1, j);
    }
  }
}
