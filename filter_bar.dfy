/**
 * `components/FilterBar.kt`: which tab is expanded, the value each panel
 * shows as current, the tab labels and which option is marked selected.
 */
module FilterBar {
  import opened Common
  import opened FilterModel
  import opened Seqs

  /** The tab click rule: collapse the tab if it is the expanded one, else expand it alone. */
  function Toggle(expanded: Option<FilterType>, t: FilterType): (r: Option<FilterType>)
    ensures r.None? <==> expanded == Some(t)
    ensures r.Some? ==> r.value == t
  {
    if expanded == Some(t) then Option.None else Some(t)
  }

  /** Clicking a tab twice restores the state exactly when nothing else was expanded. */
  lemma ToggleTwice(expanded: Option<FilterType>, t: FilterType)
    ensures Toggle(Toggle(expanded, t), t) == expanded <==> (expanded.None? || expanded == Some(t))
  {
  }

  /** After a click the clicked tab is expanded exactly when it was collapsed before. */
  lemma ToggleExpandsClicked(expanded: Option<FilterType>, t: FilterType)
    ensures (Toggle(expanded, t) == Some(t)) <==> (expanded != Some(t))
    ensures forall u :: u != t ==> Toggle(expanded, t) != Some(u)
  {
  }

  /** `filters.find { it.type == t }`, as an index. */
  function FirstOfType(filters: seq<FilterOption>, t: FilterType): (r: Option<nat>)
    ensures r.None? <==> forall j :: 0 <= j < |filters| ==> filters[j].filterType != t
    ensures r.Some? ==> r.value < |filters| && filters[r.value].filterType == t
    ensures r.Some? ==> forall j :: 0 <= j < r.value ==> filters[j].filterType != t
  {
    if filters == [] then Option.None
    else if filters[0].filterType == t then Some(0)
    else
      match FirstOfType(filters[1..], t)
      case None => Option.None
      case Some(k) => Some(k + 1)
  }

  /** The variant each panel casts the current value to with `as?`. */
  predicate HasPanelVariant(t: FilterType, v: FilterValue) {
    match t
    case Location => v.Location?
    case Price => v.Range?
    case Area => v.Range?
    case HouseType => v.SingleChoice?
    case Orientation => v.SingleChoice?
  }

  /** The value a panel falls back to: `Location()`, `Range()` or `SingleChoice("不限")`. */
  function PanelDefault(t: FilterType): (v: FilterValue)
    ensures HasPanelVariant(t, v)
  {
    match t
    case Location => DefaultLocation()
    case Price => DefaultRange()
    case Area => DefaultRange()
    case HouseType => Choice(UNRESTRICTED)
    case Orientation => Choice(UNRESTRICTED)
  }

  /**
   * The panel's current value: the value of the first filter of type `t`
   * when it has the panel's variant, otherwise the panel's default.
   */
  function CurrentValue(filters: seq<FilterOption>, t: FilterType): (v: FilterValue)
    ensures HasPanelVariant(t, v)
    ensures FirstOfType(filters, t).Some? && HasPanelVariant(t, filters[FirstOfType(filters, t).value].value)
            ==> v == filters[FirstOfType(filters, t).value].value
    ensures !(FirstOfType(filters, t).Some? && HasPanelVariant(t, filters[FirstOfType(filters, t).value].value))
            ==> v == PanelDefault(t)
  {
    match FirstOfType(filters, t)
    case None => PanelDefault(t)
    case Some(i) => if HasPanelVariant(t, filters[i].value) then filters[i].value else PanelDefault(t)
  }

  /** The panel shows the stored value of the first filter of its type when that value has the panel's variant. */
  lemma CurrentValueOfFirst(filters: seq<FilterOption>, t: FilterType, i: nat)
    requires i < |filters| && filters[i].filterType == t
    requires forall j :: 0 <= j < i ==> filters[j].filterType != t
    requires HasPanelVariant(t, filters[i].value)
    ensures CurrentValue(filters, t) == filters[i].value
  {
    assert FirstOfType(filters, t) == Some(i);
  }

  /** With no filter of its type, or one whose value has another variant, the panel shows its default. */
  lemma CurrentValueFallsBack(filters: seq<FilterOption>, t: FilterType)
    requires forall i :: 0 <= i < |filters| && filters[i].filterType == t
               && (forall j :: 0 <= j < i ==> filters[j].filterType != t)
               ==> !HasPanelVariant(t, filters[i].value)
    ensures CurrentValue(filters, t) == PanelDefault(t)
  {
  }

  /** The options a panel lists; the location panel lists none. */
  function PanelOptions(t: FilterType): (r: seq<FilterValue>)
    ensures t != FilterType.Location ==> |r| >= 1 && r[0] == PanelDefault(t) && Distinct(r)
    ensures forall i :: 0 <= i < |r| ==> HasPanelVariant(t, r[i])
  {
    match t
    case Location => []
    case Price => PriceRanges()
    case Area => AreaRanges()
    case HouseType => HouseTypes()
    case Orientation => Orientations()
  }

  /** An option is marked selected exactly when it is the panel's current value. */
  predicate IsOptionSelected(option: FilterValue, current: FilterValue): (selected: bool)
    ensures selected <==> option == current
  {
    option == current
  }

  /** At most one option of a panel is marked selected, and the default marks the first. */
  lemma {:induction false} OneOptionSelected(t: FilterType, current: FilterValue)
    ensures forall i, j ::
              (0 <= i < |PanelOptions(t)| && 0 <= j < |PanelOptions(t)|
               && IsOptionSelected(PanelOptions(t)[i], current) && IsOptionSelected(PanelOptions(t)[j], current))
              ==> i == j
    ensures t != FilterType.Location && current == PanelDefault(t) ==> IsOptionSelected(PanelOptions(t)[0], current)
  {
    if t != FilterType.Location {
      assert Distinct(PanelOptions(t));
    }
  }

  /** The tab's label: the value's display text, or the filter's title while unset. */
  function TabLabel(f: FilterOption): (text: string)
    ensures f.value.None? ==> text == f.title
    ensures !f.value.None? ==> text == f.value.displayText
  {
    match f.value
    case Range(_, _, s) => s
    case SingleChoice(_, s) => s
    case Location(_, _, s) => s
    case None => f.title
  }

  /** A fresh filter is labelled with its title; one set to a table entry, with that entry's text. */
  lemma LabelOfFreshAndChosen(t: FilterType, title: string, i: nat)
    requires i < |PanelOptions(t)|
    ensures TabLabel(NewFilterOption(t, title)) == title
    ensures TabLabel(NewFilterOption(t, title).(value := PanelOptions(t)[i])) == PanelOptions(t)[i].displayText
  {
    assert HasPanelVariant(t, PanelOptions(t)[i]);
  }

  /** The state the bar keeps: the expanded tab, if any. */
  class FilterBarState {
    var expanded: Option<FilterType>

    constructor ()
      ensures expanded == Option.None
    {
      expanded := Option.None;
    }

    /** The panel below the tabs shows while some tab is expanded. */
    function PanelVisible(): (visible: bool)
      reads this
      ensures visible <==> exists t :: expanded == Some(t)
    {
      expanded.Some?
    }

    method OnTabClick(t: FilterType)
      modifies this
      ensures expanded == Toggle(old(expanded), t)
      ensures PanelVisible() <==> old(expanded) != Some(t)
    {
      expanded := if expanded == Some(t) then Option.None else Some(t);
    }

    /**
     * Choosing option `i` of the open panel reports the panel's own type with
     * that option; the panel stays open.
     */
    method ChooseOption(i: nat) returns (t: FilterType, v: FilterValue)
      requires expanded.Some? && i < |PanelOptions(expanded.value)|
      ensures t == expanded.value && v == PanelOptions(t)[i]
      ensures HasPanelVariant(t, v)
    {
      t := expanded.value;
      v := PanelOptions(t)[i];
    }
  }
}
