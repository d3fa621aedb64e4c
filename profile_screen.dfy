/**
 * The input rules of the two dialogs of `screens/ProfileScreen.kt`: the
 * profile dialog (blank nickname and phone are saved as null) and the rental
 * preference dialog (budget text filtering, parsing with defaults, the
 * min/max check and swap, and de-duplicated area editing).
 */
module ProfileScreen {
  import opened Common
  import opened Text
  import opened Seqs
  import opened Models
  import opened AuthRepository

  /** `takeIf { it.isNotBlank() }`: blank text is null, other text is kept as typed. */
  function NonBlank(s: string): (r: Option<string>)
    ensures r.None? <==> IsBlank(s)
    ensures r.Some? ==> r.value == s
  {
    if IsBlank(s) then None else Some(s)
  }

  /** The profile dialog's text fields as it opens: a null nickname or phone shows as "". */
  datatype ProfileFields = ProfileFields(nickname: string, email: string, phone: string, gender: string)

  function ProfileDialogFields(user: User): (f: ProfileFields)
    ensures f.nickname == user.nickname.GetOr("") && f.phone == user.phone.GetOr("")
    ensures f.email == user.email && f.gender == user.gender
  {
    ProfileFields(user.nickname.GetOr(""), user.email, user.phone.GetOr(""), user.gender)
  }

  /**
   * Saving the profile dialog updates nickname, email, phone and gender; a
   * blank nickname or phone is sent as null; the preference fields are not sent.
   */
  function ProfileDialogUpdate(f: ProfileFields): (u: ProfileUpdate)
    ensures u.nickname == NonBlank(f.nickname) && u.phone == NonBlank(f.phone)
    ensures u.email == Some(f.email) && u.gender == Some(f.gender)
    ensures u.budgetMin.None? && u.budgetMax.None? && u.preferredAreas.None? && u.houseType.None?
  {
    ProfileUpdate(NonBlank(f.nickname), Some(f.email), NonBlank(f.phone), Some(f.gender), None, None, None, None)
  }

  /**
   * Opening the profile dialog and saving it untouched sends the user's own
   * values back, unless a stored nickname or phone is blank (it becomes null).
   */
  lemma UntouchedProfileDialog(user: User)
    ensures var u := ProfileDialogUpdate(ProfileDialogFields(user));
            && (u.nickname == user.nickname <==> user.nickname.None? || !IsBlank(user.nickname.value))
            && (u.phone == user.phone <==> user.phone.None? || !IsBlank(user.phone.value))
            && u.email == Some(user.email) && u.gender == Some(user.gender)
  {
  }

  const HOUSE_TYPE_OPTIONS: seq<string> := ["一室一厅", "两室一厅", "三室一厅", "三室两厅", "四室及以上", "单间"]
  const AREA_OPTIONS: seq<string> :=
    ["锦江区", "青羊区", "金牛区", "武侯区", "成华区", "龙泉驿区", "青白江区", "新都区", "温江区", "双流区", "郫都区", "新津区"]

  const DEFAULT_BUDGET_MIN: int := 1000
  const DEFAULT_BUDGET_MAX: int := 5000

  /** `Double.toInt()` on a whole number: values beyond 32 bits saturate. */
  function ToInt32(n: int): (r: int)
    ensures IsInt32(r)
    ensures IsInt32(n) ==> r == n
    ensures n > INT_MAX ==> r == INT_MAX
    ensures n < INT_MIN ==> r == INT_MIN
  {
    if n > INT_MAX then INT_MAX else if n < INT_MIN then INT_MIN else n
  }

  /** The text a budget field starts with: the stored budget as an integer, or the default. */
  function InitialBudgetText(budget: Option<int>, default: int): (text: string)
    ensures IsInt32(default) ==> ParseInt(text) == Some(if budget.Some? then ToInt32(budget.value) else default)
    ensures (if budget.Some? then ToInt32(budget.value) else default) >= 0 ==> AllDigits(text)
  {
    var n := if budget.Some? then ToInt32(budget.value) else default;
    if IsInt32(n) then ParseIntToString(n); IntToString(n) else IntToString(n)
  }

  /** `text.toIntOrNull() ?: default`. */
  function ParseBudget(text: string, default: int): (n: int)
    ensures AllDigits(text) && text != [] && DigitsValue(text) <= INT_MAX ==> n == DigitsValue(text)
    ensures text == [] ==> n == default
    ensures ParseInt(text).None? ==> n == default
  {
    ParseInt(text).GetOr(default)
  }

  /** An untouched budget field reads back as what it was opened with. */
  lemma InitialBudgetReadsBack(budget: Option<int>, default: int)
    requires IsInt32(default)
    ensures ParseBudget(InitialBudgetText(budget, default), default)
            == if budget.Some? then ToInt32(budget.value) else default
  {
    ParseIntToString(if budget.Some? then ToInt32(budget.value) else default);
  }

  /** A budget edit is taken only when the new text is empty or all digits. */
  function AcceptBudgetEdit(current: string, input: string): (r: string)
    ensures r == input <==> (input == [] || AllDigits(input)) || input == current
    ensures r != input ==> r == current
  {
    if input == [] || AllDigits(input) then input else current
  }

  /** A field holding only digits keeps holding only digits, whatever is typed. */
  lemma EditsKeepDigits(current: string, input: string)
    requires AllDigits(current)
    ensures AllDigits(AcceptBudgetEdit(current, input))
  {
  }

  /**
   * The warning shows, and save is disabled, exactly when both fields hold
   * text and the minimum reads larger than the maximum.
   */
  predicate BudgetConflict(minText: string, maxText: string): (conflict: bool)
    ensures conflict ==> minText != [] && maxText != []
                         && FinalBudget(minText, maxText)
                            == (ParseBudget(maxText, DEFAULT_BUDGET_MAX), ParseBudget(minText, DEFAULT_BUDGET_MIN))
    ensures !conflict && minText != [] && maxText != [] ==>
              FinalBudget(minText, maxText)
              == (ParseBudget(minText, DEFAULT_BUDGET_MIN), ParseBudget(maxText, DEFAULT_BUDGET_MAX))
  {
    ParseBudget(minText, DEFAULT_BUDGET_MIN) > ParseBudget(maxText, DEFAULT_BUDGET_MAX) && minText != [] && maxText != []
  }

  /** The saved budget: the two read values in order. */
  function FinalBudget(minText: string, maxText: string): (r: (int, int))
    ensures r.0 <= r.1
    ensures var a := ParseBudget(minText, DEFAULT_BUDGET_MIN); var b := ParseBudget(maxText, DEFAULT_BUDGET_MAX);
            multiset{r.0, r.1} == multiset{a, b}
  {
    var a := ParseBudget(minText, DEFAULT_BUDGET_MIN);
    var b := ParseBudget(maxText, DEFAULT_BUDGET_MAX);
    if a <= b then (a, b) else (b, a)
  }

  /**
   * When save is enabled the read values are swapped only if a field was
   * left empty (and so read as its default).
   */
  lemma SwapOnlyForEmptyField(minText: string, maxText: string)
    requires !BudgetConflict(minText, maxText)
    ensures FinalBudget(minText, maxText) != (ParseBudget(minText, DEFAULT_BUDGET_MIN), ParseBudget(maxText, DEFAULT_BUDGET_MAX))
            ==> minText == [] || maxText == []
  {
  }

  /** Adding an area appends it unless it is already chosen. */
  function AddArea(areas: seq<string>, option: string): (r: seq<string>)
    ensures option in r
    ensures option in areas ==> r == areas
    ensures option !in areas ==> r == areas + [option]
  {
    if option in areas then areas else areas + [option]
  }

  /** `MutableList.remove`: drops the first occurrence, if any. */
  function RemoveFirst<T(==)>(s: seq<T>, x: T): (r: seq<T>)
    ensures x in s ==> |r| == |s| - 1
    ensures x !in s ==> r == s
  {
    if s == [] then []
    else if s[0] == x then s[1..]
    else [s[0]] + RemoveFirst(s[1..], x)
  }

  /** Exactly one occurrence goes: the removal takes `x` once out of the multiset of elements. */
  lemma {:induction false} RemoveFirstCounts<T>(s: seq<T>, x: T)
    ensures multiset(RemoveFirst(s, x)) == multiset(s) - multiset{x}
  {
    if s != [] {
      assert s == [s[0]] + s[1..];
      if s[0] != x {
        RemoveFirstCounts(s[1..], x);
      }
    }
  }

  /** Removal keeps the other areas in their order. */
  lemma {:induction false} RemoveFirstKeepsOrder<T>(s: seq<T>, x: T)
    ensures IsSubsequence(RemoveFirst(s, x), s)
  {
    if s != [] {
      if s[0] == x {
        SubsequenceRefl(s[1..]);
        SubsequenceOfTail(s[1..], s);
      } else {
        RemoveFirstKeepsOrder(s[1..], x);
        assert ([s[0]] + RemoveFirst(s[1..], x))[1..] == RemoveFirst(s[1..], x);
      }
    }
  }

  /** Neither edit introduces a duplicate; in a list without duplicates removal removes the area entirely. */
  lemma AreaEditsKeepDistinct(areas: seq<string>, option: string)
    requires Distinct(areas)
    ensures Distinct(AddArea(areas, option))
    ensures Distinct(RemoveFirst(areas, option)) && option !in RemoveFirst(areas, option)
  {
    if option !in areas {
      DistinctSnoc(areas, option);
    }
    RemoveFirstKeepsDistinct(areas, option);
  }

  /** Removing from a list without duplicates leaves none, and no copy of the removed element. */
  lemma {:induction false} RemoveFirstKeepsDistinct<T>(s: seq<T>, x: T)
    requires Distinct(s)
    ensures Distinct(RemoveFirst(s, x)) && x !in RemoveFirst(s, x)
  {
    if s != [] {
      DistinctTail(s);
      if s[0] != x {
        var t := RemoveFirst(s[1..], x);
        RemoveFirstKeepsDistinct(s[1..], x);
        RemoveFirstCounts(s[1..], x);
        assert multiset(s[1..])[s[0]] == 0;
        assert s[0] !in t by {
          assert multiset(t)[s[0]] <= multiset(s[1..])[s[0]];
        }
        DistinctCons(s[0], t);
      }
    }
  }

  /** Adding an area that was not chosen and removing it again restores the list. */
  lemma {:induction false} AddThenRemove(areas: seq<string>, option: string)
    requires option !in areas
    ensures RemoveFirst(AddArea(areas, option), option) == areas
  {
    if areas != [] {
      assert (areas + [option])[1..] == areas[1..] + [option];
      AddThenRemove(areas[1..], option);
    }
  }

  /** The area options offered in the menu: those not chosen yet. */
  function OfferedAreas(chosen: seq<string>): (r: seq<string>)
    ensures forall a :: a in r <==> a in AREA_OPTIONS && a !in chosen
    ensures IsSubsequence(r, AREA_OPTIONS)
  {
    FilterIsSubsequence(AREA_OPTIONS, a => a !in chosen);
    Filter(AREA_OPTIONS, a => a !in chosen)
  }

  /** The rental preference dialog's state. */
  class PreferenceDialog {
    var houseType: string
    var budgetMinStr: string
    var budgetMaxStr: string
    var preferredAreas: seq<string>
    var selectedArea: string

    constructor (user: User)
      ensures houseType == user.houseType.GetOr("")
      ensures budgetMinStr == InitialBudgetText(user.budgetMin, DEFAULT_BUDGET_MIN)
      ensures budgetMaxStr == InitialBudgetText(user.budgetMax, DEFAULT_BUDGET_MAX)
      ensures preferredAreas == user.preferredAreas && selectedArea == ""
    {
      houseType := user.houseType.GetOr("");
      budgetMinStr := InitialBudgetText(user.budgetMin, DEFAULT_BUDGET_MIN);
      budgetMaxStr := InitialBudgetText(user.budgetMax, DEFAULT_BUDGET_MAX);
      preferredAreas := user.preferredAreas;
      selectedArea := "";
    }

    method ChooseHouseType(i: nat)
      requires i < |HOUSE_TYPE_OPTIONS|
      modifies this
      ensures houseType == HOUSE_TYPE_OPTIONS[i]
      ensures budgetMinStr == old(budgetMinStr) && budgetMaxStr == old(budgetMaxStr)
      ensures preferredAreas == old(preferredAreas) && selectedArea == old(selectedArea)
    {
      houseType := HOUSE_TYPE_OPTIONS[i];
    }

    method OnMinInput(input: string)
      modifies this
      ensures budgetMinStr == AcceptBudgetEdit(old(budgetMinStr), input)
      ensures houseType == old(houseType) && budgetMaxStr == old(budgetMaxStr)
      ensures preferredAreas == old(preferredAreas) && selectedArea == old(selectedArea)
    {
      if input == [] || AllDigits(input) {
        budgetMinStr := input;
      }
    }

    method OnMaxInput(input: string)
      modifies this
      ensures budgetMaxStr == AcceptBudgetEdit(old(budgetMaxStr), input)
      ensures houseType == old(houseType) && budgetMinStr == old(budgetMinStr)
      ensures preferredAreas == old(preferredAreas) && selectedArea == old(selectedArea)
    {
      if input == [] || AllDigits(input) {
        budgetMaxStr := input;
      }
    }

    /** Choosing a menu option clears the typed area and adds the option unless already chosen. */
    method OnAreaOption(option: string)
      modifies this
      ensures preferredAreas == AddArea(old(preferredAreas), option) && selectedArea == ""
      ensures houseType == old(houseType) && budgetMinStr == old(budgetMinStr) && budgetMaxStr == old(budgetMaxStr)
    {
      selectedArea := "";
      if option !in preferredAreas {
        preferredAreas := preferredAreas + [option];
      }
    }

    /** Closing an area's badge removes that area. */
    method OnRemoveArea(area: string)
      modifies this
      ensures preferredAreas == RemoveFirst(old(preferredAreas), area)
      ensures houseType == old(houseType) && budgetMinStr == old(budgetMinStr) && budgetMaxStr == old(budgetMaxStr)
      ensures selectedArea == old(selectedArea)
    {
      preferredAreas := RemoveFirst(preferredAreas, area);
    }

    /** The budget warning shows exactly when save is disabled. */
    function WarningShown(): (shown: bool)
      reads this
      ensures shown <==> !SaveEnabled()
      ensures shown ==> budgetMinStr != [] && budgetMaxStr != []
    {
      BudgetConflict(budgetMinStr, budgetMaxStr)
    }

    /** With save enabled and both fields filled, the budget is saved as typed. */
    function SaveEnabled(): (enabled: bool)
      reads this
      ensures enabled && budgetMinStr != [] && budgetMaxStr != [] ==>
                FinalBudget(budgetMinStr, budgetMaxStr)
                == (ParseBudget(budgetMinStr, DEFAULT_BUDGET_MIN), ParseBudget(budgetMaxStr, DEFAULT_BUDGET_MAX))
    {
      !BudgetConflict(budgetMinStr, budgetMaxStr)
    }

    /**
     * Saving sends the ordered budget, the chosen areas and the house type
     * (null when blank); the profile fields are not sent.
     */
    function SavedUpdate(): (u: ProfileUpdate)
      reads this
      ensures u.budgetMin.Some? && u.budgetMax.Some? && u.budgetMin.value <= u.budgetMax.value
      ensures (u.budgetMin.value, u.budgetMax.value) == FinalBudget(budgetMinStr, budgetMaxStr)
      ensures u.preferredAreas == Some(preferredAreas) && u.houseType == NonBlank(houseType)
      ensures u.nickname.None? && u.email.None? && u.phone.None? && u.gender.None?
    {
      var b := FinalBudget(budgetMinStr, budgetMaxStr);
      ProfileUpdate(None, None, None, None, Some(b.0), Some(b.1), Some(preferredAreas), NonBlank(houseType))
    }
  }
}
