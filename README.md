# Rental app core, modelled in Dafny

This project models the core of a Kotlin/Compose rental-listing app. The app lists rentals, searches and filters them, shows their details, keeps favorites, and handles sign-in, registration and a user profile. The model covers its decision logic:

- **Repositories** (`network/RentalRepository.kt`, `network/AuthRepository.kt`). They turn a response into a `Result`, or an exception into a failure. The model gives each repository call a service `Exchange` and returns an `Outcome`. Each call also yields the request it sends.
- **Credential store** (`data/UserManager.kt`). It holds user id, name and token in a preferences map, plus the signed-in user.
- **View models.** These are `RentalViewModel`, `AuthViewModel` and `ProfileViewModel`. Each is a class whose fields are the states the app observes. A method receives the repository outcome of the call it makes and returns that call. Ghost traces record every value a state takes, in order.
- **Filter model and filter bar** (`model/FilterOption.kt`, `components/FilterBar.kt`).
- **Screen rules** (`screens/*`). This means what a screen requests, what it shows, when a button is enabled, and how its dialogs edit their fields.
- **Mock screens** (`ui/screens/HomeScreen.kt`, `ui/screens/FavoritesScreen.kt`). These work on an in-memory list of houses.

Helper modules:

- `Common` holds `Option` and `Outcome`. A Kotlin `Result` failure whose exception message may be null becomes `Fail(message: Option<string>)`.
- `Text` holds the Kotlin string operations used: `isBlank`, `trim`, `toIntOrNull`, `Int.toString`, `contains(ignoreCase)`, and `split` with one delimiter.
- `Seqs` holds `filter`, sublists, duplicates and flattening.

## Model

| member | source | states |
|---|---|---|
| RentalRepository.RequestOf | app/src/main/java/com/example/rental_recommend/network/RentalRepository.kt:65-70 | toggleFavorite sends the body `{"id": rentalId}` with exactly that one key; searchRental passes its nine arguments in order |
| RentalRepository.RequestDeterminesCall | app/src/main/java/com/example/rental_recommend/network/RentalRepository.kt:9-162 | two calls that send the same request are the same call: no argument is dropped |
| RentalRepository.Classify | app/src/main/java/com/example/rental_recommend/network/RentalRepository.kt:9-25 | an accepted answer (successful, body present, code 200) is decoded. Anything else fails: an exception with its own message, a delivered body with the body's message, no body with the fallback |
| RentalRepository.GetRentalList | app/src/main/java/com/example/rental_recommend/network/RentalRepository.kt:9-25 | succeeds exactly on an accepted answer, with the page's listings; otherwise fails as above with "获取房源列表失败" |
| RentalRepository.GetRentalDetail | app/src/main/java/com/example/rental_recommend/network/RentalRepository.kt:27-43 | succeeds exactly on an accepted answer, with the record converted by `toRentalHouse`; fallback "获取房源详情失败" |
| RentalRepository.GetRecommendations | app/src/main/java/com/example/rental_recommend/network/RentalRepository.kt:45-63 | succeeds exactly on an accepted answer; null data is the empty list, otherwise every record is converted in order; fallback "获取推荐房源失败" |
| RentalRepository.FavoriteFlag | app/src/main/java/com/example/rental_recommend/network/RentalRepository.kt:73-76 | reads `isFavorite` from the data map; missing data or key is the format error |
| RentalRepository.ToggleFavorite | app/src/main/java/com/example/rental_recommend/network/RentalRepository.kt:65-86 | succeeds exactly when the answer is accepted and carries `isFavorite`, with that flag. An accepted answer without it fails with "操作失败：返回数据格式错误"; other failures use the HTTP status text |
| RentalRepository.GetFavorites | app/src/main/java/com/example/rental_recommend/network/RentalRepository.kt:88-108 | succeeds exactly on an accepted answer, with the page's listings; fallback "获取收藏列表失败" |
| RentalRepository.CheckFavorite | app/src/main/java/com/example/rental_recommend/network/RentalRepository.kt:110-131 | as toggleFavorite, with the format error "检查收藏状态失败：返回数据格式错误" |
| RentalRepository.SearchRental | app/src/main/java/com/example/rental_recommend/network/RentalRepository.kt:133-162 | succeeds exactly on an accepted answer, with the body's data as it is; other failures use the HTTP status text |
| RentalRepository.ToListing | app/src/main/java/com/example/rental_recommend/network/RentalRepository.kt:164-186 | every field is copied; null tags, images and detail text become "" |
| RentalRepository.ToListings | app/src/main/java/com/example/rental_recommend/network/RentalRepository.kt:52 | the records are converted one by one, in order |
| RentalRepository.ToListingRoundTrip | app/src/main/java/com/example/rental_recommend/network/RentalRepository.kt:164-186 | the conversion loses only nullness: a listing survives the trip through a record, and records with every nullable field present that convert alike are equal |
| RentalRepository.FavoriteAnswers | app/src/main/java/com/example/rental_recommend/network/RentalRepository.kt:65-131 | concrete answers: code 200 yields the server's flag, another code yields the server's message, and a missing key or null data yields the format errors |
| AuthRepository.RequestOf | app/src/main/java/com/example/rental_recommend/network/AuthRepository.kt:28-83 | registration sends the confirmation as `password2`; the profile update sends the token and its eight fields unchanged |
| AuthRepository.RequestDeterminesCall | app/src/main/java/com/example/rental_recommend/network/AuthRepository.kt:8-98 | two auth calls that send the same request are the same call |
| AuthRepository.NetworkError | app/src/main/java/com/example/rental_recommend/network/AuthRepository.kt:21-22 | the message is "网络错误：" followed by the exception's message, or by "null" when there is none |
| AuthRepository.ClassifyAuth | app/src/main/java/com/example/rental_recommend/network/AuthRepository.kt:8-24 | success iff accepted with data. On failure there is always a message: accepted without data gives the missing-data text, otherwise the body's message or the fallback, and an exception gives the network error |
| AuthRepository.Login | app/src/main/java/com/example/rental_recommend/network/AuthRepository.kt:8-24 | the user id on an accepted answer with data; "登录失败：用户ID为空", the body's message or "登录失败" otherwise |
| AuthRepository.Register | app/src/main/java/com/example/rental_recommend/network/AuthRepository.kt:26-42 | as login, with "注册失败：用户ID为空" and "注册失败" |
| AuthRepository.GetUserInfo | app/src/main/java/com/example/rental_recommend/network/AuthRepository.kt:44-60 | the user's record; "获取用户信息失败：数据为空" or "获取用户信息失败" |
| AuthRepository.UpdateUserProfile | app/src/main/java/com/example/rental_recommend/network/AuthRepository.kt:85-96 | the updated record; "更新用户信息失败：数据为空" or "更新用户信息失败" |
| AuthRepository.NetworkErrorsDistinguishCauses | app/src/main/java/com/example/rental_recommend/network/AuthRepository.kt:21-22 | exceptions with different messages yield different failures: the message is recoverable from the failure text |
| AuthRepository.LoginAnswers | app/src/main/java/com/example/rental_recommend/network/AuthRepository.kt:8-24 | examples: id on code 200, the missing-id text for null data, the server's message for another code, "登录失败" with no body, and "网络错误：null" for an exception without a message |
| UserManager.GetInt | app/src/main/java/com/example/rental_recommend/data/UserManager.kt:31 | for any key that holds no string, the stored int, or the default when the key is absent |
| UserManager.GetString | app/src/main/java/com/example/rental_recommend/data/UserManager.kt:32-33 | for any key that holds no int, the stored string exactly when the key is present |
| UserManager.HasSession | app/src/main/java/com/example/rental_recommend/data/UserManager.kt:31-35 | the stored credentials restore a session exactly when the id is stored and is not -1 and a name and a token are stored |
| UserManager.UserStore.constructor | app/src/main/java/com/example/rental_recommend/data/UserManager.kt:15-16 | the store starts from the persisted preferences with no signed-in user |
| UserManager.UserStore.GetToken | app/src/main/java/com/example/rental_recommend/data/UserManager.kt:51-54 | the stored token, or null exactly when none is stored |
| UserManager.UserStore.SaveUserInfo | app/src/main/java/com/example/rental_recommend/data/UserManager.kt:20-27 | writes the three keys and no other; every other key and the signed-in user are unchanged; the token reads back |
| UserManager.UserStore.LoadUserInfo | app/src/main/java/com/example/rental_recommend/data/UserManager.kt:29-44 | true exactly when an id other than -1, a name and a token are stored; then the signed-in user is `User(id, username)` with defaults, otherwise nothing changes |
| UserManager.UserStore.ClearUserInfo | app/src/main/java/com/example/rental_recommend/data/UserManager.kt:46-49 | the store is empty, no user is signed in and no token is stored |
| UserManager.SaveThenLoad | app/src/main/java/com/example/rental_recommend/data/UserManager.kt:20-44 | after saving an id other than -1, loading restores that id and name and the token reads back |
| UserManager.SavedSentinelNeverRestores | app/src/main/java/com/example/rental_recommend/data/UserManager.kt:31-36 | a saved id of -1 never restores a session |
| UserManager.ClearedHasNoSession | app/src/main/java/com/example/rental_recommend/data/UserManager.kt:46-54 | a cleared store restores nothing and holds no token |
| RentalViewModel.SettleList | app/src/main/java/com/example/rental_recommend/viewmodel/RentalViewModel.kt:49-54 | success with the items exactly on `Ok`; otherwise an error with the message or the default; never `Loading` |
| RentalViewModel.SettleFavorite | app/src/main/java/com/example/rental_recommend/viewmodel/RentalViewModel.kt:93-98 | the favorite flag exactly on `Ok`; otherwise an error with the message or the default; never `Loading` |
| RentalViewModel.RentalController.constructor | app/src/main/java/com/example/rental_recommend/viewmodel/RentalViewModel.kt:33-43 | both states start `Loading`, no event, page 1 |
| RentalViewModel.RentalController.LoadRentalList | app/src/main/java/com/example/rental_recommend/viewmodel/RentalViewModel.kt:45-56 | shows `Loading`, then requests the current page with size 10, which it does not reset. It settles with default "加载失败" and touches nothing else |
| RentalViewModel.RentalController.LoadMore | app/src/main/java/com/example/rental_recommend/viewmodel/RentalViewModel.kt:58-72 | does nothing at all unless the list shows `Success`. Otherwise it advances the page and requests it; success appends the new items after the old ones, failure replaces the list by an error, default "加载更多失败" |
| RentalViewModel.RentalController.Refresh | app/src/main/java/com/example/rental_recommend/viewmodel/RentalViewModel.kt:74-77 | page 1 is set, then the list is loaded as by loadRentalList |
| RentalViewModel.RentalController.ToggleFavorite | app/src/main/java/com/example/rental_recommend/viewmodel/RentalViewModel.kt:85-100 | shows `Loading`; without a token it raises the auth-error event and makes no call; otherwise it calls with the token and settles with default "操作失败" |
| RentalViewModel.RentalController.CheckFavorite | app/src/main/java/com/example/rental_recommend/viewmodel/RentalViewModel.kt:102-117 | as toggleFavorite, with default "检查收藏状态失败" |
| RentalViewModel.RentalController.ClearEvent | app/src/main/java/com/example/rental_recommend/viewmodel/RentalViewModel.kt:119-121 | the event is cleared and nothing else changes |
| RentalViewModel.PagingShowsEveryPage | app/src/main/java/com/example/rental_recommend/viewmodel/RentalViewModel.kt:45-72 | after a first load and n successful loadMore calls, the list is the first page followed by every page in order, and page n + 1 was the last requested |
| AuthViewModel.SettleAuth | app/src/main/java/com/example/rental_recommend/auth/AuthViewModel.kt:29-34 | success with the user id exactly on `Ok`; otherwise an error with the message or the default |
| AuthViewModel.AuthController.constructor | app/src/main/java/com/example/rental_recommend/auth/AuthViewModel.kt:22 | the state starts `Idle` |
| AuthViewModel.AuthController.Login | app/src/main/java/com/example/rental_recommend/auth/AuthViewModel.kt:25-36 | shows `Loading`, calls login with the credentials, settles with default "登录失败" |
| AuthViewModel.AuthController.Register | app/src/main/java/com/example/rental_recommend/auth/AuthViewModel.kt:38-54 | different passwords give "两次输入的密码不一致" at once, with no `Loading` and no call; otherwise as login, with default "注册失败" |
| AuthViewModel.AuthController.SaveUserInfo | app/src/main/java/com/example/rental_recommend/auth/AuthViewModel.kt:56-58 | stores the user with the decimal text of the id as its token |
| AuthViewModel.AuthController.ClearUserInfo | app/src/main/java/com/example/rental_recommend/auth/AuthViewModel.kt:60-62 | the store is emptied and the user signed out |
| AuthViewModel.TokenEncodesUserId | app/src/main/java/com/example/rental_recommend/auth/AuthViewModel.kt:57 | the token saved for a 32-bit id parses back to that id, and distinct ids get distinct tokens |
| ProfileViewModel.ToUser | app/src/main/java/com/example/rental_recommend/viewmodel/ProfileViewModel.kt:102-116 | name becomes username; missing email, gender and areas default to "", "未设置" and the empty list; each role flag holds iff the roles name it; id 0, no avatar, not verified |
| ProfileViewModel.ToUserRoundTrip | app/src/main/java/com/example/rental_recommend/viewmodel/ProfileViewModel.kt:102-116 | a user with the conversion's fixed id, avatar and verification survives the trip through a server record |
| ProfileViewModel.ProfileController.constructor | app/src/main/java/com/example/rental_recommend/viewmodel/ProfileViewModel.kt:24 | the profile state starts `Loading` |
| ProfileViewModel.ProfileController.LoadUserProfile | app/src/main/java/com/example/rental_recommend/viewmodel/ProfileViewModel.kt:27-54 | shows `Loading`; without a token "未登录" and no call; otherwise fetches with the token, then shows the converted user or the error, default "加载用户信息失败" |
| ProfileViewModel.ProfileController.UpdateUserProfile | app/src/main/java/com/example/rental_recommend/viewmodel/ProfileViewModel.kt:56-99 | never shows `Loading`; without a token "未登录" and no call; otherwise forwards all eight fields unchanged, then shows the converted user or the error, default "更新用户信息失败" |
| FilterModel.DefaultRange | app/src/main/java/com/example/rental_recommend/model/FilterOption.kt:14-18 | `Range()`: no bounds, shown as "不限" |
| FilterModel.Choice | app/src/main/java/com/example/rental_recommend/model/FilterOption.kt:20-23 | `SingleChoice(value)`: shown as its own value |
| FilterModel.DefaultLocation | app/src/main/java/com/example/rental_recommend/model/FilterOption.kt:25-29 | `Location()`: no province or city, shown as "不限" |
| FilterModel.NewFilterOption | app/src/main/java/com/example/rental_recommend/model/FilterOption.kt:35-40 | `FilterOption(type, title)`: value `None`, not selected |
| FilterModel.PriceRanges | app/src/main/java/com/example/rental_recommend/model/FilterOption.kt:44-52 | seven distinct ranges: "不限" first, then contiguous bounded ranges from 0, and the last open at the top |
| FilterModel.AreaRanges | app/src/main/java/com/example/rental_recommend/model/FilterOption.kt:54-61 | six distinct ranges of the same shape |
| FilterModel.HouseTypes | app/src/main/java/com/example/rental_recommend/model/FilterOption.kt:63-68 | four distinct choices shown as their value, "不限" first |
| FilterModel.Orientations | app/src/main/java/com/example/rental_recommend/model/FilterOption.kt:70-80 | nine distinct choices shown as their value, "不限" first |
| FilterModel.RangesCoverAmount | app/src/main/java/com/example/rental_recommend/model/FilterOption.kt:44-61 | in a range table every non-negative amount falls in exactly one bounded entry |
| FilterModel.MinsIncrease | app/src/main/java/com/example/rental_recommend/model/FilterOption.kt:44-61 | an entry ends no later than any later entry starts |
| FilterBar.Toggle | app/src/main/java/com/example/rental_recommend/components/FilterBar.kt:46 | the click collapses the tab exactly when it is the expanded one, and otherwise expands that tab |
| FilterBar.ToggleTwice | app/src/main/java/com/example/rental_recommend/components/FilterBar.kt:46 | clicking a tab twice restores the state exactly when no other tab was expanded |
| FilterBar.ToggleExpandsClicked | app/src/main/java/com/example/rental_recommend/components/FilterBar.kt:44-46 | after a click, the clicked tab is expanded iff it was not, and no other tab is |
| FilterBar.FirstOfType | app/src/main/java/com/example/rental_recommend/components/FilterBar.kt:66 | `find`: the first index with the type, or none exactly when no filter has it |
| FilterBar.PanelDefault | app/src/main/java/com/example/rental_recommend/components/FilterBar.kt:66-86 | each panel's fallback has the variant the panel casts to |
| FilterBar.CurrentValue | app/src/main/java/com/example/rental_recommend/components/FilterBar.kt:64-90 | when the first filter of the type holds a value of the panel's variant, that value; in every other case the panel's default; always of the panel's variant |
| FilterBar.CurrentValueOfFirst | app/src/main/java/com/example/rental_recommend/components/FilterBar.kt:64-88 | a first filter of the type, with no earlier one, whose value has the panel's variant is what the panel shows |
| FilterBar.CurrentValueFallsBack | app/src/main/java/com/example/rental_recommend/components/FilterBar.kt:64-88 | with no filter of the type, or a first one of another variant, the panel shows its default |
| FilterBar.PanelOptions | app/src/main/java/com/example/rental_recommend/components/FilterBar.kt:64-90 | the location panel lists nothing; the others list their table, distinct, default first, all of the panel's variant |
| FilterBar.IsOptionSelected | app/src/main/java/com/example/rental_recommend/components/FilterBar.kt:144-166 | an option is marked exactly when it equals the panel's current value |
| FilterBar.OneOptionSelected | app/src/main/java/com/example/rental_recommend/components/FilterBar.kt:144-166 | at most one option of a panel is marked selected, and the default marks the first |
| FilterBar.TabLabel | app/src/main/java/com/example/rental_recommend/components/FilterBar.kt:111-116 | the value's display text, or the filter's title while the value is `None` |
| FilterBar.LabelOfFreshAndChosen | app/src/main/java/com/example/rental_recommend/components/FilterBar.kt:111-116 | a fresh filter shows its title; one set to a table entry shows that entry's text |
| FilterBar.FilterBarState.constructor | app/src/main/java/com/example/rental_recommend/components/FilterBar.kt:29 | the bar opens with no tab expanded |
| FilterBar.FilterBarState.OnTabClick | app/src/main/java/com/example/rental_recommend/components/FilterBar.kt:45-47 | the expanded tab follows the toggle rule; afterwards the panel shows unless the clicked tab was the open one |
| FilterBar.FilterBarState.PanelVisible | app/src/main/java/com/example/rental_recommend/components/FilterBar.kt:55 | the panel shows exactly while some tab is expanded |
| FilterBar.FilterBarState.ChooseOption | app/src/main/java/com/example/rental_recommend/components/FilterBar.kt:65-88 | choosing an option reports the open panel's own type with that option, of the panel's variant |
| HomeScreen.DispatchFor | app/src/main/java/com/example/rental_recommend/screens/HomeScreen.kt:73-89 | a blank query reloads the list; any other query searches its trimmed text with every filter argument null |
| HomeScreen.SearchTextIsTrimmed | app/src/main/java/com/example/rental_recommend/screens/HomeScreen.kt:77-78 | a search is never sent for empty text, and its text is a piece of the query without surrounding whitespace |
| HomeScreen.Displayed | app/src/main/java/com/example/rental_recommend/screens/HomeScreen.kt:91-96 | the listings of a `Success`, nothing otherwise |
| HomeScreen.View | app/src/main/java/com/example/rental_recommend/screens/HomeScreen.kt:160-220 | spinner iff loading; the error's message iff error. An empty success gives "暂无房源" for a blank query, else "未找到相关房源" with "试试其他关键词". Otherwise one card per listing, in order, heart empty |
| HomeScreen.HandleEvent | app/src/main/java/com/example/rental_recommend/screens/HomeScreen.kt:60-68 | navigates to sign-in exactly on the auth-error event, then clears it; the states are untouched |
| FavoritesScreen.FavoritesScreenState.constructor | app/src/main/java/com/example/rental_recommend/screens/FavoritesScreen.kt:45-49 | no listing recorded, dialog closed, no operation running |
| FavoritesScreen.FavoritesScreenState.OnEnter | app/src/main/java/com/example/rental_recommend/screens/FavoritesScreen.kt:61-84 | on first composition the favorites are requested once, and the favorite state effect runs on the state the view model holds: `Loading` marks an operation running, `Success(false)` adds a second load |
| FavoritesScreen.FreshScreenIgnoresDismiss | app/src/main/java/com/example/rental_recommend/screens/FavoritesScreen.kt:66-178 | over a fresh view model (favorite state `Loading`) a tap outside the dialog is ignored: the dialog stays open on the tapped listing |
| FavoritesScreen.SettledStateReenablesDismiss | app/src/main/java/com/example/rental_recommend/screens/FavoritesScreen.kt:66-178 | a tap outside the dialog closes it exactly after a settled favorite state, and changes nothing while the state is `Loading` |
| FavoritesScreen.FavoritesScreenState.DialogVisible | app/src/main/java/com/example/rental_recommend/screens/FavoritesScreen.kt:172 | with the flag raised only together with an id, the dialog shows iff its flag is set |
| FavoritesScreen.FavoritesScreenState.OnHeartTap | app/src/main/java/com/example/rental_recommend/screens/FavoritesScreen.kt:159-162 | records the listing and opens the dialog |
| FavoritesScreen.FavoritesScreenState.OnConfirm | app/src/main/java/com/example/rental_recommend/screens/FavoritesScreen.kt:184-191 | with an id recorded: marks the operation running, requests the toggle and hides the dialog; without one, nothing |
| FavoritesScreen.FavoritesScreenState.OnDismissRequest | app/src/main/java/com/example/rental_recommend/screens/FavoritesScreen.kt:174-178 | closes the dialog and forgets the id unless an operation runs, else nothing changes |
| FavoritesScreen.FavoritesScreenState.OnCancel | app/src/main/java/com/example/rental_recommend/screens/FavoritesScreen.kt:198-201 | always closes the dialog and forgets the id |
| FavoritesScreen.FavoritesScreenState.OnFavoriteState | app/src/main/java/com/example/rental_recommend/screens/FavoritesScreen.kt:66-84 | running iff the state is `Loading`; `Success(false)` and nothing else reloads the favorites |
| FavoritesScreen.View | app/src/main/java/com/example/rental_recommend/screens/FavoritesScreen.kt:96-168 | spinner, error text, "暂无收藏" iff the success list is empty, else one filled-heart card per listing in order |
| RentalDetailScreen.EntryRequests | app/src/main/java/com/example/rental_recommend/screens/RentalDetailScreen.kt:63-66 | on entry the favorite flag, then the listing, both for the screen's id |
| RentalDetailScreen.DetailScreenState.constructor | app/src/main/java/com/example/rental_recommend/screens/RentalDetailScreen.kt:47-51 | the heart starts empty and no image retry has happened |
| RentalDetailScreen.DetailScreenState.OnFavoriteState | app/src/main/java/com/example/rental_recommend/screens/RentalDetailScreen.kt:68-72 | the shown flag copies a favorite `Success` and ignores every other state |
| RentalDetailScreen.DetailScreenState.OnImageError | app/src/main/java/com/example/rental_recommend/screens/RentalDetailScreen.kt:161-164 | a failed image load counts one more retry, never beyond 3 |
| RentalDetailScreen.ShowTags | app/src/main/java/com/example/rental_recommend/screens/RentalDetailScreen.kt:223 | the tags section shows exactly when trimming the tag text leaves something |
| RentalDetailScreen.TagPieces | app/src/main/java/com/example/rental_recommend/screens/RentalDetailScreen.kt:233 | no piece contains a comma, and the pieces, empty ones included, join back to the tag text |
| RentalDetailScreen.TagList | app/src/main/java/com/example/rental_recommend/screens/RentalDetailScreen.kt:296-310 | the trimmed tags in order, in rows of 1 to 3; only the last row may be short; the row count rounds up |
| RentalDetailScreen.InRowsOfThree | app/src/main/java/com/example/rental_recommend/screens/RentalDetailScreen.kt:296-310 | the row loop: rows flatten back to the items, each holds 1 to 3, all but the last hold 3 |
| ProfileScreen.NonBlank | app/src/main/java/com/example/rental_recommend/screens/ProfileScreen.kt:493-495 | blank text becomes null, other text is kept as typed |
| ProfileScreen.ProfileDialogFields | app/src/main/java/com/example/rental_recommend/screens/ProfileScreen.kt:362-365 | the profile dialog opens with the user's values, a null nickname or phone as "" |
| ProfileScreen.ProfileDialogUpdate | app/src/main/java/com/example/rental_recommend/screens/ProfileScreen.kt:492-497 | saving sends nickname, email, phone and gender, a blank nickname or phone as null, and no preference field |
| ProfileScreen.UntouchedProfileDialog | app/src/main/java/com/example/rental_recommend/screens/ProfileScreen.kt:362-365 | saving the dialog untouched sends the user's own values, except that a stored blank nickname or phone becomes null |
| ProfileScreen.ToInt32 | app/src/main/java/com/example/rental_recommend/screens/ProfileScreen.kt:523-524 | `toInt()` saturates to 32 bits |
| ProfileScreen.ParseBudget | app/src/main/java/com/example/rental_recommend/screens/ProfileScreen.kt:527-528 | digits within 32 bits read as their value; empty or unreadable text reads as the default |
| ProfileScreen.InitialBudgetText | app/src/main/java/com/example/rental_recommend/screens/ProfileScreen.kt:523-524 | the opening text of a budget field parses as the stored budget cut to an Int, or the default when none is stored; a non-negative value is written in digits only, as `toString` does |
| ProfileScreen.InitialBudgetReadsBack | app/src/main/java/com/example/rental_recommend/screens/ProfileScreen.kt:523-528 | an untouched budget field reads back what it was opened with |
| ProfileScreen.AcceptBudgetEdit | app/src/main/java/com/example/rental_recommend/screens/ProfileScreen.kt:625-627 | an edit is taken iff the new text is empty or all digits; else the text stays |
| ProfileScreen.EditsKeepDigits | app/src/main/java/com/example/rental_recommend/screens/ProfileScreen.kt:625-627 | a field holding only digits keeps holding only digits |
| ProfileScreen.FinalBudget | app/src/main/java/com/example/rental_recommend/screens/ProfileScreen.kt:752-757 | the saved pair is the two read values, in order |
| ProfileScreen.BudgetConflict | app/src/main/java/com/example/rental_recommend/screens/ProfileScreen.kt:655 | a conflict needs both fields filled and is exactly when saving would swap the typed values; with both filled and no conflict they are saved as typed |
| ProfileScreen.SwapOnlyForEmptyField | app/src/main/java/com/example/rental_recommend/screens/ProfileScreen.kt:752-769 | when save is enabled, the values are swapped only if a field was left empty |
| ProfileScreen.AddArea | app/src/main/java/com/example/rental_recommend/screens/ProfileScreen.kt:724-729 | the area is appended unless already chosen |
| ProfileScreen.RemoveFirst | app/src/main/java/com/example/rental_recommend/screens/ProfileScreen.kt:687-689 | `remove` drops exactly one occurrence when there is one, and changes nothing otherwise |
| ProfileScreen.RemoveFirstCounts | app/src/main/java/com/example/rental_recommend/screens/ProfileScreen.kt:687-689 | as a multiset, the result is the old list less one copy of the area |
| ProfileScreen.RemoveFirstKeepsOrder | app/src/main/java/com/example/rental_recommend/screens/ProfileScreen.kt:687-689 | the other areas keep their order |
| ProfileScreen.AreaEditsKeepDistinct | app/src/main/java/com/example/rental_recommend/screens/ProfileScreen.kt:687-729 | neither edit introduces a duplicate; in a list without duplicates removal removes the area entirely |
| ProfileScreen.RemoveFirstKeepsDistinct | app/src/main/java/com/example/rental_recommend/screens/ProfileScreen.kt:687-689 | removing from a list without duplicates leaves no duplicates and no copy of the removed area |
| ProfileScreen.AddThenRemove | app/src/main/java/com/example/rental_recommend/screens/ProfileScreen.kt:687-729 | adding an area not chosen, then closing its badge, restores the list |
| ProfileScreen.OfferedAreas | app/src/main/java/com/example/rental_recommend/screens/ProfileScreen.kt:718-719 | the menu offers exactly the areas not chosen yet, in table order |
| ProfileScreen.PreferenceDialog.constructor | app/src/main/java/com/example/rental_recommend/screens/ProfileScreen.kt:517-534 | the dialog opens with the user's house type, budgets (defaults 1000 and 5000) and areas |
| ProfileScreen.PreferenceDialog.ChooseHouseType | app/src/main/java/com/example/rental_recommend/screens/ProfileScreen.kt:594-597 | the house type becomes the chosen option |
| ProfileScreen.PreferenceDialog.OnMinInput | app/src/main/java/com/example/rental_recommend/screens/ProfileScreen.kt:623-627 | the minimum field follows the edit rule; nothing else changes |
| ProfileScreen.PreferenceDialog.OnMaxInput | app/src/main/java/com/example/rental_recommend/screens/ProfileScreen.kt:641-645 | the maximum field follows the edit rule; nothing else changes |
| ProfileScreen.PreferenceDialog.OnAreaOption | app/src/main/java/com/example/rental_recommend/screens/ProfileScreen.kt:722-730 | the typed area is cleared and the option added unless chosen |
| ProfileScreen.PreferenceDialog.OnRemoveArea | app/src/main/java/com/example/rental_recommend/screens/ProfileScreen.kt:685-689 | the area's first occurrence is removed |
| ProfileScreen.PreferenceDialog.WarningShown | app/src/main/java/com/example/rental_recommend/screens/ProfileScreen.kt:655 | the budget warning shows exactly when save is disabled, and only with both fields filled |
| ProfileScreen.PreferenceDialog.SaveEnabled | app/src/main/java/com/example/rental_recommend/screens/ProfileScreen.kt:769 | with save enabled and both fields filled, the budget is saved as typed |
| ProfileScreen.PreferenceDialog.SavedUpdate | app/src/main/java/com/example/rental_recommend/screens/ProfileScreen.kt:752-766 | saving sends the ordered budget, the areas and the house type (null when blank), and no profile field |
| AuthScreen.SubmitEnabled | app/src/main/java/com/example/rental_recommend/screens/AuthScreen.kt:166 | the button is enabled exactly when no call runs and trimming leaves text in the name, the password and, when registering, the confirmation |
| AuthScreen.SubmitNeedsCredentials | app/src/main/java/com/example/rental_recommend/screens/AuthScreen.kt:166 | an enabled button means no call runs and the name and password (and the confirmation when registering) have non-whitespace text |
| AuthScreen.LoginIgnoresConfirmation | app/src/main/java/com/example/rental_recommend/screens/AuthScreen.kt:166 | in login mode the confirmation field never affects the button |
| AuthScreen.ErrorLine | app/src/main/java/com/example/rental_recommend/screens/AuthScreen.kt:202-207 | the error text shows exactly in the `Error` state, with its message |
| AuthScreen.AuthScreenState.constructor | app/src/main/java/com/example/rental_recommend/screens/AuthScreen.kt:31-36 | the screen opens in login mode with empty fields and hidden passwords |
| AuthScreen.AuthScreenState.OnSwitchMode | app/src/main/java/com/example/rental_recommend/screens/AuthScreen.kt:181 | the mode flips and every field keeps its text |
| AuthScreen.AuthScreenState.OnUsernameChange | app/src/main/java/com/example/rental_recommend/screens/AuthScreen.kt:87 | typing replaces the user name and nothing else |
| AuthScreen.AuthScreenState.OnPasswordChange | app/src/main/java/com/example/rental_recommend/screens/AuthScreen.kt:104 | typing replaces the password and nothing else |
| AuthScreen.AuthScreenState.OnConfirmPasswordChange | app/src/main/java/com/example/rental_recommend/screens/AuthScreen.kt:130 | typing replaces the confirmation and nothing else |
| AuthScreen.AuthScreenState.OnToggleVisibility | app/src/main/java/com/example/rental_recommend/screens/AuthScreen.kt:112-138 | an eye icon flips its own field's visibility only |
| AuthScreen.AuthScreenState.Enabled | app/src/main/java/com/example/rental_recommend/screens/AuthScreen.kt:166 | the button is enabled exactly when no call runs and trimming leaves text in the screen's name, password and, when registering, confirmation |
| AuthScreen.AuthScreenState.Submit | app/src/main/java/com/example/rental_recommend/screens/AuthScreen.kt:156-161 | login mode calls login(name, password); register mode calls register(name, password, confirmation); the view model settles accordingly |
| AuthScreen.AuthScreenState.OnAuthState | app/src/main/java/com/example/rental_recommend/screens/AuthScreen.kt:40-53 | on `Success(id)` it saves the id with the name now in the field, then navigates home; any other state leaves the store alone and stays |
| MockHomeScreen.FilteredHouses | app/src/main/java/com/example/rental_recommend/ui/screens/HomeScreen.kt:38-47 | a blank query lists every house; otherwise exactly the houses whose title or location contains the query ignoring case, each as many times as in the list; always a sublist in order |
| MockHomeScreen.TabsShown | app/src/main/java/com/example/rental_recommend/ui/screens/HomeScreen.kt:74 | the tab row shows exactly when trimming the query leaves nothing |
| MockHomeScreen.TabsMeanEveryHouse | app/src/main/java/com/example/rental_recommend/ui/screens/HomeScreen.kt:74 | the tabs show only while every house is listed |
| MockHomeScreen.ToggledCopy | app/src/main/java/com/example/rental_recommend/ui/screens/HomeScreen.kt:194 | the reported copy has the favorite flag negated and every other field equal |
| MockHomeScreen.ReplaceById | app/src/main/java/com/example/rental_recommend/ui/screens/HomeScreen.kt:141-143 | same length; every entry with the updated id becomes the update, all others are unchanged |
| MockHomeScreen.ReplaceIdempotent | app/src/main/java/com/example/rental_recommend/ui/screens/HomeScreen.kt:141-143 | replacing twice with the same house is replacing once |
| MockHomeScreen.ReplaceRestores | app/src/main/java/com/example/rental_recommend/ui/screens/HomeScreen.kt:141-143 | putting back the only version of a house undoes its replacement |
| MockHomeScreen.Initial | app/src/main/java/com/example/rental_recommend/ui/screens/HomeScreen.kt:34-47 | the screen opens with an empty query showing every house |
| MockHomeScreen.OnQueryChange | app/src/main/java/com/example/rental_recommend/ui/screens/HomeScreen.kt:38-60 | a new query recomputes the list from the current houses |
| MockHomeScreen.OnFavoriteClickAsWritten | app/src/main/java/com/example/rental_recommend/ui/screens/HomeScreen.kt:38-144 | the houses are updated, but the list remembered under the query is kept |
| MockHomeScreen.StaleHeartAsWritten | app/src/main/java/com/example/rental_recommend/ui/screens/HomeScreen.kt:38-144 | after a click the card keeps its old heart while the houses hold the new one |
| MockHomeScreen.DoubleTapAsWritten | app/src/main/java/com/example/rental_recommend/ui/screens/HomeScreen.kt:38-194 | two taps on the same heart leave the house a favorite instead of undoing the first |
| MockHomeScreen.OnFavoriteClick | app/src/main/java/com/example/rental_recommend/ui/screens/HomeScreen.kt:140-144 | the houses are updated and the list recomputed from them |
| MockHomeScreen.ShownAreHouses | app/src/main/java/com/example/rental_recommend/ui/screens/HomeScreen.kt:38-47 | every card is one of the houses |
| MockHomeScreen.ClickShowsNewHeart | app/src/main/java/com/example/rental_recommend/ui/screens/HomeScreen.kt:140-194 | after a click the house is still listed, and every card with its id shows the new heart |
| MockHomeScreen.SecondClickRestores | app/src/main/java/com/example/rental_recommend/ui/screens/HomeScreen.kt:140-194 | with unique ids, tapping the same house's heart again restores the screen exactly |
| MockHomeScreen.View | app/src/main/java/com/example/rental_recommend/ui/screens/HomeScreen.kt:102-147 | empty texts iff nothing is listed ("暂无房源"/"敬请期待" for a blank query, else "未找到相关房源"/"试试其他关键词"), otherwise the listed houses |
| MockFavoritesScreen.InitialFavorites | app/src/main/java/com/example/rental_recommend/ui/screens/FavoritesScreen.kt:24 | exactly the houses marked favorite, each as many times as in the list, as a sublist in order |
| MockFavoritesScreen.RemoveById | app/src/main/java/com/example/rental_recommend/ui/screens/FavoritesScreen.kt:82 | exactly the houses with another id, each as many times as in the list, as a sublist in order |
| MockFavoritesScreen.RemoveIdempotent | app/src/main/java/com/example/rental_recommend/ui/screens/FavoritesScreen.kt:82 | removing an id twice is removing it once |
| MockFavoritesScreen.RemoveAbsent | app/src/main/java/com/example/rental_recommend/ui/screens/FavoritesScreen.kt:82 | removing an absent id changes nothing |
| MockFavoritesScreen.RemoveSplits | app/src/main/java/com/example/rental_recommend/ui/screens/FavoritesScreen.kt:82 | removal acts on each part of a list separately, keeping their order |
| MockFavoritesScreen.RemovalsCommute | app/src/main/java/com/example/rental_recommend/ui/screens/FavoritesScreen.kt:82 | two removals give the same list in either order |
| MockFavoritesScreen.RemoveKeepsFavorites | app/src/main/java/com/example/rental_recommend/ui/screens/FavoritesScreen.kt:24-82 | the list stays a list of favorites |
| MockFavoritesScreen.View | app/src/main/java/com/example/rental_recommend/ui/screens/FavoritesScreen.kt:36-86 | the empty state iff the list is empty, otherwise its houses |

## Left out

- Compose layout, styling, icons, images, animation and recomposition are left out as UI. Each `LaunchedEffect` and each callback becomes a method or function called with the value it reacts to. Log calls are left out as output only.
- Coroutines are left out: each launched coroutine is one atomic step. Interleavings of concurrent calls are not modelled.
- The HTTP service, Retrofit, JSON decoding and `RetrofitClient` are replaced by the `Exchange` each call produces. The token header and the map shapes that `ApiService` declares are taken as the repository passes them.
- The `Context` that `UserManager` and the view models take is left out; preferences are an in-memory map.
- Prices, areas and budgets are whole numbers; Kotlin holds them as `Double` or `Float`. So `ToInt32` models `Double.toInt()` only on whole values, and the mock data's fractional areas are out of range.
- Text: `Trim`, `IsBlank`, `ParseInt`, `AllDigits` and `ContainsIgnoreCase` follow Kotlin on ASCII digits and ASCII case. Kotlin's `isDigit`, `toIntOrNull` and `ignoreCase` also accept other Unicode digits and letters; those are not modelled.
- `network/RentalRepository.kt` (`toRentalHouse`) and `viewmodel/RentalViewModel.kt` use `model.RentalHouse` with fields that `model/RentalHouse.kt` does not declare: `cover`, `type`, `url`, `areaText`, `structure`, `priceText`, `level`, `province`, `city`, `imgs` and `detail`. The model gives that type the shape the constructor call in `toRentalHouse` implies, as the record `Models.Listing`. This is a different type from `Models.RentalHouse`, which has the fields of `model/RentalHouse.kt` and is used by the mock screens.
- `data/MockData.kt` is not part of this model. Its records give `id` as text where `RentalHouse.id` is an `Int`, and its areas are fractional. The mock screens take their houses as a parameter.
- In `screens/HomeScreen.kt` the search calls `viewModel.searchRental`, which `viewmodel/RentalViewModel.kt` does not define. `HomeScreen.DispatchFor` models the search as the `SearchCall` it would make.
- `screens/RentalDetailScreen.kt` calls `viewModel.getRentalDetail` and reads a detail state, and `screens/FavoritesScreen.kt` calls `viewModel.loadFavorites`. `RentalViewModel` defines none of them. The screens are modelled up to the requests they make (`DetailRequest`, `FavoritesRequest`) and the states they read.
- `handleAuthError` in `viewmodel/RentalViewModel.kt` (79-83) is private and never called, so it is not modelled.
- The catch blocks of `ProfileViewModel` are left out: in this model the repository never throws, because it already returns every exception as a failure.
- The filter bar's mapping from chosen filters to search arguments happens outside the core and is not modelled. The location panel is a placeholder text with no options.
- The expanded or collapsed flags of menus and dialogs are left out as UI state: `houseTypeExpanded`, `areaExpanded` and the dialog visibility flags of `ProfileScreen`. `selectedArea` is kept only as far as choosing an option clears it.
- `RentalDetailScreen.DetailScreenState.OnImageError`: the source only counts and logs retries. The image request is built from the cover alone, and `retryCount` is read only by the log lines, so a retry starts no reload. The model keeps the counter and leaves out the log text.
- `HomeScreen.DispatchFor`: the selected tab is UI only and is not modelled.

## Findings

| source | as written | input that shows it | evidently intended | confidence | as-written member | corrected member |
|---|---|---|---|---|---|---|
| app/src/main/java/com/example/rental_recommend/ui/screens/HomeScreen.kt:38 | `filteredHouses` is remembered under `searchQuery` alone, so replacing `houses` after a favorite click does not recompute it. The cards keep the old houses: the heart does not change, and a second tap reports the same copy again | one house that is not a favorite and an empty query; tap its heart twice. The house ends up a favorite while its card still shows an empty heart | the cards show the filter of the current houses (remember keyed on `houses` and `searchQuery`), so a second tap undoes the first | high (not executed) | MockHomeScreen.OnFavoriteClickAsWritten, MockHomeScreen.StaleHeartAsWritten, MockHomeScreen.DoubleTapAsWritten | MockHomeScreen.OnFavoriteClick, MockHomeScreen.ClickShowsNewHeart, MockHomeScreen.SecondClickRestores |
