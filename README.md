# Inventory front end, modelled in Dafny

This project models the decision logic of a React inventory front end.
Administrators manage users, categories, storages and articles. A user in
charge of a storage moves stock in and out of it. The model covers these
parts of the program:

- **Session store.** Restoring the session at start-up, login, logout,
  forced logout, and the results of the password change and
  forgotten-password calls. Durable storage is two entries, "token" and
  "user".
- **Route guards and route table.** What every location shows for every
  session, including the redirects.
- **Post-login navigation.** Where the login page goes once the login call
  returns.
- **HTTP client.** The interceptors, the base-address default, and the
  request each article and storage service call sends.
- **Article hook.** The confirm, call, reload, report protocol of stock
  operations.
- **List pages.** Search, the "no result shows everything" fallback,
  9-per-page pagination, the stock badge, and the exclusion of
  administrators from the users list.
- **Storage dashboard.** Grouping the storage's units by article, the total,
  the add dialog with its quantity clamp, and the return dialog.
- **Forms.** The article form, the password change form and the user form:
  their validation, initial values and submit clean-up.

State the program changes in place is modelled as classes:

- `AuthContext.AuthProvider`
- `UseArticles.ArticlesHook`
- `LoginPage.LoginForm`
- the page views
- `DashboardUser.DashboardUserView`

Each class has a `State()` snapshot. Its methods are proved to produce the
state given by a specification function of the old state. The properties
of the program are lemmas about those functions.

Inputs from the outside world are parameters:

- **Backend replies.** `Reply<T>`: `Ok(value)` or `Failed(error)`.
- **Dialog answers.** Booleans, or the value a dialog confirms.
- **The clock.** `nowMs`.
- **Token decoding.** `Decoder`, a partial function that returns `None`
  where decoding throws.

Where the code departs from what its comments or its documentation suggest,
the model follows the code:

- **Expired tokens stay.** An expired stored token is not cleared at
  start-up. The session counts as authenticated, but it has no user.
- **Inverted password check.** The login page sends a user to the password
  change when `tp` is false. The public guard does so when `tp` is true.
- **Wrong id in the return request.** The return dialog puts the logged-in
  user's id where the storage's id is expected.
- **No stock check.** Nothing on the client checks a quantity against
  stock. The only bound is the quantity field's clamp, which has no lower
  bound.
- **Password-change failures.** A failed password change always reports the
  generic message. The message is read from a place a failed HTTP call does
  not fill.
- **Second response never arrives.** The storage dashboard waits for two
  responses but requests only one. Reading the missing second one throws
  right after the storage is stored, so the product count card never
  changes.
- **Password change page without a user.** The router selects the password
  change page for any authenticated session, one without a user included.
  The page then reads the user's id while rendering, which throws for such
  a session, for example one restored from an expired token.
- **Dead branch at restore.** The decode-failure branch of the start-up
  restore can never run. The expiry check has already decoded the same
  token.

## Model

| member | source | states |
|---|---|---|
| Text.Lower | src/pages/storages/StoragesPage.jsx:40-42 | lower-casing keeps the length and folds each character on its own |
| Text.IncludesIffOccurs | src/pages/storages/StoragesPage.jsx:40 | `includes` holds exactly when the term occurs at some offset |
| Text.FieldMatchesIgnoresCase | src/pages/storages/StoragesPage.jsx:40-42 | matching a field gives the same answer for a term and for its lower-case form |
| Text.LowerIdempotent | src/pages/articles/ArticlesPage.jsx:25 | lower-casing twice is lower-casing once |
| Text.TrimIdempotent | src/components/forms/ArticleForm.jsx:7 | trimming twice is trimming once |
| Text.BlankIffAllSpace | src/pages/storages/StoragesPage.jsx:34 | a search term counts as blank exactly when every character is white space |
| Text.TrimmedHasNoOuterSpace | src/components/forms/ArticleForm.jsx:15 | a trimmed string neither starts nor ends with white space |
| Text.NatText | src/config/api.js:120 | a number in a path is a non-empty run of digits, with no leading zero unless it is 0 |
| Text.NatTextRoundTrip | src/config/api.js:120 | reading the digits back gives the number |
| Text.NatTextInjective | src/config/api.js:121 | different ids give different path segments |
| Text.IntTextInjective | src/config/api.js:120-122 | different quantities give different query values, including negative ones |
| Text.DecimalValue | src/pages/DashboardUser.jsx:47 | a run of digits reads as its value; anything read is non-empty |
| ApiClient.BaseUrl | src/config/api.js:5 | the configured address when it is set, otherwise the local development address |
| ApiClient.WithBearer | src/config/api.js:16-23 | the header is "Bearer " plus the token exactly when a token is stored; no other header changes |
| ApiClient.RequestConfig.AttachToken | src/config/api.js:17-22 | the request's headers become `WithBearer` of the old headers |
| ApiClient.OnResponseError | src/config/api.js:31-49 | forced logout exactly on 401 and 403; the alert is the backend's message or "Error en la operación"; rejects with the same error |
| ApiClient.Intercept | src/config/api.js:29-50 | success passes through unchanged and raises nothing; failure is handled as above; the caller gets the reply as produced |
| ApiClient.ArticleRequestPrefixes | src/config/api.js:113-132 | every article call goes below "/api/articles" except the removal from a storage, which goes below "/api/storages/storage/" |
| ApiClient.AssignForwardsQuantity | src/config/api.js:120 | the assignment request carries the quantity as given: two quantities that give the same request are equal |
| ApiClient.StorageRequestPrefix | src/config/api.js:83-97 | every storage call goes below "/api/storages" |
| AuthContext.IsTokenExpired | src/auth/AuthContext.jsx:73-81 | expired when decoding fails or `exp` is missing or 0; otherwise exactly when now >= exp*1000 |
| AuthContext.ExpiryIsPermanent | src/auth/AuthContext.jsx:73-81 | once expired, a token stays expired as time advances |
| AuthContext.RestoreWithLiveToken | src/auth/AuthContext.jsx:24-57 | a live stored token is installed with the stored user, or with the decoded one; loading ends; storage is unchanged |
| AuthContext.RestoreEndsLoading | src/auth/AuthContext.jsx:56 | every restore ends loading and leaves durable storage alone |
| AuthContext.ExpiredTokenStaysAuthenticated | src/auth/AuthContext.jsx:21-29 | after restoring an expired token, the session is authenticated, has no user, and keeps the token in memory and in storage |
| AuthContext.LogoutIdempotent | src/auth/AuthContext.jsx:128-133 | logout clears token, user and both entries; twice is the same as once |
| AuthContext.LoginSuccess | src/auth/AuthContext.jsx:84-107 | a decodable token sets the token, the user (with `tp` = truthiness of the claim) and both entries, and reports success |
| AuthContext.LoginRejected | src/auth/AuthContext.jsx:108-113 | a rejected login reports the backend's message or "Error de autenticación"; a 401 or 403 logs the session out, any other rejection changes nothing |
| AuthContext.LoginDecodeFailure | src/auth/AuthContext.jsx:89-91 | an undecodable token replaces the in-memory token only, and the login reports failure |
| AuthContext.LoginSurvivesRestart | src/auth/AuthContext.jsx:24-57 | after a login and a restart before expiry, restoring gives back the same token and user |
| AuthContext.LogoutSurvivesRestart | src/auth/AuthContext.jsx:128-133 | after a logout and a restart, nobody is restored |
| AuthContext.AuthProvider.constructor | src/auth/AuthContext.jsx:20-22 | the token is read from storage at once, there is no user, loading is on |
| AuthContext.AuthProvider.InitAuth | src/auth/AuthContext.jsx:24-57 | the new state is `Restored` of the old one |
| AuthContext.AuthProvider.Login | src/auth/AuthContext.jsx:84-114 | the new state is `AfterLogin` (a forced logout on 401 or 403), the result is `LoginResult`, and a forced logout reloads the login page |
| AuthContext.AuthProvider.Logout | src/auth/AuthContext.jsx:128-133 | the new state is `LoggedOut` of the old one |
| AuthContext.AuthProvider.ChangePassword | src/auth/AuthContext.jsx:115-125 | the request carries the given user id, current and new password; success carries the backend's message; every failure reports "Error al cambiar la contraseña"; a 401 or 403 logs the session out and reloads the login page, anything else leaves the session alone |
| AuthContext.AuthProvider.ForgotPassword | src/auth/AuthContext.jsx:135-145 | success, or the backend's message or "Error al enviar email"; a 401 or 403 logs the session out and reloads the login page, anything else leaves the session alone |
| AuthContext.AuthProvider.HandleForceLogout | src/auth/AuthContext.jsx:62-66 | logs out, then targets the login page |
| AuthContext.DeliverFailure | src/config/api.js:31-34 | a 401 or 403 logs the session out and targets login; any other failure leaves it alone; the error is passed on; every session operation's failure goes through it |
| RouteGuards.ProtectedRoute | src/router/ProtectedRoute.jsx:6-18 | no session goes to login; a role outside a non-empty list goes to unauthorized; otherwise the page is shown, in the layout iff `noLayout` is false |
| RouteGuards.PublicRoute | src/router/PublicRoute.jsx:5-23 | shown iff there is no session or no user; otherwise `tp` goes to the password change, then ADMIN, USER and any other role to their targets |
| RouteGuards.ProtectedIgnoresTemporaryPassword | src/router/ProtectedRoute.jsx:7-18 | the protected guard decides the same whatever `tp` is |
| RouteGuards.GuardsAreComplementary | src/router/PublicRoute.jsx:9 | for a session with a user, the public page is shown exactly when a protected page would send to login |
| RouteGuards.RedirectTargets | src/router/PublicRoute.jsx:9-19 | every redirect of either guard is one of the five known targets |
| AppRouter.PagesHaveOneRoute | src/router/AppRouter.jsx:32-123 | each page except the storage detail is reached through exactly one location |
| AppRouter.LoadingShowsSpinner | src/router/AppRouter.jsx:25-27 | while loading, every location shows the spinner and no guard is consulted |
| AppRouter.RedirectTargets | src/router/AppRouter.jsx:124 | every redirect the router produces, the catch-all included, is one of the known targets |
| AppRouter.AnonymousSentToLogin | src/router/AppRouter.jsx:48-121 | without a session, every protected location redirects to login |
| AppRouter.UserKeptOffAdminPages | src/router/AppRouter.jsx:58-89 | a USER at the dashboard, users or categories is sent to unauthorized |
| AppRouter.AdminKeptOffUserPages | src/router/AppRouter.jsx:66-73 | an ADMIN at the user dashboard or the user articles is sent to unauthorized |
| AppRouter.SharedPagesForBothRoles | src/router/AppRouter.jsx:90-113 | storages and articles render, with layout, for both roles |
| AppRouter.TemporaryPasswordReachesChangePassword | src/router/AppRouter.jsx:32-55 | a temporary-password user at login is redirected to, and settles on, the password change page without layout |
| AppRouter.ChangePasswordWithoutUser | src/router/AppRouter.jsx:48-55 | the router selects the password change page for an authenticated session without a user (the page itself then fails while rendering) |
| AppRouter.TargetSettles | src/router/AppRouter.jsx:32-124 | every redirect target renders after at most one more redirect |
| AppRouter.EveryLocationSettles | src/router/AppRouter.jsx:32-124 | every location renders a page after at most two redirects; no redirect loop |
| LoginPage.LoginSchemaErrors | src/pages/auth/LoginPage.jsx:11-14 | username and password are each refused exactly when empty, with their messages |
| LoginPage.TemporaryPasswordCheckInverted | src/pages/auth/LoginPage.jsx:49-51 | the page sends to the password change exactly when `tp` is false; the public guard does so exactly when it is true |
| LoginPage.TemporaryPasswordLoginGoesToDashboard | src/pages/auth/LoginPage.jsx:45-58 | an ADMIN logging in with a temporary password is routed to the dashboard |
| LoginPage.RejectedLoginUsesStaleUser | src/pages/auth/LoginPage.jsx:45-47 | after a login rejected other than with 401 or 403, navigation follows the user stored before |
| LoginPage.UnauthorizedLoginLandsOnLogin | src/pages/auth/LoginPage.jsx:45-66 | a login rejected with 401 or 403 logs out, leaves nothing stored, so the page does not navigate, and the reloaded login page is shown |
| LoginPage.RejectedFirstLoginStays | src/pages/auth/LoginPage.jsx:53-66 | a rejected login with no stored user stays on the page |
| LoginPage.SuccessfulLoginNavigates | src/pages/auth/LoginPage.jsx:49-66 | a successful login with a role or with `tp` false always navigates |
| LoginPage.LoginForm.HandleSubmit | src/pages/auth/LoginPage.jsx:22-70 | declined: nothing happens; confirmed: login runs, the target is chosen from the stored user, and a forced logout's reload is reported; busy stays on only on the password-change branch |
| LoginPage.LoginForm.Submit | src/pages/auth/LoginPage.jsx:11-22 | the schema decides first; nothing runs while busy or when a field is refused; a declined valid submission changes nothing and clears the busy flag; a confirmed one logs in and navigates by the stored user; busy stays on only for the password-change branch |
| UseArticles.FetchOutcome | src/hooks/useArticles.js:15-26 | a reload ends loading and sends one listing request; success replaces the list and clears the error; failure keeps the list and records the message |
| UseArticles.DeclinedOperationIsInert | src/hooks/useArticles.js:46-62 | a declined operation sends nothing, changes nothing and reports no success |
| UseArticles.FailedOperationKeepsList | src/hooks/useArticles.js:63-65 | a failed call keeps the list, does not reload, and reports the error's message |
| UseArticles.SucceededOperationReloads | src/hooks/useArticles.js:46-60 | a successful call is followed by exactly one reload, and reports success |
| UseArticles.SuccessMeansSent | src/hooks/useArticles.js:46-60 | success exactly when confirmed and the call succeeded; success means the request was sent |
| UseArticles.AssignQuantityUnchecked | src/hooks/useArticles.js:28-47 | any quantity, negative or above stock, is sent as given |
| UseArticles.ArticlesHook.constructor | src/hooks/useArticles.js:10-13 | empty lists, loading on, no error |
| UseArticles.ArticlesHook.FetchArticles | src/hooks/useArticles.js:15-26 | the new state is `Fetched` of the old one |
| UseArticles.ArticlesHook.FetchCategories | src/hooks/useArticles.js:68-75 | success replaces the categories; failure changes nothing |
| UseArticles.ArticlesHook.Operate | src/hooks/useArticles.js:28-66 | the new state is `Operated`, the result is `OperationResult` |
| UseArticles.ArticlesHook.AssignArticleToStorage | src/hooks/useArticles.js:28-66 | the shared protocol, sending the assignment |
| UseArticles.ArticlesHook.CreateArticle | src/hooks/useArticles.js:77-115 | the shared protocol, sending the creation |
| UseArticles.ArticlesHook.UpdateArticle | src/hooks/useArticles.js:117-155 | the shared protocol, sending the update |
| UseArticles.ArticlesHook.DeleteArticle | src/hooks/useArticles.js:157-195 | the shared protocol, sending the deletion |
| UseArticles.ArticlesHook.UpdateQuantity | src/hooks/useArticles.js:197-235 | the shared protocol, sending the new quantity |
| ListViews.Filter | src/pages/storages/StoragesPage.jsx:39-43 | keeps exactly the elements that pass the test |
| ListViews.FilterAppend | src/pages/storages/StoragesPage.jsx:39-43 | filtering keeps relative order: it distributes over concatenation |
| ListViews.FilterIdempotent | src/pages/users/UsersPage.jsx:86-88 | filtering twice with the same test is filtering once; a list that passes is kept whole |
| ListViews.FindFirst | src/pages/DashboardUser.jsx:47 | nothing found exactly when no element passes; otherwise the first element that passes |
| ListViews.Display | src/pages/storages/StoragesPage.jsx:80 | a non-empty display is the filter result or the whole list |
| ListViews.DisplayDrawsFromAll | src/pages/storages/StoragesPage.jsx:80 | an empty filter result shows everything; a non-empty one shows only matches |
| ListViews.TotalPages | src/pages/storages/StoragesPage.jsx:87 | the least page count whose pages of 9 hold every item |
| ListViews.Slice | src/pages/storages/StoragesPage.jsx:82-85 | the elements between two positions, cut at the end of the list |
| ListViews.PageOf | src/pages/storages/StoragesPage.jsx:31-85 | page p holds at most 9 items, those at positions (p-1)*9 onwards |
| ListViews.IndexOnPage | src/pages/storages/StoragesPage.jsx:82-87 | every item is on exactly the page its position gives, and that page is in range |
| ListViews.PagesInRange | src/pages/storages/StoragesPage.jsx:82-87 | pages 1 to the page count are non-empty; pages after it are empty |
| ListViews.ShowPaginationIffMoreThanAPage | src/pages/storages/StoragesPage.jsx:190 | page controls appear exactly when there are more than 9 items |
| StoragesPage.MatchingStorages | src/pages/storages/StoragesPage.jsx:39-43 | keeps the storages whose identifier, category name or responsible's name contains the term, ignoring case |
| StoragesPage.SearchIgnoresCase | src/pages/storages/StoragesPage.jsx:40-42 | a term and its lower-case form find the same storages |
| StoragesPage.TotalPagesMonotone | src/pages/storages/StoragesPage.jsx:87 | more items never mean fewer pages |
| StoragesPage.CurrentPageNotEmpty | src/pages/storages/StoragesPage.jsx:82-93 | while the storage list is unchanged, every state the page's handlers reach shows a non-empty current page for a non-empty list |
| StoragesPage.StoragesView.Visible | src/pages/storages/StoragesPage.jsx:82-85 | in a consistent state: at most 9 storages, all of them in the list, and some whenever there is anything to show |
| StoragesPage.StoragesView.Reload | src/pages/storages/StoragesPage.jsx:58-74 | the list is replaced; the search result and the current page stay as they were |
| StoragesPage.ShrinkingListLeavesEmptyPage | src/pages/storages/StoragesPage.jsx:82-93 | deleting the only storage of page 2 leaves the page at 2, past the one page left: it shows nothing and the page controls are hidden |
| StoragesPage.DeletedMatchStaysListed | src/pages/storages/StoragesPage.jsx:33-46 | a deleted storage that the active search found stays listed after the reload |
| StoragesPage.StoragesView.constructor | src/pages/storages/StoragesPage.jsx:26-30 | no filter, page 1 |
| StoragesPage.StoragesView.HandleSearch | src/pages/storages/StoragesPage.jsx:33-46 | a blank term clears the filter and keeps the page; another term filters and returns to page 1 |
| StoragesPage.StoragesView.HandlePageChange | src/pages/storages/StoragesPage.jsx:89-93 | the page changes exactly when the new one is between 1 and the page count |
| ArticlesPage.MatchingArticles | src/pages/articles/ArticlesPage.jsx:23-28 | keeps the articles whose name, description or category name contains the term, ignoring case |
| ArticlesPage.SearchIgnoresCase | src/pages/articles/ArticlesPage.jsx:25-27 | a term and its lower-case form find the same articles |
| ArticlesPage.BadgeThresholds | src/pages/articles/ArticlesPage.jsx:141-147 | red exactly at 0, green exactly from 10, yellow otherwise, negatives included |
| ArticlesPage.QuantityValidator | src/pages/articles/ArticlesPage.jsx:80-84 | accepted exactly for a number of at least 0; missing, empty and negative values get the message |
| ArticlesPage.ArticlesView.constructor | src/pages/articles/ArticlesPage.jsx:13-15 | no filter, nobody edited, dialog closed |
| ArticlesPage.ArticlesView.HandleSearch | src/pages/articles/ArticlesPage.jsx:17-30 | a blank term clears the filter; another term filters the hook's list |
| ArticlesPage.ArticlesView.HandleCreateArticle | src/pages/articles/ArticlesPage.jsx:32-35 | opens the dialog with nothing being edited |
| ArticlesPage.ArticlesView.HandleEditArticle | src/pages/articles/ArticlesPage.jsx:37-40 | opens the dialog on the article |
| ArticlesPage.ArticlesView.HandleSubmitArticle | src/pages/articles/ArticlesPage.jsx:42-54 | updates when editing, else creates; closes and clears only on success |
| ArticlesPage.ArticlesView.HandleUpdateQuantity | src/pages/articles/ArticlesPage.jsx:60-90 | a cancelled dialog does nothing; a confirmed value of at least 0 is sent as the new quantity |
| UsersPage.MatchingUsersMembers | src/pages/users/UsersPage.jsx:27-35 | the search keeps the non-administrators whose name, last name, username or e-mail contains the term |
| UsersPage.NoAdminDisplayed | src/pages/users/UsersPage.jsx:86-88 | no administrator is ever listed, and every other displayed user is |
| UsersPage.SearchResultListedAsIs | src/pages/users/UsersPage.jsx:86-88 | a non-empty search result is listed exactly as found |
| UsersPage.AdminOnlyMatchShowsEveryone | src/pages/users/UsersPage.jsx:27-37 | a term that matches only administrators lists every non-administrator |
| UsersPage.UsersView.constructor | src/pages/users/UsersPage.jsx:16-19 | no filter, nobody edited, no storage, dialog closed |
| UsersPage.UsersView.HandleSearch | src/pages/users/UsersPage.jsx:21-38 | a blank term clears the filter; another term sets the search result |
| UsersPage.UsersView.HandleCreateUser | src/pages/users/UsersPage.jsx:41-45 | clears the edited user and storage, then opens the dialog |
| UsersPage.UsersView.HandleEditUser | src/pages/users/UsersPage.jsx:47-56 | edits the user; the storage is looked up only for a truthy id |
| UsersPage.UsersView.SubmitCall | src/pages/users/UsersPage.jsx:60-65 | an update of the edited user's id exactly when editing, else a creation, with the form's values |
| UsersPage.UsersView.HandleSubmitUser | src/pages/users/UsersPage.jsx:59-71 | sends that call; closes and clears only on success |
| CategoriesPage.MatchingCategories | src/pages/categories/CategoriesPage.jsx:22 | keeps the categories whose name contains the term, ignoring case |
| CategoriesPage.SearchIgnoresCase | src/pages/categories/CategoriesPage.jsx:22 | a term and its lower-case form find the same categories |
| CategoriesPage.CategoriesView.constructor | src/pages/categories/CategoriesPage.jsx:12-14 | no filter, nobody edited, dialog closed |
| CategoriesPage.CategoriesView.HandleSearch | src/pages/categories/CategoriesPage.jsx:16-24 | a blank term clears the filter; another term filters |
| CategoriesPage.CategoriesView.HandleCreateCategory | src/pages/categories/CategoriesPage.jsx:26-29 | opens the form with nothing being edited |
| CategoriesPage.CategoriesView.HandleEditCategory | src/pages/categories/CategoriesPage.jsx:31-34 | opens the form on the category |
| CategoriesPage.CategoriesView.SubmitCall | src/pages/categories/CategoriesPage.jsx:37-42 | an update of the edited category exactly when editing, else a creation, with the entered name |
| CategoriesPage.CategoriesView.HandleSubmitCategory | src/pages/categories/CategoriesPage.jsx:36-48 | sends that call; closes and clears only on success |
| DashboardUser.OccurrencesOfAbsent | src/pages/DashboardUser.jsx:122-132 | an article with no entry has no units |
| DashboardUser.FirstWith | src/pages/DashboardUser.jsx:123-127 | the first entry with the id is an entry with that id |
| DashboardUser.GroupCounts | src/pages/DashboardUser.jsx:122-132 | one group per distinct id, whose quantity is the number of units with that id |
| DashboardUser.GroupKeepsFirstFields | src/pages/DashboardUser.jsx:123-127 | a group carries the fields of the first unit of its article |
| DashboardUser.DistinctIds | src/pages/DashboardUser.jsx:134 | the ids present, each once, in ascending order |
| DashboardUser.UniqueArticles | src/pages/DashboardUser.jsx:134 | the groups in ascending id order |
| DashboardUser.UniqueArticlesOrdered | src/pages/DashboardUser.jsx:134 | the listed groups have strictly ascending ids |
| DashboardUser.UniqueArticlesCount | src/pages/DashboardUser.jsx:122-134 | each listed group counts the units of its own article |
| DashboardUser.UniqueArticlesCover | src/pages/DashboardUser.jsx:122-134 | every unit in the storage is counted in exactly one listed group |
| DashboardUser.TotalIsNumberOfUnits | src/pages/DashboardUser.jsx:134-135 | the total shown is the number of units in the storage |
| DashboardUser.AvailableArticles | src/pages/DashboardUser.jsx:26-32 | exactly the articles in stock whose category id equals the storage's; nothing without a storage |
| DashboardUser.NumberOfNatText | src/pages/DashboardUser.jsx:47 | the value of an article's option reads back as its id |
| DashboardUser.Chosen | src/pages/DashboardUser.jsx:44-49 | an offered article whose id is the chosen value, or nothing when none has it |
| DashboardUser.ChoosingAnOptionSelectsIt | src/pages/DashboardUser.jsx:44-49 | choosing an offered article's option selects an offered article with that id |
| DashboardUser.PlaceholderSelectsNothing | src/pages/DashboardUser.jsx:44-49 | the empty placeholder selects nothing unless an article has id 0 |
| DashboardUser.Clamp | src/pages/DashboardUser.jsx:257-261 | at most the stock and at most the value; the value itself or the stock |
| DashboardUser.NegativeQuantityReachesService | src/pages/DashboardUser.jsx:34-35 | a negative entry passes the field and the add guard unchanged |
| DashboardUser.QuantityWithinStock | src/pages/DashboardUser.jsx:252-262 | input is ignored without a selection; otherwise it is kept at most at the stock, and kept exactly when within it |
| DashboardUser.MoveValidator | src/pages/DashboardUser.jsx:94-98 | accepted exactly for a number of at least 1 |
| DashboardUser.UserIdText | src/pages/DashboardUser.jsx:22 | empty exactly when the stored user has no truthy id |
| DashboardUser.MoveUsesUserIdNotStorageId | src/pages/DashboardUser.jsx:22-103 | when the user's and the storage's ids differ, the return request is not the one for the storage |
| DashboardUser.ScreenOf | src/pages/DashboardUser.jsx:137-180 | the dashboard exactly when a storage is known; the notice exactly when loading is over without one |
| DashboardUser.FetchKeepsArticleList | src/pages/DashboardUser.jsx:57-72 | a lookup sends one request, ends loading, sets the storage on success, keeps it on failure, and never sets the product list |
| DashboardUser.LookupWithoutStorageShowsNotice | src/pages/DashboardUser.jsx:137-146 | a lookup that finds no storage ends on the notice |
| DashboardUser.DashboardUserView.constructor | src/pages/DashboardUser.jsx:13-20 | no storage, loading, dialog closed, quantity 1, nothing selected |
| DashboardUser.DashboardUserView.FetchStorageDetails | src/pages/DashboardUser.jsx:57-72 | the new state is `StorageFetched` for the user's id |
| DashboardUser.DashboardUserView.OpenAddModal | src/pages/DashboardUser.jsx:290-294 | opens the dialog with nothing selected |
| DashboardUser.DashboardUserView.HandleArticleChange | src/pages/DashboardUser.jsx:44-49 | records the chosen value and selects the article `Chosen` gives |
| DashboardUser.DashboardUserView.HandleQuantityInput | src/pages/DashboardUser.jsx:252-262 | the new state is `QuantityEntered` |
| DashboardUser.DashboardUserView.HandleAddArticle | src/pages/DashboardUser.jsx:33-42 | nothing without a selection or with quantity 0; otherwise the assignment goes through the hook; on success the dialog, id and quantity are reset and the storage fetched again |
| DashboardUser.DashboardUserView.CloseAddModal | src/pages/DashboardUser.jsx:222 | closes the dialog and fetches the storage again |
| DashboardUser.DashboardUserView.CancelAddModal | src/pages/DashboardUser.jsx:267-269 | closes the dialog and changes nothing else |
| DashboardUser.DashboardUserView.HandleMoveArticle | src/pages/DashboardUser.jsx:75-120 | cancelled: nothing; confirmed: the removal is sent with the user's id, and a success fetches the storage again |
| ArticleForm.TrimString | src/components/forms/ArticleForm.jsx:7 | strings are trimmed, other values kept |
| ArticleForm.TrimStringIdempotent | src/components/forms/ArticleForm.jsx:7 | cleaning twice is cleaning once |
| ArticleForm.NumberCast | src/components/forms/ArticleForm.jsx:24-27 | a numeric field is missing exactly when empty or absent; a number is itself |
| ArticleForm.TextRule | src/components/forms/ArticleForm.jsx:10-23 | accepted exactly when present and equal to its trim; the required message first, then the spaces message |
| ArticleForm.NumberRule | src/components/forms/ArticleForm.jsx:24-27 | accepted exactly when a number within the bound; required, type and bound errors as the case may be |
| ArticleForm.ArticleSchemaErrors | src/components/forms/ArticleForm.jsx:9-28 | name and description present and trimmed, quantity a number of at least 0, category a number; each failure under its field |
| ArticleForm.Submitted | src/components/forms/ArticleForm.jsx:41-50 | a submission happens exactly when the schema accepts |
| ArticleForm.CleaningTouchesOnlyText | src/components/forms/ArticleForm.jsx:41-46 | clean-up trims name and description only, and cleaning twice is cleaning once |
| ArticleForm.SubmittedAsValidated | src/components/forms/ArticleForm.jsx:12-16 | values the schema accepts are submitted unchanged, because their text is already trimmed |
| ArticleForm.PaddedNameRefused | src/components/forms/ArticleForm.jsx:10-16 | a name starting with a space gets the spaces message |
| ArticleForm.InitialValues | src/components/forms/ArticleForm.jsx:33-39 | the edited article's fields, where falsy ones fall back to null, "", 0 and ""; the defaults for a new article |
| ArticleForm.NewFormNeedsInput | src/components/forms/ArticleForm.jsx:24-39 | a new form is refused for name, description and category, never for its starting quantity |
| ArticleForm.WellFormedArticleStartsValid | src/components/forms/ArticleForm.jsx:31-39 | editing a well-formed article starts from accepted values |
| ChangePasswordPage.ChangePasswordSchemaErrors | src/pages/auth/ChangePasswordPage.jsx:10-16 | current password required; new one at least 6 characters; confirmation required and equal to it; with their messages |
| ChangePasswordPage.SchemaAcceptsExactly | src/pages/auth/ChangePasswordPage.jsx:10-16 | the schema accepts exactly a current password and a new one of 6 or more characters typed twice alike |
| ChangePasswordPage.AcceptedChangeShowsLogin | src/pages/auth/ChangePasswordPage.jsx:37-45 | after an accepted change nobody is logged in and the login page is shown |
| ChangePasswordPage.FailedChangeKeepsTemporarySession | src/pages/auth/ChangePasswordPage.jsx:46-52 | a change failing other than with 401 or 403 leaves a temporary-password session as it was, still sent back to the password change |
| ChangePasswordPage.UnauthorizedChangeEndsSession | src/pages/auth/ChangePasswordPage.jsx:30-52 | a change refused with 401 or 403 logs out, clears storage, and the reloaded login page is shown |
| ChangePasswordPage.HandleSubmit | src/pages/auth/ChangePasswordPage.jsx:28-62 | only values the schema accepts are sent, as a change for the session user's id with the entered current and new passwords; success logs out and targets login; failure alerts the generic message; a 401 or 403 failure has logged out and targets login, any other leaves the session alone |
| UserForm.UserSchemaErrors | src/components/forms/UserForm.jsx:6-14 | name, last name and a well-formed e-mail always required; username only when editing |
| UserForm.EditingIsStricter | src/components/forms/UserForm.jsx:11-13 | the editing schema refuses all that the creating one does, with the same messages, plus possibly the username |
| UserForm.InitialValues | src/components/forms/UserForm.jsx:21-27 | the edited user's fields, where falsy ones fall back to null and "" |
| UserForm.NewFormNeedsInput | src/components/forms/UserForm.jsx:19-27 | a new form is refused for exactly name, last name and e-mail |
| UserForm.CompleteUserStartsValid | src/components/forms/UserForm.jsx:19-33 | editing a complete user starts from the user's own, accepted values |
| UserForm.StorageInfo | src/components/forms/UserForm.jsx:78-86 | shown exactly for a storage with an identifier, with its category name or "Sin categoría" |

## Left out

- The user, storage and category hooks and their pages' create, update, delete and status actions. They repeat the article hook's protocol. The category service's requests are not logged.
- Rendering, styling, skeletons and the success alerts.
- The header, the dashboard for administrators, the forgotten-password page, the search bar, the storage and category forms, and the storage detail page.
- The `forceLogout` event channel. A forced logout is a call of the listener, and the full-page reload it starts is reported as a target location.
- The forced logout that a 401 or 403 on a listing or stock operation starts. The hooks and pages do not hold the session; `AuthContext.DeliverFailure` states its effect for any call.
- Request bodies. A request is its verb, path and query parameters.
- Concurrency. Two handlers never interleave, and a reply arrives before the next event.
- Number input beyond whole numbers: fractions, exponents, hexadecimal, `NaN` and infinities. The article form's numeric text is read after trimming, while the schema library strips all white space.
- Case folding beyond ASCII. White space for `trim` is the full ECMAScript set.
- Router details: case-insensitive matching and trailing-slash variants of a path.
- String length counts characters, not UTF-16 code units, so the 6-character password minimum differs for characters outside the Basic Multilingual Plane.
- The e-mail format check is an abstract predicate parameter.
- StoragesPage.CurrentPageNotEmpty: holds only while the storage list is unchanged. A reload after one of the page's storage actions can leave the page past the last page (`StoragesPage.ShrinkingListLeavesEmptyPage`).
- StoragesPage.StoragesView.Visible: requires the consistent state, which a reload can break. A deleted storage can stay in the search result (`StoragesPage.DeletedMatchStaysListed`).
- The JSON round trip of the stored user is the identity.
- The change-password page cannot render without a session user. `ChangePasswordPage.HandleSubmit` requires one.
- `DashboardUser.DashboardUserView.HandleAddArticle` requires a known storage. The add dialog exists only on the dashboard.
