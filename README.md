# Order console core, modelled in Dafny

This project models the core of a React/Redux console used by managers of a
course school to work through course applications ("orders"). It covers:

- **The session-token pipeline.**
  - The token store (`auth.service.ts`).
  - The HTTP client's interceptors: they attach `Bearer` credentials and, on a
    401, open the session-expired dialog once and resend the request with the
    new token (`axios.service.ts`).
  - The dialog itself (`SessionModal.tsx`).
  - The route guard that checks the access token's `exp` claim (`ProtectedRoute.tsx`).
- **The Redux reducers** of the `user`, `orders`, `users`, `groups`,
  `comments`, `orderStats` and `theme` slices, and the theme context.
- **Pagination**: the button list built by `generatePagination`, in the shared
  bar and in the admin panel's own copy.
- **The URL handlers** of the two order tables, the filter bar and the admin
  panel. Each one reads or rewrites the address's search parameters.
- **The validators**: the create-manager dialog's email and username checks,
  and the activation and password-reset forms.
- **The Excel export**: a do-while loop that fetches every page of orders.
- **`LoadingOrError`**, which shows a spinner, an error text or its content.

Each source file is one module. Code that updates state in place is a class
with `modifies` clauses:

- the slices
- the interceptors
- the dialog
- the forms
- the theme provider
- the order row

The address handlers build a fresh `URLSearchParams` copy, modelled by
`Browser.SearchParams`, and return its entries. Loops are methods with
invariants, proved against recursive specification functions:

- the pagination runs
- the filter `forEach`
- the export paging loop

Pure computations are functions, and their properties are lemmas.

Shared modules:

- `Common`: `Option`, JavaScript truthiness and `||` fallbacks, `trim`, and
  decimal printing and parsing.
- `Browser`: `localStorage` and `URLSearchParams` over string maps.
- `Entities`: the API records.
- `Lists`: find the first match by key, replace it, or remove matches.

Time, the network, `atob`'s byte output and `JSON.parse` are parameters.

The order page mounts `OrderClone.tsx`. `OrderTable.tsx`, with its own filter
state and debounced address update, is not mounted anywhere. Both are
modelled.

How the session pipeline behaves:

- The client never renews a token before it expires. The request interceptor
  attaches the stored access token without looking at its expiry
  (`axios.service.ts:12-18`).
- Only the dialog calls refresh, once per prompt. A 401 that arrives while a
  prompt is open is rejected at once
  (`AxiosService.SecondUnauthorizedWhilePrompting`).
- The only guards against repeated recovery are the per-request `_retry` mark
  and the `isRefreshing` flag.
- A failed recovery deletes the tokens and sends the page to /login from
  inside the client (`axios.service.ts:48-54`).
- A request without headers is never resent, even when the prompt returns a
  token (`axios.service.ts:45`).
- The route guard lets a user in only with an unexpired access token. A
  stored refresh token alone does not admit anyone
  (`ProtectedRoute.GateIgnoresRefreshToken`).

## Model

| member | source | states |
|---|---|---|
| AuthService.SetTokens | src/services/auth.service.ts:29-32 | the store afterwards is the old store with the access and refresh entries set to the given tokens |
| AuthService.DeleteToken | src/services/auth.service.ts:35-38 | the store afterwards is the old store without the two token entries |
| AuthService.GetAccessToken | src/services/auth.service.ts:40 | returns the storage item under "access", and null exactly when there is none |
| AuthService.GetRefreshToken | src/services/auth.service.ts:41 | returns the storage item under "refresh", and null exactly when there is none |
| AuthService.GettersAfterSet | src/services/auth.service.ts:29-41 | after `setTokens(a, r)` the getters return `a` and `r` |
| AuthService.GettersAfterDelete | src/services/auth.service.ts:35-41 | after `deleteToken` both getters return null |
| AuthService.OtherKeysUntouched | src/services/auth.service.ts:29-38 | neither call changes any other stored entry |
| AuthService.DeleteIdempotent | src/services/auth.service.ts:35-38 | deleting twice is deleting once |
| AuthService.SetOverwrites | src/services/auth.service.ts:29-32 | a second `setTokens` fully replaces the first |
| AuthService.CallsKeepBothOrNeither | src/services/auth.service.ts:29-38 | any sequence of set and delete calls keeps the two tokens both present or both absent, if they started that way |
| AuthService.LastCallDecides | src/services/auth.service.ts:29-41 | after a sequence of calls, the getters report what the last call left: the last pair set, or nothing after a delete |
| AxiosService.BearerToken | src/services/axios.service.ts:15 | a header value read back as a token is exactly the `Bearer ` prefix followed by that token |
| AxiosService.BearerRoundTrip | src/services/axios.service.ts:15 | reading back the credential written for a token gives the token |
| AxiosService.AttachToken | src/services/axios.service.ts:12-18 | a truthy token is written as the bearer credential, and the other headers are kept; a config without headers, or a missing or empty token, is left as it is |
| AxiosService.AttachedTokenReadsBack | src/services/axios.service.ts:14-15 | the attached header reads back as the token |
| AxiosService.HandleError | src/services/axios.service.ts:29-61 | recovery starts only on a 401 with a stored refresh token, no prompt open, a registered handler and a request not yet retried; otherwise the error is rejected and nothing changes; a recovered request is resent exactly when the prompt returned a truthy token and the request has headers, and is then resent with that token; otherwise the tokens are deleted and the page goes to /login; the flag is lowered either way |
| AxiosService.Recovers | src/services/axios.service.ts:33-39 | recovery is attempted only for a 401 on a request not yet marked `_retry`, while no prompt is open, a handler is registered and a non-empty refresh token is stored |
| AxiosService.RejectedWhileRefreshing | src/services/axios.service.ts:33-39 | while a prompt is open, every error is rejected without side effects |
| AxiosService.ResentRequestNotRetried | src/services/axios.service.ts:38-47 | a request that was resent is marked retried, so a second 401 on it is rejected |
| AxiosService.ResentAtMostOnce | src/services/axios.service.ts:38-41 | over any sequence of failures of one request, it is resent at most once, and never if it was already marked |
| AxiosService.FlagNeverStuck | src/services/axios.service.ts:55-57 | after any sequence of handled failures the refreshing flag is down |
| AxiosService.Interceptors.constructor | src/services/axios.service.ts:10-21 | the client starts with no prompt open, no handler registered and no redirect |
| AxiosService.Interceptors.SetSessionModalHandler | src/services/axios.service.ts:23-25 | registering the handler changes nothing else |
| AxiosService.Interceptors.OnRequest | src/services/axios.service.ts:12-18 | the outgoing config gets the stored access token attached, as `AttachToken` describes |
| AxiosService.Interceptors.OnFulfilled | src/services/axios.service.ts:28 | a successful response passes through unchanged |
| AxiosService.Interceptors.BeginRecovery | src/services/axios.service.ts:30-41 | the handler prompts exactly when recovery applies, and then raises the flag and marks the request retried; otherwise nothing changes |
| AxiosService.Interceptors.FinishRecovery | src/services/axios.service.ts:43-60 | after the prompt settles, the request is resent with the new token, or the tokens are deleted and the page redirected; the flag goes down in both cases |
| AxiosService.Interceptors.OnRejected | src/services/axios.service.ts:29-61 | the two halves together leave the state, the config and the settlement that `HandleError` gives |
| AxiosService.SecondUnauthorizedWhilePrompting | src/services/axios.service.ts:33-41 | of two 401s arriving together, only the first opens the prompt; the second is rejected and its config is not marked |
| SessionModal.PromptPromise.Resolve | src/components/SessionModal/SessionModal.tsx:12-16 | the first resolution settles the promise; later ones have no effect |
| SessionModal.RefreshArgument | src/components/SessionModal/SessionModal.tsx:22-26 | the refresh call is made exactly when a truthy refresh token is stored, and it carries that token |
| SessionModal.ExtendAnswer | src/components/SessionModal/SessionModal.tsx:20-36 | Extend answers the new access token exactly when a refresh token was stored and the refresh succeeded; otherwise it answers null |
| SessionModal.ExtendStore | src/components/SessionModal/SessionModal.tsx:28-29 | a successful refresh stores the new pair; every other path leaves the store alone |
| SessionModal.ExtendAnswerIsStored | src/components/SessionModal/SessionModal.tsx:28-30 | the token handed to the waiting request is the one now stored |
| SessionModal.ExtendNeverDeletes | src/components/SessionModal/SessionModal.tsx:20-36 | Extend never removes a stored token, even when the refresh fails |
| SessionModal.SessionModal.constructor | src/components/SessionModal/SessionModal.tsx:6-7 | the dialog starts closed with no resolver |
| SessionModal.SessionModal.Prompt | src/components/SessionModal/SessionModal.tsx:11-16 | the registered handler opens the dialog and returns a fresh pending promise, which becomes the resolver |
| SessionModal.SessionModal.HandleExtend | src/components/SessionModal/SessionModal.tsx:20-36 | it calls the refresh with the stored refresh token, stores the outcome, resolves the promise with the answer, and closes the dialog unless no token was stored |
| SessionModal.SessionModal.HandleLogout | src/components/SessionModal/SessionModal.tsx:38-47 | the tokens are deleted, the promise is resolved with null, and the dialog closes; closing the dialog any other way (line 47) does the same |
| SessionModal.ExpiredSessionExtend | src/services/axios.service.ts:12-57 | a 401 whose prompt is answered by Extend is resent exactly when the refresh returned a non-empty access token; the resent request, after passing through the request interceptor again (lines 12-18), carries that token as its bearer credential; otherwise the tokens are gone and the page is at /login; afterwards the flag is down and the dialog is closed |
| ProtectedRoute.Split | src/components/ProtectedRoute/ProtectedRoute.tsx:9 | `split` returns at least one part, no part contains the separator, and a text without the separator is its own only part |
| ProtectedRoute.SplitJoin | src/components/ProtectedRoute/ProtectedRoute.tsx:9 | joining the parts with the separator gives the text back |
| ProtectedRoute.PayloadOfThreeParts | src/components/ProtectedRoute/ProtectedRoute.tsx:9 | for a three-part token, the payload read is its middle part |
| ProtectedRoute.RemoveAsciiWhitespace | src/components/ProtectedRoute/ProtectedRoute.tsx:10 | `atob`'s first step keeps exactly the characters that are not ASCII white space |
| ProtectedRoute.StripPadding | src/components/ProtectedRoute/ProtectedRoute.tsx:10 | only trailing '=' characters are removed |
| ProtectedRoute.IsTokenValid | src/components/ProtectedRoute/ProtectedRoute.tsx:6-15 | a valid token is non-empty and contains a '.', its payload text is accepted by atob, and the decoded payload has an `exp` whose milliseconds lie after now; ValidIffNotExpired gives the converse |
| ProtectedRoute.NullOrEmptyInvalid | src/components/ProtectedRoute/ProtectedRoute.tsx:7 | a null or empty token is invalid |
| ProtectedRoute.NoDotInvalid | src/components/ProtectedRoute/ProtectedRoute.tsx:9-14 | a token without a '.' is invalid, because `atob(undefined)` throws |
| ProtectedRoute.UndefinedRefused | src/components/ProtectedRoute/ProtectedRoute.tsx:10-13 | `atob` refuses the text "undefined" |
| ProtectedRoute.UrlSafeCharsInvalid | src/components/ProtectedRoute/ProtectedRoute.tsx:10-13 | a payload that uses the URL-safe '-' or '_' is refused, so the token is invalid |
| ProtectedRoute.ValidIffNotExpired | src/components/ProtectedRoute/ProtectedRoute.tsx:9-11 | a well-formed token is valid exactly when `exp * 1000` is after the current time |
| ProtectedRoute.ValidityMonotone | src/components/ProtectedRoute/ProtectedRoute.tsx:11 | a token valid now was valid at every earlier time |
| ProtectedRoute.Gate | src/components/ProtectedRoute/ProtectedRoute.tsx:17-26 | the children render exactly when the stored access token is valid; otherwise the guard redirects to /login |
| ProtectedRoute.GateIgnoresRefreshToken | src/components/ProtectedRoute/ProtectedRoute.tsx:18-23 | the refresh token plays no part in the decision |
| ProtectedRoute.GateAfterLogout | src/components/ProtectedRoute/ProtectedRoute.tsx:18-23 | after `deleteToken` the guard always redirects |
| AuthSlice.StoredOrNull | src/redux/slice/auth.slice.ts:56-57 | a stored token is taken when it is truthy; otherwise the field is null |
| AuthSlice.LoggedOutStore | src/redux/slice/auth.slice.ts:73-75 | logging out removes the user, access and refresh entries and keeps every other entry |
| AuthSlice.LogoutClearsCredentials | src/redux/slice/auth.slice.ts:69-76 | after logout both token getters return null, and the store equals `deleteToken`'s store minus the user entry |
| AuthSlice.LogoutStoreIdempotent | src/redux/slice/auth.slice.ts:73-75 | logging out twice leaves the same store as once |
| AuthSlice.AuthState.constructor | src/redux/slice/auth.slice.ts:54-60 | the initial state is the stored user (parsed), the stored tokens or null, the name "Guest" and no avatar |
| AuthSlice.AuthState.SetUserData | src/redux/slice/auth.slice.ts:62-64 | only the user record changes |
| AuthSlice.AuthState.SetTokens | src/redux/slice/auth.slice.ts:65-68 | only the two token fields change |
| AuthSlice.AuthState.Logout | src/redux/slice/auth.slice.ts:69-76 | user and tokens become null, and the store loses the three entries |
| AuthSlice.AuthState.GetUserFulfilled | src/redux/slice/auth.slice.ts:80-82 | only the user record changes |
| AuthSlice.LogoutTwice | src/redux/slice/auth.slice.ts:69-76 | a second logout changes neither the state nor the store |
| OrderSlice.DropComment | src/redux/slice/order.slice.ts:130-135 | only the first order with the id loses that comment; every other order, and the length, are unchanged |
| OrderSlice.DropCommentEffect | src/redux/slice/order.slice.ts:134 | no comment with the id is left, and the remaining comments keep their order |
| OrderSlice.DropAbsentComment | src/redux/slice/order.slice.ts:130-135 | deleting a comment that is not there changes nothing |
| OrderSlice.OrdersState.constructor | src/redux/slice/order.slice.ts:15-22 | no orders, zero totals, page 1, not loading, no error |
| OrderSlice.OrdersState.SetPage | src/redux/slice/order.slice.ts:82-84 | only the page changes |
| OrderSlice.OrdersState.ReplaceOrder | src/redux/slice/order.slice.ts:85-90 | the first order with the payload's id is replaced; nothing else changes |
| OrderSlice.OrdersState.OverwriteById | src/redux/slice/order.slice.ts:85-129 | the findIndex-then-assign step shared by replaceOrder, updateOrder.fulfilled and addCommentToOrder.fulfilled: only the orders change, to ReplaceFirst by id |
| OrderSlice.OrdersState.RequestPending | src/redux/slice/order.slice.ts:94-97 | loading goes up and the error is cleared |
| OrderSlice.OrdersState.FetchFulfilled | src/redux/slice/order.slice.ts:98-103 | the page of orders and both totals are taken from the payload, and loading goes down; the error is kept |
| OrderSlice.OrdersState.RequestRejected | src/redux/slice/order.slice.ts:104-107 | loading goes down and the payload becomes the error |
| OrderSlice.OrdersState.UpdateFulfilled | src/redux/slice/order.slice.ts:112-118 | loading goes down and the matching order is replaced |
| OrderSlice.OrdersState.AddCommentFulfilled | src/redux/slice/order.slice.ts:123-129 | the matching order is replaced; the loading flag is left alone |
| OrderSlice.OrdersState.DeleteCommentFulfilled | src/redux/slice/order.slice.ts:130-136 | the comment is dropped as `DropComment` states |
| Lists.ReplaceFirst | src/redux/slice/order.slice.ts:86-89 | exactly the first element with the key is replaced; with no match the list is unchanged |
| Lists.ReplaceFirstTwice | src/redux/slice/users.slice.ts:117-134 | two replacements with the same key equal the second alone |
| Lists.RemoveWhereAppend | src/redux/slice/order.slice.ts:134 | filtering a joined list is joining the filtered parts |
| UsersSlice.Unshift | src/redux/slice/users.slice.ts:109 | the new user comes first, followed by the old list in order |
| UsersSlice.LaterUpdateWins | src/redux/slice/users.slice.ts:117-134 | a block and then an unblock of the same user leave the unblocked record |
| UsersSlice.UsersState.constructor | src/redux/slice/users.slice.ts:16-23 | the initial state |
| UsersSlice.UsersState.SetPage | src/redux/slice/users.slice.ts:82-84 | only the page changes |
| UsersSlice.UsersState.GetAllPending | src/redux/slice/users.slice.ts:88-91 | loading goes up and the errors are cleared |
| UsersSlice.UsersState.GetAllFulfilled | src/redux/slice/users.slice.ts:92-99 | users, the page requested, and both totals are taken; loading goes down |
| UsersSlice.UsersState.GetAllRejected | src/redux/slice/users.slice.ts:100-103 | loading goes down and the payload becomes the errors |
| UsersSlice.UsersState.CreateManagerFulfilled | src/redux/slice/users.slice.ts:106-111 | the new user is put first and the item total goes up by one |
| UsersSlice.UsersState.ActionRejected | src/redux/slice/users.slice.ts:112-137 | only the errors change, for a failed create, block or unblock |
| UsersSlice.UsersState.UserUpdated | src/redux/slice/users.slice.ts:117-134 | the first user with the same id is replaced |
| GroupSlice.GroupsState.constructor | src/redux/slice/group.slice.ts:14-20 | the initial state |
| GroupSlice.GroupsState.SetPage | src/redux/slice/group.slice.ts:53-55 | only the page changes |
| GroupSlice.GroupsState.GetAllFulfilled | src/redux/slice/group.slice.ts:60-64 | groups and total are taken, and loading goes down |
| GroupSlice.GroupsState.GetAllPending | src/redux/slice/group.slice.ts:65-68 | loading goes up and the errors are cleared |
| GroupSlice.GroupsState.Rejected | src/redux/slice/group.slice.ts:69-84 | loading goes down and the payload becomes the errors, for the fetch and the create rejection alike |
| GroupSlice.GroupsState.CreateFulfilled | src/redux/slice/group.slice.ts:75-77 | the new group is appended; loading is not touched |
| GroupSlice.GroupsState.CreatePending | src/redux/slice/group.slice.ts:78-80 | loading goes up |
| GroupSlice.CreateGroupLeavesLoading | src/redux/slice/group.slice.ts:75-80 | a successful create leaves loading up, because the fulfilled case never lowers it |
| CommentSlice.CommentState.constructor | src/redux/slice/comment.slice.ts:19-27 | the initial state |
| CommentSlice.CommentState.SetPage | src/redux/slice/comment.slice.ts:58-60 | only the page changes |
| CommentSlice.CommentState.AddCommentFulfilled | src/redux/slice/comment.slice.ts:65-69 | every order with the payload's id is replaced |
| CommentSlice.ReplaceAllMatchesReplaceFirst | src/redux/slice/comment.slice.ts:65-69 | when ids are unique, this slice's map replacement and the orders slice's find-first replacement agree |
| CommentSlice.CommentState.DeleteCommentFulfilled | src/redux/slice/comment.slice.ts:70-79 | the comment is dropped from the first matching order, and loading goes down |
| CommentSlice.CommentState.DeleteCommentPending | src/redux/slice/comment.slice.ts:80-82 | loading goes up |
| CommentSlice.CommentState.DeleteCommentRejected | src/redux/slice/comment.slice.ts:83-86 | loading goes down and the payload becomes the errors |
| StatSlice.CountOr0 | src/redux/slice/stat.slice.ts:24-30 | a present, non-null count is taken; otherwise it is 0 |
| StatSlice.MapStats | src/redux/slice/stat.slice.ts:23-31 | each of the seven counts is read from its own response key: a non-zero count is the response's value under that key, and a missing key gives 0; a response without any of the keys gives all zeros |
| StatSlice.MappingRenamesKeys | src/redux/slice/stat.slice.ts:23-31 | each server key lands in its own field ("In work" in `in_work`, "null" in the no-status field, and so on); an empty answer gives all zeros |
| StatSlice.OtherKeysIgnored | src/redux/slice/stat.slice.ts:23-31 | keys outside the seven read ones do not affect the stats |
| StatSlice.StatsError | src/redux/slice/stat.slice.ts:34 | the server's truthy `detail`, or "Failed to fetch stats" |
| StatSlice.StatsState.constructor | src/redux/slice/stat.slice.ts:11-15 | no stats, not loading, no error |
| StatSlice.StatsState.Pending | src/redux/slice/stat.slice.ts:45-48 | loading goes up and the error is cleared |
| StatSlice.StatsState.Fulfilled | src/redux/slice/stat.slice.ts:49-52 | the mapped stats are stored and loading goes down |
| StatSlice.StatsState.Rejected | src/redux/slice/stat.slice.ts:53-56 | loading goes down and the error text is stored |
| ThemeSlice.ThemeState.constructor | src/redux/slice/theme.slice.ts:7-9 | light mode at start |
| ThemeSlice.ThemeState.ToggleTheme | src/redux/slice/theme.slice.ts:15-17 | the mode flips |
| ThemeSlice.ThemeState.SetTheme | src/redux/slice/theme.slice.ts:18-20 | the mode becomes the payload |
| ThemeSlice.ToggleTwice | src/redux/slice/theme.slice.ts:15-17 | two toggles restore the mode |
| ThemeSlice.SetThemeTwice | src/redux/slice/theme.slice.ts:18-20 | setting is idempotent |
| ThemeSlice.SetThenToggle | src/redux/slice/theme.slice.ts:15-20 | set then toggle gives the opposite of the value set |
| ThemeContext.InitialDarkMode | src/components/ThemeContext/ThemeContext.tsx:21-23 | dark exactly when the stored entry is "dark" |
| ThemeContext.ThemeValue | src/components/ThemeContext/ThemeContext.tsx:26 | the stored text is "dark" or "light", and "dark" exactly in dark mode |
| ThemeContext.PersistReloadRoundTrip | src/components/ThemeContext/ThemeContext.tsx:21-27 | storing a mode and loading it again gives that mode |
| ThemeContext.ThemeProvider.constructor | src/components/ThemeContext/ThemeContext.tsx:21-27 | the mode is loaded from storage, and the effect writes it back |
| ThemeContext.ThemeProvider.ToggleTheme | src/components/ThemeContext/ThemeContext.tsx:61-63 | the mode flips, and the effect stores the new mode |
| ThemeContext.ToggleTwice | src/components/ThemeContext/ThemeContext.tsx:61-63 | two toggles restore the mode, and the stored entry still agrees with it |
| ThemeContext.UseThemeContext | src/components/ThemeContext/ThemeContext.tsx:12-18 | inside a provider the hook gives the provided value; outside, it throws the fixed message |
| Pagination.Run | src/components/Pagination/Pagination.tsx:20-22 | the run from `lo` to `hi` is the consecutive page numbers, empty when `lo > hi` |
| Pagination.PushRun | src/components/Pagination/Pagination.tsx:20-22 | the loop appends exactly that run |
| Pagination.GeneratePagination | src/components/Pagination/Pagination.tsx:12-28 | the loops build exactly `PageWindow`, about which the lemmas below are proved |
| Pagination.SmallTotalListsEveryPage | src/components/Pagination/Pagination.tsx:15-16 | with 7 pages or fewer, every page 1..total is listed, in order, with no ellipsis |
| Pagination.LargeTotalEnds | src/components/Pagination/Pagination.tsx:17-25 | with more than 7 pages, the list starts with page 1 and ends with the last page |
| Pagination.NumbersIncreasingInRange | src/components/Pagination/Pagination.tsx:12-28 | the listed numbers strictly increase and lie between 1 and the total |
| Pagination.NoPageSkippedSilently | src/components/Pagination/Pagination.tsx:17-25 | two neighbouring numbers are either consecutive or separated by an ellipsis |
| Pagination.EllipsisMarksOmittedPages | src/components/Pagination/Pagination.tsx:19-23 | every ellipsis stands between two numbers and hides at least one page |
| Pagination.EllipsisPlacement | src/components/Pagination/Pagination.tsx:19-23 | with more than seven pages, there is one ellipsis for a current page above 4 and one for a current page below total - 3; for a current page in range they sit right after the first and right before the last button |
| Pagination.CurrentPageListed | src/components/Pagination/Pagination.tsx:12-28 | a current page within 1..total is always among the buttons |
| Pagination.AtMostNineButtons | src/components/Pagination/Pagination.tsx:12-28 | the list never has more than nine entries |
| Pagination.ClickTarget | src/components/Pagination/Pagination.tsx:64-65 | a number button navigates to its number, and an ellipsis does nothing |
| Pagination.ClickTargetsExist | src/components/Pagination/Pagination.tsx:63-65 | every number button leads to a page between 1 and the total |
| Pagination.PrevDisabled | src/components/Pagination/Pagination.tsx:48 | the previous-page button is disabled exactly when it would ask for page 0 |
| Pagination.NextDisabled | src/components/Pagination/Pagination.tsx:103 | the next-page button is disabled exactly when it would ask for the page after the last |
| Pagination.ArrowTargetsExist | src/components/Pagination/Pagination.tsx:46-103 | on a page within 1..total, an enabled arrow asks for the neighbouring page (currentPage - 1 at line 47, currentPage + 1 at line 102), which lies within 1..total |
| Pagination.NextEnabledPastTheEnd | src/components/Pagination/Pagination.tsx:102-103 | when the current page lies beyond the total (page 1 of 0 pages, say), Next is still enabled and leads past the last page |
| AdminPanel.GeneratePagination | src/pages/AdminPanel/AdminPanel.tsx:83-99 | the panel's copy builds exactly the same window as the shared bar |
| AdminPanel.BuildersAgree | src/pages/AdminPanel/AdminPanel.tsx:83-99 | the two builders return the same list for every input |
| AdminPanel.HandleChange | src/pages/AdminPanel/AdminPanel.tsx:55-64 | a name containing "first_name" or "last_name" updates the profile; any other name updates the top-level field; no other field changes |
| AdminPanel.FormInputsIndependent | src/pages/AdminPanel/AdminPanel.tsx:57-63 | typing a name never touches email or username, and typing email or username never touches the profile |
| AdminPanel.ActionsFor | src/pages/AdminPanel/AdminPanel.tsx:176-229 | Activate is enabled only for non-managers; Recover and Ban/Unban only for managers; Ban is shown for active users, Unban otherwise |
| AdminPanel.ActivateAndRecoverExclusive | src/pages/AdminPanel/AdminPanel.tsx:176-192 | exactly one of Activate and Recover is enabled |
| AdminPanel.FetchesUsers | src/pages/AdminPanel/AdminPanel.tsx:36-41 | users and stats are fetched only for a logged-in staff user, never when logged out |
| AdminPanel.ShowsPanel | src/pages/AdminPanel/AdminPanel.tsx:104-106 | the panel is shown exactly to a logged-in staff user |
| AdminPanel.FetchIffPanelShown | src/pages/AdminPanel/AdminPanel.tsx:36-107 | users and stats are fetched exactly when the panel is shown, that is, only for staff; everyone else sees "Access Denied" |
| Browser.PageNumber | src/pages/AdminPanel/AdminPanel.tsx:28 | the page read from the address is never 0, and is 1 when absent |
| Browser.PageNumberRoundTrip | src/components/OrderTable/OrderClone.tsx:23 | a page written with `toString` reads back as itself, except 0, which reads as 1 |
| Browser.PlusSignedPage | src/components/OrderTable/OrderClone.tsx:23 | a page written with a leading '+' opens that page, as `Number` reads the sign; "+0" falls back to page 1 |
| Browser.LocalStorage.GetItem | src/services/auth.service.ts:40-41 | returns the stored value under the key, and null exactly when the key is absent |
| Browser.LocalStorage.SetItem | src/services/auth.service.ts:30-31 | the key now holds the value; every other key is unchanged |
| Browser.LocalStorage.RemoveItem | src/services/auth.service.ts:36-37 | the key is gone; every other key is unchanged, and removing an absent key changes nothing |
| Browser.SearchParams.Get | src/components/OrderTable/OrderClone.tsx:23-39 | returns the value under the name, and null exactly when the name is absent |
| Browser.SearchParams.Set | src/components/OrderTable/OrderClone.tsx:79-80 | the name now holds the value, replacing any earlier one; every other name is unchanged |
| Browser.SearchParams.Delete | src/components/OrderTable/OrderTable.tsx:64 | the name is gone; every other name is unchanged |
| QueryParams.HandlePageChange | src/pages/AdminPanel/AdminPanel.tsx:66-72 | "page" becomes the new page's decimal text; every other parameter is unchanged; OrderTable.tsx:140-146 and OrderClone.tsx:95-101 hold the same handler |
| QueryParams.PageChangeReadsBack | src/components/OrderTable/OrderClone.tsx:95-101 | after the change, the page read from the address is the new page, for any non-zero page |
| QueryParams.EffectiveOrder | src/components/OrderTable/OrderTable.tsx:28 | the order read is the truthy "order" parameter, else "-id"; never empty |
| QueryParams.ToggledOrder | src/components/OrderTable/OrderTable.tsx:113 | a leading '-' is removed; otherwise one is added |
| QueryParams.SortToggled | src/components/OrderTable/OrderTable.tsx:109-117 | the parameters after a sort toggle: "order" holds the toggled effective order and every other parameter reads as before |
| QueryParams.HandleSortToggle | src/components/OrderTable/OrderTable.tsx:109-117 | "order" becomes the toggled effective order; every other parameter is unchanged; OrderClone.tsx:66-74 holds the same handler |
| QueryParams.ToggleTwiceRestores | src/components/OrderTable/OrderClone.tsx:66-74 | two toggles restore the order exactly when it neither starts with "--" nor is the bare "-" |
| OrderTable.ParamName | src/components/OrderTable/OrderTable.tsx:59-62 | "courseFormat" and "courseType" are written as "course_format" and "course_type"; every other filter under its own key |
| OrderTable.InitialFilters | src/components/OrderTable/OrderTable.tsx:30-46 | the filter state reads each of the fifteen filters from its address name, "" when absent or empty, and holds nothing else |
| OrderTable.EditResetsPage | src/components/OrderTable/OrderTable.tsx:53-55 | changing any filter counts as a change, and the same filters count as none |
| OrderTable.ApplyFiltersAsWritten | src/components/OrderTable/OrderTable.tsx:49-75 | the debounced body as written: each non-empty filter is set under its address name, and each empty one is deleted under its key; "page" becomes "1" exactly when some filter changed; "order" is written |
| OrderTable.WriteEachAsWritten | src/components/OrderTable/OrderTable.tsx:57-66 | the `forEach` leaves every parameter as the recursive function `AsWrittenParam` defines it |
| OrderTable.FilledFilterWritten | src/components/OrderTable/OrderTable.tsx:58-62 | a non-empty filter ends up under its address name |
| OrderTable.ClearedFilterDeleted | src/components/OrderTable/OrderTable.tsx:63-64 | an emptied filter's key is absent afterwards |
| OrderTable.ClearedFormatLingers | src/components/OrderTable/OrderTable.tsx:63-64 | for a filter whose key differs from its address name, emptying it leaves the old address value in place |
| OrderTable.ClearedFormatReadsBackStale | src/components/OrderTable/OrderTable.tsx:30-64 | after clearing a set course format, the address still yields the old format on reload (finding 1) |
| OrderTable.ApplyFilters | src/components/OrderTable/OrderTable.tsx:49-75 | the corrected body, which deletes an emptied filter under its address name; "page" and "order" are as written |
| OrderTable.WriteEach | src/components/OrderTable/OrderTable.tsx:57-66 | the corrected `forEach` leaves every parameter as the recursive function `SyncedParam` defines it |
| OrderTable.SyncedReflects | src/components/OrderTable/OrderTable.tsx:57-66 | after the corrected loop, each filter's address name holds exactly its value, or nothing when it is empty |
| OrderTable.SyncedFiltersReadBack | src/components/OrderTable/OrderTable.tsx:30-75 | reading the filters back from the corrected address gives exactly the filters applied |
| OrderTable.SetFilter | src/components/OrderTable/OrderTable.tsx:119-138 | only the edited filter changes, to the typed value, for the text and the date handlers alike |
| OrderTable.CheckboxFilter | src/components/OrderTable/OrderTable.tsx:126-131 | ticking sets the filter to the user's name ("" when nobody is logged in), unticking sets "", and nothing else changes |
| OrderTable.ResetFilters | src/components/OrderTable/OrderTable.tsx:149-165 | all fifteen filters become "" |
| OrderTable.ResetParams | src/components/OrderTable/OrderTable.tsx:166 | the address becomes exactly "page" and "order" |
| OrderTable.ResetReadsBack | src/components/OrderTable/OrderTable.tsx:148-167 | after reset the page reads as 1, the order as "-id", and the filters read back as the reset filters |
| OrderClone.ReadParam | src/components/OrderTable/OrderClone.tsx:24-39 | a parameter is read as its truthy value, else "" |
| OrderClone.FetchQuery | src/components/OrderTable/OrderClone.tsx:44-61 | the fetch sends the page and order read from the address and each of the fifteen filters under its server name, read from the address |
| OrderClone.QueryNamesAreAddressNames | src/components/OrderTable/OrderClone.tsx:45-61 | the fetch's names are exactly the address names of the fifteen filters |
| OrderClone.EmptyAddressDefaults | src/components/OrderTable/OrderClone.tsx:23-39 | an empty address fetches page 1, "-id" and empty filters |
| OrderClone.HandleFilterChange | src/components/OrderTable/OrderClone.tsx:76-92 | the given key is set verbatim, even to "", and "page" becomes "1"; nothing else changes |
| OrderClone.ControlChangeAsWritten | src/components/OrderTable/OrderClone.tsx:76-83 | any value a control reports, the empty "All formats" / "All types" choice included, shows in the bar only when its key is its address name; the format and type selects change neither the bar nor the fetch (finding 2) |
| OrderClone.HandleControlChange | src/components/OrderTable/OrderClone.tsx:76-83 | the corrected handler writes the control's value under its address name |
| OrderClone.ControlChangeReadsBack | src/components/OrderTable/OrderClone.tsx:23-83 | with the correction, every control's value is what the bar then shows and what the fetch then sends, on page 1 |
| OrderClone.ResetParams | src/components/OrderTable/OrderClone.tsx:104-106 | the address becomes exactly "page" |
| OrderClone.ResetReadsBack | src/components/OrderTable/OrderClone.tsx:104-106 | after reset the fetch asks for page 1 and "-id" with all filters empty, and the bar shows all filters empty |
| OrderFilters.ControlsAreFilters | src/components/OrderFilters/OrderFilters.tsx:62-139 | the bar's text and select controls are the fourteen filters other than the manager |
| OrderFilters.ControlKeysWiring | src/components/OrderFilters/OrderFilters.tsx:73-80 | exactly the format and type controls report a key that differs from the address name |
| OrderFilters.Stringified | src/components/OrderFilters/OrderFilters.tsx:149 | `set` stores the name, or the text "undefined" when there is none |
| OrderFilters.MyOrdersChange | src/components/OrderFilters/OrderFilters.tsx:146-154 | ticking with a truthy user id sets "manager" to the name; anything else deletes it; "page" becomes "1"; nothing else changes |
| OrderFilters.IsChecked | src/components/OrderFilters/OrderFilters.tsx:144 | the box shows as checked only when the "manager" parameter equals the given username; with no username (undefined) it is never checked |
| OrderFilters.CheckedAfterChange | src/components/OrderFilters/OrderFilters.tsx:144-154 | given a name, the box is checked afterwards exactly when it was ticked with a truthy id, and the page reads as 1 |
| OrderFilters.TickWithoutUsername | src/components/OrderFilters/OrderFilters.tsx:144-149 | without a name, ticking stores "undefined" and the box never shows checked (finding 3) |
| CreateManagerDialog.EmailAcceptedIffPattern | src/components/CreateManagerDialog/CreateManagerDialog.tsx:41 | the computed check accepts exactly the texts `^[^\s@]+@[^\s@]+\.[^\s@]+$` matches |
| CreateManagerDialog.EmailError | src/components/CreateManagerDialog/CreateManagerDialog.tsx:43-51 | "Email is required" for an empty email; otherwise no error exactly when the pattern matches, and "Invalid email format" when it does not |
| CreateManagerDialog.UsernameError | src/components/CreateManagerDialog/CreateManagerDialog.tsx:53-61 | "Username is required" for an empty name; the length message for 1 to 4 characters; no error exactly from 5 characters |
| CreateManagerDialog.Dialog.constructor | src/components/CreateManagerDialog/CreateManagerDialog.tsx:38-39 | both error texts start empty |
| CreateManagerDialog.Dialog.EmailChanged | src/components/CreateManagerDialog/CreateManagerDialog.tsx:43-51 | the email effect sets the email error as `EmailError` gives it, and the other text is unchanged |
| CreateManagerDialog.Dialog.UsernameChanged | src/components/CreateManagerDialog/CreateManagerDialog.tsx:53-61 | the username effect sets the username error, and the other text is unchanged |
| CreateManagerDialog.Dialog.CreateDisabled | src/components/CreateManagerDialog/CreateManagerDialog.tsx:150 | Create is disabled whenever either error text is non-empty, and enabled only when both are empty |
| CreateManagerDialog.Dialog.OnSubmit | src/components/CreateManagerDialog/CreateManagerDialog.tsx:63-150 | submit goes through exactly when both error texts are empty, that is, exactly when Create (line 150) is enabled |
| CreateManagerDialog.SubmitAfterEffects | src/components/CreateManagerDialog/CreateManagerDialog.tsx:43-66 | once the effects have run, submitting goes through exactly when the email matches the pattern and the username has at least 5 characters |
| CreateManagerDialog.NamesNeverValidated | src/components/CreateManagerDialog/CreateManagerDialog.tsx:43-61 | typing a first or last name changes neither error text |
| CreateManagerDialog.InitialFormRefused | src/pages/AdminPanel/AdminPanel.tsx:30-34 | the panel's starting form is refused on both counts |
| TokenForm.RefusalError | src/pages/ActivationPage/ActivationPage.tsx:19-27 | the submit stops before the call exactly when the token is missing or the passwords differ; the link message comes first |
| TokenForm.FailureError | src/pages/ActivationPage/ActivationPage.tsx:36 | a failure shows the server's truthy `detail`, else the page's own text |
| TokenForm.Form.constructor | src/pages/ActivationPage/ActivationPage.tsx:10-12 | no error, no success, not loading |
| TokenForm.Form.BeginSubmit | src/pages/ActivationPage/ActivationPage.tsx:14-32 | both messages are cleared; a refusal sets its error; otherwise loading goes up and the request carries the token and password; PasswordResetPage.tsx:17-33 does the same with its own link message |
| TokenForm.Form.CompleteSubmit | src/pages/ActivationPage/ActivationPage.tsx:34-39 | success stores the server's `detail`; failure stores the failure text; loading goes down either way |
| TokenForm.Submit | src/pages/ActivationPage/ActivationPage.tsx:14-40 | the service is called exactly when a token is present and the passwords match; a refused submit leaves loading alone; a submit that reached the call ends not loading, with only the outcome's message; PasswordResetPage.tsx:15-41 is the same |
| TokenForm.PagesRefuseAlike | src/pages/PasswordResetPage/PasswordResetPage.tsx:20-28 | the two pages refuse the same inputs, and differ only in the link message |
| OrderInfo.CurrentOrder | src/components/OrderInfo/OrderInfo.tsx:22-26 | the row shows the slice's first order with the same id, else the order it was given; the id never changes |
| OrderInfo.CanComment | src/components/OrderInfo/OrderInfo.tsx:33 | only a logged-in user may comment, and on an order with a manager exactly that manager may |
| OrderInfo.DeleteVisible | src/components/OrderInfo/OrderInfo.tsx:118 | the delete button shows only to a logged-in user, and always to one with the role "manager" |
| OrderInfo.CommentRule | src/components/OrderInfo/OrderInfo.tsx:33 | logged out, nobody may comment; an unassigned order may be commented on by any user; an assigned one only by its manager |
| OrderInfo.DeleteRule | src/components/OrderInfo/OrderInfo.tsx:118 | a user with role "manager" may delete any comment; anyone else only their own |
| OrderInfo.TextCell | src/components/OrderInfo/OrderInfo.tsx:99-103 | a truthy text is shown, else "null" |
| OrderInfo.NumberCell | src/components/OrderInfo/OrderInfo.tsx:97-98 | a present, non-zero number is shown as its decimal text; absent or 0 shows "null" |
| OrderInfo.NumberCellNullIff | src/components/OrderInfo/OrderInfo.tsx:97-98 | a number cell reads "null" exactly for absent or 0, and otherwise reads back as the number |
| OrderInfo.GroupCell | src/components/OrderInfo/OrderInfo.tsx:99 | "null" without a group, else the group name's cell |
| OrderInfo.ManagerCell | src/components/OrderInfo/OrderInfo.tsx:103 | "null" without a manager, else the manager's username cell |
| OrderInfo.UnassignedRow | src/components/OrderInfo/OrderInfo.tsx:33-103 | an unassigned order shows "null" as manager and may be commented on by anyone logged in |
| OrderInfo.Row.constructor | src/components/OrderInfo/OrderInfo.tsx:28-29 | collapsed, with an empty comment box |
| OrderInfo.Row.ToggleExpand | src/components/OrderInfo/OrderInfo.tsx:42-44 | expansion flips, and the text is kept |
| OrderInfo.Row.Type | src/components/OrderInfo/OrderInfo.tsx:144 | the comment box holds the typed text and the row stays expanded or collapsed as it was |
| OrderInfo.Row.SubmitComment | src/components/OrderInfo/OrderInfo.tsx:46-55 | blank text sends nothing and keeps the box; otherwise the untrimmed text is sent and the box is cleared |
| OrderInfo.ToggleTwice | src/components/OrderInfo/OrderInfo.tsx:42-44 | two clicks restore the row |
| OrderInfo.SubmitTyped | src/components/OrderInfo/OrderInfo.tsx:46-55 | a comment is sent exactly when the text has a character that is not white space, and it is sent as typed |
| Common.TrimEmptyIffBlank | src/components/OrderInfo/OrderInfo.tsx:47 | `trim()` gives "" exactly for texts made only of white space |
| ExcelButton.ExportParams | src/components/ExcelButton/ExcelButton.tsx:25-26 | the query is every address parameter except "page" |
| ExcelButton.RequestFor | src/components/ExcelButton/ExcelButton.tsx:28 | each request asks for its page with no order and that query |
| ExcelButton.PagesConsecutive | src/components/ExcelButton/ExcelButton.tsx:19-37 | the pages asked for are 1, 2, 3, … with none skipped |
| ExcelButton.StopsAtReportedTotal | src/components/ExcelButton/ExcelButton.tsx:32-37 | every page but the last answered with a total above its number; the last one failed or reported a total its number reaches |
| ExcelButton.SomeIffAllAnswered | src/components/ExcelButton/ExcelButton.tsx:24-46 | the loop completes exactly when every requested page answered |
| ExcelButton.OrdersAreConcatenation | src/components/ExcelButton/ExcelButton.tsx:31 | a completed loop returns the pages' orders joined in page order |
| ExcelButton.FetchAllOrders | src/components/ExcelButton/ExcelButton.tsx:16-47 | the loop returns the orders `AllOrders` defines: all pages joined, or nothing after a failure; it sends exactly one request per page `PagesFrom` lists, in order |
| ExcelButton.FailureExportsNothing | src/components/ExcelButton/ExcelButton.tsx:41-46 | a failure on any page discards the orders of earlier pages |
| ExcelButton.FormatRow | src/components/ExcelButton/ExcelButton.tsx:58-77 | a row keeps the order's fields, with the group name and manager username, or "" when absent |
| ExcelButton.FormatRows | src/components/ExcelButton/ExcelButton.tsx:58 | one row per order, in order |
| ExcelButton.ExportToExcel | src/components/ExcelButton/ExcelButton.tsx:50-87 | no file exactly when there are no orders; otherwise "orders.xlsx" with sheet "Orders" and one row per order |
| LoadingOrError.ErrorMessage | src/components/LoadingOrError/LoadingOrError.tsx:17 | a text error is shown verbatim; an object shows `data.detail`, else `detail`, else "Unexpected error" |
| LoadingOrError.ErrorTruthy | src/components/LoadingOrError/LoadingOrError.tsx:13 | an absent error is falsy, every error object is truthy, and a truthy error text is non-empty |
| LoadingOrError.Render | src/components/LoadingOrError/LoadingOrError.tsx:3-24 | spinner exactly while loading; the content exactly when not loading and the error is falsy; otherwise the error's message |
| LoadingOrError.ShownErrorNeverBlank | src/components/LoadingOrError/LoadingOrError.tsx:13-21 | an error that is shown is never blank |
| LoadingOrError.FallbackAndEmptyText | src/components/LoadingOrError/LoadingOrError.tsx:13-23 | an object without details shows the fallback, and an empty error text shows the content |

## Left out

- The network: thunks, services and the refresh endpoint. Each request
  appears as the request the model says it sends. Its answer is a parameter
  (the reducers' payloads, `PromptOutcome`, `RefreshOutcome`, `Outcome` and the
  export's `fetch`).
- React rendering, styling, effects scheduling and re-renders. Effects are
  methods that the caller invokes. Component state lives in class fields.
- The `lodash` debounce in `OrderTable.tsx`. The debounced body is modelled as
  one call on the latest filters.
- The dynamic `import()` in `SessionModal.tsx`. Registering the handler is
  the method `SetSessionModalHandler`.
- `window.location.href` is a field of the client, set to "/login".
- `Date.now()` is the parameter `now`. The byte decoding and `JSON.parse`
  behind `atob` form the parameter `decode`. The model only checks that
  `atob` accepts the text, by the forgiving base64 rules of the HTML
  standard.
- `JSON.parse` of the stored user in `auth.slice.ts` is the parameter
  `parseUser`.
- Browser storage is modelled as a string map, without quotas or events.
- `Number(...)` is modelled for decimal digit strings with an optional leading
  '+' or '-'. Any other text reads as not a number and falls back to page 1.
  Hexadecimal, binary and octal prefixes, exponents, surrounding white space,
  fractions and "Infinity" are not modelled; `Number("")` is 0, which the
  `|| 1` fallback turns into page 1 just as the model does.
- String lengths count Dafny characters, not UTF-16 code units. No Unicode
  normalisation or case folding is modelled.
- `alert` and `console` calls, and the progress percentage with its rounding.
- The XLSX workbook encoding and `file-saver`: the export ends in the file
  name, the sheet name and the rows.
- Date formatting of `created_at` in the order row.
- The edit-order modal, the group selector and the login and register pages,
  which are outside the core.
- ExcelButton.FetchAllOrders: requires a bound on the page totals the server
  reports, so that the model's loop terminates. The source loop has no such
  bound and keeps paging while the server reports more.
- ExcelButton.ExportToExcel: carries the same bound on the server's totals.

## Findings

| source | as written | input that shows it | evidently intended | confidence | as-written member | corrected member |
|---|---|---|---|---|---|---|
| src/components/OrderTable/OrderTable.tsx:63-64 | an emptied filter is deleted under its state key, so clearing `courseFormat` or `courseType` deletes "courseFormat"/"courseType" while "course_format"/"course_type" keep the old value | address `course_format=online`, then the format filter set to "" | the filter's address name is deleted, so the cleared filter reads back as empty | high; not executed (this table is not mounted by any page) | OrderTable.ClearedFormatReadsBackStale | OrderTable.SyncedFiltersReadBack |
| src/components/OrderTable/OrderClone.tsx:76-83 | the handler writes the key the control reports; the format and type selects report "courseFormat" and "courseType" (OrderFilters.tsx:73,80), which the table never reads | choosing "online" in the format select | the value lands under "course_format"/"course_type", so the bar shows it and the fetch sends it | high; not executed | OrderClone.ControlChangeAsWritten | OrderClone.ControlChangeReadsBack |
| src/components/OrderTable/OrderClone.tsx:114-137 | the live table passes the filter bar no `username`, so ticking "My orders" (OrderFilters.tsx:144-149) stores the text "undefined" as the manager filter, and the box never shows as checked; OrderFilters.tsx:37 declares `username: string` as a required prop, so a type-checking build would reject this call site | a logged-in user with id 7 ticks the box | the user's name is stored and the box reads as checked | high; not executed | OrderFilters.TickWithoutUsername | OrderFilters.CheckedAfterChange |
