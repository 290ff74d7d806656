# Admin console core, modelled in Dafny

This project models the client-side core of an admin console for identity and access
management (IAM): users, roles, permissions and policies. The console is a React and TypeScript
single-page application. The model covers the parts of it that hold logic:

- the table-state hooks: pagination, filters with a debounced copy, search with a debounced
  term, and their composition;
- the generic data table: page count, previous and next buttons, body rows and the page-size
  selector;
- the two list pages that drive that table (users and roles) and the demo user-management page;
- the authentication slice of the store and the HTTP client's interceptors. These attach the
  bearer token, and on a 401 they run one token refresh while later 401s queue behind it;
- the token store over `localStorage`;
- the feature permission matrix: its keys, order, labels, rows built from a permission map,
  the toggle form and the create page;
- the sidebar's link targets;
- the login and registration pages' field rules, error banners and redirects;
- the edit-policy dialog's JSON validation and payload assembly.

Each hook and each component that keeps state in place is a `class`. Its fields are the
component's state cells, and its methods are the handlers. Every method states its new state
as a pure transition function of the old one (`Snapshot() == F(old(Snapshot()), ...)`).
The properties the source promises are lemmas over those functions, mostly over runs of
events. Pure helpers (formatters, validators, row builders) are functions with named results.

Time, the network and the browser become parameters:

- a debounce timer is an explicit `TimerFires` event;
- an HTTP outcome is an argument or an event;
- a user's confirmation is a boolean;
- JSON is a `Codec` pair of `parse` and `stringify`, assumed `Lawful`: stringify then parse
  gives the document back, stringify never yields `""`, and `"{}"` parses to the empty object.

Module layout, one file per source file plus shared support:

- `wrappers.dfy`: `Option` and `Result`.
- `js.dfy`: JavaScript values, truthiness, `String(...)`, `Number(...)` on decimal text,
  `trim`.
- `json.dfy`: the JSON value and the abstract codec.
- `router.dfy`: navigation targets.
- `pagination.dfy`, `filter_params.dfy`, `search.dfy`, `table_params.dfy`: the four table-state
  hooks.
- `data_table.dfy`: the data table.
- `list_users.dfy`, `list_roles.dfy`, `user_mnt.dfy`: the list pages.
- `auth_slice.dfy`, `api_client.dfy`, `token_store.dfy`: the session.
- `permission_matrix.dfy`, `permission_form.dfy`, `create_permission.dfy`: the permission
  matrix.
- `sidebar.dfy`: the sidebar.
- `login_page.dfy`, `register_page.dfy`: the authentication pages.
- `edit_policy.dfy`: the edit-policy dialog.

## Model

| member | source | states |
|---|---|---|
| Pagination.ClampPage | src/hooks/usePagination.ts:29-31 | a requested page is raised to at least 1; any page already ≥ 1 is kept |
| Pagination.ClampPageSize | src/hooks/usePagination.ts:33-35 | a requested size is clamped into [1, maxPageSize]: in-range sizes kept, smaller ones become 1, larger ones become the maximum |
| Pagination.Initial | src/hooks/usePagination.ts:15-22 | the hook starts at the configured default page and page size |
| Pagination.Exposed | src/hooks/usePagination.ts:24-27 | the exposed state keeps the page and caps the page size at maxPageSize, never raising it |
| Pagination.PageChanged | src/hooks/usePagination.ts:29-31 | after a page change the page is at least 1 and the page size is unchanged |
| Pagination.PageSizeChanged | src/hooks/usePagination.ts:33-37 | a page-size change returns to page 1 and stores a size no larger than the maximum |
| Pagination.RunKeepsPageAndSizePositive | src/hooks/usePagination.ts:21-42 | from valid defaults, any sequence of handler calls keeps page ≥ 1 and the exposed page size in [1, maxPageSize] |
| Pagination.PagePositiveAfterHandler | src/hooks/usePagination.ts:29-37 | whatever the defaults, after a page or page-size change the page is at least 1 |
| Pagination.PaginationHook.State | src/hooks/usePagination.ts:24-27 | the hook's exposed state is the capped view of its two state cells |
| Pagination.PaginationHook.constructor | src/hooks/usePagination.ts:15-22 | the state cells start at the configured defaults |
| Pagination.PaginationHook.SetPage | src/hooks/usePagination.ts:29-31 | `setPage` stores max(1, n) and leaves the page size alone |
| Pagination.PaginationHook.SetPageSize | src/hooks/usePagination.ts:33-37 | `setPageSize` stores the clamped size and resets to page 1 |
| Pagination.PaginationHook.ResetPagination | src/hooks/usePagination.ts:39-42 | `resetPagination` restores both defaults |
| FilterParams.Merge | src/hooks/useFilterParams.ts:27 | a spread merge: the keys of both, the partial's value wherever it has one, the previous value elsewhere |
| FilterParams.Without | src/hooks/useFilterParams.ts:45-46 | deleting a key removes exactly that key and keeps every other value |
| FilterParams.ActiveKeys | src/hooks/useFilterParams.ts:64-66 | the active keys are exactly those whose value is not undefined, null or '' |
| FilterParams.ActiveFiltersCount | src/hooks/useFilterParams.ts:63-68 | the count is the number of active keys, at most the number of keys |
| FilterParams.HasActiveIffCountPositive | src/hooks/useFilterParams.ts:56-68 | `hasActiveFilters` holds exactly when `activeFiltersCount` > 0 |
| FilterParams.Update | src/hooks/useFilterParams.ts:26-38 | `updateFilters` merges into the live filters at once and re-arms the timer with this partial, leaving the debounced copy |
| FilterParams.WithFilter | src/hooks/useFilterParams.ts:40-42 | `setFilter(k, v)` is `updateFilters({k: v})` and afterwards k maps to v |
| FilterParams.Remove | src/hooks/useFilterParams.ts:44-49 | `removeFilter` sets both copies to the live filters without the key and does not cancel the timer |
| FilterParams.Clear | src/hooks/useFilterParams.ts:51-54 | `clearFilters` sets both copies to the initial filters and does not cancel the timer |
| FilterParams.Fire | src/hooks/useFilterParams.ts:35-37 | the timer merges its partial into the debounced copy and disarms; with no timer nothing changes |
| FilterParams.BurstOfUpdates | src/hooks/useFilterParams.ts:26-38 | a burst of updates merges every partial, in order, into the live filters, leaves the debounced copy untouched, and keeps only the last partial armed |
| FilterParams.OnlyLastPartialIsDebounced | src/hooks/useFilterParams.ts:30-37 | after a burst, the firing timer merges only the last partial into the debounced copy |
| FilterParams.StaleUpdateSurvivesClear | src/hooks/useFilterParams.ts:35-54 | a timer armed before `clearFilters` still merges its partial into the cleared debounced copy, while the live filters stay at the initial filters |
| FilterParams.StaleUpdateSurvivesRemove | src/hooks/useFilterParams.ts:35-49 | a timer armed before `removeFilter(k)` brings k back into the debounced copy only |
| FilterParams.FilterHook.constructor | src/hooks/useFilterParams.ts:15-21 | both copies start at the initial filters with no timer |
| FilterParams.FilterHook.UpdateFilters | src/hooks/useFilterParams.ts:26-38 | the handler performs the `Update` transition |
| FilterParams.FilterHook.SetFilter | src/hooks/useFilterParams.ts:40-42 | the handler performs the `WithFilter` transition |
| FilterParams.FilterHook.RemoveFilter | src/hooks/useFilterParams.ts:44-49 | the handler performs the `Remove` transition |
| FilterParams.FilterHook.ClearFilters | src/hooks/useFilterParams.ts:51-54 | the handler performs the `Clear` transition |
| FilterParams.FilterHook.TimerFires | src/hooks/useFilterParams.ts:35-37 | the timer callback performs the `Fire` transition |
| Search.IsValidSearch | src/hooks/useSearch.ts:38-40 | `isValidSearch` reads the debounced term: it always holds when `minLength` is not positive, and otherwise needs a non-empty debounced term |
| Search.HasSearchTerm | src/hooks/useSearch.ts:42-44 | `hasSearchTerm` holds exactly while the live term is non-empty |
| Search.ValidSearchFollowsDebounce | src/hooks/useSearch.ts:19-44 | typing leaves `isValidSearch` as it was; once the timer fires it holds iff the term has `minLength` characters; after `clearSearch` it holds iff `minLength` is not positive |
| Search.Update | src/hooks/useSearch.ts:19-31 | `setSearchTerm` shows the term at once and arms the timer with it; `hasSearchTerm` holds iff the term is non-empty |
| Search.Clear | src/hooks/useSearch.ts:33-36 | `clearSearch` empties both terms but leaves a pending timer armed |
| Search.Fire | src/hooks/useSearch.ts:28-30 | the timer copies its term into the debounced term and disarms |
| Search.Typing | src/hooks/useSearch.ts:19-31 | each keystroke is one `setSearchTerm` event, in order |
| Search.BurstOfTyping | src/hooks/useSearch.ts:19-31 | after a burst of keystrokes the last term is shown and armed, and the debounced term is untouched |
| Search.LatestTermIsDebounced | src/hooks/useSearch.ts:23-30 | after a burst, the one timer that fires debounces the latest term |
| Search.StaleTermSurvivesClear | src/hooks/useSearch.ts:28-36 | a timer armed before `clearSearch` restores the old term into the debounced copy while the input stays empty |
| Search.SearchHook.constructor | src/hooks/useSearch.ts:9-15 | both terms start empty |
| Search.SearchHook.SetSearchTerm | src/hooks/useSearch.ts:19-31 | the handler performs the `Update` transition |
| Search.SearchHook.ClearSearch | src/hooks/useSearch.ts:33-36 | the handler performs the `Clear` transition |
| Search.SearchHook.TimerFires | src/hooks/useSearch.ts:28-30 | the timer callback performs the `Fire` transition |
| TableParams.ResetBoth | src/hooks/useTableParams.ts:19-22 | `reset` restores the pagination defaults and both filter copies to the initial filters |
| TableParams.ResetIdempotent | src/hooks/useTableParams.ts:19-22 | resetting twice is the same as resetting once |
| TableParams.Step | src/hooks/useTableParams.ts:12-13 | a pagination event leaves the filters alone, and a filter event leaves the pagination alone |
| TableParams.TableParamsHook.constructor | src/hooks/useTableParams.ts:12-13 | the composed hook starts from both hooks' initial states |
| TableParams.TableParamsHook.Reset | src/hooks/useTableParams.ts:19-22 | `reset` performs the `ResetBoth` transition on the two owned hooks |
| DataTable.CeilDiv | src/components/DataTable.tsx:32 | `Math.ceil(a / d)` is the least q with a ≤ d·q |
| DataTable.TotalPages | src/components/DataTable.tsx:32 | there is at least one page; the pages cover `total`, and one page fewer would not |
| DataTable.PrevRequest | src/components/DataTable.tsx:87-88 | Previous requests a page exactly when page > 1, and the page it requests is page − 1 ≥ 1 |
| DataTable.NextRequest | src/components/DataTable.tsx:107-108 | Next requests a page exactly when page < totalPages, and the page it requests is page + 1 ≤ totalPages |
| DataTable.ClicksStayInRange | src/components/DataTable.tsx:32-34 | starting in range, any sequence of Previous and Next clicks keeps the page in [1, totalPages] |
| DataTable.CellOf | src/components/DataTable.tsx:69 | a cell is the column's renderer applied to the row, or else `String(row[key] ?? '')` |
| DataTable.Cells | src/components/DataTable.tsx:67-71 | a row has one cell per column, in column order |
| DataTable.Body | src/components/DataTable.tsx:52-74 | loading shows one "Loading..." row, no data shows one "No data" row, and otherwise there is one row per datum with its cells |
| DataTable.SelectorReportsChosenSize | src/components/DataTable.tsx:127-137 | picking any offered option reports that very size as a number |
| Js.DecimalRoundTrip | src/components/DataTable.tsx:127-137 | `Number` of a non-negative integer's decimal text gives the integer back |
| Js.DisplayString | src/components/DataTable.tsx:69 | `String(v ?? '')`: undefined and null show as '', strings as themselves, numbers in decimal |
| Js.TrimEmptyIffBlank | src/pages/iam/policy/ListPolicies/EditPolicyDialog.tsx:84 | `text.trim() === ''` holds exactly when the text is all whitespace |
| ListUsers.StatusSelectValue | src/pages/iam/user/ListUsers/ListUsers.tsx:160-161 | the status select always shows one of its options: 'all' iff the filter is undefined, 'active' iff it is truthy |
| ListUsers.StatusFilterValue | src/pages/iam/user/ListUsers/ListUsers.tsx:162-168 | 'all' clears the filter to undefined; any other choice sets a boolean that is true iff the choice is 'active' |
| ListUsers.ChoiceIsShown | src/pages/iam/user/ListUsers/ListUsers.tsx:160-168 | after choosing any option the select shows that option |
| ListUsers.ShownIsChoice | src/pages/iam/user/ListUsers/ListUsers.tsx:160-168 | choosing the option the select shows leaves an undefined or boolean filter as it was |
| ListUsers.Query | src/pages/iam/user/ListUsers/ListUsers.tsx:26-31 | the query takes the page state, sends the debounced search only when it has at least 2 characters, and sends the debounced `is_active` |
| ListUsers.StatusReachesQueryOnFire | src/pages/iam/user/ListUsers/ListUsers.tsx:26-31 | a status choice reaches the query only when the filter timer fires |
| ListUsers.ClearFiltersButton | src/pages/iam/user/ListUsers/ListUsers.tsx:180-188 | the button shows exactly when some filter is active, captioned with the active count |
| ListUsers.ClearSearchShownIff | src/pages/iam/user/ListUsers/ListUsers.tsx:149-153 | the Clear button beside the search box is shown after typing iff the term is non-empty, and is hidden after it is clicked |
| ListUsers.ClearFiltersButtonCases | src/pages/iam/user/ListUsers/ListUsers.tsx:180-188 | there is no button initially; after choosing 'all' there is none, and after choosing 'active' or 'inactive' it reads "Clear Filters (1)" |
| ListRoles.Query | src/pages/iam/role/ListRoles/ListRoles.tsx:18 | the request's limit is the page size, and its skip is 0 on page 1 and never negative |
| ListRoles.ConsecutivePagesAdjacent | src/pages/iam/role/ListRoles/ListRoles.tsx:18 | page n + 1 starts where page n ends |
| ListRoles.EachOffsetOnOnePage | src/pages/iam/role/ListRoles/ListRoles.tsx:18 | each offset falls in the window of exactly one page, offset / pageSize + 1 |
| ListRoles.ConfirmPrompt | src/pages/iam/role/ListRoles/ListRoles.tsx:32 | the confirmation reads `Are you sure you want to delete role "`, the role's display name, then `"?` |
| ListRoles.PromptIdentifiesRole | src/pages/iam/role/ListRoles/ListRoles.tsx:32 | two roles get the same confirmation exactly when their display names are equal |
| ListRoles.HandleDelete | src/pages/iam/role/ListRoles/ListRoles.tsx:26-39 | a system role is refused with the alert; otherwise the user is asked with that role's prompt, and a delete for that role's id is sent iff the user confirms |
| ListRoles.DeleteButtonAlwaysAsks | src/pages/iam/role/ListRoles/ListRoles.tsx:92-97 | the trash button is missing exactly for system roles, and a shown one always asks with that role's prompt, so the table never reaches the system-role alert |
| ListRoles.SystemRoleNeverAsks | src/pages/iam/role/ListRoles/ListRoles.tsx:27-30 | for a system role the outcome does not depend on the confirmation |
| ListRoles.NextNeverEnabled | src/pages/iam/role/ListRoles/ListRoles.tsx:126 | with `total` set to the number of roles returned (at most one page), the table has one page and Next is never enabled |
| ListRoles.RolesPage.constructor | src/pages/iam/role/ListRoles/ListRoles.tsx:12-18 | the page starts at page 1, size 10, and queries skip 0, limit 10 |
| ListRoles.RolesPage.OnPageChange | src/pages/iam/role/ListRoles/ListRoles.tsx:127 | the page is stored as given and the size is kept |
| ListRoles.RolesPage.OnPageSizeChange | src/pages/iam/role/ListRoles/ListRoles.tsx:128-131 | a new size returns to page 1, so the next query starts at skip 0 |
| UserMnt.RoleOf | src/pages/iam/user/ListUserMnt/UserMnt.tsx:25 | the demo roles cycle Admin, Editor, Viewer by index mod 3 |
| UserMnt.AllRows | src/pages/iam/user/ListUserMnt/UserMnt.tsx:19-28 | there are 87 demo rows, row i being user i + 1 |
| UserMnt.RowsDistinct | src/pages/iam/user/ListUserMnt/UserMnt.tsx:19-28 | no two demo rows share an id, a name or an email |
| UserMnt.Clip | src/pages/iam/user/ListUserMnt/UserMnt.tsx:31 | a slice bound is taken as is within [0, len], counted from the end when negative, and clamped to 0 or len beyond that |
| UserMnt.JsSlice | src/pages/iam/user/ListUserMnt/UserMnt.tsx:31 | `Array.prototype.slice` returns the elements from the clipped start up to the clipped end, none when the end is before the start |
| UserMnt.SliceInRange | src/pages/iam/user/ListUserMnt/UserMnt.tsx:31 | with bounds inside the array, the slice is the plain subsequence |
| UserMnt.SliceFromEnd | src/pages/iam/user/ListUserMnt/UserMnt.tsx:31 | a negative start −k takes the last k elements, or all of them when k exceeds the length |
| UserMnt.PageWindow | src/pages/iam/user/ListUserMnt/UserMnt.tsx:30-31 | a page shows the rows from (page − 1)·size on, at most `size` of them |
| UserMnt.FirstPagesArePrefix | src/pages/iam/user/ListUserMnt/UserMnt.tsx:30-31 | the first n pages, concatenated, are the first n·size rows |
| UserMnt.AllPagesShowAllRows | src/pages/iam/user/ListUserMnt/UserMnt.tsx:30-32 | paging through all pages shows every row once, in order |
| UserMnt.UserMntPage.constructor | src/pages/iam/user/ListUserMnt/UserMnt.tsx:15-31 | the page starts at page 1, size 10, showing the first 10 rows |
| UserMnt.UserMntPage.Total | src/pages/iam/user/ListUserMnt/UserMnt.tsx:32 | the total is the number of rows, 87 |
| UserMnt.UserMntPage.OnPageChange | src/pages/iam/user/ListUserMnt/UserMnt.tsx:60 | the page is stored as given and the size is kept |
| UserMnt.UserMntPage.OnPageSizeChange | src/pages/iam/user/ListUserMnt/UserMnt.tsx:61-64 | a new size returns to page 1, showing the first `size` rows |
| AuthSlice.Reduce | src/store/slice.ts:14-21 | every reduction leaves a consistent state; `setSession` authenticates with that user, `clearSession` returns to the initial state |
| AuthSlice.ReachableConsistent | src/store/slice.ts:5-21 | any sequence of actions from a consistent state stays consistent: authenticated iff a user is present |
| AuthSlice.LastActionDecides | src/store/slice.ts:14-21 | after any non-empty sequence of actions the state depends only on the last one |
| AuthSlice.ClearIdempotent | src/store/slice.ts:18-21 | clearing twice is clearing once |
| AuthSlice.SetOverwrites | src/store/slice.ts:14-17 | a second `setSession` overwrites the first |
| AuthSlice.Store.constructor | src/store/slice.ts:5-8 | the store starts unauthenticated with no user |
| AuthSlice.Store.SetSession | src/store/slice.ts:14-17 | dispatching `setSession` performs the reduction |
| AuthSlice.Store.ClearSession | src/store/slice.ts:18-21 | dispatching `clearSession` performs the reduction |
| AuthSlice.Store.Dispatch | src/store/slice.ts:14-21 | any dispatch performs the reduction and keeps the state consistent |
| ApiClient.Authorize | src/api/client.ts:17-23 | with a non-empty token, `Authorization: Bearer <token>` is added to the headers (created if missing) and nothing else changes; otherwise the config is untouched |
| ApiClient.ErrorTransition | src/api/client.ts:33-66 | a non-401 or already-retried error is rejected unchanged; a 401 during a refresh is queued at the back; otherwise it starts the refresh, marked retried; the invariant is kept |
| ApiClient.MarkRetried | src/api/client.ts:36 | every released request is marked `_retry` and otherwise unchanged |
| ApiClient.SuccessTransition | src/api/client.ts:48-64 | a successful refresh stores the new token, syncs the user if one came back, releases the queue in arrival order marked retried, retries the original, and ends the refresh |
| ApiClient.FailureTransition | src/api/client.ts:57-64 | a failed refresh clears the token and session, ends the refresh, and drops the queued requests without releasing them |
| ApiClient.RunKeepsValid | src/api/client.ts:26-66 | any sequence of errors and refresh outcomes keeps the invariant: a refresh is in flight iff there is an originating request; the queue is empty when none is; queued requests are not yet retried |
| ApiClient.Unauthorized | src/api/client.ts:33 | a batch of requests meeting 401 is one error event per request, in order |
| ApiClient.QueueIsFifo | src/api/client.ts:34-35 | while a refresh is in flight, 401s are appended to the queue in arrival order |
| ApiClient.OneRefreshAtATime | src/api/client.ts:34-39 | no error starts a second refresh while one is in flight |
| ApiClient.RetriedAtMostOnce | src/api/client.ts:33-40 | every request the refresh releases or retries is marked `_retry`, so a second 401 on it is rejected rather than refreshed again |
| ApiClient.Client.constructor | src/api/client.ts:7-27 | no token, no refresh in flight, an empty queue |
| ApiClient.Client.SetAccessToken | src/api/client.ts:8 | `setAccessToken` replaces the token and nothing else |
| ApiClient.Client.OnRequest | src/api/client.ts:17-23 | the request interceptor applies `Authorize` with the current token |
| ApiClient.Client.OnError | src/api/client.ts:31-66 | the response interceptor performs `ErrorTransition` |
| ApiClient.Client.OnRefreshSuccess | src/api/client.ts:48-64 | the refresh's success path performs `SuccessTransition`, dispatching to the store |
| ApiClient.Client.OnRefreshFailure | src/api/client.ts:57-64 | the refresh's failure path performs `FailureTransition`, dispatching to the store |
| Json.Member | src/store/localStorage.ts:7 | `state?.user` finds a member only on an object that has that key |
| TokenStore.StoredText | src/store/localStorage.ts:6 | a missing or empty item reads as "{}"; any other item is read as it is |
| TokenStore.GetToken | src/store/localStorage.ts:4-11 | `getToken` answers the stored user's value under the key when it is truthy, and "" otherwise, including for unparsable stored text |
| TokenStore.NothingStoredNoToken | src/store/localStorage.ts:4-11 | with nothing stored, both tokens read as "" |
| TokenStore.SavedDocument | src/store/localStorage.ts:13-16 | saving throws on unparsable text, and on `null` or a primitive (the strict-mode assignment fails); a stored object always succeeds, with `user` replaced by the token pair and every other member kept; a stored array comes back unchanged |
| TokenStore.SaveStartsFromEmpty | src/store/localStorage.ts:13-16 | with nothing stored, the saved document is exactly `{user: {access_token, refresh_token}}` |
| TokenStore.Storage.constructor | src/store/localStorage.ts:2 | the storage starts with the given items |
| TokenStore.Storage.SaveTokens | src/store/localStorage.ts:13-17 | on success only `APP_STATE` changes, to the stringified document; when it throws nothing is written |
| TokenStore.SaveThenGet | src/store/localStorage.ts:4-17 | when the stored text parses to an object, saving succeeds and `getToken` then returns the saved access and refresh tokens |
| TokenStore.SavedArrayKeepsNoTokens | src/store/localStorage.ts:13-17 | when the stored text parses to an array, the save succeeds but both tokens still read as "" |
| PermissionMatrix.Position | src/pages/iam/user/DetailUser/src/PermissionUser/ListPermissionUser/tableConfig/type.ts:23-33 | every feature key has a position in `FEATURE_ORDER` |
| PermissionMatrix.FeatureOrderListsEachKeyOnce | src/pages/iam/user/DetailUser/src/PermissionUser/ListPermissionUser/tableConfig/type.ts:3-33 | `FEATURE_ORDER` lists each of the nine keys exactly once |
| PermissionMatrix.NamesAndLabelsDistinct | src/pages/iam/user/DetailUser/src/PermissionUser/ListPermissionUser/tableConfig/type.ts:3-46 | different features have different key names and different labels |
| PermissionMatrix.Effective | src/pages/iam/user/DetailUser/src/PermissionUser/ListPermissionUser/tableConfig/type.ts:56-57 | a feature missing from the map has neither read nor write |
| PermissionMatrix.BuildRowsFromMap | src/pages/iam/user/DetailUser/src/PermissionUser/ListPermissionUser/tableConfig/type.ts:50-59 | nine rows in `FEATURE_ORDER`, each with its key, its label and its effective read and write |
| PermissionMatrix.SameRowsIffSameAccess | src/pages/iam/user/DetailUser/src/PermissionUser/ListPermissionUser/tableConfig/type.ts:50-59 | two maps build the same rows exactly when they grant every feature the same access |
| PermissionForm.Flip | src/pages/iam/user/DetailUser/src/PermissionUser/FormPermissionUser/FormUserPermission.tsx:14 | flipping negates the chosen field and keeps the key, the name and the other field |
| PermissionForm.ToggleCell | src/pages/iam/user/DetailUser/src/PermissionUser/FormPermissionUser/FormUserPermission.tsx:12-16 | a toggle changes only row `index`, and in it only the chosen field |
| PermissionForm.ToggleTwiceRestores | src/pages/iam/user/DetailUser/src/PermissionUser/FormPermissionUser/FormUserPermission.tsx:12-16 | toggling the same cell twice restores the rows |
| PermissionForm.TogglesCommute | src/pages/iam/user/DetailUser/src/PermissionUser/FormPermissionUser/FormUserPermission.tsx:12-16 | two toggles give the same rows in either order |
| PermissionForm.HandleToggle | src/pages/iam/user/DetailUser/src/PermissionUser/FormPermissionUser/FormUserPermission.tsx:12-16 | `handleToggle` builds a fresh copy equal to the toggled rows, leaving the caller's array as it was |
| PermissionForm.FieldOfKey | src/pages/iam/user/DetailUser/src/PermissionUser/FormPermissionUser/FormUserPermission.tsx:19-23 | exactly the keys 'read' and 'write' name a toggleable field, and that field's key |
| PermissionForm.EditableColumns | src/pages/iam/user/DetailUser/src/PermissionUser/FormPermissionUser/FormUserPermission.tsx:18-36 | READ and WRITE get a toggle for their own field; every other column passes through unchanged |
| PermissionForm.ClickFlipsOnlyThatCell | src/pages/iam/user/DetailUser/src/PermissionUser/FormPermissionUser/FormUserPermission.tsx:18-36 | in the form built from `featureColumns`, a click on a cell changes that cell's mark and no other |
| CreatePermission.Underscores | src/pages/iam/user/DetailUser/src/PermissionUser/CreatePermissionUser/CreatePermissionUser.tsx:10 | `replace(/_/g, ' ')` turns every underscore into a space and keeps every other character |
| CreatePermission.CapitalizeWords | src/pages/iam/user/DetailUser/src/PermissionUser/CreatePermissionUser/CreatePermissionUser.tsx:10 | `\b\w` upper-cases exactly the word characters with no word character before them |
| CreatePermission.TitleCase | src/pages/iam/user/DetailUser/src/PermissionUser/CreatePermissionUser/CreatePermissionUser.tsx:10 | the formatted name is as long as the key and has no underscores |
| CreatePermission.TitleCaseIdempotent | src/pages/iam/user/DetailUser/src/PermissionUser/CreatePermissionUser/CreatePermissionUser.tsx:10 | formatting a formatted name changes nothing |
| CreatePermission.NamesMatchLabelsExceptApiDoc | src/pages/iam/user/DetailUser/src/PermissionUser/CreatePermissionUser/CreatePermissionUser.tsx:10 | the page's names equal `FEATURE_LABELS` for every feature except `api_doc` ('Api Doc' against 'API Doc') |
| CreatePermission.InitialRows | src/pages/iam/user/DetailUser/src/PermissionUser/CreatePermissionUser/CreatePermissionUser.tsx:7-14 | one row per feature in `FEATURE_ORDER`, with the formatted name and no access |
| CreatePermission.InitialRowsGrantNothing | src/pages/iam/user/DetailUser/src/PermissionUser/CreatePermissionUser/CreatePermissionUser.tsx:7-14 | apart from the names, the initial rows are the rows an empty permission map builds |
| CreatePermission.CreatePermissionPage.constructor | src/pages/iam/user/DetailUser/src/PermissionUser/CreatePermissionUser/CreatePermissionUser.tsx:7-14 | the page starts with the initial rows |
| CreatePermission.CreatePermissionPage.OnChange | src/pages/iam/user/DetailUser/src/PermissionUser/CreatePermissionUser/CreatePermissionUser.tsx:29 | the form's `onChange` replaces the rows |
| CreatePermission.CreatePermissionPage.Toggle | src/pages/iam/user/DetailUser/src/PermissionUser/CreatePermissionUser/CreatePermissionUser.tsx:29 | a click in the embedded form leaves the rows toggled at that cell |
| CreatePermission.CreatePermissionPage.HandleSubmit | src/pages/iam/user/DetailUser/src/PermissionUser/CreatePermissionUser/CreatePermissionUser.tsx:16-21 | the submit sends the current rows as they are, for the fixed placeholder user id `'new-user-id'` |
| Sidebar.StripTrailingSlash | src/layouts/Sidebar.tsx:97 | one trailing slash is removed if present, otherwise the path is kept |
| Sidebar.StripLeadingSlash | src/layouts/Sidebar.tsx:97 | one leading slash is removed if present, otherwise the path is kept |
| Sidebar.EmptyBaseKeepsChild | src/layouts/Sidebar.tsx:94-98 | with no parent path the child path is used as it is |
| Sidebar.JoinNormalisesOneSlash | src/layouts/Sidebar.tsx:94-98 | the join puts exactly one slash between parent and child, whether or not either brought one |
| Sidebar.OnlyOneSlashStripped | src/layouts/Sidebar.tsx:97 | only one slash is stripped on each side, so doubled slashes survive |
| Sidebar.ChildTargets | src/layouts/Sidebar.tsx:93-98 | an item's child targets are its children's paths joined onto its own, in order |
| Sidebar.ConfiguredLinks | src/layouts/Sidebar.tsx:17-36 | the overview is a plain link, and IAM is a group whose children lead to /iam/users, /iam/roles, /iam/permissions, /iam/policies and /iam/features |
| FormRules.Required | src/pages/auth/LoginPage/LoginPage.tsx:84-86 | a `required` rule rejects exactly the empty value, with its own message; the login fields and the register name use it alone |
| LoginPage.SubmitsIffBothFilled | src/pages/auth/LoginPage/LoginPage.tsx:84-118 | the form submits exactly when both fields are non-empty |
| LoginPage.JoinCons | src/pages/auth/LoginPage/LoginPage.tsx:65-66 | `join(', ')` puts the separator between consecutive messages only |
| LoginPage.JoinEmptyIff | src/pages/auth/LoginPage/LoginPage.tsx:65-66 | a join is empty exactly for no messages or one empty message |
| LoginPage.Msgs | src/pages/auth/LoginPage/LoginPage.tsx:65-66 | the messages are the items' `msg` fields, in order |
| LoginPage.ErrorMessage | src/pages/auth/LoginPage/LoginPage.tsx:59-70 | a string detail is shown as is, a list detail as its messages joined with ", ", anything else as the default text |
| LoginPage.ListMessageInOrder | src/pages/auth/LoginPage/LoginPage.tsx:65-66 | a list banner starts with the first item's message, followed by the rest after ", " |
| LoginPage.EmptyBannerIff | src/pages/auth/LoginPage/LoginPage.tsx:59-70 | the banner text is empty only for an empty string detail, an empty list, or a list of one empty message |
| LoginPage.AfterLogin | src/pages/auth/LoginPage/LoginPage.tsx:41-48 | a successful login navigates to "/" without replacing history; a failed one stays |
| RegisterPage.FirstIndexOf | src/pages/auth/RegisterPage/RegisterPage.tsx:109 | the first occurrence of a character, or none |
| RegisterPage.LastIndexOf | src/pages/auth/RegisterPage/RegisterPage.tsx:109 | the last occurrence of a character, or none |
| RegisterPage.EmailCheckMatchesPattern | src/pages/auth/RegisterPage/RegisterPage.tsx:109 | the direct check (first '@', last '.') accepts exactly the strings the email regular expression matches |
| RegisterPage.AcceptsPlainAddress | src/pages/auth/RegisterPage/RegisterPage.tsx:109 | "user1@example.com" matches the pattern |
| RegisterPage.RejectsOneLetterEnding | src/pages/auth/RegisterPage/RegisterPage.tsx:109 | "a@b.c" does not match: the ending needs two letters |
| RegisterPage.RejectsDoubleAt | src/pages/auth/RegisterPage/RegisterPage.tsx:109 | "a@@b.co" does not match: the domain cannot hold '@' |
| RegisterPage.EmailError | src/pages/auth/RegisterPage/RegisterPage.tsx:106-112 | the email passes exactly when it matches the pattern; an empty one is asked for, a non-matching one is called invalid |
| RegisterPage.PasswordError | src/pages/auth/RegisterPage/RegisterPage.tsx:129-132 | the password passes exactly when it has at least 6 characters; an empty one is asked for, a short one is told the minimum |
| RegisterPage.SubmitsIff | src/pages/auth/RegisterPage/RegisterPage.tsx:90-132 | the form submits exactly when the name is non-empty, the email matches and the password has at least 6 characters |
| RegisterPage.ErrorText | src/pages/auth/RegisterPage/RegisterPage.tsx:72-77 | the banner shows a truthy server detail, otherwise the default text; it is never empty |
| RegisterPage.AuthenticatedRedirect | src/pages/auth/RegisterPage/RegisterPage.tsx:46-51 | an authenticated visitor is sent, replacing history, to the page they came from if known, otherwise to "/" |
| RegisterPage.AfterRegister | src/pages/auth/RegisterPage/RegisterPage.tsx:53-60 | a successful registration goes to "/login", replacing history; a failed one stays |
| EditPolicy.FieldNameInjective | src/pages/iam/policy/ListPolicies/EditPolicyDialog.tsx:103 | the five JSON fields have distinct form names |
| EditPolicy.Index | src/pages/iam/policy/ListPolicies/EditPolicyDialog.tsx:103 | every JSON field is in the list the submit walks |
| EditPolicy.JsonFieldsDistinct | src/pages/iam/policy/ListPolicies/EditPolicyDialog.tsx:103 | that list names each field once |
| EditPolicy.Verdict | src/pages/iam/policy/ListPolicies/EditPolicyDialog.tsx:86-95 | the stored message is "" exactly when the text parses, and "Invalid JSON: " plus the parser's message otherwise |
| EditPolicy.ValidateJsonStep | src/pages/iam/policy/ListPolicies/EditPolicyDialog.tsx:83-97 | a field is valid iff it is blank or parses; a blank field leaves the errors as they were, any other field records its verdict |
| EditPolicy.OkIffEveryFieldValid | src/pages/iam/policy/ListPolicies/EditPolicyDialog.tsx:104-113 | the submit's validation passes exactly when every listed field is blank or parses |
| EditPolicy.VerdictsAfterValidation | src/pages/iam/policy/ListPolicies/EditPolicyDialog.tsx:90-111 | after validation every non-blank field holds its own verdict |
| EditPolicy.UntouchedKeysKept | src/pages/iam/policy/ListPolicies/EditPolicyDialog.tsx:84-111 | validation leaves every other key's message as it was, including the keys of blank fields |
| EditPolicy.EveryInvalidFieldReported | src/pages/iam/policy/ListPolicies/EditPolicyDialog.tsx:90-111 | every field that fails to parse ends up with "Invalid JSON: " and its parser message |
| EditPolicy.BlankFieldKeepsStaleMessage | src/pages/iam/policy/ListPolicies/EditPolicyDialog.tsx:84 | a field emptied after a failed validation keeps its old message while the form now validates |
| EditPolicy.ConvertAsWritten | src/pages/iam/policy/ListPolicies/EditPolicyDialog.tsx:118-122 | a condition is `undefined` (the key is left out of the body) only when its text is exactly ""; any other text is parsed |
| EditPolicy.Convert | src/pages/iam/policy/ListPolicies/EditPolicyDialog.tsx:84-122 | a blank condition is `undefined` (the key is left out of the body); the conversion succeeds exactly when the field is valid |
| EditPolicy.Assemble | src/pages/iam/policy/ListPolicies/EditPolicyDialog.tsx:116-123 | the payload is built iff every conversion succeeds, with those conditions and the other fields copied; otherwise the first failure is returned |
| EditPolicy.WhitespaceFieldThrowsAsWritten | src/pages/iam/policy/ListPolicies/EditPolicyDialog.tsx:84-122 | as written, a form with a whitespace-only condition validates, yet building its payload throws |
| EditPolicy.ValidatedFormBuildsPayload | src/pages/iam/policy/ListPolicies/EditPolicyDialog.tsx:104-123 | with blank fields read as `undefined` (the key is left out of the body), every form that validates builds its payload, each condition `undefined` or the parsed text |
| EditPolicy.CorrectionOnlyAffectsWhitespaceFields | src/pages/iam/policy/ListPolicies/EditPolicyDialog.tsx:118-122 | the corrected conversion agrees with the written one on every text that is not whitespace-only and non-empty |
| EditPolicy.EditPolicyDialog.constructor | src/pages/iam/policy/ListPolicies/EditPolicyDialog.tsx:83-97 | the dialog starts with no JSON errors |
| EditPolicy.EditPolicyDialog.ValidateJson | src/pages/iam/policy/ListPolicies/EditPolicyDialog.tsx:83-97 | `validateJson` performs `ValidateJsonStep` on the dialog's errors |
| EditPolicy.ValidatedThrowsOnlyOnWhitespace | src/pages/iam/policy/ListPolicies/EditPolicyDialog.tsx:104-123 | as written, a validated form with no whitespace-only field builds its payload, the same one as the corrected conversion |
| EditPolicy.EditPolicyDialog.ValidateAll | src/pages/iam/policy/ListPolicies/EditPolicyDialog.tsx:104-113 | the submit's loop leaves the errors and the verdict of validating every JSON field in turn |
| EditPolicy.EditPolicyDialog.Submit | src/pages/iam/policy/ListPolicies/EditPolicyDialog.tsx:99-131 | with no policy nothing happens; otherwise all fields are validated and on failure nothing is sent; a validated form whose payload parse throws sends nothing and stays open; otherwise the payload for that id is sent, and the dialog closes iff the update succeeds |
| EditPolicy.EditPolicyDialog.SubmitCorrected | src/pages/iam/policy/ListPolicies/EditPolicyDialog.tsx:99-131 | with blank fields sent as `undefined` (the key is left out of the body), every validated form sends its payload for that id, and nothing ever throws |
| EditPolicy.EditPolicyDialog.HandleOpenChange | src/pages/iam/policy/ListPolicies/EditPolicyDialog.tsx:133-138 | closing clears the JSON errors; the parent is told the new open state |

## Left out

- Floating point: page numbers, sizes and totals are integers. Fractional or NaN values that
  JavaScript's numbers allow are not modelled.
- Time: each debounce timer is a `TimerFires` event. Which timer fires when, and `debounceMs`,
  are not modelled. Only the last armed timer can fire, because each update clears the
  previous one.
- HTTP and promises: request and refresh outcomes are parameters or events. The order in which
  the released requests and the original request are sent again is not modelled; the model
  only states which configs are released.
- JSON syntax: `JSON.parse` and `JSON.stringify` are an abstract `Codec`. The laws assumed of it
  are stated in `Json.Lawful`. `EditPolicy.RejectsBlank` (a blank text does not parse) is
  assumed only by the counterexample `EditPolicy.WhitespaceFieldThrowsAsWritten`; the
  corrected conversion and its lemmas assume nothing of the parser.
- Rendering: JSX layout, icons, styles, dialogs other than the edit-policy dialog, and
  `alert`/`confirm` as UI. A confirmation is a boolean, and an alert is a value in the outcome.
- Form library: react-hook-form is modelled only as the rules these pages give it. `required`
  rejects the empty string. `pattern` and `minLength` apply to non-empty values. Errors are
  reported per field in declaration order. Re-validation on change is not modelled.
- String length: `length` counts UTF-16 code units; the model counts characters.
- PermissionForm.HandleToggle: requires the index to be in range. Out of range, the source throws a TypeError and leaves the rows as they were; the table
  only passes indices of rows it renders.
- Pagination.PaginationHook.SetPageSize: the clamp is modelled on integers only; `Math.max`
  with NaN is left out with the other floating-point cases.
- ListRoles.RolesPage.OnPageChange and UserMnt.UserMntPage.OnPageChange: store the page as
  given, like the source's `setPage`; the table only ever passes pages it has enabled.
- UserMnt.UserMntPage.OnPageSizeChange: states the rows shown only for non-negative sizes;
  the selector offers only positive ones.
- Console logging of failed deletes and of refresh errors is not modelled.
- The thin HTTP wrappers that only forward to the client (the users, roles and auth API
  modules) and the query hooks built on them are not part of this model; the list pages'
  queries are stated as the values they pass to those hooks.
- CreatePermission.CreatePermissionPage.HandleSubmit: the user id is the source's fixed
  placeholder `'new-user-id'`; no real user is looked up.
- Mutations (delete role, update policy, login, register, update permissions) are their
  outcomes, passed in as booleans.
- EditPolicy.EditPolicyDialog.Submit: after a successful update the dialog closes through the
  parent's `onOpenChange(false)` directly, so its own JSON errors are not cleared; the model
  keeps them, as the source does.

## Findings

| source | as written | input that shows it | evidently intended | confidence | as-written member | corrected member |
|---|---|---|---|---|---|---|
| src/pages/iam/policy/ListPolicies/EditPolicyDialog.tsx:84-122 | validation skips a field whose `trim()` is empty, but the payload parses every field that is not exactly `''` | a subject-conditions field holding a single space `" "` | a field that validation accepts as blank is sent as `undefined` (the key is left out of the body), so every validated form is sent (`EditPolicy.ValidatedFormBuildsPayload`) | not executed | EditPolicy.WhitespaceFieldThrowsAsWritten | EditPolicy.EditPolicyDialog.SubmitCorrected |
