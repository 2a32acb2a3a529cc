# Niribili-Admin: a verified model of the dashboard's logic

Niribili-Admin is the React dashboard of a residential meal and billing service. Admins manage:

- buildings, flats and residents;
- meal switches and locked meal orders;
- wallets, transactions and bills.

Residents see their own dashboard. Its screens are mostly presentation. Under them sits a set of small, sequential rules, and this project states those rules in Dafny and proves what they promise:

- **The authenticated HTTP client.** It attaches the access-token cookie to every request. When a request comes back with 401, it starts a single token refresh. Every other 401 that arrives in the meantime waits in a FIFO queue. When the refresh settles, the waiters are resolved or rejected together. A failure also signs the user out.
- **The locked-meals CSV export.** A bare 14-column header, followed by one line per order. Every field is quoted and inner quotes are doubled, as in rule 7 of section 2 of RFC 4180.
- **List rules.** These cover:
  - the transaction type and search filters;
  - page slicing;
  - the numbered page window;
  - the tab and search filters of the profile, user, wallet and meal lists;
  - resident counts and flat residents of the building screen.
- **Small state updates.** These cover:
  - per-id toggles of meal switches and access restrictions;
  - the route guard and the active-link rule of the side bar;
  - sign-in and sign-out over the token cookies;
  - lock-result handling and user-id deduplication;
  - the wallet-adjust guard and reset;
  - the bill arithmetic.

## How the model is organised

There is one module per source file, plus three helper modules:

- `Wrappers` holds `Option` and `Result`.
- `Strings` holds the JavaScript string operations the code uses.
- `Seqs` holds `Array.prototype.filter` and "is an order-preserving subsequence of".

`Browser` models the two pieces of browser state the code touches:

- the cookie store, a map from name to value and options;
- `window.location.href`, recorded as a string.

**Modelling choices:**

- **State that the source updates in place becomes a class:**
  - the interceptor's module-level `isRefreshing` and `failedQueue`;
  - a request's `_retry` mark and `Authorization` header;
  - each screen's React state.
- **Awaits.** An `await` on the network either splits an operation into a "request sent" method and a "reply arrived" method, or takes the reply as a parameter. Where the order of effects matters, an `effects` log records it. This covers refresh posts, cookie writes and removals, waiter releases and navigation.
- **State updaters and screen lists.** A React `setX(prev => f(prev))` with a pure `f` is modelled as that pure function `f`. Filters and derived lists are pure functions. Each such function has a lemma saying which elements it keeps, and that it keeps them in order.

## Model

| member | source | states |
|---|---|---|
| Browser.CookieValue | src/context/AuthContext.tsx:43 | a cookie is read back as present exactly when it was stored, with its stored value |
| Browser.Window.SetCookie | src/context/AuthContext.tsx:70-71 | writing a cookie replaces that name's entry, with its value, expiry days, `secure` flag and strict same-site, and leaves the location alone |
| Browser.Window.RemoveCookie | src/context/AuthContext.tsx:80-81 | removing a cookie drops exactly that name |
| Browser.Window.Navigate | src/context/AuthContext.tsx:83 | assigning the location changes the target only |
| Strings.Trim | src/components/dashboard/AllUser.tsx:61 | trimming yields the empty string exactly for an all-white-space input; otherwise the result is the slice of the input that starts after its leading white space, starts and ends with a non-space, and is followed only by white space |
| Strings.ContainsIff | src/components/dashboard/AllUser.tsx:64-66 | `includes` holds exactly when the query occurs at some offset of the string |
| Strings.ContainsEmpty | src/components/dashboard/MealControl.tsx:117 | every string includes the empty string |
| Strings.ToLower | src/components/dashboard/AllUser.tsx:61 | lower-casing keeps the length and maps each character independently |
| Strings.IntToString | src/pages/LockedMeals.tsx:93-95 | `String(n)` is never empty and starts with a minus sign exactly for negative numbers |
| Strings.NatToString | src/pages/LockedMeals.tsx:93-95 | `String(n)` of a natural number is a non-empty run of digits, and is "0" exactly for zero |
| Strings.NatToStringStep | src/pages/LockedMeals.tsx:93-95 | appending a decimal digit to a positive number appends that digit's character to its rendering |
| Strings.NatToStringValue | src/pages/LockedMeals.tsx:93-95 | the rendering of n, read as a decimal numeral, is n, and it starts with '0' only for zero |
| Strings.IntToStringValue | src/pages/LockedMeals.tsx:93-95 | the rendering of an integer reads back as that integer: a minus sign followed by the digits of its magnitude when negative |
| Seqs.Filter | src/components/dashboard/UserTransaction.tsx:108 | `filter` keeps, in order, only elements that pass the test and every element that passes it, and keeps a sequence whose every element passes the test unchanged (the counts are in FilterMultiset) |
| Seqs.FilterMultiset | src/components/dashboard/UserTransaction.tsx:108 | each element that passes the test is kept as often as it occurs in the input, and every other element not at all |
| Seqs.FilterFilter | src/components/dashboard/AllUser.tsx:44-68 | two filters in a row equal one filter by the conjunction of their tests |
| Seqs.FilterTwice | src/components/dashboard/AllProfile.tsx:59-75 | two filters in a row keep, in order, exactly the elements that pass both tests, each as often as it occurs in the input |
| Seqs.SubsequenceTrans | src/components/dashboard/UserTransaction.tsx:104-121 | a subsequence of a subsequence is a subsequence, so successive narrowing steps preserve order |
| AxiosSecure.AuthorizationHeader | src/AllHooks/useAxiosSecure.tsx:52-58 | a header is attached exactly when the `accessToken` cookie is present and non-empty; it is the raw token, with no "Bearer " scheme as in section 2.1 of RFC 6750 |
| AxiosSecure.UsableRefreshToken | src/AllHooks/useAxiosSecure.tsx:84-88 | the refresh token is usable exactly when its cookie is present and non-empty |
| AxiosSecure.ReleasesInOrder | src/AllHooks/useAxiosSecure.tsx:32-41 | `processQueue` settles one waiter per queue entry: the i-th release goes to the i-th waiter, and all get the same outcome |
| AxiosSecure.ReleasesAppend | src/AllHooks/useAxiosSecure.tsx:33-39 | releasing a concatenated queue releases the first part, then the second |
| AxiosSecure.RefreshPostsAppend | src/AllHooks/useAxiosSecure.tsx:90-93 | refresh calls in a concatenated effect log add up |
| AxiosSecure.ReleasesPostNothing | src/AllHooks/useAxiosSecure.tsx:32-41 | settling the queue never calls the refresh endpoint |
| AxiosSecure.NoRefreshPosts | src/AllHooks/useAxiosSecure.tsx:106-114 | cookie removals and navigation add no refresh calls |
| AxiosSecure.SecureClient.constructor | src/AllHooks/useAxiosSecure.tsx:26-30 | the client starts idle, with an empty queue, and satisfies the single-flight invariant |
| AxiosSecure.SecureClient.AttachToken | src/AllHooks/useAxiosSecure.tsx:52-58 | the request interceptor sets `Authorization` to the usable access token, or leaves the header untouched; `_retry` stays as it was |
| AxiosSecure.SecureClient.ProcessQueue | src/AllHooks/useAxiosSecure.tsx:32-41 | every waiter is released in queue order with the same release, then the queue is empty; the refresh flag is untouched |
| AxiosSecure.SecureClient.FailRefresh | src/AllHooks/useAxiosSecure.tsx:106-117 | a failed refresh does four things: (1) it rejects every waiter with the error, in order; (2) it removes both cookies; (3) it navigates to "/"; (4) it returns the error and clears `isRefreshing` |
| AxiosSecure.SecureClient.OnResponseError | src/AllHooks/useAxiosSecure.tsx:61-121 | (1) A non-401 error, or a 401 on a request already marked `_retry`, is passed on unchanged with nothing else touched. (2) A 401 during a refresh appends the request to the queue, unmarked, without a second refresh. (3) A 401 while idle marks the request and either posts exactly one refresh or, without a usable refresh token, takes the failure path without posting. The single-flight invariant is kept throughout |
| AxiosSecure.SecureClient.OnRefreshSucceeded | src/AllHooks/useAxiosSecure.tsx:95-117 | (1) The token cookie is written with 7-day expiry before any waiter is released. (2) The waiters are resolved with that token in queue order. (3) The original request gets the new header and is retried. (4) The flag is cleared and the queue left empty |
| AxiosSecure.SecureClient.OnRefreshFailed | src/AllHooks/useAxiosSecure.tsx:106-117 | the waiters are rejected with the refresh error in order; both cookies go; the location becomes "/"; the flag is cleared; the single-flight invariant is kept |
| AxiosSecure.SingleFlight | src/AllHooks/useAxiosSecure.tsx:67-93 | when N distinct unmarked requests meet 401 from an idle client with a refresh token, exactly one refresh call is made; the first request is pending, and the others wait in the queue in arrival order, never marked `_retry` |
| AxiosSecure.Releases | src/AllHooks/useAxiosSecure.tsx:32-41 | one settlement per queued request, all with the same outcome; ReleasesInOrder proves the order is the queue's |
| AxiosSecure.RefreshPosts | src/AllHooks/useAxiosSecure.tsx:90-93 | the number of refresh-token posts among the effects; the client invariant equates it with the finished refresh rounds plus the one in flight, and SingleFlight shows N concurrent 401s post once |
| LockedMeals.Headers | src/pages/LockedMeals.tsx:66-81 | the header has exactly 14 column names |
| LockedMeals.HeaderNamesUnquoted | src/pages/LockedMeals.tsx:66-82 | the 14 column names are non-empty and contain no quote, so the bare header line needs no escaping |
| LockedMeals.RowFields | src/pages/LockedMeals.tsx:84-99 | every order yields exactly 14 fields |
| LockedMeals.QuoteAll | src/pages/LockedMeals.tsx:101 | quoting keeps one entry per field |
| LockedMeals.RowLines | src/pages/LockedMeals.tsx:83-103 | there is one data line per order |
| LockedMeals.RowLinesAt | src/pages/LockedMeals.tsx:83-103 | data line i is the line of order i |
| LockedMeals.RowLinesSnoc | src/pages/LockedMeals.tsx:100-102 | pushing an order appends its line at the end |
| LockedMeals.CsvLines | src/pages/LockedMeals.tsx:82-103 | the lines array has `orders.length + 1` entries: the header line, then the data lines |
| LockedMeals.CsvLinesInOrder | src/pages/LockedMeals.tsx:82-103 | line i + 1 is the line of order i, so input order is kept |
| LockedMeals.OrdersToCsv | src/pages/LockedMeals.tsx:64-105 | an absent or empty list gives ""; otherwise the result is the header and data lines joined by "\n" |
| LockedMeals.ParseQuoted | src/pages/LockedMeals.tsx:101 | the reader of a quoted field always consumes input (its partner for the round trip) |
| LockedMeals.ParseEscaped | src/pages/LockedMeals.tsx:101 | un-doubling the escaped body up to the closing quote recovers the original value and the rest of the input |
| LockedMeals.ParseOneField | src/pages/LockedMeals.tsx:101 | a single quoted field reads back as its value |
| LockedMeals.ParseFieldThenLine | src/pages/LockedMeals.tsx:101 | a quoted field, a comma and a readable line read back as the field followed by the line's fields |
| LockedMeals.ParseJoinedFields | src/pages/LockedMeals.tsx:101 | quoting fields, joining them with commas and reading the line back gives the fields |
| LockedMeals.RowLineRoundTrip | src/pages/LockedMeals.tsx:84-101 | every data line reads back as exactly the 14 raw values of its order |
| LockedMeals.MissingFieldsBlank | src/pages/LockedMeals.tsx:86-98 | every field the source writes through `||` or `??` is an empty field when its value is missing: meal date and type, the user's name, phone and email (also when the user is missing), building and flat names, quantity, unit price, total price, status, paid flag and creation time |
| LockedMeals.ZeroAndFalseKept | src/pages/LockedMeals.tsx:93-97 | `??` keeps 0 and false rather than blanking them; a present total is never blank |
| LockedMeals.NoTrailingNewline | src/pages/LockedMeals.tsx:104 | the document ends with the last field's closing quote, not with a newline |
| LockedMeals.QuoteAllLast | src/pages/LockedMeals.tsx:101 | the last quoted entry is the quoted last value |
| LockedMeals.HeaderLine | src/pages/LockedMeals.tsx:82 | the header names joined by commas, unquoted; HeaderNamesUnquoted shows none of them holds a quote |
| LockedMeals.Escape | src/pages/LockedMeals.tsx:101 | every double quote is doubled and every other character kept; RowLineRoundTrip reads the escaped text back |
| LockedMeals.EscapeChangesOnlyQuotes | src/pages/LockedMeals.tsx:101 | escaping never shortens a value, leaves a value without double quotes as it is, and lengthens one that has any |
| LockedMeals.Quote | src/pages/LockedMeals.tsx:101 | a written field is the escaped value between two double quotes; ParseQuoted reads it back (RowLineRoundTrip) |
| LockedMeals.RowLine | src/pages/LockedMeals.tsx:100-102 | the 14 quoted fields of an order joined by commas; RowLineRoundTrip splits it back into the raw fields |
| UserTransaction.ByTypeFacts | src/components/dashboard/UserTransaction.tsx:107-109 | the type step keeps, in order, exactly the transactions of the chosen type, each as often as it occurs in the input, and everything under "all" |
| UserTransaction.BySearchFacts | src/components/dashboard/UserTransaction.tsx:112-119 | the search step is skipped for a blank query; otherwise it keeps, in order, exactly the transactions whose lower-cased name or email contains the lower-cased, untrimmed query, each as often as it occurs in the input |
| UserTransaction.FilteredTransactions | src/components/dashboard/UserTransaction.tsx:103-122 | filtering never lengthens the list |
| UserTransaction.FilteredIsSubsequence | src/components/dashboard/UserTransaction.tsx:103-121 | the kept transactions are an order-preserving subsequence of the fetched ones |
| UserTransaction.FilteredKeepsExactly | src/components/dashboard/UserTransaction.tsx:103-121 | a transaction is kept exactly when it passes both the type test and the search test |
| UserTransaction.FilteredCounts | src/components/dashboard/UserTransaction.tsx:103-121 | a transaction passing both tests is kept as often as it occurs, and any other is dropped |
| UserTransaction.FilteredAllBlank | src/components/dashboard/UserTransaction.tsx:103-121 | with "all" and a blank search the filtered list is the fetched list |
| UserTransaction.FilteredHasType | src/components/dashboard/UserTransaction.tsx:107-109 | under a type filter every kept transaction has that type |
| UserTransaction.FilterTransactions | src/components/dashboard/UserTransaction.tsx:103-122 | narrowing `filtered` step by step yields the filtered list |
| UserTransaction.TotalPages | src/components/dashboard/UserTransaction.tsx:140 | `Math.ceil(n / 10)`: the least page count whose pages hold n items; zero exactly for no items |
| UserTransaction.SliceIndex | src/components/dashboard/UserTransaction.tsx:143 | a slice bound counts negative values from the end and is clamped into the list |
| UserTransaction.PageSlice | src/components/dashboard/UserTransaction.tsx:141-143 | (1) A page holds at most 10 items, and from page 1 on it is the list from `(currentPage - 1) * 10`, clamped. (2) Every existing page is non-empty. (3) Every page before the last is full. (4) Pages past the end are empty |
| UserTransaction.FirstPagesPrefix | src/components/dashboard/UserTransaction.tsx:141-143 | the first k pages read in turn form the list's prefix of 10k items |
| UserTransaction.PagesCoverItems | src/components/dashboard/UserTransaction.tsx:140-143 | pages 1 to `totalPages`, read in turn, are the whole filtered list, so nothing is lost or repeated |
| UserTransaction.PageRun | src/components/dashboard/UserTransaction.tsx:155-157 | the entries lo … hi, one per page number |
| UserTransaction.PaginationRange | src/components/dashboard/UserTransaction.tsx:150-183 | (1) With at most 5 pages the bar is exactly pages 1 to `totalPages`. (2) Otherwise it starts with 1 and ends with `totalPages`. (3) It has 6 entries when `currentPage <= 3` or `currentPage >= totalPages - 2`, and 7 in every other case |
| UserTransaction.PaginationRangeSkipsNothing | src/components/dashboard/UserTransaction.tsx:150-183 | the page numbers rise strictly and lie in 1 to `totalPages`; neighbouring buttons are consecutive, and each ellipsis stands for at least one hidden page |
| UserTransaction.HeadBar | src/components/dashboard/UserTransaction.tsx:159-164 | the bar near the start names existing pages and skips nothing unmarked |
| UserTransaction.TailBar | src/components/dashboard/UserTransaction.tsx:165-170 | the bar near the end names existing pages and skips nothing unmarked |
| UserTransaction.MiddleBar | src/components/dashboard/UserTransaction.tsx:171-178 | the bar around the current page names existing pages and skips nothing unmarked |
| UserTransaction.PaginationRangeShowsCurrent | src/components/dashboard/UserTransaction.tsx:150-183 | the current page, whenever it exists, has a button |
| UserTransaction.NothingSkippedIncreasing | src/components/dashboard/UserTransaction.tsx:150-183 | a bar that skips nothing unmarked has strictly rising page numbers |
| UserTransaction.Rises | src/components/dashboard/UserTransaction.tsx:150-183 | in such a bar every later button has a larger number |
| UserTransaction.GetPaginationRange | src/components/dashboard/UserTransaction.tsx:150-183 | the pushes build exactly the page window described above |
| UserTransaction.PushPages | src/components/dashboard/UserTransaction.tsx:155-170 | a `for` loop of pushes appends pages lo to hi, nothing when lo > hi |
| UserTransaction.TransactionsView.constructor | src/components/dashboard/UserTransaction.tsx:64-70 | the page starts loading, with an empty list, "all", no search, page 1 and no error |
| UserTransaction.TransactionsView.CurrentTransactions | src/components/dashboard/UserTransaction.tsx:143 | the visible rows are at most one page |
| UserTransaction.TransactionsView.SetFilterType | src/components/dashboard/UserTransaction.tsx:77-83 | choosing a different type filter refilters the list and resets the page to 1; choosing the active filter again keeps the list and the page, since React skips an update to the same value and the effects do not run |
| UserTransaction.TransactionsView.SetSearchQuery | src/components/dashboard/UserTransaction.tsx:77-83 | a different search text refilters the list and resets the page to 1; the same text again keeps the list and the page |
| UserTransaction.TransactionsView.GoToPage | src/components/dashboard/UserTransaction.tsx:145-148 | a page button changes only the current page |
| UserTransaction.TransactionsView.StartFetch | src/components/dashboard/UserTransaction.tsx:87-88 | fetching turns loading on and clears the error |
| UserTransaction.TransactionsView.FetchReplied | src/components/dashboard/UserTransaction.tsx:93-99 | (1) A successful reply replaces the list and refilters it. (2) An unsuccessful one keeps the list. (3) The page number is kept. (4) Loading ends |
| UserTransaction.TransactionsView.ApplyFilter | src/components/dashboard/UserTransaction.tsx:77-79 | the filter effect recomputes the filtered list from the current transactions, type and query, and changes nothing else |
| UserTransaction.TransactionsView.FetchFailed | src/components/dashboard/UserTransaction.tsx:96-99 | an error shows its message, or "Failed to fetch transactions" when the message is empty; loading ends |
| UserTransaction.ByType | src/components/dashboard/UserTransaction.tsx:107-109 | the type step; ByTypeFacts proves it keeps, in order, exactly the transactions of the chosen type, and all of them for "all" |
| UserTransaction.BySearch | src/components/dashboard/UserTransaction.tsx:112-119 | the search step; BySearchFacts proves it keeps, in order, exactly the matching transactions, and all of them for a blank query |
| UserTransaction.JsSlice | src/components/dashboard/UserTransaction.tsx:143 | `slice` never yields more than the list; with bounds inside the list it is the sub-list between them, and it is empty when the end is not after the start |
| UserTransaction.TransactionsView.TotalPageCount | src/components/dashboard/UserTransaction.tsx:140 | there are no pages exactly when nothing is filtered in, and the pages hold every filtered transaction |
| AllProfile.Filtered | src/components/dashboard/AllProfile.tsx:59-75 | the list never grows |
| AllProfile.FilteredExactly | src/components/dashboard/AllProfile.tsx:59-75 | the list keeps, in order, only and all the profiles of the tab that match the search. The deleted tab takes truthy `isDeleted`; approve takes "approve" or "approved"; pending and process take an exact lower-cased status. The search takes a trimmed, lower-cased query in user id, guardian name or WhatsApp number |
| AllProfile.FilteredCounts | src/components/dashboard/AllProfile.tsx:59-75 | a profile in the tab that matches the search is listed as often as it occurs, and any other is not listed |
| AllProfile.BlankSearchKeepsTab | src/components/dashboard/AllProfile.tsx:67-69 | a blank search keeps the whole tab |
| AllProfile.MissingStatusInNoStatusTab | src/components/dashboard/AllProfile.tsx:62 | a profile without an account status is in no status tab |
| AllProfile.StatusTabsIgnoreDeletion | src/components/dashboard/AllProfile.tsx:61-65 | the status tabs ignore the deletion mark, so a deleted profile stays in its status tab |
| AllProfile.StatusCell | src/components/dashboard/AllProfile.tsx:179 | the status cell shows "Deleted" for a deleted profile, else the stored status |
| AllProfile.InTab | src/components/dashboard/AllProfile.tsx:60-66 | the tab test: a truthy `isDeleted` for the deleted tab, otherwise the lower-cased status (approve or approved, pending, process); FilteredExactly and FilteredCounts keep exactly the profiles passing it, with their counts |
| AllProfile.MatchesSearch | src/components/dashboard/AllProfile.tsx:67-74 | the trimmed, lower-cased query is empty or occurs in the lower-cased user id, guardian name or WhatsApp number |
| AllUser.Filtered | src/components/dashboard/AllUser.tsx:44-68 | the directory never grows |
| AllUser.FilteredExactly | src/components/dashboard/AllUser.tsx:44-68 | the directory keeps, in order, only and all the users of the tab that match the trimmed, lower-cased query in name, email or phone |
| AllUser.FilteredCounts | src/components/dashboard/AllUser.tsx:44-68 | a user in the tab that matches the search is listed as often as it occurs, and any other is not listed |
| AllUser.BlankSearchKeepsTab | src/components/dashboard/AllUser.tsx:60-62 | a blank search keeps the whole tab |
| AllUser.TabsDisjoint | src/components/dashboard/AllUser.tsx:44-59 | no user is in two tabs |
| AllUser.DeletedOnlyInDeletedTab | src/components/dashboard/AllUser.tsx:46-49 | a user marked deleted is never in the active or blocked tab |
| AllUser.MissingStatusInNoStatusTab | src/components/dashboard/AllUser.tsx:51-57 | a user without a status is in neither the active nor the blocked tab |
| AllUser.InTab | src/components/dashboard/AllUser.tsx:44-59 | the tab test: `isDeleted === true` for the deleted tab; the other tabs drop deleted users and compare the lower-cased status; FilteredExactly and FilteredCounts keep exactly the users passing it, with their counts |
| AllUser.MatchesSearch | src/components/dashboard/AllUser.tsx:60-67 | the trimmed, lower-cased query is empty or occurs in the lower-cased name, email or phone |
| BuildingManagement.RefId | src/pages/BuildingManagement.tsx:52-60 | a reference stands for its id string or its populated object's `_id`, and for nothing when absent |
| BuildingManagement.ResidentCount | src/pages/BuildingManagement.tsx:50-55 | a building's resident count never exceeds the number of residents |
| BuildingManagement.HitsAtMostOne | src/pages/BuildingManagement.tsx:50-55 | a resident is counted for at most one of a set of distinct building ids |
| BuildingManagement.NoHits | src/pages/BuildingManagement.tsx:50-55 | a resident living in none of the buildings is counted for none |
| BuildingManagement.TotalOfNobody | src/pages/BuildingManagement.tsx:50-55 | with no residents every count is zero |
| BuildingManagement.TotalStep | src/pages/BuildingManagement.tsx:50-55 | the summed counts split into the first resident's hits plus the rest |
| BuildingManagement.ResidentCountsBounded | src/pages/BuildingManagement.tsx:50-55 | the counts over distinct building ids add up to at most the number of residents |
| BuildingManagement.FlatResidents | src/pages/BuildingManagement.tsx:57-63 | nobody is listed while no flat (or an empty id) is selected; otherwise the list is, in order, exactly the residents whose normalised flat reference is the selection, each as often as it occurs in the input |
| BuildingManagement.UnitsOf | src/pages/BuildingManagement.tsx:175 | the units of a building are, in order, exactly the flats whose `buildingId` equals the id as is, each as often as it occurs in the input |
| BuildingManagement.PopulatedRefCountsOnlyResidents | src/pages/BuildingManagement.tsx:50-55 | a populated building reference counts a resident but never a unit, because only the resident count normalises it |
| BuildingManagement.Selection.constructor | src/pages/BuildingManagement.tsx:28-29 | nothing is selected at first |
| BuildingManagement.Selection.SelectBuilding | src/pages/BuildingManagement.tsx:137 | selecting a building clears the selected flat, so no residents are listed |
| BuildingManagement.Selection.SelectFlat | src/pages/BuildingManagement.tsx:178 | selecting a unit keeps the building |
| BuildingManagement.Selection.HandleDelete | src/pages/BuildingManagement.tsx:65-81 | (1) A cancelled dialog changes nothing. (2) A confirmed one sends the delete; if the delete fails it stops there. (3) Otherwise it reloads and clears the building selection for a building, or the flat selection for a flat |
| BuildingManagement.DeleteUrl | src/pages/BuildingManagement.tsx:156-184 | a building's delete path is "/buildings/" followed by the id, a flat's is "/flats/" followed by the id |
| BuildingManagement.Selection.VisibleUnits | src/pages/BuildingManagement.tsx:169-175 | no units while no building (or an empty id) is selected; otherwise, in order, exactly the flats of the selected building, each as often as it occurs in the input |
| BuildingManagement.Selection.VisibleResidents | src/pages/BuildingManagement.tsx:57-63 | no residents while no flat is selected or the selection is empty; the listed residents are, in order, users of the selected flat, and they are exactly what `FlatResidents` lists for that selection (every resident of the flat, with counts) |
| DashboardLayout.Below | src/Layouts/DashboardLayout.tsx:35-41 | the child routes are the root, a slash and the segment |
| DashboardLayout.MenuItems | src/Layouts/DashboardLayout.tsx:51-54 | the user role shows the user menu; the admin role, and no role at all, show the admin menu |
| DashboardLayout.IsActiveIff | src/Layouts/DashboardLayout.tsx:59-61 | an item is active exactly on its own path or on its path followed by a slash |
| DashboardLayout.NoSlashNoMatch | src/Layouts/DashboardLayout.tsx:60 | "/admin-dashboardx" does not activate "/admin-dashboard" |
| DashboardLayout.ChildActivatesRoot | src/Layouts/DashboardLayout.tsx:60 | every route below a root activates the root |
| DashboardLayout.AdminRootActive | src/Layouts/DashboardLayout.tsx:33-60 | the admin root is active on every admin menu route except the locked-meals page |
| DashboardLayout.AdminRoutesDistinct | src/Layouts/DashboardLayout.tsx:33-42 | the admin routes are distinct |
| DashboardLayout.UserRoutesDistinct | src/Layouts/DashboardLayout.tsx:43-48 | the user routes are distinct |
| DashboardLayout.MenusHaveDistinctRoutes | src/Layouts/DashboardLayout.tsx:32-49 | the routes of the shown menu are distinct, as their use as keys requires |
| DashboardLayout.IsActive | src/Layouts/DashboardLayout.tsx:59-61 | an active item's route is a prefix of the current path (IsActiveIff gives the exact condition) |
| DashboardLayout.AdminMenu | src/Layouts/DashboardLayout.tsx:33-42 | eight routes: the dashboard root first, the locked-meals page fifth, every other one below the root |
| DashboardLayout.UserMenu | src/Layouts/DashboardLayout.tsx:43-48 | four routes, the user dashboard root first |
| DashboardLayout.UserRootActive | src/Layouts/DashboardLayout.tsx:43-61 | the user root is active on every user menu route, and the other three lie below it |
| ProtectedRoute.Decide | src/components/ProtectedRoute.tsx:10-44 | (1) Loading shows the spinner. (2) A signed-out visitor goes to "/" with the current location. (3) A user whose role is not allowed is redirected: role "user" to "/user-dashboard", any other role to "/". (4) Otherwise, when loaded and signed in with no user record or an allowed role, the page itself is shown |
| ProtectedRoute.ChildrenIff | src/components/ProtectedRoute.tsx:14-43 | given the provider's value, the page is shown exactly to a loaded user of an allowed role |
| ProtectedRoute.DefaultRolesAdmitBoth | src/components/ProtectedRoute.tsx:12-35 | with the default roles every signed-in admin or user gets the page |
| ProtectedRoute.AdminOnlyRoute | src/components/ProtectedRoute.tsx:35-40 | on an admin-only route a user goes to the user dashboard and any other non-admin to "/" |
| ProtectedRoute.DefaultRoles | src/components/ProtectedRoute.tsx:12 | without `allowedRoles` both admin and user are admitted; DefaultRolesAdmitBoth proves it for the guard |
| AuthContext.FetchedUser | src/context/AuthContext.tsx:41-54 | there is no user without an access token or after an error; a user is returned only when a token exists and the reply carried that user |
| AuthContext.ValueOf | src/context/AuthContext.tsx:92-100 | `isAuthenticated` holds exactly when a user is present; `isAdmin` holds exactly when that user's role is "admin" |
| AuthContext.AdminIsAuthenticated | src/context/AuthContext.tsx:95-96 | every admin is authenticated |
| AuthContext.UseAuth | src/context/AuthContext.tsx:106-112 | outside a provider `useAuth` fails with its fixed message; inside, it returns the context value |
| AuthContext.AuthProvider.constructor | src/context/AuthContext.tsx:37-38 | the provider starts with no user and loading |
| AuthContext.AuthProvider.FetchCurrentUser | src/context/AuthContext.tsx:41-54 | a request is sent only when an access token exists, and the result is the fetched user |
| AuthContext.AuthProvider.InitAuth | src/context/AuthContext.tsx:56-65 | on mount the user is the one `/user/me` returns for the cookie's token (none without a token), and loading ends; given that reply, this model changes no cookie and does not navigate (a token refresh inside the request is not composed in) |
| AuthContext.AuthProvider.Login | src/context/AuthContext.tsx:68-76 | login writes the access token for 1 day and the refresh token for 30, both same-site strict and secure in production, then loads the user that `/user/me` returns for the new token (a token refresh inside that request is not composed in) |
| AuthContext.AuthProvider.Logout | src/context/AuthContext.tsx:79-84 | logout removes both cookies, clears the user and goes to "/" |
| AuthContext.AuthProvider.RefreshUser | src/context/AuthContext.tsx:87-90 | the user is the one `/user/me` returns for the current cookie's token; the loading flag is kept |
| AuthContext.NoUserAfterLogout | src/context/AuthContext.tsx:79-84 | after logout no token is left, so a reload sends nothing and finds nobody |
| AuthContext.LoginSignsIn | src/context/AuthContext.tsx:68-76 | a login with a token and a reply carrying a user signs that user in, as an admin exactly when the role is "admin" |
| AuthContext.HasToken | src/context/AuthContext.tsx:45 | a token counts only when present and non-empty, as `if (!token)` decides |
| MealControl.Flip | src/components/dashboard/MealControl.tsx:40 | switch t is negated; the other switches and the other fields stay |
| MealControl.ToggleMeal | src/components/dashboard/MealControl.tsx:38-42 | the rows with the id have switch t flipped; all other rows stay; length and order are kept |
| MealControl.FlipFlip | src/components/dashboard/MealControl.tsx:40 | flipping twice gives the row back |
| MealControl.ToggleTwice | src/components/dashboard/MealControl.tsx:38-42 | toggling the same switch twice restores the list |
| MealControl.ToggleUnknownId | src/components/dashboard/MealControl.tsx:39-41 | an unknown id leaves the list unchanged |
| MealControl.ToggleChangesOneSwitch | src/components/dashboard/MealControl.tsx:39-41 | a toggle changes exactly one switch of the matching rows and nothing else |
| MealControl.Visible | src/components/dashboard/MealControl.tsx:116-117 | the table shows, in order, exactly the rows whose name or room contains the term, case-sensitively, each as often as it occurs in the input |
| MealControl.EmptyTermShowsAll | src/components/dashboard/MealControl.tsx:117 | an empty term lists every row |
| MealControl.Listed | src/components/dashboard/MealControl.tsx:117 | a row is listed when the raw search term occurs, case-sensitively, in its name or its room |
| UserManagement.ToggleRestriction | src/pages/UserManagement.tsx:63-65 | the matching users have their restriction negated; all other users stay; length and order are kept |
| UserManagement.ToggleTwice | src/pages/UserManagement.tsx:64 | toggling twice with the same id restores the list |
| UserManagement.ToggleUnknownId | src/pages/UserManagement.tsx:64 | an unknown id is a no-op |
| UserManagement.ToggleOnlyRestriction | src/pages/UserManagement.tsx:64 | a toggle changes only the restriction field |
| UserManagement.AccessLabel | src/pages/UserManagement.tsx:188-189 | the label reads "Blocked" exactly when the user is restricted, "Active" otherwise |
| UserManagement.TableRows | src/pages/UserManagement.tsx:148 | the table lists every user, in order; the search term is stored but never applied |
| LockExpired.Unique | src/pages/LockExpired.tsx:81-83 | the unique ids have no repeats and the same members as the ids |
| LockExpired.FirstIndex | src/pages/LockExpired.tsx:81-83 | the first position of an element |
| LockExpired.FirstIndexOfPrefix | src/pages/LockExpired.tsx:81-83 | an element's first position is the same in a prefix that holds it |
| LockExpired.UniqueInFirstAppearanceOrder | src/pages/LockExpired.tsx:81-83 | the unique ids keep the order in which the ids first appear |
| LockExpired.UserIds | src/pages/LockExpired.tsx:82 | one user id per deduction, in order |
| LockExpired.FetchedUsersExactly | src/pages/LockExpired.tsx:85-98 | the user map holds exactly the asked ids whose request reported success, each with the data it returned |
| LockExpired.UserMapKeys | src/pages/LockExpired.tsx:81-98 | every key of the user map is a deduction's user id whose fetch succeeded |
| LockExpired.LockErrorText | src/pages/LockExpired.tsx:67 | the error shows the server's message, or "Request failed" when there is none |
| LockExpired.MealCell | src/pages/LockExpired.tsx:188-196 | a meal cell shows a dash exactly when no meal has the type; otherwise it shows the quantity of the first meal of that type |
| LockExpired.LockPage.constructor | src/pages/LockExpired.tsx:50-55 | the page starts with no result, no error and nothing loading |
| LockExpired.LockPage.StartLock | src/pages/LockExpired.tsx:58-62 | locking turns loading on, clears the error and sends one request |
| LockExpired.LockPage.FinishLock | src/pages/LockExpired.tsx:62-71 | (1) `success === true` sets the result. (2) An error clears the result and shows its message. (3) Any other reply keeps the result. (4) Loading ends on every path |
| LockExpired.LockPage.FetchUserDetails | src/pages/LockExpired.tsx:75-105 | nothing is fetched without deductions; otherwise one request goes out per unique id, in order, and the map is the fetched users |
| LockExpired.FetchedUsers | src/pages/LockExpired.tsx:85-98 | the user map built from the replies; FetchedUsersExactly proves it holds exactly the asked ids whose request succeeded, each with its data |
| WalletBalance.Normalize | src/components/dashboard/AllUserWalletBalance.tsx:42-46 | an array body is used as is, else `data` when it is an array, else [] |
| WalletBalance.NormalizeOneLevel | src/components/dashboard/AllUserWalletBalance.tsx:44-46 | only one level of `data` is looked into |
| WalletBalance.FilteredWallets | src/components/dashboard/AllUserWalletBalance.tsx:66-74 | the wallets shown are, in order, exactly those whose owner's lower-cased name or email contains the lower-cased, untrimmed search, each as often as it occurs in the input |
| WalletBalance.EmptySearchListsOwned | src/components/dashboard/AllUserWalletBalance.tsx:68-72 | with an empty search exactly the wallets with an owner who has a name or an email are listed |
| WalletBalance.GuardAdmitsUndefinedAndNaN | src/components/dashboard/AllUserWalletBalance.tsx:80 | the guard lets an undefined and a NaN amount through |
| WalletBalance.ResetFormIsRejected | src/components/dashboard/AllUserWalletBalance.tsx:99-102 | the form after a reset is rejected by the guard |
| WalletBalance.MessageOr | src/components/dashboard/AllUserWalletBalance.tsx:108 | the server's message when it is non-empty, else the fixed text |
| WalletBalance.WalletPage.constructor | src/components/dashboard/AllUserWalletBalance.tsx:24-33 | the page starts empty, with an undefined amount and "increase" |
| WalletBalance.WalletPage.RequestWallets | src/components/dashboard/AllUserWalletBalance.tsx:38-40 | fetching sends one request and changes nothing else |
| WalletBalance.WalletPage.WalletsReplied | src/components/dashboard/AllUserWalletBalance.tsx:42-56 | a reply stores the normalised list; an error empties it and alerts |
| WalletBalance.WalletPage.SubmitAdjust | src/components/dashboard/AllUserWalletBalance.tsx:79-95 | (1) A rejected form only warns and sends nothing. (2) A wallet without an owner fails while the request is built, alerts and turns loading off. (3) Otherwise loading is on and exactly one PATCH for the owner's id is sent |
| WalletBalance.WalletPage.AdjustReplied | src/components/dashboard/AllUserWalletBalance.tsx:97-113 | success resets the form (no user, amount 0, empty reason, "increase") and re-fetches; failure alerts; loading ends either way |
| WalletBalance.Listed | src/components/dashboard/AllUserWalletBalance.tsx:66-73 | a wallet is listed when its owner exists and the lower-cased, untrimmed query occurs in the owner's lower-cased name or email; FilteredWallets keeps exactly these, with their counts |
| WalletBalance.Rejected | src/components/dashboard/AllUserWalletBalance.tsx:80 | the adjustment is refused when no user is selected, the amount compares at most zero, or the reason is empty; SubmitAdjust sends nothing then |
| BillGenerator.InitialConfig | src/components/dashboard/BillGenaretor.tsx:23-28 | the configuration starts at rate 0, fixed 3000, utility 500 |
| BillGenerator.SetMealRate | src/components/dashboard/BillGenaretor.tsx:68 | a rate edit changes only the meal rate |
| BillGenerator.BillOf | src/components/dashboard/BillGenaretor.tsx:139-140 | the meal cost is the meals times the meal rate, and the total is the meal cost plus the other charges |
| BillGenerator.Bills | src/components/dashboard/BillGenaretor.tsx:133-140 | one bill per row, in order |
| BillGenerator.InitialBillsAreOther | src/components/dashboard/BillGenaretor.tsx:139-140 | at the initial rate every total is the other charges |
| BillGenerator.RateEditsKeepCharges | src/components/dashboard/BillGenaretor.tsx:68 | any sequence of rate edits keeps the fixed and utility charges at 3000 and 500 |
| BillGenerator.TotalBillMonotone | src/components/dashboard/BillGenaretor.tsx:139-140 | for a non-negative meal count a higher rate never lowers the bill |

## Left out

- **Rendering.** JSX, styling, icons, framer-motion animation, SweetAlert dialogs and the sample rows of the static screens are presentation only. The dialogs' answers are parameters (`confirmed`) or alert values.
- **Promises and the network.** Every request is an explicit event or a reply parameter:
  - the interceptor's `axios` calls;
  - `Promise.all` in the lock page, whose requests are taken one after another in array order;
  - the replay of a released or retried request, which is returned as an outcome and not re-sent.
- **Cookie details.** Cookie expiry is recorded as a number of days and never elapses. `secure` is the build flag, passed in.
- **Floating point.** Numbers are integers:
  - amounts, rates, quantities and balances;
  - `Number(...)` parsing and fractional meal rates.
  - `String(n)` is modelled for integers only.
- **Unicode case mapping.** `toLowerCase` is modelled on ASCII letters only; other characters are kept as they are.
- **Locale formatting.** Dates, currency and `toLocaleString` are left out; they change no state.
- **Fetching on the building screen.** `fetchData` and its `data || body || []` fallback are not part of this model; the buildings, flats and residents are inputs. The building and flat submit handlers are not part of this model either.
- BuildingManagement.Flat: `buildingId` is declared a string, but the server may send a populated object, and the unit list compares it as it arrives. The model gives it the same `Ref` type as a resident's reference, so the object form stays distinct from an id.
- **Ungated wallet setters.** The wallet form's field setters and the dialog open/close state are left out. The loading flag during `fetchWallets` is not modelled, because the source has none.
- LockedMeals.HeaderLine: no lemma compares the joined header with its literal text. It is defined as the bare join of the 14 names, and `HeaderNamesUnquoted` states what those names are made of.
- **Download.** The Blob and download steps of the locked-meals page are left out.
- AllProfile.MatchesSearch: `userId` is taken to be a string, as the search assumes. The object form that the table reads is not modelled.
- AuthContext.AuthProvider.Login: the two awaits of `login` are one method with the `/user/me` reply as a parameter. An interleaving with other operations during the await is not modelled.
- AuthContext.AuthProvider.InitAuth / Login / RefreshUser: the `/user/me` reply is a parameter (an oracle). That request goes through the secured client, whose 401 interceptor may rewrite the access-token cookie after a refresh, or remove both cookies and navigate to the login page when the refresh fails; that path is not composed into these methods, so their cookie and navigation clauses hold only for a reply that did not pass through it. The interceptor itself is modelled in AxiosSecure.
- LockExpired.LockPage.FetchUserDetails: the requests run one after another. The source's concurrent completion order, and a `result` change while requests are in flight, are not modelled.
- WalletBalance.WalletPage.SubmitAdjust: the amount is sent as the form holds it. The JSON encoding of an undefined or NaN amount is not modelled.
- UserTransaction.TransactionsView: `loading` and `error` are set by the await halves. The page shown while loading is not modelled.
- **Static data and bootstrap.** The admin overview page, the router table and the bootstrap file hold static data and configuration without logic, and are not part of this model.
