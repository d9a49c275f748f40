# FBI Most Wanted front end — a Dafny model of its page logic

The application is a Next.js front end for a wanted-persons service. It has
three listing pages: wanted persons, saved persons and field reports. It also
has a login form, a navigation bar, a session guard that the home, reports and detail pages mount, and a
live feed of sightings. This project models the rules those components
compute and proves properties of them:

- the page count of a listing and the five-button page window of the reports
  dashboard;
- the Prev/Next/page-size/search handlers and the query string of the
  listing request;
- the optimistic favourites toggle of the saved page, and its location
  report;
- the REST client: URL normalisation against the configured base address,
  the header block of authenticated calls, and the error message of a
  failed call;
- the session guard: where the token is read from, which paths are public,
  the mount-time check, what is rendered, and the create-once handling of
  the shared real-time connection;
- the update of the sightings feed when a location report is pushed;
- login, which stores the issued tokens, and logout, which removes them.

Each source file has its own module. Stateful components are classes whose
fields are the component's state. Each event handler is a method, and its
contract gives the whole new state. Pure rules are functions. What the code
promises is proved as lemmas about those functions.

The browser is the class `Browser.Browser`. Its fields are `localStorage` as
a string map, `window.location.href` as a string, and the list of paths
handed to the client router. The network is a parameter.
`ApiClient.HttpReply` says what the server did with a request: no answer, an
ok envelope, or a non-ok body. Opaque results are parameters too: the page
load (`Types.Load`: it threw, or it resolved with a `data` that may be
null), the upload, the report, the favourite call, and
the state the real-time library reports. The configured base address
`NEXT_PUBLIC_API_URL` is an `Option<string>`; when it is unset the template
literal prints `undefined`, and the model does the same.

Modules and files:

| file | module | what it covers |
|---|---|---|
| types.dfy | Types | the API envelope, paged results, the report status numbering |
| text.dfy | Text | prefix test, `join`, decimal `toString` |
| browser.dfy | Browser | storage, location, router |
| pagination.dfy | Pagination | page count, page window, active button |
| reports_page.dfy | ReportsPage | the reports dashboard |
| home_page.dfy | HomePage | the home listing and its query |
| saved_page.dfy | SavedPage | favourites, saved listing, location report |
| api_client.dfy | ApiClient | `normalizeUrl`, `fetchWithGeneric`, `authFetch`, `getWantedPersonById` |
| auth_guard.dfy | AuthGuard | `getStoredToken`, public pages, `checkAuth`, render, connection manager |
| sightings_list.dfy | SightingsList | history load, pushed reports, highlight |
| login_page.dfy | LoginPage | `handleLogin` |
| navbar.dfy | Navbar | `handleLogout`, active links |

Where the declared types and the running code disagree, the model follows
the code:

- `PagedResult` declares its rows as `data` (src/types/wanted-person.ts:3),
  but every page reads them as `items`, so the model names the field `items`.
- `getStoredToken` uses `a || b`, which yields the second operand even when
  that is the empty string. The model therefore returns `Some("")` for a
  stored empty `accessToken`, and callers test truthiness, as the code does.
- `json.message?.join(", ") || "API Error"` falls back when the joined text
  is empty: for a missing list, and also for `[]` and `[""]`.

## Model

| member | source | states |
|---|---|---|
| Types.StatusCode | src/types/reports.ts:4-8 | every status has a wire number between 0 and 2 |
| Types.StatusOfCode | src/types/reports.ts:4-8 | a wire number names a status exactly when it lies in 0..2 |
| Types.StatusCodeRoundTrip | src/types/reports.ts:4-8 | the numbering is a bijection: status to number to status, and number to status to number, are identities |
| Text.NatToDecimal | app/page.tsx:33-34 | `toString` of a non-negative number is a non-empty digit string without a leading zero |
| Text.IntToDecimal | app/page.tsx:33-34 | `toString` is never empty; for a non-negative number it is all digits and reads back as the number; for a negative one it is a minus sign followed by digits that read back as the magnitude |
| Text.DecimalRoundTrip | app/page.tsx:33-34 | reading back the digits of `toString(n)` gives `n` |
| Text.DecimalInjective | app/page.tsx:33-34 | distinct page numbers give distinct query values |
| Text.JoinEmptyIff | src/lib/api-client.ts:21 | with a non-empty separator, a join is empty exactly for no parts or one empty part |
| Text.JoinContainsFirst | app/page.tsx:32-40 | a join starts with its first part |
| Pagination.CeilDivIsLeast | app/reports/page.tsx:20 | the rounded-up quotient covers the count and is the least page count that does |
| Pagination.WindowEntry | app/reports/page.tsx:143-152 | with the page in range, every button of the window names a page in 1..totalPages |
| Pagination.TotalPages | app/reports/page.tsx:20 | 0 without data; otherwise the pages cover the count and one page fewer does not; 0 exactly without data or without rows |
| Pagination.TotalPagesIsLeast | app/page.tsx:19 | any page count that covers all rows is at least the computed one |
| Pagination.PageWindow | app/reports/page.tsx:141-152 | the window has `min(5, totalPages)` buttons, consecutive and increasing, none below 1 |
| Pagination.WindowWithinPages | app/reports/page.tsx:143-152 | with the page in range, every button names a page in 1..totalPages and the current page has a button |
| Pagination.WindowOfFewPages | app/reports/page.tsx:144-145 | with at most five pages the window is exactly 1..totalPages |
| Pagination.WindowAtStart | app/reports/page.tsx:146-147 | near the first page the window is 1..5 |
| Pagination.WindowAtEnd | app/reports/page.tsx:148-149 | near the last page the window is the last five pages |
| Pagination.WindowCentred | app/reports/page.tsx:150-151 | in the middle the current page is the third of five buttons |
| Pagination.ExactlyOneActive | app/reports/page.tsx:158-159 | with the page in range, exactly one button is styled as the current page |
| ReportsPage.ReportsPager.constructor | app/reports/page.tsx:11-18 | no data, loading, page 1, ten rows |
| ReportsPage.ReportsPager.ControlsShown | app/reports/page.tsx:104 | the bar is shown exactly when there is at least one page |
| ReportsPage.ReportsPager.PrevDisabled | app/reports/page.tsx:134 | Prev is disabled exactly where `max(1, p - 1)` would not move |
| ReportsPage.ReportsPager.NextDisabled | app/reports/page.tsx:172 | from an in-range page, Next is disabled exactly where `min(totalPages, p + 1)` would not move |
| ReportsPage.ReportsPager.LoadStarted | app/reports/page.tsx:24 | a load begins by showing the spinner, nothing else changes |
| ReportsPage.ReportsPager.LoadFinished | app/reports/page.tsx:22-33 | a resolved load stores its `data` as it is, null included; a load that threw keeps the data; loading ends either way |
| ReportsPage.ReportsPager.Prev | app/reports/page.tsx:133 | the page becomes `max(1, p - 1)` and stays within the page count |
| ReportsPage.ReportsPager.Next | app/reports/page.tsx:171 | the page becomes `min(totalPages, p + 1)`, never past the last page, never backwards from an in-range page |
| ReportsPage.ReportsPager.SelectPage | app/reports/page.tsx:157 | a numbered button sets the page to the number it shows |
| ReportsPage.ReportsPager.ChangePageSize | app/reports/page.tsx:112-115 | the chosen size is stored and the page resets to 1 |
| ReportsPage.BarConsistent | app/reports/page.tsx:132-172 | with the page in range: buttons within range, one active, Prev a no-op exactly on page 1 (where it is disabled), Next a no-op exactly on the last page (where it is disabled) |
| HomePage.ListQuery | app/page.tsx:32-36 | PageNumber and PageSize come first with the decimal values; Search is present exactly when the committed search is non-empty, and carries it |
| HomePage.ParamTexts | app/page.tsx:40 | one `key=value` text per parameter, in order |
| HomePage.QueryString | app/page.tsx:40 | `params.toString()` is empty only without parameters, and begins with the first `key=value` entry |
| HomePage.QueryStartsWithPage | app/page.tsx:32-40 | the query string always begins with `PageNumber=<page>` |
| HomePage.HomeListPath | app/page.tsx:40 | the listing path is relative: neither an absolute URL nor rooted at "/", so the client inserts the slash after the base address |
| HomePage.HomeListUrl | app/page.tsx:39-41 | the relative listing path is placed after the base address behind one slash |
| HomePage.ListPager.constructor | app/page.tsx:10-17 | no data, loading, page 1, twelve per page, empty search |
| HomePage.ListPager.ControlsShown | app/page.tsx:140 | the controls are shown exactly when there is at least one page |
| HomePage.ListPager.PrevDisabled | app/page.tsx:162 | Prev is disabled exactly when `handlePrevPage` would not move |
| HomePage.ListPager.NextDisabled | app/page.tsx:175 | Next is disabled without rows, and otherwise, from an in-range page, exactly on the last page |
| HomePage.ListPager.SetSearchTerm | app/page.tsx:99 | typing changes only the typed text |
| HomePage.ListPager.LoadStarted | app/page.tsx:30 | a load begins by showing the spinner, nothing else changes (the saved page's load, app/saved/page.tsx:37, does the same on its pager) |
| HomePage.ListPager.CommitSearch | app/page.tsx:21-27 | when the debounce fires, the typed text becomes the search and the page resets to 1 |
| HomePage.ListPager.LoadFinished | app/page.tsx:29-49 | a resolved load stores its `data` as it is, null included; a load that threw keeps the data; loading ends either way |
| HomePage.ListPager.HandlePrevPage | app/page.tsx:57-59 | one page back only when past page 1; it moves exactly when Prev is enabled; keeps `1 <= page <= max(1, totalPages)` |
| HomePage.ListPager.HandleNextPage | app/page.tsx:61-64 | one page on only when before the last page; it moves exactly when Next is enabled; keeps the range |
| HomePage.ListPager.HandlePageSizeChange | app/page.tsx:66-70 | the chosen size is stored and the page resets to 1 |
| ApiClient.NormalizeUrl | src/lib/api-client.ts:6-13 | absolute URLs pass unchanged; any other URL becomes the base address, one inserted slash, then the URL with one leading slash removed (so a URL starting "//", or a base ending in "/", still gives a double slash) |
| ApiClient.NormalizeIdempotent | src/lib/api-client.ts:16 | with an absolute base address a second normalisation changes nothing |
| ApiClient.RelativeBaseDoubles | src/lib/api-client.ts:29 | with a root-relative base address the second normalisation prefixes the base again |
| ApiClient.RootPathUrl | src/lib/api-client.ts:11-12 | a path beginning with "/" is placed directly after the base address |
| ApiClient.ApiErrorMessage | src/lib/api-client.ts:21 | never empty; "API Error" for missing, empty or single-empty messages; a single message itself; several joined with ", " |
| ApiClient.FetchWithGeneric | src/lib/api-client.ts:15-25 | the request carries the normalised URL and the options unchanged; ok replies resolve with their envelope; non-ok replies reject with `ApiErrorMessage` of the body's messages; transport failures reject with their reason |
| ApiClient.AuthHeadersUnique | src/lib/api-client.ts:31-42 | the header rule fixes every header: two blocks meeting it are equal |
| ApiClient.BuildHeaders | src/lib/api-client.ts:31-42 | JSON content type unless the caller sets one, the caller's headers, and a bearer Authorization overriding the caller's exactly when the stored token is non-empty |
| ApiClient.AuthFetch | src/lib/api-client.ts:28-48 | the URL is normalised twice (once in effect with an absolute base); every option but the headers passes through; the outcome is `fetchWithGeneric`'s |
| ApiClient.GetWantedPersonById | src/lib/api-client.ts:55-57 | an authenticated call with no caller headers whose outcome is that of `/FbiWanted/<id>`; with an absolute base address the URL requested is `<base>/FbiWanted/<id>` |
| AuthGuard.GetStoredToken | src/components/AuthGuard.tsx:10-15 | a non-empty "token" wins; otherwise "accessToken" as stored; null only when neither gives a value; truthy exactly when one of them is non-empty |
| AuthGuard.IsPublicPage | src/components/AuthGuard.tsx:88 | a public path is rooted: non-empty and starting with "/" |
| AuthGuard.PublicPaths | src/components/AuthGuard.tsx:88 | "/", the login route and "/authors" are public paths of the guard; "/saved", "/reports", "/stats", "/login" are not (of these, only the reports dashboard mounts the guard) |
| AuthGuard.Render | src/components/AuthGuard.tsx:118-146 | public pages render alone; guarded pages show the wait screen while loading, nothing when not authenticated, and the page inside the real-time provider otherwise |
| AuthGuard.Guard.constructor | src/components/AuthGuard.tsx:83-85 | loading, not authenticated, no token |
| AuthGuard.Guard.CurrentView | src/components/AuthGuard.tsx:118-146 | the page renders alone exactly on a public path; it renders inside the provider only when authenticated and no longer loading, with the stored token |
| AuthGuard.Guard.CheckAuth | src/components/AuthGuard.tsx:92-110 | public path: loading ends, nothing else; guarded path without a token: redirect to the login route with loading kept; with one: token stored, authenticated, loading ends |
| AuthGuard.SettledView | src/components/AuthGuard.tsx:83-146 | after the check a guarded page renders only with a stored token; without one the wait screen stays while the login route is pushed |
| AuthGuard.SignalRManager.constructor | src/components/AuthGuard.tsx:24-25 | no connection held or published |
| AuthGuard.HubUrl | src/components/AuthGuard.tsx:32 | a configured hub address is used as it is; only an unset variable falls back, so the address is empty only when configured empty |
| AuthGuard.SignalRManager.RunEffect | src/components/AuthGuard.tsx:27-72 | nothing without a token; a connection is built only when none is held, so a mounted manager builds at most one; start is attempted only when disconnected; a connected one is republished; only the held connection is published |
| SavedPage.Without | app/saved/page.tsx:72 | every occurrence of the id is removed, all other ids keep their counts |
| SavedPage.WithoutAbsent | app/saved/page.tsx:72 | filtering out an absent id changes nothing |
| SavedPage.WithoutConcat | app/saved/page.tsx:72 | filtering distributes over concatenation |
| SavedPage.Toggled | app/saved/page.tsx:69-75 | the id becomes a member exactly when it was not; an absent id is appended at the end; other ids keep their counts |
| SavedPage.ToggleKeepsOthers | app/saved/page.tsx:72-74 | with the toggled id taken out the list is the same before and after, so the other ids keep their order |
| SavedPage.ToggleTwiceRestores | app/saved/page.tsx:69-75 | toggling an absent id twice restores the list exactly |
| SavedPage.ToggleTwicePresent | app/saved/page.tsx:69-75 | toggling a present id twice leaves it once, at the end, its duplicates gone |
| SavedPage.SavedListPath | app/saved/page.tsx:47 | the saved listing path is rooted at "/" and is not an absolute URL |
| SavedPage.FavouriteIds | app/saved/page.tsx:51 | the ids of the loaded items, in order |
| SavedPage.SavedListUrl | app/saved/page.tsx:46-48 | the saved listing path is placed directly after the base address |
| SavedPage.SavedView.constructor | app/saved/page.tsx:12-24 | empty favourites, modal closed, nothing selected, the pager loading with no data at page 1, twelve per page, with an empty search typed and committed |
| SavedPage.SavedView.LoadFinished | app/saved/page.tsx:36-57 | a resolved load stores its `data` and sets the favourites to its ids in order; a null `data` is stored but the favourites stay, since reading its items throws; a load that threw keeps both |
| SavedPage.SavedView.IsFavourite | app/saved/page.tsx:69 | `favorites.includes(id)`: the id occurs at some position of the favourites list; the star at app/saved/page.tsx:131 uses the same test |
| SavedPage.SavedView.ToggleFavorite | app/saved/page.tsx:65-83 | the list is toggled whatever the server call's fate, the id's membership flips, and the call carries the new membership |
| SavedPage.SavedView.HandleOpenMap | app/saved/page.tsx:86-91 | the person is selected and the modal opened |
| SavedPage.SavedView.CloseMap | app/saved/page.tsx:190 | the modal is closed |
| SavedPage.SavedView.HandleSubmitLocation | app/saved/page.tsx:94-107 | nothing without a selection or after a failed upload; otherwise the selected id is reported with the uploaded URL or "no image", and a successful report closes the modal and clears the selection |
| SightingsList.NormalizeHistory | src/components/SightingsList.tsx:82 | an array is used as is, otherwise the envelope's data, otherwise an empty list |
| SightingsList.Incoming | src/components/SightingsList.tsx:109-111 | a report about this person is put in front of the unchanged list; any other report leaves it as it was |
| SightingsList.DeliveredTwiceListedTwice | src/components/SightingsList.tsx:111 | no de-duplication: a report pushed twice is listed twice |
| SightingsList.IsNew | src/components/SightingsList.tsx:153 | no row is new without a highlight, and a new row carries the highlighted id |
| SightingsList.SightingsFeed.constructor | src/components/SightingsList.tsx:20-22 | an empty list, loading, no highlight |
| SightingsList.SightingsFeed.HistoryLoaded | src/components/SightingsList.tsx:78-88 | a successful load replaces the list with the normalised history; loading ends either way |
| SightingsList.SightingsFeed.ReceiveLocation | src/components/SightingsList.tsx:109-112 | the list follows `Incoming`; on a match the highlight becomes the report's id, so the new first row is marked new |
| SightingsList.SightingsFeed.ClearHighlight | src/components/SightingsList.tsx:118 | after the timer no row is marked new |
| LoginPage.LoginRequest | app/auth/login/page.tsx:20-26 | a POST with a JSON content type whose body carries `username` = the email and the password |
| LoginPage.CaughtMessage | app/auth/login/page.tsx:38 | never empty: the error's message when it has one, "Login failed" otherwise |
| LoginPage.LoginForm.constructor | app/auth/login/page.tsx:9-11 | empty fields, no error |
| LoginPage.LoginForm.SetEmail | app/auth/login/page.tsx:60 | typing sets the email field |
| LoginPage.LoginForm.SetPassword | app/auth/login/page.tsx:70 | typing sets the password field |
| LoginPage.LoginForm.LoginStarted | app/auth/login/page.tsx:16 | an attempt begins by clearing the previous error, before the request is awaited |
| LoginPage.LoginForm.LoginSettled | app/auth/login/page.tsx:18-39 | the request is sent; on Success both tokens are stored and "/" pushed with the error left as it was; any other kind sets the joined messages; a failure sets its message; the storage changes only on Success |
| LoginPage.LoginForm.HandleLogin | app/auth/login/page.tsx:14-40 | `LoginStarted` then `LoginSettled`: on Success both tokens are stored and "/" pushed with no error; any other kind sets the joined messages; a failure sets its message; the storage changes only on Success |
| LoginPage.LoginUnlocksGuard | app/auth/login/page.tsx:30-31 | after a login with a non-empty access token the guard reads that token |
| Navbar.HandleLogout | src/components/Navbar.tsx:10-14 | "token" and "refresh_token" are removed, every other key keeps its value, the location becomes "/login" |
| Navbar.LogoutIdempotent | src/components/Navbar.tsx:11-12 | a second logout leaves the storage as the first did |
| Navbar.AccessTokenSurvivesLogout | src/components/Navbar.tsx:11-12 | after logout the guard still sees whatever "accessToken" holds |
| Navbar.LogoutTargetGuarded | src/components/Navbar.tsx:13 | the logout target is not a public path of the guard |
| Navbar.MainActive | src/components/Navbar.tsx:28 | the Main link is highlighted only on a public path of the guard |
| Navbar.SavedActive | src/components/Navbar.tsx:36 | the Saved link is highlighted only on a path that is not public |
| Navbar.AtMostOneActive | src/components/Navbar.tsx:28-36 | the two menu links are never highlighted together |
| Browser.Browser.SetItem | app/auth/login/page.tsx:30-31 | `localStorage.setItem` maps the key to the value and leaves every other key |
| Browser.Browser.RemoveItem | src/components/Navbar.tsx:11-12 | `localStorage.removeItem` drops the key, a no-op when absent |
| Browser.Browser.Push | app/auth/login/page.tsx:33 | `router.push` appends the path to the recorded navigation |
| Browser.Browser.Assign | src/components/Navbar.tsx:13 | assigning `window.location.href` sets the location |

## Left out

- The real-time transport is not modelled. This covers the connection start,
  the automatic reconnect, registering and removing handlers (`on`, `off`),
  and the urgent-alert toast and sound. These run asynchronously inside a
  foreign library. `AuthGuard.SignalRManager.RunEffect` keeps only the
  create-once and start-when-disconnected decisions; the library's state and
  the success of `start()` are parameters.
- The private connection of the sightings feed (src/components/SightingsList.tsx:95-107, 122-124) is library plumbing; only its `ReceiveLocation` handler is modelled.
- The 500 ms search debounce and the 5 s highlight timer are not modelled as
  timers. Each becomes a method that applies what happens when the timer
  fires (`CommitSearch`, `ClearHighlight`). Cancelled timers and the order
  in which timers fire are not modelled.
- Coordinates are `real`; floating-point rounding and display formatting are not modelled.
- `Math.ceil(totalCount / pageSize)` is modelled as exact ceiling division. The counts are integers far below 2^53, where the floating-point quotient rounds up to the same value.
- `URLSearchParams` percent-encoding of the search text is not modelled: a parameter is `key=value` as written.
- `JSON.stringify` of the login body is modelled as its list of fields.
- The model assumes `options.headers` is a plain object. A `Headers` instance, whose entries the spread at src/lib/api-client.ts:33 would drop, is not modelled.
- The model assumes the code runs in the browser, so the `typeof window` checks (src/components/AuthGuard.tsx:11, src/lib/api-client.ts:37) always take the browser branch.
- A reply whose body is not JSON is modelled as a transport failure (`TransportError`), like any other rejected `fetch`.
- The alerts, toasts, sounds, spinners, cards and modals are rendering only and are not modelled.
- The `selectedReport` modal of the reports dashboard and its refresh button are rendering only; the refresh is the same load as `LoadFinished`.
- AuthGuard.SignalRManager.RunEffect: the create-once guarantee holds per mounted guard only. Each page that mounts the guard (app/page.tsx:73, app/reports/page.tsx:45, app/wanted/[id]/page.tsx:43, 56) renders its own, so moving between those pages remounts a manager with an empty ref, which builds a new connection. The cleanup (src/components/AuthGuard.tsx:67-71) never stops the old connection. Several managers and their connections living side by side are not modelled.
- Which pages mount the guard is page layout and not modelled: app/saved/page.tsx never renders it, and app/stats/page.tsx imports it without rendering it.
- The API helpers `getReports`, `saveFavourite`, `reportLocation` and `uploadFile` are not part of this model. Their outcomes are parameters.
- src/types/auth.ts is not part of this model. `LoginPage.AuthTokenData` holds the two fields the page reads.
- The home page's own logout button (app/page.tsx:82-86) repeats `Navbar.HandleLogout` and is not modelled separately.
