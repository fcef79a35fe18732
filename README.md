# SMM admin panel: session gate, order filtering and service actions

This project models in Dafny the logic inside the React admin panel of an SMM
(social-media-marketing) order service. The rest of the panel is markup and
HTTP glue. The model covers:

- **The session gate** (`src/utils/auth.js`, module `Auth`). The browser's
  `localStorage` is a class `LocalStorage` holding a `map<string, string>`.
  `loginAdmin`, `logoutAdmin` and `logout` are methods on it. Each is tied to a
  pure function on the map (`AfterLogin`, `AfterLogout`), and the properties are
  proved about those functions. A trace lemma shows that any sequence of login
  attempts and logouts moves the store through the two-state machine
  LoggedOut/LoggedIn.
- **Routing** (`src/App.jsx`, module `App`). `SelectRoute` maps the
  `authenticated` flag and a path to a rendered view or a redirect. It includes
  the inner route table of `ProtectedLayout`. The class `AppState` holds the
  flag, which is set by the mount effect and by the `onLogin` callback.
- **The login page** (`src/auth/AdminLogin.jsx`, module `AdminLogin`).
  `HandleLogin` passes the typed key to the gate. On success it calls `onLogin`
  and navigates to `/dashboard`. On failure it sets the error message. Two
  client methods, `WrongThenRightKey` and `ReloadThenLogout`, walk through a
  whole session: a failed login, a successful one, a reload, and a logout.
- **The orders page** (`src/pages/Orders.jsx`, module `Orders`).
  `FilterOrders`/`DateFilter` is the inclusive date-range filter, with the
  upper date stretched to 23:59:59 of its day. Lemmas prove that it is a
  subsequence of the loaded list, that it is sound and complete, and how it
  treats unparsable dates. The page also covers the status-dependent fetch
  choice, the status badge and its first-underscore label, and the page state
  (`OrdersPage`).
- **The services page** (`src/pages/Services.jsx`, module `Services`). The
  class `ServicesPage` records every backend call in a call log (`calls`). This
  lets the contracts say "no call was made" or "exactly one write, then a
  reload only on success". Its invariant `Valid()` states that no profit
  update outside [0, 100] is ever sent.

Conventions:

- Backend calls are never executed. Each awaited call's outcome is a parameter
  of type `Response<T>` (`Ok(data)` or `Failed`), and the call itself is
  appended to a log of request values.
- Times are integers in milliseconds, like JavaScript `Date` values. The
  browser's date parser is a parameter `parseDay: string -> Option<int>`: it
  gives the instant a `YYYY-MM-DD` field denotes, or `None` when it does not
  parse. End of day is `day + 86_399_000`, so an order created at 23:59:59.500
  on the `to` day is excluded, as in the source.
- An order's `createdAt` is already parsed: `Some(ms)`, or `None` when
  `new Date(createdAt)` is an Invalid Date (an unparsable string or
  `undefined`). Every comparison with an Invalid Date is false, so such an
  order is never excluded. A `null` creation time is not an Invalid Date:
  `new Date(null)` is the epoch, so it is `Some(0)` and a set `from` date
  drops it. A non-empty date field that does not parse becomes
  the bound `Unparsable`: the Invalid Date object is still truthy, but it
  excludes nothing.

Three facts about the code shape the model:

- The persisted session value is the secret string itself, not a boolean flag.
- A failed service toggle is only logged. It raises no alert and triggers no reload.
- The services page computes no selling price, so no selling price is modelled.

Route matching follows the router's default rules: a path matches a route
regardless of ASCII letter case, and trailing slashes are ignored
(`NormalizePath`). So "/Orders/" renders the orders page, and "/LOGIN" is the
login route.

## Model

| member | source | states |
|---|---|---|
| `Auth.LocalStorage.constructor` | src/utils/auth.js:6 | the storage starts with the given entries |
| `Auth.LocalStorage.GetItem` | src/utils/auth.js:6 | `getItem` gives the stored value, or nothing exactly when the key is absent |
| `Auth.LocalStorage.SetItem` | src/utils/auth.js:11 | `setItem` stores the value under the key and leaves every other entry as it was |
| `Auth.LocalStorage.RemoveItem` | src/utils/auth.js:18 | `removeItem` deletes exactly that key; a missing key is not an error |
| `Auth.AfterLogin` | src/utils/auth.js:2-15 | login succeeds iff the key equals the constant secret; success stores the key under "ADMIN_KEY" and leaves the store authenticated; failure leaves the store identical; an existing session survives any attempt; no other key changes |
| `Auth.AfterLogout` | src/utils/auth.js:17-19 | after logout the "ADMIN_KEY" entry is gone, the store is not authenticated, and every other key is unchanged |
| `Auth.IsAuthenticated` | src/utils/auth.js:5-7 | true iff the "ADMIN_KEY" entry exists and equals the secret exactly; a missing entry gives false |
| `Auth.LoginAdmin` | src/utils/auth.js:9-15 | the new store and the result are those of `AfterLogin`; true iff the key is the secret; afterwards `IsAuthenticated` holds on success, and on failure the store is untouched |
| `Auth.LogoutAdmin` | src/utils/auth.js:17-19 | the new store is `AfterLogout` of the old one; `IsAuthenticated` is false afterwards, from any prior state |
| `Auth.Logout` | src/utils/auth.js:22 | the same transition as `logoutAdmin` |
| `Auth.LogoutIdempotent` | src/utils/auth.js:17-19 | logging out twice leaves the same store as logging out once |
| `Auth.StepRefinesMachine` | src/utils/auth.js:9-19 | one login attempt or logout moves the store's abstract state exactly as the two-state machine does |
| `Auth.ReplayRefinesMachine` | src/utils/auth.js:9-19 | any sequence of login attempts and logouts moves the store through the two-state machine: a correct login leads to LoggedIn, a wrong key leaves the state, a logout leads to LoggedOut |
| `Auth.ReplayKeepsOtherKeys` | src/utils/auth.js:11-18 | no sequence of gate calls changes any storage key other than "ADMIN_KEY" |
| `Auth.FailedAttemptsKeepState` | src/utils/auth.js:10-14 | any number of failed attempts leaves the whole store exactly as it was: no lockout, no logout, no other key touched |
| `App.NormalizePath` | src/App.jsx:23-29 | the path as routes compare it: ASCII upper-case letters folded to lower case, trailing slashes dropped; the result never ends in a slash |
| `App.NormalizeFixes` | src/App.jsx:23-29 | a normalized path contains no upper-case letter and no trailing slash, and such a path is left unchanged |
| `App.NormalizeIdempotent` | src/App.jsx:23-29 | normalizing twice is the same as normalizing once |
| `App.RoutePathsNormalized` | src/App.jsx:24-29 | "/login", "/dashboard" and the five protected paths are written in normal form |
| `App.Lookup` | src/App.jsx:23-28 | the found route is the first one with the path, and no earlier route has it; no page is found iff no route has that path |
| `App.LookupFindsRoute` | src/App.jsx:24-28 | in a table without repeated paths, each route's own path finds that route's page |
| `App.ProtectedRoute` | src/App.jsx:23-30 | inside the protected layout a path renders a page iff its normal form is one of the five listed paths; every other path redirects to "/dashboard" |
| `App.SelectRoute` | src/App.jsx:47-56 | unauthenticated: a path whose normal form is "/login" renders the login page and every other path redirects to "/login"; authenticated: the login page is never rendered and "/login" falls into the "/dashboard" redirect |
| `App.RoutingIgnoresNormalization` | src/App.jsx:47-56 | a path and its normal form are routed the same way, in either state |
| `App.ProtectedPagesRendered` | src/App.jsx:24-28 | when authenticated, each of the five paths renders its own page |
| `App.ProtectedRoutesOneToOne` | src/App.jsx:24-28 | two paths that render the same protected page have the same normal form |
| `App.RedirectSettles` | src/App.jsx:29-55 | every redirect target renders a view, in either state: no redirect chains or loops |
| `App.AppState.constructor` | src/App.jsx:38 | `authenticated` starts false, before the mount effect |
| `App.AppState.MountEffect` | src/App.jsx:40-42 | after the one-time mount effect, `authenticated` equals the gate's `isAuthenticated()` |
| `App.AppState.OnLogin` | src/App.jsx:53 | the `onLogin` callback runs only after the mount effect; it sets `authenticated` to true and changes nothing else, and since the mount effect cannot run again, the flag then stays true |
| `AdminLogin.LoginForm.constructor` | src/auth/AdminLogin.jsx:7-8 | the typed key and the error message both start empty |
| `AdminLogin.LoginForm.SetKey` | src/auth/AdminLogin.jsx:45 | the typed text becomes the key |
| `AdminLogin.LoginForm.ErrorShown` | src/auth/AdminLogin.jsx:51-55 | the error box is hidden exactly when `error` is empty, and shown for "Invalid Admin Key" |
| `AdminLogin.LoginForm.HandleLogin` | src/auth/AdminLogin.jsx:11-20 | on a mounted `App`, the typed key goes to `loginAdmin`, whose result `ok` holds iff the key is the secret; on success `onLogin` is called, then navigation to "/dashboard", the dashboard route renders, and `error` is untouched; on failure `error` is "Invalid Admin Key" and shown, with no callback, no navigation and no store change |
| `Orders.FromBound` | src/pages/Orders.jsx:56 | an empty `from` field gives no bound; a parsable one gives the start of its day |
| `Orders.ToBound` | src/pages/Orders.jsx:57 | an empty `to` field gives no bound; a parsable one gives 23:59:59 of its day |
| `Orders.KeptWithinBounds` | src/pages/Orders.jsx:53-63 | the callback keeps an order whose creation time is an Invalid Date, and otherwise exactly those at or after `from` and at or before `to` |
| `Orders.FilterOrders` | src/pages/Orders.jsx:53-63 | the result is no longer than the input and its elements come from it; every kept order passes both bound checks; every order that passes them is kept; each order occurs as often as in the input if it passes and not at all otherwise |
| `Orders.FilterCounts` | src/pages/Orders.jsx:53-63 | one step of the filter keeps the first order's occurrences if it passes and drops them otherwise |
| `Orders.FilterKeepsHead` | src/pages/Orders.jsx:53-63 | an accepted first order stays in front of the filtered rest |
| `Orders.FilterIsSubsequence` | src/pages/Orders.jsx:53-63 | the filter result is a subsequence of the loaded orders, in their original order |
| `Orders.DateFilter` | src/pages/Orders.jsx:47-66 | with both date fields empty the loaded list is shown as it is; otherwise each order occurs as often as it was loaded if it passes the parsed bounds, and not at all otherwise |
| `Orders.DateFilterIsFilter` | src/pages/Orders.jsx:47-66 | the early return for two empty fields agrees with running the filter |
| `Orders.NoDatesShowsAll` | src/pages/Orders.jsx:48-50 | with both date fields empty, the shown list is exactly the loaded list |
| `Orders.DateFilterIsSubsequence` | src/pages/Orders.jsx:47-66 | the shown list is a subsequence of the loaded list |
| `Orders.DateFilterSound` | src/pages/Orders.jsx:56-60 | every shown order with a parsable time is a loaded order at or after the start of the `from` day and at or before 23:59:59 of the `to` day: both bounds are inclusive |
| `Orders.DateFilterComplete` | src/pages/Orders.jsx:53-63 | a loaded order is dropped only if it is strictly before `from` or strictly after the end of the `to` day |
| `Orders.UnparsableCreatedAtKept` | src/pages/Orders.jsx:54-60 | an order whose creation time does not parse (an Invalid Date) is never excluded |
| `Orders.UnparsableBoundsKeepAll` | src/pages/Orders.jsx:56-60 | date fields that are empty or do not parse exclude nothing |
| `Orders.KeepAllFilter` | src/pages/Orders.jsx:53-63 | when every order passes the checks, the filter returns the list unchanged |
| `Orders.RequestFor` | src/pages/Orders.jsx:34-37 | "ALL" fetches all orders; any other status fetches by exactly that status |
| `Orders.StatusOptionsRequests` | src/pages/Orders.jsx:4-12 | the options are "ALL" followed by the six order statuses, and the seven buttons issue seven different requests |
| `Orders.FirstUnderscore` | src/pages/Orders.jsx:199 | the index of the first underscore, or the length when there is none |
| `Orders.Label` | src/pages/Orders.jsx:199 | `replace("_", " ")` keeps the length and changes only the first underscore, into a space |
| `Orders.LabelSkipsPrefix` | src/pages/Orders.jsx:199 | characters before the first underscore pass into the label unchanged |
| `Orders.SingleUnderscoreLabel` | src/pages/Orders.jsx:87 | a status with one underscore, such as PAYMENT_PENDING, is shown with a space in its place |
| `Orders.StatusBadge` | src/pages/Orders.jsx:183-202 | a listed status gets its colour, any other status the grey fallback; the text is the status with its first underscore replaced |
| `Orders.OrdersPage.constructor` | src/pages/Orders.jsx:15-21 | no orders, status "ALL", loading, both date fields empty, no request issued yet |
| `Orders.OrdersPage.LoadOrders` | src/pages/Orders.jsx:31-45 | exactly one request, chosen by the status, is issued; a response replaces `orders`; a failure is logged and keeps `orders`; `loading` is false afterwards either way |
| `Orders.OrdersPage.ApplyDateFilter` | src/pages/Orders.jsx:47-66 | the shown list becomes the date filter of the loaded list, a subsequence of it |
| `Orders.OrdersPage.SelectStatus` | src/pages/Orders.jsx:79 | a status button sets the status |
| `Orders.OrdersPage.SetFromDate` | src/pages/Orders.jsx:101 | the "From" input sets `fromDate` |
| `Orders.OrdersPage.SetToDate` | src/pages/Orders.jsx:113 | the "To" input sets `toDate` |
| `Orders.OrdersPage.ResetDates` | src/pages/Orders.jsx:119-122 | Reset clears both date fields |
| `Services.ToggleCall` | src/pages/Services.jsx:30-34 | the toggle issues a disable exactly when the service is enabled, otherwise an enable, for that service's id |
| `Services.ProfitRejected` | src/pages/Services.jsx:42 | a value is rejected iff it lies outside [0, 100]; the endpoints pass |
| `Services.WriteCalls` | src/pages/Services.jsx:31-49 | a write is followed by a reload exactly when it succeeds |
| `Services.ProfitRangeEndpoints` | src/pages/Services.jsx:42 | 0 and 100 are accepted; -1 and 101 are rejected |
| `Services.StatusBadge` | src/pages/Services.jsx:136-148 | the badge reads "ENABLED", in green, iff the service is enabled, and "DISABLED" otherwise |
| `Services.ServicesPage.constructor` | src/pages/Services.jsx:10-11 | no services, loading, no calls, no alerts |
| `Services.ServicesPage.LoadServices` | src/pages/Services.jsx:17-26 | one read is issued; a response replaces the list; a failure is logged and keeps the previous list; `loading` ends false either way; no out-of-range profit update is ever logged |
| `Services.ServicesPage.ToggleService` | src/pages/Services.jsx:28-39 | exactly one of disable or enable is called; a successful toggle is followed by a reload, which ends loading and logs one error only if the reload fails; a failed toggle is logged, not followed by a reload, and leaves the list unchanged |
| `Services.ServicesPage.UpdateProfit` | src/pages/Services.jsx:41-53 | a value outside [0, 100] raises the alert and makes no call, no reload and no state change; otherwise exactly one `updateProfitPercent(id, value)` is sent; the list reloads only if it succeeds, which ends loading and logs one error only if the reload fails; a failed update is logged and keeps the list |

## Left out

- The HTTP client and the API modules (`src/api/*.js`). Every backend call is an opaque action that succeeds with data or fails. Endpoints, headers and response shapes are not modelled. `src/pages/Services.jsx:3-6` imports `enableService`, `disableService` and `updateProfitPercent`, which `src/api/serviceApi.js` does not export; the model treats them as calls that may succeed or fail.
- Asynchrony. Each handler is one sequential run, with every backend outcome given in advance. Races between overlapping requests (last response wins) and React's effect scheduling are not modelled. One consequence of that scheduling is visible: on a page load the first render has `authenticated` false, so the catch-all `<Navigate to="/login">` (`src/App.jsx:55`) runs its effect before `App`'s mount effect (`src/App.jsx:40-42`), since a child's effects run first. A logged-in page load of "/orders" therefore goes to "/login", then falls into the "/dashboard" redirect (`src/App.jsx:29`). `MountEffect` followed by `SelectRoute(true, path)` is not a claim that a page load keeps its path. The reload after a write is not awaited by the source; the model runs it immediately.
- The effect wiring itself (`src/pages/Orders.jsx:23-29`, `src/pages/Services.jsx:13-15`): the model provides the handlers, and a caller runs them in the order React would.
- Orders.FromBound: date parsing and time zones. `new Date("YYYY-MM-DD")` is UTC midnight, while `"YYYY-MM-DDT23:59:59"` is local time. The model uses one abstract parser for both fields.
- Orders.ToBound: adds 23:59:59 to the day the abstract parser gives, with no time-zone shift between the two bounds.
- Orders.StatusBadge: a JavaScript object lookup also finds inherited properties (for example the status `"constructor"`). The model treats the colour table as a plain map.
- Services.ProfitRejected: `Number(...)` coercion of the input (`src/pages/Services.jsx:97`). The field is an `<input type="number">` (`src/pages/Services.jsx:92-98`), whose value is "" for empty or non-numeric text, so `Number(...)` gives 0: such input passes the guard and sends a 0 % update, which the model covers as the value 0. NaN does not arise from this field. The model takes the value as a real number.
- The users, dashboard and payments pages, the sidebar, the top bar and `tailwind.config.js`: display glue and styling. The top bar's logout button (`src/layout/Topbar.jsx:19-23`) calls `logout`, navigates to "/login" and reloads the page. The model covers this as `Auth.Logout` followed by a new `App.AppState` and its mount effect; the reload discards the navigation's in-memory state, and the new page's routes then send every path to "/login".
- The selling-price computation and CSV export do not appear in the modelled files. The loading text of the services page (`src/pages/Services.jsx:55-57`) and the console output are rendering; failures are counted in `errorsLogged`.
- App.NormalizePath: only letter case and trailing slashes are normalized. Percent-decoding of the URL, repeated inner slashes and non-ASCII case folding are not modelled; the route paths are ASCII, so non-ASCII folding cannot change which route matches.
