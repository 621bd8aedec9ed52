# Flight_Data core, modelled in Dafny

Flight_Data is a flight tracker. A Next.js front end looks up a callsign's route on adsbdb and shows it on a map, along with a short history of recent searches. A server route merges live positions from two fleet feeds: airplanes.live first, then adsb.fi. A client panel polls that route every five seconds and shows a countdown. A reminder toast nudges visitors who are not signed in on every fifth visit. A middleware guard protects /dashboard and /profile. An Express back end registers users, logs them in and verifies their access tokens.

This project models that core as Dafny modules, one per source file:

- `LiveFlightRoute`: the live-position route.
- `LiveFlightPanel`: the polling panel.
- `MainPage`: the map page, with its history and bottom sheet.
- `RoutePage`: the route-lookup page.
- `LoginReminder`: the visit counter and its toast.
- `AuthVerify`, `AuthRegister`, `AuthLogin`: the three back-end routes.
- `Middleware`: the route guard.

Four modules are shared:

- `JsValues`: JavaScript values and their truthiness.
- `Text`: the string operations the code relies on. These are `toUpperCase`, `trim` with JavaScript's whitespace set, and `replace` of the first occurrence.
- `Express`: awaited outcomes, JSON replies and cookies.
- `AdsbDb`: the adsbdb callsign lookup URL and the route record it returns, used by both the map page and the route-lookup page.

**How state and side effects are modelled.**

- Components whose state changes step by step are classes. Their fields are the React state, refs and `localStorage` entries. Each handler, effect or timer callback is a method. Each method is specified against pure functions, and the properties are proved about those functions.
- Pure request handlers are functions.
- Every network call, database query, bcrypt comparison or JWT operation is a parameter. The parameter holds what that call returned, or the fact that it threw.
- The live route takes `net`, a map from each URL to its outcome. This makes "which URLs are asked" a provable property.

**Behaviour of the code that the model keeps.**

- The live route asks only airplanes.live and adsb.fi. Nothing fills the panel's `openSky` slot, so it stays null.
- No unit is converted and no request has a timeout.
- Nothing stops a poll from starting while the previous one is still pending.
- The live route answers 404 when neither feed has the flight.
- Registration is served by `router.get` on "/".

## Model

| member | source | states |
|---|---|---|
| JsValues.Truthy | backend/src/routes/login.ts:12 | A value is truthy exactly when it is none of the six falsy values: undefined, null, false, 0, NaN and "" |
| Text.Upper | app/api/liveFlight/route.ts:15 | Same length; every character is upper-cased at its position, with ASCII letters mapped and all other characters kept |
| Text.UpperIdempotent | app/api/liveFlight/route.ts:15 | Upper-casing twice is the same as upper-casing once |
| Text.Trim | app/page.tsx:34 | Empty exactly when the input is all whitespace; otherwise both ends are non-space; the result is the contiguous slice after the leading whitespace; everything cut away is whitespace |
| Text.IsBlank | backend/src/routes/register.ts:30 | A string is blank exactly when its leading whitespace run covers all of it |
| Text.IndexOfFrom | backend/src/routes/verify.ts:17 | Gives the first occurrence of the pattern at or after a position: none earlier, or none at all when absent |
| Text.ReplaceFirst | backend/src/routes/verify.ts:17 | No occurrence leaves the text unchanged; otherwise only the first occurrence is replaced |
| AdsbDb.LookupUrl | components/custom/mainpage/mainpage.tsx:81-83 | The adsbdb lookup URL ends with the callsign exactly as given |
| LiveFlightRoute.ToRecord | app/api/liveFlight/route.ts:33-41 | alt_baro, gs and baro_rate become altitude, speed and verticalRate; lat, lon, track and hex are copied |
| LiveFlightRoute.ToRecordInjective | app/api/liveFlight/route.ts:33-41 | Different aircraft give different records, so the renaming loses nothing |
| LiveFlightRoute.FeedUrl | app/api/liveFlight/route.ts:17-21 | Each feed URL ends with the upper-cased callsign, and the two feeds' URLs differ at the host whatever the callsign |
| LiveFlightRoute.HasCallsign | app/api/liveFlight/route.ts:7 | The callsign passes the `!callsign` guard exactly when it is present and truthy |
| LiveFlightRoute.Extract | app/api/liveFlight/route.ts:24-43 | A record exists exactly for a fulfilled 200 answer with a non-empty `ac` list, and it is built from `ac[0]`; a parse error happens exactly on a 200 answer with a malformed body |
| LiveFlightRoute.Merge | app/api/liveFlight/route.ts:62-92 | 500 "Failed to fetch live data" exactly when a parse error escapes; 404 "No live data available for this flight" exactly when neither feed yields a record; otherwise 200, with both slots reported and airplanes.live preferred as best and source |
| LiveFlightRoute.Get | app/api/liveFlight/route.ts:3-93 | 400 "Missing callsign" exactly when the parameter is absent or empty; a 404 or 500 carries its own message; the status is always 200, 400, 404 or 500 |
| LiveFlightRoute.MissingCallsignAsksNoProvider | app/api/liveFlight/route.ts:7-12 | Without a callsign the answer is 400 whatever the network does |
| LiveFlightRoute.AnswerDependsOnlyOnFeedUrls | app/api/liveFlight/route.ts:17-22 | The answer depends on the network only at the two upper-cased feed URLs |
| LiveFlightRoute.CaseInsensitive | app/api/liveFlight/route.ts:15-21 | Callsigns that differ only in letter case get the same answer |
| LiveFlightRoute.AirplanesLiveWins | app/api/liveFlight/route.ts:65-71 | Unless adsb.fi's 200 body is malformed (which makes the answer 500), an airplanes.live record is always best; adsb.fi is the source exactly when airplanes.live has none and adsb.fi has one |
| LiveFlightRoute.SourceConsistent | app/api/liveFlight/route.ts:62-85 | In every 200 answer, best is the record of the provider named by source |
| LiveFlightRoute.NotFoundAndServerError | app/api/liveFlight/route.ts:73-92 | 500 "Failed to fetch live data" exactly when a 200 answer's body is malformed; 404 "No live data available for this flight" exactly when no record results and nothing escaped |
| LiveFlightRoute.FailureNullsOnlyItsProvider | app/api/liveFlight/route.ts:24-60 | A rejected airplanes.live fetch or a non-200 status from it nulls only its slot: adsb.fi alone decides whether the answer is live, and a live answer is built from the adsb.fi record |
| LiveFlightRoute.AdsbFailureNullsOnlyItsProvider | app/api/liveFlight/route.ts:24-60 | A rejected adsb.fi fetch or a non-200 status from it nulls only its slot: airplanes.live alone decides whether the answer is live, and a live answer is built from the airplanes.live record |
| LiveFlightPanel.BodyOf | components/custom/mainpage/LiveFlightData.tsx:46-52 | The body as the panel reads it: openSky always absent; best present exactly for a 200 answer, carrying its slots; an error body has nothing |
| LiveFlightPanel.RequestUrl | components/custom/mainpage/LiveFlightData.tsx:42-44 | The request carries the callsign as typed, not upper-cased, followed by the icao |
| LiveFlightPanel.Overwrite | components/custom/mainpage/LiveFlightData.tsx:48-50 | A present value replaces the slot, an absent one leaves it; the slot is empty afterwards only when both were |
| LiveFlightPanel.NextCountdown | components/custom/mainpage/LiveFlightData.tsx:67 | A tick never goes below 0, takes a positive countdown down by exactly one, and leaves 0 at 0 |
| LiveFlightPanel.ReplayKeepsLatestPresent | components/custom/mainpage/LiveFlightData.tsx:48-50 | After any series of responses, a slot holds the latest present value, or its old value when every response omitted it |
| LiveFlightPanel.TicksCountDown | components/custom/mainpage/LiveFlightData.tsx:66-68 | n ticks take the countdown to max(0, c - n), and it is never negative |
| LiveFlightPanel.LivePanel.constructor | components/custom/mainpage/LiveFlightData.tsx:31-35 | Every slot starts null, the countdown starts at 5, and no timer is running |
| LiveFlightPanel.LivePanel.FetchLive | components/custom/mainpage/LiveFlightData.tsx:40-61 | One request of the props' URL is logged. On a parsed body each slot becomes its old value overwritten by the body's field when present, the map receives best exactly when present, and the countdown resets to 5. On a throw no slot, map update or countdown changes |
| LiveFlightPanel.LivePanel.ApplyBody | components/custom/mainpage/LiveFlightData.tsx:48-57 | Each slot becomes Overwrite of its old value by the body's field; the map receives best exactly when it is present; the countdown resets to 5 |
| LiveFlightPanel.LivePanel.StartEffect | components/custom/mainpage/LiveFlightData.tsx:37-68 | An empty callsign fetches nothing, starts no timer and leaves every slot, the map updates and the countdown as they were; otherwise one request is logged, both intervals start, and the slots, map updates and countdown are those the first fetch gives |
| LiveFlightPanel.LivePanel.StopEffect | components/custom/mainpage/LiveFlightData.tsx:70-73 | Both intervals are cleared |
| LiveFlightPanel.LivePanel.RefreshFires | components/custom/mainpage/LiveFlightData.tsx:65 | One more request of the same URL, with callsign, icao and timers unchanged; the slots, map updates and countdown change exactly as a fetch with that outcome changes them |
| LiveFlightPanel.LivePanel.CountdownFires | components/custom/mainpage/LiveFlightData.tsx:66-68 | The countdown moves one step down, stopping at 0 |
| LiveFlightPanel.LivePanel.ChangeProps | components/custom/mainpage/LiveFlightData.tsx:37-74 | Unchanged props change nothing. New props restart the effect: timers run exactly when the new callsign is non-empty; an empty one leaves the request log and every displayed slot as they were; a non-empty one logs one request of the new URL and applies its outcome; slots are never reset |
| LiveFlightPanel.LivePanel.Unmount | components/custom/mainpage/LiveFlightData.tsx:70-73 | Unmounting leaves no timer running |
| LiveFlightPanel.RouteAnswerReachesPanel | components/custom/mainpage/LiveFlightData.tsx:40-57 | Feeding the route's answer to the panel: openSky never changes; a 404 or 500 keeps best and the map; a 200 moves best and the map to the answer's best |
| MainPage.Without | components/custom/mainpage/mainpage.tsx:92 | Keeps every entry other than the value, each as often as before and in order, and none equal to it; a history free of repeats stays so |
| MainPage.UpdatedHistory | components/custom/mainpage/mainpage.tsx:90-93 | The searched callsign heads the history and occurs only there; 1 to 5 entries; the rest is the earlier history without it, in order, cut to fit; no repeats are introduced |
| MainPage.UpdatedHistoryIdempotent | components/custom/mainpage/mainpage.tsx:90-93 | Searching the same callsign twice in a row changes nothing the second time |
| MainPage.WithoutAbsent | components/custom/mainpage/mainpage.tsx:92 | Filtering out an absent value changes nothing |
| MainPage.DraggedHeight | components/custom/mainpage/mainpage.tsx:58-59 | The height plus one fifth of the upward travel, clamped to [30, 100] |
| MainPage.DraggedHeightMonotone | components/custom/mainpage/mainpage.tsx:58-59 | Moving the finger further up never lowers the sheet |
| MainPage.SnappedHeight | components/custom/mainpage/mainpage.tsx:65-69 | Above 85 gives 100, above 50 gives 75, otherwise 30 |
| MainPage.SnapIdempotentAndMonotone | components/custom/mainpage/mainpage.tsx:65-69 | Snapping twice equals snapping once, and a higher sheet never snaps lower |
| MainPage.MainPageState.constructor | components/custom/mainpage/mainpage.tsx:32-40 | Empty search, empty history, sheet at 75, no drag in progress |
| MainPage.MainPageState.LoadSavedHistory | components/custom/mainpage/mainpage.tsx:43-49 | A stored history replaces the empty one; without one, nothing changes |
| MainPage.MainPageState.SetCallsign | components/custom/mainpage/mainpage.tsx:32 | The search text becomes the typed text |
| MainPage.MainPageState.TouchStart | components/custom/mainpage/mainpage.tsx:51-53 | Records the finger position |
| MainPage.MainPageState.TouchMove | components/custom/mainpage/mainpage.tsx:55-63 | Without a start point nothing changes; otherwise the height becomes the clamped dragged height and the start point follows the finger |
| MainPage.MainPageState.TouchEnd | components/custom/mainpage/mainpage.tsx:65-71 | The height snaps and the start point clears |
| MainPage.MainPageState.FetchFlight | components/custom/mainpage/mainpage.tsx:73-100 | A blank callsign changes nothing; otherwise the upper-cased callsign is looked up; a found route sets the route and the updated history, both in state and in storage; a throw leaves loading set |
| MainPage.MainPageState.StartLookup | components/custom/mainpage/mainpage.tsx:74-83 | Starts exactly for a callsign that does not trim to empty; when it starts: loading set, route cleared, the upper-cased callsign requested |
| MainPage.MainPageState.CompleteLookup | components/custom/mainpage/mainpage.tsx:85-99 | A throw leaves everything as it was, loading included; an answer without a route only ends loading; a route is stored and the history, in state and in storage, becomes UpdatedHistory |
| MainPage.MainPageState.ClearHistory | components/custom/mainpage/mainpage.tsx:102-105 | The history and its stored copy are gone |
| RoutePage.Settle | app/page.tsx:36-60 | A route exactly for an ok answer carrying a flightroute, with the error empty; otherwise "Flight not found", "No route data available", or the thrown message |
| RoutePage.ExactlyOneOfRouteOrError | app/page.tsx:45-57 | When thrown messages are non-empty, exactly one of route and error is set |
| RoutePage.RouteSearch.constructor | app/page.tsx:28-31 | Empty callsign, no route, not loading, no error |
| RoutePage.RouteSearch.SetCallsign | app/page.tsx:75 | The search text becomes the typed text |
| RoutePage.RouteSearch.BeginFetch | app/page.tsx:33-43 | Starts exactly for a non-blank callsign; when it starts: loading set, error and route cleared, the upper-cased callsign requested |
| RoutePage.RouteSearch.FinishFetch | app/page.tsx:45-60 | The route and error become what Settle gives, and loading ends false |
| RoutePage.RouteSearch.FetchFlight | app/page.tsx:33-61 | A blank callsign changes nothing; any other search ends with Settle's route and error and loading false |
| LoginReminder.JsRemainder | components/custom/mainpage/loginalert.tsx:21 | JavaScript's truncating `%`: smaller than the divisor in size, with the sign of the dividend; by 5 it is zero exactly when the mathematical remainder is, negative counts included |
| LoginReminder.CurrentCount | components/custom/mainpage/loginalert.tsx:16 | A missing or empty item counts as 0, a number as itself, and anything else as NaN |
| LoginReminder.ShowsToast | components/custom/mainpage/loginalert.tsx:21 | A NaN count never shows the toast |
| LoginReminder.NextStored | components/custom/mainpage/loginalert.tsx:16-19 | The stored count becomes the old count plus one (absent counts as 0); NaN stays NaN |
| LoginReminder.ShowsToastIffMultiple | components/custom/mainpage/loginalert.tsx:16-21 | A visit shows the toast exactly when the new count is a multiple of 5 |
| LoginReminder.AfterAddsVisits | components/custom/mainpage/loginalert.tsx:16-19 | k visits add k to a numeric count |
| LoginReminder.OneToastPerFiveVisits | components/custom/mainpage/loginalert.tsx:16-21 | From a numeric (or absent) stored count, any five consecutive signed-out visits show exactly one toast |
| LoginReminder.ToastsOverMultipleOfFive | components/custom/mainpage/loginalert.tsx:16-21 | 5m consecutive signed-out visits show exactly m toasts |
| LoginReminder.NaNNeverToasts | components/custom/mainpage/loginalert.tsx:16-21 | Once the stored item reads as NaN, no toast is ever shown again |
| LoginReminder.VisitCounter.constructor | components/custom/mainpage/loginalert.tsx:12 | Starts from the stored item, with no toast shown |
| LoginReminder.VisitCounter.Mount | components/custom/mainpage/loginalert.tsx:13-32 | Signed in: nothing is read, written or shown; signed out: the count moves by NextStored, and a toast shows exactly when ShowsToast holds |
| AuthVerify.RequestToken | backend/src/routes/verify.ts:15-17 | A non-empty cookie wins; otherwise the header with its first "Bearer " removed; with no header, nothing |
| AuthVerify.BearerRemovedWhereverItOccurs | backend/src/routes/verify.ts:17 | "Bearer " is removed even from the middle of the header, and the text around it is kept |
| AuthVerify.DoubledPrefixLeavesOne | backend/src/routes/verify.ts:17 | Only the first "Bearer " is removed |
| AuthVerify.Verify | backend/src/routes/verify.ts:13-53 | 200 exactly when a token is present, verifies and names an existing user, and then the reply is "Token valid" with that user and nothing else; a missing token, a failed verification, a user lookup that throws and a user that is gone each give 401 with their own message |
| AuthVerify.MissingTokenNeedsNoVerification | backend/src/routes/verify.ts:19-24 | Without a token the answer does not depend on verification or the database |
| AuthVerify.CookieTakesPrecedence | backend/src/routes/verify.ts:15-17 | With a non-empty cookie the Authorization header is irrelevant |
| AuthVerify.VerifiedButNoUser | backend/src/routes/verify.ts:35-40 | A verified token whose user is gone gives 401 "Invalid access token", whether the token came from the cookie or the header |
| AuthVerify.BearerHeaderActsAsCookie | backend/src/routes/verify.ts:15-17 | A "Bearer " header carrying a token is answered exactly as the same token in the cookie |
| AuthRegister.UserCollection.GenerateAccessAndRefreshToken | backend/src/routes/register.ts:8-24 | Tokens exactly when the user exists and nothing throws; then the stored user holds the new refresh token and nothing else changes; any failure leaves the store unchanged and gives the single error message |
| AuthRegister.FirstFailure | backend/src/routes/register.ts:30 | Gives the position of the first field that does not pass, with every field before it passing |
| AuthRegister.CheckFields | backend/src/routes/register.ts:30 | The first failing field alone decides: all pass, or missing (falsy or whitespace-only), or the trim throws (truthy, not a string) |
| AuthRegister.Register | backend/src/routes/register.ts:26-61 | 400 "All fields are required", 409 "User already exists" and 201 each exactly on their conditions; 500 "Error creating user" exactly when the created user reads back as null, every other path 500 "Server error"; a 201 reply carries the created user and only the access token, and no reply sets a cookie |
| AuthRegister.PresenceCheckedBeforeDatabase | backend/src/routes/register.ts:30-32 | A request failing the presence check is answered whatever the database would do |
| AuthRegister.DuplicateStopsBeforeCreate | backend/src/routes/register.ts:34-37 | A taken email gives 409 whatever creation and token issue would do |
| AuthRegister.BlankFieldRefused | backend/src/routes/register.ts:30-31 | When the first field that does not pass is a whitespace-only string, in any position, the answer is 400 "All fields are required" whatever the database would do |
| AuthRegister.NumberFieldIsServerError | backend/src/routes/register.ts:30-60 | When the first field that does not pass is a non-zero number, its `trim` throws and the answer is 500 "Server error", not 400, whatever the database would do |
| AuthLogin.Login | backend/src/routes/login.ts:8-46 | 400, 404, 401 and 200 each exactly on their conditions with their own message, all else 500 "Server error"; a 200 reply carries both tokens in the body and in http-only, secure cookies |
| AuthLogin.UnknownUserStopsEarly | backend/src/routes/login.ts:16-19 | An unknown email gives 404 whatever the password check and token issue would do |
| AuthLogin.WrongPasswordIssuesNothing | backend/src/routes/login.ts:21-24 | A wrong password gives 401, and no tokens or cookies, whatever token issue would do |
| AuthLogin.WhitespaceCredentialsPassLoginOnly | backend/src/routes/login.ts:12-14 | Whitespace-only credentials pass login's presence check but fail registration's |
| Middleware.Guard | middleware.ts:4-26 | Passes exactly when the cookie exists and the verify call answers exactly 200; everything else redirects to /login |
| Middleware.CookieHeader | middleware.ts:14 | The forwarded header is "accessToken=" followed by the cookie value unchanged |
| Middleware.NoCookieNoCall | middleware.ts:7-9 | Without a cookie the back end is not consulted |
| Middleware.GuardAsksOnce | middleware.ts:11-16 | The decision depends on the back end only through the one header sent |
| Middleware.UnderBase | middleware.ts:29 | A path under a base begins with that base, and a longer one continues with "/", so a mere prefix such as /dashboards is not under /dashboard |
| Middleware.Matches | middleware.ts:29 | Every guarded path begins with /dashboard or /profile |
| Middleware.MatcherScope | middleware.ts:28-30 | /dashboard, /profile and paths under them are guarded; /dashboards, /profiles, /login and / are not |
| Middleware.Handle | middleware.ts:28-30 | Unguarded paths pass; guarded paths get Guard's decision; only guarded paths are ever redirected |

## Left out

**Not modelled at all.**

- Rendering (JSX, class names, the map component), the service worker, the rest of `server.ts` and the MongoDB connection.
- AuthVerify.Verify: the handler is modelled as written, cookie rung included. But `backend/src/server.ts:12-14` installs no cookie parser, so in the app as served `req.cookies` is undefined and the cookie argument is always None. Two consequences follow. `AuthVerify.CookieTakesPrecedence` describes a path the served app never takes. And the `Cookie: accessToken=…` header that `Middleware.Guard` forwards never authenticates, because only an `Authorization` header would and the guard sends none. The model does not compose the guard with the verify handler.
- The compiled `backend/dist` files, and the fact that the router mounts do not match the front end's URLs. Neither is part of the handlers' logic.
- JWT signing, bcrypt hashing and comparison, and Mongoose behaviour. Examples are `lowercase`/`trim` on email, validation, and what `select` hides. These are oracle parameters, and the reply's user is only an id.
- Concurrency. Each React handler, effect or timer callback runs to completion as one method. Interleavings of awaits, stale closures, and `Promise.allSettled` settling in any order are not modelled. Settling order cannot change the route's answer.
- Timer periods (5000 ms and 1000 ms). They are not modelled; time is the order of `RefreshFires` and `CountdownFires` calls.

**Simplified values.**

- Floating-point numbers. Aircraft fields are uninterpreted `JsValue`s that are copied, never computed with. The sheet height uses exact `real` arithmetic.
- Text.Upper maps only ASCII letters. Full Unicode case mapping, such as "ß" to "SS", is not modelled.
- LoginReminder.NextStored adds one to the count as an exact integer. JavaScript's float64 rounding at 2^53 and above, where `count + 1` no longer changes the stored count and so no toast would follow, is not modelled.
- LoginReminder.CurrentCount reads the stored item as absent, an integer, or NaN. Non-integer numeric text, such as "2.5", is not modelled.
- LiveFlightRoute.Extract assumes `ac` is a list of aircraft objects. A null `ac[0]` or a non-array `ac` is not modelled.
- MainPage.MainPageState.LoadSavedHistory takes the stored history already parsed. A stored value that is empty, malformed, or not a list of strings is not modelled.
