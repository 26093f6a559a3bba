# Gym console: verified model of its client-side decision rules

The gym-management console is a browser front end. Almost all of it is view code that calls a
remote REST API. This project models the small pieces of logic inside it in Dafny and proves
properties about them:

- **Password-strength classifier** (`PasswordStrength`, `password.dfy`). Maps a password to no level, `very-weak`, `weak`, `medium` or `strong`, each with its fixed label, color and bar. It also models the registration form's rule that blocks a `very-weak` password.
- **Subscription provider** (`SubscriptionContext`, `subscription_context.dfy`). Holds the cached subscription snapshot and the loading flag, and defines the transition each fetch outcome causes. It also models the accessor that fails outside the provider.
- **Plan route guard** (`PlanRoute`, `plan_route.dfy`). Compares the received plan name against a route's minimum tier through the weight table, and decides whether to render nothing, redirect to `/home/plans-gym`, or render the children. It is composed with the provider to state end-to-end access properties.
- **Payment history** (`HistoryPagos`, `history_pagos.dfy`). Decodes the response shape, sorts newest first (a stable sort), filters by an inclusive date range with the bounds the code computes, and keeps the view's state consistent. A corrected filter by local calendar days sits beside it (see Findings).
- **API client** (`Services`, `services.dfy`). Covers token storage, the request interceptor that adds `Authorization: Bearer <token>` (section 2.1 of RFC 6750), the decimal rendering of numeric ids, and the method and path of every endpoint. A router inverts the endpoint table, which shows that distinct operations and ids give distinct requests.
- **Header alert panel** (`Header`, `header.dfy`). Covers the alert fetch transitions, the bell toggle, the badge, the count label and the panel body, and logout.

Fetches are abstract inputs, `Fetched<T> = Ok(data) | Err` (`wrappers.dfy`). A JSON `null` body is `None`. Event traces are sequential lists of settlements, applied in the order they settled.

Behaviour of the code worth noting:

- The code has no response interceptor, so no 401/403 handling and no token clearing on errors.
- The trial tier is spelled `"trial"` in lower case.
- An unrecognised plan name does not redirect. `PlanRoute.Guard` proves this fail-open behaviour.
- `getSubscription` is not part of `apiService`, so the subscription fetch is only an abstract outcome.

## Model

| member | source | states |
|---|---|---|
| PasswordStrength.Presentation | src/utils/validatePassword.ts:9-45 | every level comes with one fixed label, color and bar, and the record carries that level |
| PasswordStrength.Score | src/utils/validatePassword.ts:17-21 | the score is at most 4; it is 4 exactly when all four criteria hold and 0 exactly when none holds |
| PasswordStrength.Check | src/utils/validatePassword.ts:3-47 | no level exactly for the empty password; `very-weak` exactly for lengths 1-5, whatever the contents; from length 6, score ≤ 1 is `weak`, 2-3 is `medium`, 4 is `strong`; `strong` exactly when length ≥ 8 and there is an upper-case letter, a digit and a symbol, so lengths 6-7 are never strong; the presentation always matches the level |
| PasswordStrength.ComputeScore | src/utils/validatePassword.ts:17-21 | the one-pass scan of the character classes followed by the four increments yields exactly the score |
| PasswordStrength.ExtendNeverWeakens | src/utils/validatePassword.ts:8-46 | appending characters to a password never lowers its level (the empty password ranks lowest) |
| PasswordStrength.CanSubmit | src/views/Register.tsx:154 | the submit button is enabled exactly when no request is pending and the password is empty or has at least 6 characters, i.e. is not `very-weak` |
| SubscriptionContext.Initial | src/context/SubscriptionContext.tsx:19-20 | the provider starts loading with no snapshot |
| SubscriptionContext.Settle | src/context/SubscriptionContext.tsx:22-31 | after any outcome loading is false; success replaces the snapshot wholesale with the body; failure leaves no snapshot, the same state as no subscription |
| SubscriptionContext.RunLastWins | src/context/SubscriptionContext.tsx:22-31 | after any non-empty sequence of settlements, initial or refresh, the state is what the last settlement alone produces |
| SubscriptionContext.RunLoading | src/context/SubscriptionContext.tsx:20-42 | loading is still true after a trace exactly when it started true and nothing settled; refresh never sets it back to true |
| SubscriptionContext.UseSubscription | src/context/SubscriptionContext.tsx:50-56 | without a provider value the accessor fails with its fixed message and never returns a default; with one it returns that value |
| SubscriptionContext.Publish | src/context/SubscriptionContext.tsx:37-46 | the published value carries the snapshot and loading flag and is accepted by the accessor |
| PlanRoute.Weight | src/context/PlanRoute.tsx:12-17 | a plan name has a weight exactly when it is one of the four case-sensitive tier names |
| PlanRoute.WeightsMatchOrder | src/context/PlanRoute.tsx:12-17 | comparing weights is exactly the documented tier order; trial = Basic < Medium < Premium |
| PlanRoute.AtLeastIsTotalPreorder | src/context/PlanRoute.tsx:12-17 | the tier order is reflexive, transitive and total |
| PlanRoute.Guard | src/context/PlanRoute.tsx:9-32 | it renders nothing exactly while loading; when not loading, no subscription redirects to `/home/plans-gym`; a known tier gets the children exactly when it is at least the required tier in the documented order; an unknown plan name always gets the children |
| PlanRoute.GuardMonotone | src/context/PlanRoute.tsx:27 | a plan that passes a gate passes every gate of no greater weight |
| PlanRoute.ChatRouteGate | src/views/Layout.tsx:37-39 | at the chat route's Medium gate, trial and Basic are redirected while Medium and Premium render |
| PlanRoute.GuardIgnoresStatus | src/context/PlanRoute.tsx:25-27 | the decision never depends on the subscription's status or end date |
| PlanRoute.AccessAfterTrace | src/context/PlanRoute.tsx:19-31 | composed with the provider: nothing renders before any fetch settles; afterwards only the last settlement counts; a failure or empty body redirects, and a received subscription is judged by the guard |
| HistoryPagos.Decode | src/views/HistoryPagos.tsx:31-38 | the decoded list is the array the body carries (the named field first, then a bare array), and empty for any other shape |
| HistoryPagos.DecodeRoundTrip | src/views/HistoryPagos.tsx:31-34 | a list wrapped in the named field, or sent bare, decodes back to itself |
| HistoryPagos.Insert | src/views/HistoryPagos.tsx:41 | inserting into a newest-first list keeps it newest first and adds exactly that one element |
| HistoryPagos.SortDesc | src/views/HistoryPagos.tsx:41 | the sorted list is newest first and a permutation of the decoded list |
| HistoryPagos.InsertStable | src/views/HistoryPagos.tsx:41 | an inserted payment goes before the payments created at the same instant |
| HistoryPagos.SortStable | src/views/HistoryPagos.tsx:41 | payments created at the same instant keep their received order |
| HistoryPagos.SortedUnique | src/views/HistoryPagos.tsx:41 | two newest-first lists that agree, in order, on the payments at every instant are equal |
| HistoryPagos.SortCharacterised | src/views/HistoryPagos.tsx:41 | a list is a stable newest-first sort of the input exactly when it equals the model's sort |
| HistoryPagos.Matching | src/views/HistoryPagos.tsx:65-70 | one filter pass keeps exactly the payments within the bounds, as an order-preserving subsequence, and keeps a newest-first list newest first |
| HistoryPagos.MatchingCounts | src/views/HistoryPagos.tsx:65-70 | one filter pass keeps each payment within the bounds as many times as it occurs in the input, and no payment outside them |
| HistoryPagos.FilterPayments | src/views/HistoryPagos.tsx:61-74 | with neither bound set the list is unchanged |
| HistoryPagos.MatchingUnbounded | src/views/HistoryPagos.tsx:62-64 | filtering with no bound keeps every payment |
| HistoryPagos.Meet | src/views/HistoryPagos.tsx:64-71 | a payment is within the combined bounds exactly when it is within both |
| HistoryPagos.MatchingTwice | src/views/HistoryPagos.tsx:65-70 | filtering by one bound and then another is one filter by both |
| HistoryPagos.FilterIsOnePass | src/views/HistoryPagos.tsx:61-74 | the start-then-end filter equals the single filter by both bounds |
| HistoryPagos.FilterSpec | src/views/HistoryPagos.tsx:61-74 | the filtered list holds exactly the payments within the bounds, each as many times as in the input, in input order, and stays newest first |
| HistoryPagos.FilterIdempotent | src/views/HistoryPagos.tsx:65-70 | filtering an already-filtered list by the same bounds changes nothing |
| HistoryPagos.BoundsAsWritten | src/views/HistoryPagos.tsx:64-70 | a bound is set exactly when its date is; the start bound is midnight UTC of the start day; the end bound is the last millisecond of the local day containing midnight UTC of the end day |
| HistoryPagos.SetEndOfLocalDay | src/views/HistoryPagos.tsx:68-69 | the result is the last millisecond of the local day containing the given instant |
| HistoryPagos.DayBoundaries | src/views/HistoryPagos.tsx:64-71 | an instant is at or after the start of day d exactly when its day is at least d, and at or before the end of day d exactly when its day is at most d |
| HistoryPagos.BoundsForSelectsLocalDays | src/views/HistoryPagos.tsx:64-71 | the intended bounds keep exactly the payments whose local day lies in the chosen range, both ends inclusive |
| HistoryPagos.BoundsAgreeAtUtc | src/views/HistoryPagos.tsx:64-71 | at UTC the bounds as written equal the intended bounds |
| HistoryPagos.EndBoundDropsEndDay | src/views/HistoryPagos.tsx:67-70 | four hours west of UTC, the end bound as written excludes a payment made at 09:00 local time on the chosen end day |
| HistoryPagos.StartBoundAdmitsEve | src/views/HistoryPagos.tsx:64-65 | four hours west of UTC, the start bound as written keeps a payment made at 21:00 local time the day before the chosen start day |
| HistoryPagos.Shown | src/views/HistoryPagos.tsx:61-74 | the list shown holds exactly the payments within the bounds as written, each as many times as in the input; a newest-first list stays newest first; with no dates it is the whole list |
| HistoryPagos.ShownIntendedDays | src/views/HistoryPagos.tsx:64-71 | the corrected filter holds exactly the payments of the chosen local days |
| HistoryPagos.ShownIntendedSpec | src/views/HistoryPagos.tsx:64-71 | the corrected filter keeps each payment of the chosen local days as many times as in the input, drops every other payment, and stays newest first |
| HistoryPagos.ShownIsIntendedAtUtc | src/views/HistoryPagos.tsx:64-71 | at UTC the list shown is the corrected one |
| HistoryPagos.InitialView | src/views/HistoryPagos.tsx:15-19 | the view starts loading, with no payments and no dates |
| HistoryPagos.BeginFetch | src/views/HistoryPagos.tsx:25 | starting a fetch sets loading and changes nothing else |
| HistoryPagos.SettleFetch | src/views/HistoryPagos.tsx:23-59 | loading ends either way; a failed fetch leaves both lists unchanged; a successful one stores the stable newest-first sort of the decoded data, a permutation of it, and the shown list becomes that list filtered by the current dates |
| HistoryPagos.SetRange | src/views/HistoryPagos.tsx:57-74 | changing the dates changes neither the payments nor the loading flag, and the shown list becomes the payments filtered by the new dates |
| HistoryPagos.ViewInvariant | src/views/HistoryPagos.tsx:23-74 | the initial view and every transition keep the payments newest first and the shown list equal to their filter by the chosen dates with the bounds as written |
| HistoryPagos.ShownSpec | src/views/HistoryPagos.tsx:57-74 | in a consistent view the shown list holds exactly the payments within the bounds as written, each as many times as in the payments, newest first; with no dates it is all of them |
| HistoryPagos.ShownAtUtc | src/views/HistoryPagos.tsx:57-74 | in a consistent view at UTC the shown list holds exactly the payments of the chosen days |
| Services.StoredToken | src/services/services.ts:76 | a token is read exactly when the `token` key is stored, and it is the stored value |
| Services.SaveToken | src/views/Login.tsx:34-35 | login stores a non-empty token and touches no other key |
| Services.RemoveToken | src/components/Header.tsx:71 | removing the token leaves none stored and touches no other key |
| Services.Intercept | src/services/services.ts:74-82 | only the `Authorization` header may change; method, URL, body and every other header are kept; with no token or an empty one the configuration is returned unchanged |
| Services.InterceptCarriesToken | src/services/services.ts:76-80 | with a non-empty token the written header is a bearer credential that reads back as exactly that token |
| Services.NoCredentialAfterLogout | src/services/services.ts:76-78 | once the token is removed, the interceptor leaves every request unchanged |
| Services.RunInterceptor | src/services/services.ts:74-86 | a request-setup error is passed through unchanged as a rejection, and a configuration is never turned into one |
| Services.DigitChar | src/services/services.ts:93-94 | every digit value renders as a digit character |
| Services.DigitValue | src/services/services.ts:93-94 | reading a digit character gives the value that renders back to it |
| Services.NatText | src/services/services.ts:93-94 | the numeral of a natural number is a non-empty string of digits |
| Services.IntText | src/services/services.ts:93-94 | the interpolated text of a numeric id is non-empty |
| Services.NatTextRoundTrip | src/services/services.ts:93-94 | reading back the numeral of n gives n |
| Services.IntTextRoundTrip | src/services/services.ts:93-94 | parsing the interpolated text of any integer id gives that integer back |
| Services.IntTextInjective | src/services/services.ts:93-94 | distinct numeric ids are interpolated as distinct texts |
| Services.Drop | src/services/services.ts:93-106 | the prefix followed by what is dropped rebuilds the path |
| Services.Route | src/services/services.ts:89-113 | every request path is relative to the API base and begins with `/` |
| Services.AfterConcat | src/services/services.ts:93-106 | the text after a prefix of `prefix + rest` is `rest` |
| Services.NotAfter | src/services/services.ts:93-106 | a path that differs from a prefix at a position they share does not start with it |
| Services.RouteRoundTrip | src/services/services.ts:89-113 | parsing the method and path of any operation's request gives back that operation, with its id as the text it was interpolated as; for a renewal, the membership number |
| Services.PathsInjective | src/services/services.ts:93-106 | two operations sending the same method and path are the same operation with the same id text, so distinct ids give distinct paths |
| Header.InitialPanel | src/components/Header.tsx:26-29 | the panel starts closed, with no data and not loading |
| Header.BeginFetch | src/components/Header.tsx:36 | a fetch sets loading and keeps the data and the open state |
| Header.SettleFetch | src/components/Header.tsx:35-46 | loading ends after either outcome; success stores the body as the alert data and failure clears it |
| Header.ClickBell | src/components/Header.tsx:103-106 | a click flips the panel and starts a fetch exactly when the panel was closed |
| Header.Badge | src/components/Header.tsx:110-114 | the badge is shown exactly when alert data is present with a positive count, and it shows that count |
| Header.CountNoun | src/components/Header.tsx:124 | the noun is `Vencida` exactly when the count is 1, otherwise `Vencidas` |
| Header.CountLabel | src/components/Header.tsx:118-126 | the count label is shown exactly when the panel is open and alert data is present |
| Header.CountLabelScenarios | src/components/Header.tsx:124 | counts 1, 3 and 0 are labelled `1 Vencida`, `3 Vencidas` and `0 Vencidas` |
| Header.PanelBody | src/components/Header.tsx:118-161 | nothing shows while the panel is closed; when open, the spinner shows exactly while loading, otherwise the client rows show when the list is present and non-empty, and the empty message shows in every other case |
| Header.RunSnoc | src/components/Header.tsx:35-46 | running a trace and then one more event is running the extended trace |
| Header.RunSpec | src/components/Header.tsx:35-106 | over any trace, the panel is open according to the parity of the clicks, and the alert data is that of the last fetch to settle |
| Header.OverlapEndsLoadingEarly | src/components/Header.tsx:36-45 | when one of two overlapping fetches settles, loading ends even though the other is outstanding |
| Header.BadgeScenarios | src/components/Header.tsx:110-114 | a response with count 3 shows badge 3; count 0 or a failed fetch shows no badge |
| Header.Logout | src/components/Header.tsx:70-73 | logout leaves no stored token, keeps every other key with its value and navigates to `/login` |
| Header.LogoutStopsCredentials | src/components/Header.tsx:70-72 | after logout, no request gets an `Authorization` header from the interceptor |

## Left out

- PasswordStrength.CanSubmit: models the button's `disabled` rule only. The password input is `required` (src/views/Register.tsx:119), so the browser's own form validation also blocks an empty password. Browser validation is not modelled.
- PasswordStrength.Check: lengths are counted in Unicode scalar values. JavaScript counts UTF-16 code units, so a password with characters outside the Basic Multilingual Plane is longer in the source than in the model.
- Services.IntText: numeric ids are mathematical integers. JavaScript writes numbers of magnitude 10^21 or more in exponent notation, and non-integral numbers with a fraction. Neither case is modelled.
- Services.Route: request bodies, the base URL, the default `Content-Type`/`Accept` headers, and the exchange-rate call (`getExchangeRate`) are not modelled, because they are network I/O through the axios library.
- Services.Intercept: axios header names are case-insensitive. The model keys headers by the exact name `Authorization`.
- The subscription fetch (`getSubscription`) is not defined in `apiService`. It is an external call whose outcome is an input.
- Overlapping fetches resolving out of order: traces are sequences of settlements in settlement order. `Header.OverlapEndsLoadingEarly` shows the one consequence the sequential model can state.
- PlanRoute.Guard: the plan name is a string or missing. Any name outside the four-entry table, including inherited object keys that give a non-numeric value, compares as false and never redirects. The model gives all such names no weight.
- HistoryPagos: `created_at` strings are abstracted to millisecond instants, and invalid dates (NaN comparisons) are not modelled. The time-zone offset is a fixed parameter.
- HistoryPagos.SettleFetch: the view's separate setting of the shown list to the fresh data, followed by its filter effect, is modelled as the state after the effect. The error dialog on failure is not modelled.
- Header: the five-minute polling timer, the click-outside listener, the user dropdown, date formatting and navigation are browser event-loop and rendering plumbing. A poll or mount fetch appears as a `Poll` event.
- SubscriptionContext.UseSubscription: the published refresh callback is not part of the value. It is the same transition as `Settle`, so it is covered by the traces.
- All rendering, styling, icons, dialogs and toasts, plus the form-and-CRUD views (plans, clients, memberships, assistant chat, login and password screens, home, aside, layout, app). These are presentation with no stated rule. Their response decoding is the same shape as `HistoryPagos.Decode`.

## Findings

| source | as written | input that shows it | evidently intended | confidence | as-written member | corrected member |
|---|---|---|---|---|---|---|
| src/views/HistoryPagos.tsx:67-70 | `new Date(endDate)` is midnight UTC of the chosen day; `setHours(23, 59, 59, 999)` then moves to the end of the LOCAL day containing that instant | time zone UTC−4, end date D, payment at 09:00 local time on D: it is excluded | the end bound is 23:59:59.999 local time on D | medium (follows from date-only strings being UTC and `setHours` being local); not executed | HistoryPagos.EndBoundDropsEndDay | HistoryPagos.BoundsForSelectsLocalDays |
| src/views/HistoryPagos.tsx:64-65 | the start bound is midnight UTC of the chosen day | time zone UTC−4, start date D, payment at 21:00 local time on D−1: it is kept | the start bound is 00:00 local time on D | medium; not executed | HistoryPagos.StartBoundAdmitsEve | HistoryPagos.BoundsForSelectsLocalDays |

The view's state (`HistoryPagos.Shown`, `HistoryPagos.SettleFetch`, `HistoryPagos.SetRange`, `HistoryPagos.ViewInvariant`, `HistoryPagos.ShownSpec`) uses the bounds as written, `HistoryPagos.BoundsAsWritten`. The corrected filter is `HistoryPagos.ShownIntended`, over the bounds `HistoryPagos.BoundsFor`; `HistoryPagos.ShownIntendedDays` and `HistoryPagos.ShownIntendedSpec` prove it selects exactly the chosen local days. At UTC the two coincide (`HistoryPagos.BoundsAgreeAtUtc`, `HistoryPagos.ShownIsIntendedAtUtc`).
