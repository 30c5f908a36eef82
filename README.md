# Bus driver app: trip tracking model

A Dafny model of the decision logic of the driver app in `App.tsx`: a React
Native screen flow in which a driver signs in with a phone number, picks a
bus from a searchable list, and broadcasts the bus's position to a
Firestore document `live_trips/{busId}` while a trip is running.

What is modelled:

- **Tracking screen** (`Tracking`, `TrackingRuns`). The screen's state
  (`isTracking`, `location`, `watchId`, `routeDetails`, `loadingRoute`,
  `hasPermission`) is the class `Tracking.TrackingScreen`. Its methods are
  the handlers and callbacks. Each one is proved equal to a step function
  from the old state to the new state and the effects it emits. Effects are
  geolocation calls, Firestore reads and writes, and alerts. They are
  appended to a ghost log instead of being performed. The answers of the
  platform are parameters: a permission answer, a document that exists, is
  missing or fails to load, a write that resolves or fails, and the id
  `watchPosition` returns. `TrackingRuns` applies any sequence of events
  and proves what every run emits.
- **Bus selection** (`BusSelection`, `Text`). This covers the list built
  from each collection snapshot and the search filter. The filter keeps,
  in order, the buses whose lower-cased id contains the lower-cased query.
  The screen keeps the invariant `filteredBuses == FilterBuses(buses,
  searchQuery)`.
- **Phone sign-in** (`PhoneAuth`). This covers the 10-character number
  check, the `+91` prefix and the 6-character code check.
- **Navigator** (`Navigator`). This covers `renderScreen` as a function of
  the user and the selected bus, and `handleSignOut`.

Behaviour of the code that the model keeps as written:

- `startTracking` starts the watch before the first fix is known, so a
  failed first fix leaves the watch running. Only `isTracking` drops.
- "End Trip" does not cancel a pending one-shot `getCurrentPosition`. A
  first fix that arrives after the stop writes `isActive: true` again
  (`TrackingRuns.LateFirstFixReactivates`).
- Nothing bounds the number of watches. A second start replaces `watchId`
  whatever was held before.
- A bus document without `routeId` leaves `routeDetails` null without an
  error alert. Start is then refused with "Cannot Start".
- `stopTracking` always sends the `isActive: false` update, whatever the
  state.
- Truthiness decides every guard. An empty string counts as missing. A
  watch id of `0` counts as no watch, so stop, the effect cleanup and
  unmounting never clear a watch whose id is 0. The next fix from that
  watch then writes `isActive: true` again, after the trip was marked
  inactive (`TrackingRuns.WatchIdZeroIsNeverCleared`).
- The cleanup of the `[watchId]` effect runs whenever `watchId` changes,
  not only at unmount. That cleanup, `Tracking.CommitWatchEffectStep`, is
  what clears the first watch when a second start replaces it. The start
  handler alone overwrites `watchId` and leaves the old watch running.
- Signing out from the tracking screen unmounts it without calling
  `stopTracking`. The watch is cleared but no inactive update is sent, so
  `live_trips/{busId}` stays `isActive: true`.

## Model

| member | source | states |
|---|---|---|
| PhoneAuth.InternationalNumber | App.tsx:71-78 | a number is sent iff the typed text has exactly 10 characters, and then it is `+91` followed by the text |
| PhoneAuth.LocalOfInternational | App.tsx:78 | removing the prefix from the sent number gives back what was typed |
| PhoneAuth.InternationalOfLocal | App.tsx:78 | every 13-character `+91` number is the one sent for its last 10 characters |
| PhoneAuth.InternationalInjective | App.tsx:78 | two different typed numbers are never sent as the same number |
| PhoneAuth.PhoneAuthScreen.constructor | App.tsx:66-69 | empty phone and code, no confirmation, not loading |
| PhoneAuth.PhoneAuthScreen.SetPhone | App.tsx:117 | typing replaces the phone text |
| PhoneAuth.PhoneAuthScreen.SetCode | App.tsx:130 | typing replaces the code text |
| PhoneAuth.PhoneAuthScreen.SignInWithPhoneNumber | App.tsx:71-85 | wrong length: an alert and no call. Otherwise exactly one send of the prefixed number. The confirmation is stored on success, the error alert is raised on failure, and loading ends false |
| PhoneAuth.CodeAccepted | App.tsx:88 | a code passes the check only if it has exactly 6 characters; `ConfirmCode` sends nothing otherwise |
| PhoneAuth.PhoneAuthScreen.ConfirmCode | App.tsx:87-100 | a code that is not 6 characters: an alert and no call. Without a confirmation, no call and the invalid-code alert. Otherwise one confirm call with the code. Signed in iff the provider accepts |
| Text.LowerChar | App.tsx:166 | ASCII capitals become the matching small letter, every other character is kept, no capital remains |
| Text.Lower | App.tsx:166 | same length, each character lower-cased |
| Text.Includes | App.tsx:166 | every string includes the empty needle; the full meaning is `Text.IncludesIff` |
| Text.IncludesIff | App.tsx:166 | `includes` holds exactly when the needle occurs at some position |
| BusSelection.ToBus | App.tsx:149-152 | a list entry keeps the document id and the document's model and route id |
| BusSelection.BuildBusList | App.tsx:147-153 | one bus per snapshot document, in snapshot order, with the document id and the document's fields |
| BusSelection.Matches | App.tsx:166 | a bus matches iff the needle occurs at some position of its lower-cased id |
| BusSelection.KeepMatching | App.tsx:165-167 | the filter result is no longer than the list, and holds only listed buses that match |
| BusSelection.FilterBuses | App.tsx:161-170 | the empty query gives the whole list; otherwise only buses whose lower-cased id contains the lower-cased query |
| BusSelection.KeepMatchingIsSubsequence | App.tsx:165-167 | the filter keeps the original order (the result is a subsequence of the list) |
| BusSelection.KeepMatchingCounts | App.tsx:165-167 | each matching bus is kept as often as the list holds it; each other bus is dropped |
| BusSelection.KeepMatchingAppend | App.tsx:165-167 | filtering a concatenation is concatenating the filtered parts |
| BusSelection.EmptyNeedleKeepsAll | App.tsx:162-168 | filtering by the lower-cased empty query keeps everything, so the empty-query branch agrees with the general one |
| BusSelection.FilterBusesExact | App.tsx:161-170 | the list shown is, in order, exactly the matching buses with their multiplicities |
| BusSelection.BusSelectionScreen.constructor | App.tsx:138-141 | empty lists, empty query, loading |
| BusSelection.BusSelectionScreen.RunFilterEffect | App.tsx:161-170 | the shown list is the filter of the list by the query |
| BusSelection.BusSelectionScreen.OnSnapshot | App.tsx:146-157 | the list is rebuilt from the snapshot, loading ends, the query is kept, and the shown list is filtered again |
| BusSelection.BusSelectionScreen.SetSearchQuery | App.tsx:161-170 | a new query re-filters the unchanged list |
| Tracking.Initial | App.tsx:221-226 | not tracking, no location, no watch, no route, route loading, no permission |
| Tracking.FetchRouteInfoStep | App.tsx:231-258 | without a bus id, nothing happens. Otherwise loading ends false and the bus is read first. Only the route details and loading change. The route details are set, with the bus's `routeId` as id, exactly when the bus and its named route both exist. The error alert is raised iff the bus cannot be read or its named route cannot be read. A bus without `routeId` gives no alert |
| Tracking.RequestPermissionStep | App.tsx:262-289 | only `hasPermission` changes. It becomes true on non-Android or on an Android grant, false on a denial, and stays as it was if the request throws. The denial alert is raised iff Android denies. The request is made iff on Android |
| Tracking.LiveTripWrite | App.tsx:298-313 | no write iff the bus id, the driver id or the route id is missing. Otherwise one merge write to `live_trips/busId` with `driverId = uid`, `routeId = routeDetails.id`, `isActive = true` and the fix's coordinates |
| Tracking.UpdateLocationStep | App.tsx:298-319 | a guarded fix emits exactly the one guarded write. The state is unchanged unless that write succeeds, and then only the location becomes the fix |
| Tracking.StartTrackingStep | App.tsx:321-358 | without permission: only the permission alert. Then, without route details: only the cannot-start alert. Neither refusal changes state or starts geolocation work. A valid start sets `isTracking`, issues one one-shot request and one watch, and stores the watch id |
| Tracking.InitialFixFailedStep | App.tsx:338-342 | only `isTracking` changes, to false; the watch and `watchId` stay; one alert |
| Tracking.WatchFailedStep | App.tsx:352-354 | a watch error changes nothing and emits nothing |
| Tracking.StopTrackingStep | App.tsx:360-370 | tracking off and location forgotten in every state. A held watch is cleared and `watchId` becomes null. A falsy `watchId` is kept. Exactly one inactive update for the bus is sent |
| Tracking.CommitWatchEffectStep | App.tsx:292-296 | after `watchId` changes, the old cleanup clears the watch it captured if that is truthy, and the new cleanup captures the current `watchId` |
| Tracking.UnmountEffects | App.tsx:292-296 | unmounting clears the captured watch if it is truthy and emits nothing else, in particular no inactive update |
| Tracking.TrackingScreen.constructor | App.tsx:220-228 | the mounted screen is in the initial state with an empty effect log |
| Tracking.TrackingScreen.FetchRouteInfo | App.tsx:232-255 | new state and appended effects are those of `FetchRouteInfoStep` |
| Tracking.TrackingScreen.RequestPermission | App.tsx:262-287 | new state and appended effects are those of `RequestPermissionStep` |
| Tracking.TrackingScreen.UpdateLocationInFirestore | App.tsx:298-319 | new state and appended effects are those of `UpdateLocationStep` |
| Tracking.TrackingScreen.StartTracking | App.tsx:321-358 | new state and appended effects are those of `StartTrackingStep` |
| Tracking.TrackingScreen.OnInitialFixError | App.tsx:338-342 | new state and appended effects are those of `InitialFixFailedStep` |
| Tracking.TrackingScreen.OnWatchError | App.tsx:352-354 | new state and appended effects are those of `WatchFailedStep`: nothing changes |
| Tracking.TrackingScreen.StopTracking | App.tsx:360-370 | new state and appended effects are those of `StopTrackingStep` |
| Tracking.TrackingScreen.CommitWatchEffect | App.tsx:292-296 | new state and appended effects are those of `CommitWatchEffectStep` |
| Tracking.TrackingScreen.Unmount | App.tsx:292-296 | appends exactly `UnmountEffects` of the current state |
| TrackingRuns.Apply | App.tsx:321-370 | each event runs its handler's step. Both fix callbacks run `UpdateLocationStep`, the one-shot error runs `InitialFixFailedStep`, and the watch error runs `WatchFailedStep` |
| TrackingRuns.FixCallbacksIgnoreTracking | App.tsx:333-351 | the one-shot and the watched fix do the same thing. What they emit does not depend on `isTracking` or the watch. When the session and route allow a write, each emits exactly that write |
| TrackingRuns.RunWritesCarrySession | App.tsx:298-313 | in every run from every state, each merge write goes to this bus's document, as this driver, with a non-empty route id and `isActive = true` |
| TrackingRuns.RunWritesCarryRoute | App.tsx:298-313 | once the route is resolved and not fetched again, the route details stay and every merge write carries that route's id, however many fixes arrive |
| TrackingRuns.DeactivationsMatchEndPresses | App.tsx:360-370 | in every run, the number of inactive updates equals the number of stop presses |
| TrackingRuns.UnresolvedRouteNeverBroadcasts | App.tsx:242-249 | if the route is never resolved, no run starts tracking, requests a fix, starts a watch or writes a position |
| TrackingRuns.NoPermissionNeverStarts | App.tsx:321-324 | without permission, and with no granting answer, no run starts tracking, requests a fix or starts a watch |
| TrackingRuns.StopIdempotent | App.tsx:360-366 | stopping a second time leaves the state of stopping once |
| TrackingRuns.BusWithRouteBecomesReady | App.tsx:236-245 | bus B12 naming route R5 loads R5's details and, with permission, is ready to start |
| TrackingRuns.ThreeFixesThreeWrites | App.tsx:331-357 | a start followed by the one-shot fix and two watched fixes gives exactly three active merge writes carrying the three fixes in order, and shows the last fix |
| TrackingRuns.StopRightAfterStart | App.tsx:360-370 | stopping right after a start clears the watch and sends one inactive update |
| TrackingRuns.BusWithoutRouteCannotStart | App.tsx:240-249 | a bus without `routeId` gives no alert and no route details, and start is refused |
| TrackingRuns.FailedInitialFixKeepsWatch | App.tsx:338-357 | a failed first fix keeps the watch. A second start replaces `watchId`, and only the re-render's cleanup clears the first watch |
| TrackingRuns.LateFirstFixReactivates | App.tsx:321-370 | "End Trip" does not cancel the one-shot request. A first fix that arrives after the stop and the re-render's cleanup sends an active merge write after the inactive update |
| TrackingRuns.WatchIdZeroIsNeverCleared | App.tsx:292-370 | a watch with id 0 is cleared neither by stop, nor by the re-render, nor by unmounting. Its next fix sends an active merge write after the inactive update |
| Navigator.RenderScreen | App.tsx:446-454 | the auth screen iff there is no user. Bus selection iff there is a user but no selected bus. Tracking iff both, and then it gets the user and a non-empty bus id |
| Navigator.App.View | App.tsx:438-454 | the loader iff initializing, otherwise `renderScreen` |
| Navigator.App.constructor | App.tsx:419-421 | initializing, no user, no selected bus |
| Navigator.App.OnAuthStateChanged | App.tsx:423-429 | the user is replaced and initializing ends; with no user, the auth screen shows |
| Navigator.App.SelectBus | App.tsx:451 | the selected bus is set; with a user, the tracking screen for it shows |
| Navigator.App.HandleSignOut | App.tsx:431-436 | without a user, nothing. With a user, one sign-out call. The selected bus is cleared only if signing out succeeds. The user is still set until the auth listener reports the sign-out, so `renderScreen` gives bus selection in the meantime |
| Navigator.App.SignOutAndNotify | App.tsx:423-436 | a successful sign-out followed by the listener's report of no user ends on the sign-in screen with no bus selected. A failed sign-out keeps the user and the bus. Without a user, nothing changes |

## Left out

- Rendering, styles and UI components (App.tsx:22-61, 102-133, 172-215, 372-413, 456-658). These are presentation. That includes the choice between spinner, phone entry and code entry on the sign-in screen.
- Firebase Auth, Firestore, App Check and the geolocation library are outside code. Their calls are recorded as effects, and their answers are parameters. Server-side merge semantics and `serverTimestamp` (`lastUpdated`) are not represented.
- Async timing and interleaving. Each handler or callback runs to completion as one step, and a write's outcome is known when it is issued. A write that completes after "End Trip" and sets `location` again is not captured. The model does not track which watches are live; a fix may arrive in any state, including after `clearWatch`.
- The auth listener's report after a successful `signOut` is a separate event (`Navigator.App.OnAuthStateChanged`). `Navigator.App.SignOutAndNotify` applies the two in order.
- The timeout, maximum age, accuracy, distance and interval options of the geolocation calls (App.tsx:343, 355) are platform configuration.
- React stale closures and any re-render other than the one after `watchId` changes. Handlers act on the current state. Because `busId` and `routeDetails` do not change after the route loads, the callbacks' captured values match the current ones.
- Coordinates are opaque values that are copied through. `toFixed(6)` display is not modelled.
- `toLowerCase` is modelled on ASCII letters only; other Unicode case mappings are not.
- Lengths are counted in Dafny characters (Unicode scalar values). JavaScript's `length` counts UTF-16 code units, so the two differ for characters outside the Basic Multilingual Plane. Neither code checks that the text is digits.
- A document's data is assumed to have no `id` field. Through the object spreads at App.tsx:149-152 and App.tsx:245, such a field would replace the document id. For a bus, that replaced id would be what the filter (App.tsx:166) and `onBusSelect` (App.tsx:173) see. For a route, it would become `routeDetails.id`. Neither case is modelled.
- A bus id from a snapshot is always a string. A `routeId` that is present but of another type is not modelled.
- `Tracking.StopTrackingStep` is total. For an empty `busId` it still emits `DeactivateLiveTrip("")`, where the store call at App.tsx:367 may throw instead. The navigator never mounts the tracking screen with an empty id (`Navigator.RenderScreen`).
- The `initializing` stale closure in the auth listener (App.tsx:426) is not modelled. It only calls `setInitializing(false)` again.
