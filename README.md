# CATRANCO-FMS mobile: a verified model of the dispatcher app's logic

CATRANCO-FMS mobile is the dispatcher's app of a bus fleet-management system. The dispatcher does four things with it:

- they see every bus as a coloured card whose status comes from the latest dispatch log;
- they send a bus from the alley onto a route, or start an alley for it;
- they pace dispatches with a countdown timer;
- they edit the timer intervals.

The app also restores and gates the dispatcher's session, uploads a profile picture and replays a route on the map.

This project models that logic in Dafny, one module per source file:

| module | source file | what it models |
|---|---|---|
| `DispatchJoin` | `re_render/fetchAssignmentsAndDispatches.tsx` | Joins assignments with dispatch logs: completed alleys are dropped and the first remaining log wins. Also derives the card fields and the colour. |
| `BusList` | `app/components/Buslist.tsx` | The same join, driven by polling. The card list is replaced on success and kept on failure. Pressing a card hands over the selection. |
| `ModalEffects` | shared by the three modals | The trace of what a confirm handler does. It records `setLoading` calls, API requests, `onConfirm`/`onClose`, and toasts or alerts with their exact texts. |
| `DispatchModal` | `app/components/dispatch/DispatchModal.tsx` | The guards, then `endAlley` followed by `startDispatch`, one after the other. |
| `LegacyDispatchModal` | `app/components/DispatchModal.tsx` | Issues the requests that apply, then awaits them together with `Promise.all`. |
| `AlleyModal` | `app/components/dispatch/AlleyModal.tsx` | Checks first the option and then the bus before `startAlley`. Also models the loading flag. |
| `CountdownTimer` | `app/components/Timer.tsx` | The countdown's state machine, the `mm:ss` display and the interval menu. |
| `TimerContext` | `services/timer/timerContext.tsx` | The shared timer state and its three setters. |
| `TimerEdit` | `app/components/interval/TimerEdit.tsx` | The interval form: its validator, save, cancel and the minutes field's `parseInt(text) \|\| 0`. |
| `MapSimulatedMarker`, `SimulatedMarker` | `app/components/map/simulatedMarker.tsx`, `app/components/simulatedMarker.tsx` | The route-replay cursor, with a reset and without one. |
| `AuthContext` | `services/authentication/authContext.tsx` | Session restore, sign-in and sign-out, with the gate that admits only role 2 (dispatcher). |
| `UpdateProfile` | `services/profile/updateProfile.tsx` | The upload file's type and name (the text after the last `.`) and the outcome of the image picker. |
| `JsText` | JavaScript built-ins the above rely on | `trim`'s whitespace set, UTF-16 `length`, `String(n)`, `padStart(2, "0")` and `parseInt` without a radix. |
| `Wrappers` | n/a | `Option`. |

How the model is built:

- Pure list and string code is written as functions, with lemmas about them.
- React state that handlers update becomes a `class` whose fields the methods change. Each method's `ensures` ties the new state to a specification function of the old state.
- Remote calls become inputs. `endAlleyOk` says whether a request succeeds, `Remote<T>` whether a call returns or throws, and `FetchResult` whether a fetch responds or fails.
- Clocks become explicit `Tick` and `Poll` methods.

Some behaviour of the code, modelled as written:

- `AlleyModal` switches `loading` on before validating. A failed validation returns early and leaves it on (`AlleyModal.ConfirmEffects`). The confirm button is disabled while `loading` is on (line 115), so after such an early return the button stays disabled for as long as the modal is mounted.
- The older dispatch modal issues no request at all for an idle bus, yet still runs `onConfirm` and `onClose` (`LegacyDispatchModal.IdleBusConfirms`). It issues `startDispatch` for an "on road" bus too.
- The dispatch modal switches loading off twice on its guard paths: once before the toast and once in `finally`.
- An interval of zero or fewer minutes arms the countdown at or below 0. The countdown stops only when it passes through 1, so it then runs into negative numbers for good (`CountdownTimer.NonPositiveIntervalNeverStops`). The display uses JavaScript's `%`, whose remainder keeps the sign of the dividend (`CountdownTimer.JsRemainder`).
- Both replay markers have a "route complete" branch in their tick updater that cannot be reached. The updater only runs while an interval is scheduled, and that needs `currentIndex < routeData.length - 1`. So the map variant's `resetMarker` is never called from the tick. The model marks that branch `assert false`.
- Restoring a session checks `role_id` at the top of the user record. Signing in checks `user.role.role_id` of the login response.
- `login` stores the token before `signIn` checks the role. So a sign-in refused with "Access Denied" still leaves a token behind, and the next start-up asks the server for that user (`AuthContext.DeniedSignInKeepsToken`). A successful `logout` clears all of storage.

## Model

| member | source | states |
|---|---|---|
| DispatchJoin.FindDispatch | re_render/fetchAssignmentsAndDispatches.tsx:13-15 | `find` gives no log exactly when none has the assignment id. Otherwise it gives a log with that id, and no earlier log has it. |
| DispatchJoin.FindActiveIsFirstEligible | re_render/fetchAssignmentsAndDispatches.tsx:10-15 | Filtering out completed alleys and then finding yields nothing exactly when no log is both for the assignment and not completed. Otherwise it yields exactly the first such log of the unfiltered list. |
| DispatchJoin.ColorOf | re_render/fetchAssignmentsAndDispatches.tsx:20-25 | Orange exactly for "on alley", green exactly for "on road", grey exactly for every other status. |
| DispatchJoin.TransformCard | re_render/fetchAssignmentsAndDispatches.tsx:12-35 | There is one card per assignment, in order. Each card has vehicle id `"BUS " + id`, the assignment's id and the colour of its status. With no eligible log the card has status idle, route `""` and log id null. Otherwise it has the status, route and log id of the first eligible log. |
| DispatchJoin.CompletedAlleyNeverShown | re_render/fetchAssignmentsAndDispatches.tsx:10 | No card ever carries the status `alley_completed`. |
| DispatchJoin.FetchAssignmentsAndDispatches | re_render/fetchAssignmentsAndDispatches.tsx:4-41 | The result is undefined exactly when a remote read fails. Otherwise it is one card per assignment. |
| BusList.SelectionOf | app/components/Buslist.tsx:84-89 | The selection carries exactly the card's vehicle id, status, assignment id and log id. |
| BusList.BusList.constructor | app/components/Buslist.tsx:22 | No cards on screen before the first poll. |
| BusList.BusList.Poll | app/components/Buslist.tsx:25-62 | A successful poll replaces the cards wholesale with the joined list, the same join as above (lines 31-56). A failed poll keeps the previous cards. |
| BusList.BusList.Press | app/components/Buslist.tsx:84-89 | Pressing card `i` passes that card's four identity fields. |
| ModalEffects.TextReadsBack | app/components/dispatch/DispatchModal.tsx:43-72 | Every toast or alert text reads back as its own message. |
| ModalEffects.TextInjective | app/components/dispatch/AlleyModal.tsx:34-57 | Distinct messages show distinct texts, and equal texts mean the same message. |
| DispatchModal.ConfirmGuards | app/components/dispatch/DispatchModal.tsx:36-77 | With no bus, nothing happens. Otherwise loading is switched on first and is off at the end. A request is made exactly when the timer is idle and the bus is on alley with a truthy log id. The timer toast is shown exactly when the timer runs. |
| DispatchModal.ConfirmRequests | app/components/dispatch/DispatchModal.tsx:57-65 | `endAlley` gets the bus's log id. `startDispatch` gets the chosen route (possibly null) and the bus's assignment, and always comes after `endAlley`. It is made exactly when the guards pass and `endAlley` succeeds. No alley is started. |
| DispatchModal.ConfirmToasts | app/components/dispatch/DispatchModal.tsx:41-74 | The "must be on alley" toast appears exactly when a bus is selected, the timer is idle and the bus is not on alley or has no truthy log id. The generic error toast appears exactly when the guards pass and a request fails. |
| DispatchModal.ConfirmCloses | app/components/dispatch/DispatchModal.tsx:67-74 | `onConfirm` runs exactly when the guards pass and both requests succeed. `onClose` runs exactly when `onConfirm` does, and right after it. |
| DispatchModal.DispatchModal.constructor | app/components/dispatch/DispatchModal.tsx:28-29 | No option selected, not loading, nothing done. |
| DispatchModal.DispatchModal.HandleOptionSelect | app/components/dispatch/DispatchModal.tsx:31-33 | Only the selected option changes. |
| DispatchModal.DispatchModal.HandleConfirm | app/components/dispatch/DispatchModal.tsx:35-78 | Appends exactly the effects of `ConfirmEffects`, whose properties are the three lemmas above. Loading ends false unless no bus is selected. The option is unchanged. |
| LegacyDispatchModal.ConfirmLoading | app/components/DispatchModal.tsx:28-65 | With no bus, nothing happens. Otherwise loading is switched on first and is cleared by `finally` on every path, the timer path included. |
| LegacyDispatchModal.ConfirmEndsAlley | app/components/DispatchModal.tsx:41-44 | `endAlley` is issued exactly when the bus is on alley with a truthy log id (and the timer is idle), and it carries that log id. |
| LegacyDispatchModal.ConfirmStartsDispatch | app/components/DispatchModal.tsx:46-53 | `startDispatch` is issued exactly when the bus is not idle, with the chosen route and the bus's assignment. No alley is started. |
| LegacyDispatchModal.ConfirmCloses | app/components/DispatchModal.tsx:55-62 | `onConfirm` then `onClose` run exactly when a bus is selected, the timer is idle and every issued request succeeds. |
| LegacyDispatchModal.IdleBusConfirms | app/components/DispatchModal.tsx:56-59 | An idle bus triggers no request, yet the modal still confirms. |
| LegacyDispatchModal.DispatchModal.constructor | app/components/DispatchModal.tsx:20-21 | No option selected, not loading, nothing done. |
| LegacyDispatchModal.DispatchModal.HandleOptionSelect | app/components/DispatchModal.tsx:23-25 | Only the selected option changes. |
| LegacyDispatchModal.DispatchModal.HandleConfirm | app/components/DispatchModal.tsx:27-65 | Appends exactly the effects of `ConfirmEffects`, whose properties are the lemmas above. Loading ends false unless no bus is selected. |
| AlleyModal.ConfirmEffects | app/components/dispatch/AlleyModal.tsx:29-61 | Loading is switched on first. It stays on after a validation failure and is off after the request. A request is made exactly when an option and a bus are selected. The option is checked before the bus. The payload is the option and the bus's assignment. `onConfirm` then `onClose` run exactly on success, and the failure alert appears exactly on failure. |
| AlleyModal.ConfirmAlerts | app/components/dispatch/AlleyModal.tsx:33-41 | The "select an alley" alert appears exactly when no alley is selected. The "no bus" alert appears exactly when an alley is selected but no bus. |
| AlleyModal.AlleyModal.constructor | app/components/dispatch/AlleyModal.tsx:22-23 | No alley selected, not loading, nothing done. |
| AlleyModal.AlleyModal.HandleOptionSelect | app/components/dispatch/AlleyModal.tsx:25-27 | Only the selected option changes. |
| AlleyModal.AlleyModal.HandleConfirm | app/components/dispatch/AlleyModal.tsx:29-61 | Appends exactly the effects of `ConfirmEffects`. Loading ends on exactly when validation failed. |
| CountdownTimer.ToIntervals | app/components/Timer.tsx:32-36 | The timers map one-to-one, in order, to `{id, title, minutesInterval}`. |
| CountdownTimer.CountdownRunsFullInterval | app/components/Timer.tsx:56-66 | Armed on `m >= 1` minutes, the countdown shows `m*60 - n` after `n` ticks. After `m*60` ticks it stands stopped at the full interval again. |
| CountdownTimer.StoppedCountdownStays | app/components/Timer.tsx:56-57 | A stopped countdown is not ticked: any number of ticks changes nothing. |
| CountdownTimer.NonPositiveIntervalNeverStops | app/components/Timer.tsx:59-64 | With zero or fewer minutes, the countdown goes down by one per tick forever and never stops. |
| CountdownTimer.JsRemainder | app/components/Timer.tsx:83 | `%` leaves the dividend minus the divisor times the quotient truncated toward zero. That remainder is in `[0, 60)` for a non-negative count and in `(-60, 0]` for a negative one. |
| CountdownTimer.FormatTimeShape | app/components/Timer.tsx:81-85 | For a non-negative count, the minutes field has at least two digits (more above 99 minutes) and denotes `seconds / 60`. The seconds field has exactly two digits and denotes `seconds % 60`, which is below 60. |
| CountdownTimer.FormatTimeRoundTrip | app/components/Timer.tsx:81-85 | For a non-negative count `s`, reading `formatTime(s)` back as minutes and seconds gives `s`. |
| CountdownTimer.Timer.constructor | app/components/Timer.tsx:7-10 | Time 0, not running, no intervals, none selected. |
| CountdownTimer.Timer.StartTimer | app/components/Timer.tsx:15-20 | With an interval selected, the timer is set to the full interval and runs. Without one, nothing changes. |
| CountdownTimer.Timer.StopTimer | app/components/Timer.tsx:21-23 | Running turns false. The seconds left are unchanged. |
| CountdownTimer.Timer.Tick | app/components/Timer.tsx:57-65 | At 1, the countdown stops and re-arms to the full interval (0 with none). Any other running tick takes one second off. A stopped timer is unchanged. |
| CountdownTimer.Timer.SelectInterval | app/components/Timer.tsx:75-79 | The picked interval becomes the selection. Picking a different one resets the seconds left to it. Re-picking the selected one keeps the seconds left, because React skips an identical update. Running is left alone. |
| CountdownTimer.Timer.LoadIntervals | app/components/Timer.tsx:29-47 | The menu becomes the mapped timers. The first timer is selected and arms the time. A failed fetch changes nothing. |
| TimerContext.TimerContext.constructor | services/timer/timerContext.tsx:16-17 | Time 0, not running. |
| TimerContext.TimerContext.StartTimer | services/timer/timerContext.tsx:19-21 | Running turns true. The time is unchanged. |
| TimerContext.TimerContext.StopTimer | services/timer/timerContext.tsx:23-25 | Running turns false. The time is unchanged. |
| TimerContext.TimerContext.SetTimer | services/timer/timerContext.tsx:27-29 | The time takes the value given. Running is unchanged. |
| TimerEdit.TitleError | app/components/interval/TimerEdit.tsx:80-84 | "Title is required." exactly for a blank name (empty or whitespace only). "Title must not exceed 255 characters." exactly for a non-blank name longer than 255 UTF-16 units. No message otherwise. |
| TimerEdit.MinutesError | app/components/interval/TimerEdit.tsx:94-100 | The minutes message appears exactly for `NaN` or a value below 1. |
| TimerEdit.ValidIffAcceptable | app/components/interval/TimerEdit.tsx:72-104 | All four messages are empty exactly when the interval is acceptable (every rule holds). |
| TimerEdit.MissingTimesReported | app/components/interval/TimerEdit.tsx:86-92 | Each missing time gets its own message, and only then. |
| TimerEdit.WithMinutesText | app/components/interval/TimerEdit.tsx:182-184 | Typing in the minutes box changes only the minutes, and to an integer (never `NaN`). |
| TimerEdit.DisplayedMinutesReadBack | app/components/interval/TimerEdit.tsx:180-183 | Re-reading the shown `String(timerLimit)` gives back the same integer, and turns `NaN` into 0. |
| TimerEdit.UnreadableMinutesFailValidation | app/components/interval/TimerEdit.tsx:182-184 | Minutes text that `parseInt` cannot read becomes 0 and fails validation. |
| TimerEdit.TimerEdit.constructor | app/components/interval/TimerEdit.tsx:43-49 | No messages, not loading. |
| TimerEdit.TimerEdit.Validate | app/components/interval/TimerEdit.tsx:72-104 | Records the messages and returns true exactly for an acceptable interval. |
| TimerEdit.TimerEdit.HandleSave | app/components/interval/TimerEdit.tsx:106-118 | A failed validation shows the toast and never saves. Otherwise `onSave` runs with the interval under the loading flag. |
| TimerEdit.TimerEdit.HandleCancel | app/components/interval/TimerEdit.tsx:120-128 | Every message is cleared, then `onCancel` runs. |
| JsText.TrimEmptyIffAllWhitespace | app/components/interval/TimerEdit.tsx:80 | `s.trim() === ""` exactly when every character is JavaScript whitespace. |
| JsText.Utf16Length | app/components/interval/TimerEdit.tsx:82 | `length` is at least the number of characters and at most twice it. It equals the number of characters exactly when all are in the Basic Multilingual Plane, and is larger otherwise. |
| JsText.Utf16OfChar | app/components/interval/TimerEdit.tsx:82 | One character counts one code unit, or two outside the Basic Multilingual Plane. |
| JsText.Utf16Append | app/components/interval/TimerEdit.tsx:82 | The length of a concatenation is the sum of the lengths, so `length` is the per-character count summed. |
| JsText.NatToStringValue | app/components/Timer.tsx:84 | `String(n)` is a numeral that denotes `n`. |
| JsText.PadStart2 | app/components/Timer.tsx:84 | `padStart(2, "0")` keeps the string as its suffix, puts only zeros in front, and makes it at least two long. |
| JsText.ParseIntOfIntToString | app/components/interval/TimerEdit.tsx:180-183 | `parseInt(String(n))` is `n` for every integer. |
| JsText.ParseIntWithoutDigits | app/components/interval/TimerEdit.tsx:183 | Text with no digit after the whitespace and sign reads as `NaN`, so `parseInt(text) \|\| 0` is 0. |
| MapSimulatedMarker.SimulatedMarker.constructor | app/components/map/simulatedMarker.tsx:6-10 | It starts on `route[0]` with the polyline `[route[0]]` at index 0, stopped, with the initial icon. The replay invariant holds. |
| MapSimulatedMarker.SimulatedMarker.HandleMarkerPress | app/components/map/simulatedMarker.tsx:35-40 | A stopped marker starts moving with the moving icon. A moving one is unchanged. |
| MapSimulatedMarker.SimulatedMarker.Tick | app/components/map/simulatedMarker.tsx:12-33 | While a step is scheduled, the index advances by one, and the marker moves to the new point, which is appended to the polyline. Otherwise nothing moves. The polyline stays the route prefix up to the index, the marker stays on `route[index]`, and the index stays inside the route. |
| MapSimulatedMarker.SimulatedMarker.ResetMarker | app/components/map/simulatedMarker.tsx:42-49 | All five fields return to their initial values. |
| SimulatedMarker.SimulatedMarker.constructor | app/components/simulatedMarker.tsx:5-9 | The same initial state as the map variant. |
| SimulatedMarker.SimulatedMarker.HandleMarkerPress | app/components/simulatedMarker.tsx:33-38 | Movement starts only when stopped. |
| SimulatedMarker.SimulatedMarker.Tick | app/components/simulatedMarker.tsx:11-31 | It appends `route[index + 1]` and advances while scheduled. At the last point nothing moves and nothing resets. The prefix invariant is kept. |
| AuthContext.RestoredUser | services/authentication/authContext.tsx:16-30 | The fetched user is kept exactly when there is one with `role_id` 2. Otherwise, and when `getUser` throws, nobody is kept. |
| AuthContext.SignInResult | services/authentication/authContext.tsx:39-58 | Sign-in succeeds exactly with a non-empty token and `user.role.role_id` 2, and then yields that user. A login that throws rethrows. Anything else throws "Access Denied: Only dispatchers are allowed." |
| AuthContext.AuthProvider.constructor | services/authentication/authContext.tsx:8-9 | Nobody is signed in and loading is on. |
| AuthContext.AuthProvider.LoadStorageData | services/authentication/authContext.tsx:12-34 | Without a token, nothing is fetched and the user is unchanged. With one, the restored user is set. An accepted user clears `activeMenu`, and a rejected one loses `authToken`. Loading ends false on every path. |
| AuthContext.AuthProvider.SignIn | services/authentication/authContext.tsx:39-58 | Calls `login` once. A returned token is stored under `authToken` before the role is checked (services/authentication/authServices.tsx:17-20), whatever the outcome. The user is set exactly when sign-in succeeds. |
| AuthContext.DeniedSignInKeepsToken | services/authentication/authServices.tsx:17-20 | A sign-in refused for its role still leaves its non-empty token in storage, so the next restore finds a token. |
| AuthContext.AuthProvider.SignOut | services/authentication/authContext.tsx:60-67 | Calls `logout` once. If it succeeds, all of storage is cleared (services/authentication/authServices.tsx:62-63) and then the user. If it fails, neither changes. |
| AuthContext.SignOutThenRestore | services/authentication/authContext.tsx:12-34 | A successful sign-out followed by a restore leaves empty storage and nobody signed in. Only the `logout` call is made, and no `getUser` request. |
| AuthContext.DeniedSignInThenRestore | services/authentication/authContext.tsx:12-58 | A sign-in refused for its role with a non-empty token, followed by a restore, makes the calls `login` then `getUser`. The restore then keeps whichever user it fetched with role 2. |
| UpdateProfile.Split | services/profile/updateProfile.tsx:11 | `split` gives one piece exactly when there is no separator, and that piece is the whole string. |
| UpdateProfile.SplitLast | services/profile/updateProfile.tsx:11-12 | The last piece of `split` is a suffix with no separator, preceded by a separator unless it is the whole string. |
| UpdateProfile.FileType | services/profile/updateProfile.tsx:11-12 | The file type is the dot-free suffix after the last `.`, or the whole URI. |
| UpdateProfile.FileTypeWithoutDot | services/profile/updateProfile.tsx:11-12 | A URI without a dot is its own file type. |
| UpdateProfile.ProfileImageRequest | services/profile/updateProfile.tsx:5-28 | The POST goes to the profile-image path either way. An image field is added exactly for a non-empty URI, with the name `profile_image.<type>` and the type `image/<type>`. |
| UpdateProfile.OpenImagePicker | services/profile/updateProfile.tsx:30-57 | The library is opened exactly when permission is granted. A URI comes back exactly for a non-cancelled pick with assets, and it is the first asset's. |

## Left out

- The HTTP wrappers, the push-transport configuration, rendering, styles, navigation and modal visibility are not part of this model. Each remote call is an input saying whether it succeeds or what it returns.
- Wall-clock timing is out: the one-second poll and countdown interval, and the replay's one-second step. The model has explicit `Poll` and `Tick` methods. Re-arming `setInterval` on each render is not modelled.
- The concurrency of `Promise.all` is out. The older modal's requests are recorded in push order, and the handler confirms exactly when every issued request succeeds.
- Console logging is out.
- The confirm and save buttons are disabled while `loading` is on (app/components/dispatch/AlleyModal.tsx:115, app/components/dispatch/DispatchModal.tsx:132, app/components/DispatchModal.tsx:119, app/components/interval/TimerEdit.tsx:197). The handlers here can be called in any state, so the model does not capture that a handler cannot run while loading.
- CountdownTimer.Timer.SelectInterval: menu entries are compared by value. That matches React's identity test, because `selectedInterval` is always one of the menu's own objects.
- `formatTime12Hour` and the start and end time pickers built on it are out, because they rely on the locale formatting of `toLocaleTimeString`.
- The static coordinate table of `locations.tsx` and the live-tracking engine are not part of this model. Route points in the marker are an opaque type.
- The interval fetch's failure alert ("Failed to fetch intervals...") is out. `LoadIntervals` models only that state is unchanged.
- Errors thrown by device storage (`AsyncStorage`) are out. Storage is a map that always answers, so a `logout` whose request succeeds always clears it.
- AuthContext.AuthProvider.SignIn: a login response without a token leaves storage unchanged. What `AsyncStorage.setItem` does with an undefined value is not part of this model.
- Numbers are unbounded integers. The model omits the JavaScript float precision above 2^53, fractional minutes, and `parseInt`'s behaviour on digit strings too long for a double.
- In the older modal, `timerRef` is destructured without being declared among the props. The model takes whether the timer runs as an input, like the newer modal.
- Toasts and alerts are `Message` tags; `ModalEffects.Text` gives each one's exact text. The form toast of `TimerEdit` keeps its text as a string.
- UpdateProfile.Split: states only the one-piece case and, through `SplitLast`, the last piece. The pieces before it are not specified, because only the last one is used.
- DispatchJoin.FetchAssignmentsAndDispatches: its own contract gives only failure and the count of cards. The card contents are stated per card by `DispatchJoin.TransformCard`.
- CountdownTimer.FormatTimeShape: covers non-negative counts only. For negative counts (see `NonPositiveIntervalNeverStops`), only the sign rule of `JsRemainder` is stated.
