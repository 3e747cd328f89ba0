# Barcode-scan screen state container (v9)

This project models the state container of the v9 home screen of the
barcode-scanning demo app, `v9/apps/expo/app/index.tsx`. The screen keeps nine
fields in one `useReducer` state: permission status, scanned flag, scanned
payload, sheet position, scan history, loading flag, a remount key, an
animation-position index and the last check result. Every change goes through
`reducer`. A barcode scan runs a fixed sequence of dispatches around an
awaited, mocked validity check. A timer closes the sheet again.

Files and modules:

- `values.dfy` (`Values`): the JavaScript values that reach the state (`null`,
  booleans, numbers, strings), truthiness, and `Math.random()` results.
- `reducer.dfy` (`Reducer`): the state record, `initialState`, actions, the
  reducer (an unknown action type is an `Err`), running a sequence of
  dispatches, and field-by-field lemmas about each action.
- `scan.dfy` (`Scan`): the mocked `checkValidity`, the toast, and the dispatch
  sequences of `handleBarCodeScanned` before and after the `await` and in the
  timer, with lemmas about what one scan does to the state.
- `screen.dfy` (`Screen`): the render decision, the actions the component
  dispatches, the invariant of every reachable state, and the class
  `HomeScreen`. Its methods are the scan handler, the timer and the sheet
  callbacks. Each one calls the reducer in the source's order.

Random numbers (`Math.random()` in `SET_KEY` and in `checkValidity`) are
parameters of type `Random`, a real in `[0, 1)`. Delays are not modelled. The
continuation after the `await` is a separate method, `FinishScan`, and the
500 ms timer is another, `OnScanTimeout`.

One consequence of the code as written is proved (`PermissionNeverGranted`):
v9 never dispatches `SET_HAS_PERMISSION`. So `hasPermission` keeps its initial
`false`, and the screen always renders "No access to camera". The scanner view
is therefore never mounted. The earlier v6 iteration requests camera
permission at mount (v6/packages/app/features/home/screen.jsx:41-48). v9 has no
such request, and this model follows the v9 code. The class `HomeScreen` only
assumes that `hasPermission` holds a boolean. Its event methods do what the
source does in each render branch: while permission is `false`, the camera
and the sheet are not mounted and their callbacks change nothing. Once a
permission grant is dispatched (through `Dispatch`, as v6 does), the scan flow
runs.

A second proved consequence (`DismissDuringCheckAdmitsSecondScan`): dismissing
the sheet while a check is pending sets `scanned` back to false. That installs
the scan handler again, so a second scan can start before the first one
finishes. When both checks resolve, both payloads are in the history in order
and the second result is shown.

## Model

| member | source | states |
|---|---|---|
| `Reducer.Reduce` | v9/apps/expo/app/index.tsx:21-63 | the reducer yields an error exactly when the action type is not one of the nine handled types; the error is the same for every unhandled type |
| `Reducer.Run` | v9/apps/expo/app/index.tsx:67-83 | a sequence of dispatches yields an error exactly when some action in it has an unhandled type; otherwise each dispatch reduces the state left by the previous one |
| `Reducer.RunAppend` | v9/apps/expo/app/index.tsx:73-83 | dispatching two sequences one after the other (as before and after the `await`) is the same as dispatching their concatenation |
| `Reducer.SetterChangesOnlyItsField` | v9/apps/expo/app/index.tsx:23-57 | each of `SET_HAS_PERMISSION`, `SET_SCANNED`, `SET_DATA`, `SET_POSITION`, `SET_LOADING` and `SET_RESULT` stores its payload in its own field; every other field, the history, the key and `positionI` are unchanged |
| `Reducer.SetterIdempotent` | v9/apps/expo/app/index.tsx:23-57 | applying any of those six setters twice with the same payload gives the same state as applying it once |
| `Reducer.HistoryAppends` | v9/apps/expo/app/index.tsx:39-41 | `SET_HISTORY` makes the history one entry longer, keeps the earlier entries, puts the payload last, and changes no other field |
| `Reducer.PositionIAdvances` | v9/apps/expo/app/index.tsx:51-53 | `SET_POSITION_I` moves `positionI` one step around the three-entry `positions` table, wrapping from the last entry to 0; the result is a valid index and nothing else changes |
| `Reducer.KeyChangesOnlyKey` | v9/apps/expo/app/index.tsx:47-49 | `SET_KEY` ignores its payload, stores the value `Math.random()` returns (in `[0, 1)`) as the key, and changes nothing else |
| `Reducer.UnhandledIsError` | v9/apps/expo/app/index.tsx:59-61 | an action with an unhandled type throws `Unhandled action type` instead of producing a state, also inside a dispatch sequence |
| `Scan.CheckValidity` | v9/apps/expo/app/index.tsx:247-254 | the check resolves with exactly `"Valid"` or `"Invalid"`, and with `"Valid"` exactly when the random draw is below 0.5 |
| `Scan.ToastFor` | v9/apps/expo/app/index.tsx:91-97 | the toast title is the result; the message is "Nothing found, perhaps try again." exactly when the result is `"Invalid"`, otherwise "Successful read, please continue" |
| `Scan.ScanStartEffect` | v9/apps/expo/app/index.tsx:73-75 | the dispatches before the `await` set `scanned` to true, which withdraws the scan handler, store the payload, advance `positionI` by one modulo 3, and change nothing else |
| `Scan.ScanFinishEffect` | v9/apps/expo/app/index.tsx:79-83 | the dispatches after the `await` advance `positionI` by one modulo 3, store the result and the new key, append the payload to the history, clear the payload, and change nothing else |
| `Scan.ScanCompleteEffect` | v9/apps/expo/app/index.tsx:73-83 | when nothing else is dispatched during the `await`, after one whole scan of payload `d`, `scanned` is true, `positionI` has advanced by 2 modulo 3, the result is `"Valid"` or `"Invalid"`, the history is the old history plus `[d]`, the payload is `null`, and `hasPermission`, `position` and `loading` are untouched |
| `Scan.TimeoutReinstallsHandler` | v9/apps/expo/app/index.tsx:86-88 | the timer's `SET_SCANNED false` closes the sheet, gives the scanner its handler back, and changes nothing else |
| `Scan.SheetOpenEffect` | v9/apps/expo/app/index.tsx:125 | the sheet's open/close dispatch stores the new state in `scanned` and changes nothing else |
| `Scan.DismissDuringCheckAdmitsSecondScan` | v9/apps/expo/app/index.tsx:73-130 | if the sheet is dismissed while the first check is pending, the scan handler is installed again; a second scan then runs, and after both checks resolve the history holds both payloads in order, the result is the second one, and `positionI` has advanced by 4 modulo 3 |
| `Screen.Render` | v9/apps/expo/app/index.tsx:101-123 | a `null` permission renders the request message; `false` renders "No access to camera"; otherwise the scanner renders, taking scans exactly while `scanned` is falsy, under a sheet that is open exactly while scans are refused |
| `Screen.InitialStateInv` | v9/apps/expo/app/index.tsx:9-19 | the initial state satisfies the reachable-state invariant |
| `Screen.ScreenActionKeepsWellTyped` | v9/apps/expo/app/index.tsx:71-129 | every action the component dispatches, from any well-typed state, is handled and keeps every field well typed |
| `Screen.TypedActionKeepsWellTyped` | v9/apps/expo/app/index.tsx:21-63 | the component's actions and any boolean permission or loading update are handled and keep every field well typed |
| `Screen.ScreenActionKeepsInv` | v9/apps/expo/app/index.tsx:71-129 | every action the component dispatches, with the payloads it gives, is handled by the reducer and keeps the invariant: permission false, loading false, `positionI` below 3, the key in `[0, 1)`, the result `null`, `"Valid"` or `"Invalid"` |
| `Screen.RunKeepsInv` | v9/apps/expo/app/index.tsx:71-129 | any sequence of the component's own dispatches, started from an invariant state, never throws and ends in an invariant state |
| `Screen.PermissionNeverGranted` | v9/apps/expo/app/index.tsx:100-106 | from the initial state, every sequence of the component's dispatches keeps `hasPermission` false, so the screen always renders "No access to camera"; `positionI` always indexes `positions` |
| `Screen.ScanDispatchesAreScreenActions` | v9/apps/expo/app/index.tsx:71-88 | the dispatches of the scan handler and of its timer are all actions of the component |
| `Screen.HomeScreen.constructor` | v9/apps/expo/app/index.tsx:65-67 | the component starts from `initialState`, which is well typed |
| `Screen.HomeScreen.Dispatch` | v9/apps/expo/app/index.tsx:67 | `dispatch` replaces the state with the reducer's result; when the reducer throws, the state is kept; typed actions keep the state well typed |
| `Screen.HomeScreen.OnBarCodeScanned` | v9/apps/expo/app/index.tsx:71-115 | a scan reaches the handler exactly when the scanner is rendered (permission true, lines 101-106) and the handler is installed (`scanned` false, line 115); an accepted scan runs the three dispatches before the `await`, and a refused one changes nothing |
| `Screen.HomeScreen.FinishScan` | v9/apps/expo/app/index.tsx:78-97 | after the check resolves, the handler runs its five dispatches in order, keeps the invariant, and shows the toast for the result |
| `Screen.HomeScreen.OnScanTimeout` | v9/apps/expo/app/index.tsx:86-88 | the timer sets `scanned` to false, so the handler is installed again |
| `Screen.HomeScreen.OnOpenChange` | v9/apps/expo/app/index.tsx:118-125 | while the scanner view, and with it the sheet, is rendered, the open/close callback stores its value in `scanned` and changes nothing else; otherwise there is no sheet and nothing changes |
| `Screen.HomeScreen.OnPositionChange` | v9/apps/expo/app/index.tsx:118-129 | while the sheet is rendered, the position callback stores its value in `position` and changes nothing else; otherwise nothing changes |

## Left out

- Rendering and animation: JSX, `MountingAnimation`, `LoadingAnimation`, sheet props other than `open`, styles, and the contents of each `positions` entry. Only `positions.length == 3` is modelled (`PositionCount`). `LoadingAnimation` labels both results "Invalid" (lines 192-207). That is presentation only and is not modelled.
- Timing: the 2000 ms delay of `checkValidity` and the 500 ms timer are not modelled. The continuation after the `await` and the timer are separate methods, which a caller invokes in order.
- Randomness: `Math.random()` values are parameters (`Random`), not drawn.
- React scheduling: dispatches are applied immediately and in order. React batches them and runs the pure reducer at render time, which yields the same states. A reducer error, which React rethrows while rendering, is modelled as an `Err` that leaves the state unchanged. Error boundaries and unmounting are not modelled.
- Unmount during a pending timer or check is not modelled. Neither is a second scan callback fired before the state update reaches the scanner prop.
- Scan.ScanCompleteEffect: covers only the run in which nothing else is dispatched during the `await`. A sheet dismissal in between changes the outcome (see `DismissDuringCheckAdmitsSecondScan`). The class lets such interleavings happen in any order.
- Screen.HomeScreen.FinishScan and Screen.HomeScreen.OnScanTimeout: the continuation after the `await` and the timer run whatever the render branch, as in the source. That a caller invokes them only after a matching accepted scan is not enforced.
- The camera and barcode-scanner library, the camera permission request (v9 has none), and the `Stack.Screen` wrapper (`Screen`, lines 256-267).
- Scan.ToastFor: the `toast &&` guard is not modelled. The toast controller is external, so the model returns the toast the controller would be given.
- JavaScript `undefined` and `NaN` never reach the state and are not values of the model.
- v6/packages/app/features/home/screen.jsx, v4/packages/app/features/home/screen.jsx and myapp/packages/app/features/home/screen.tsx are not part of this model. They are earlier iterations built on separate `useState` hooks and effects, and v6's scan logic repeats the v9 reducer.
