# Device dashboard state machine

This project models the client side of a home-automation dashboard that
shows networked devices and lets an operator change them through a remote
device registry. Two components are covered:

- **The dashboard page** (`src/pages/Dashboard.jsx`). It holds:
  - the canonical device list;
  - a connectivity state: Healthy while `error` is null, Degraded while it
    holds "server unreachable. Retrying...";
  - a filter and an inline rename editor.

  It polls the registry with `loadDevices`, sends create, switch, delete and
  rename requests, and renders the filtered list.
- **The device card** (`src/components/DeviceCard.jsx`). It keeps local copies
  of its device's name and switch, plus busy flags on its buttons.

Every registry call becomes an outcome parameter: `Success(data)` or
`Failure`. Each call is recorded with its key and value in a ghost `calls`
log. Toasts are appended to a ghost `notices` log. The card's
`onRefresh(true)` calls to its parent are appended to `refreshes`.

Modules:

- `Registry` (registry.dfy): the device record and the call, outcome and
  toast values.
- `Sync` (sync.dfy): the poll transition as a pure function (`Load`), and runs
  of polls (`Run`) with their lemmas.
- `Projection` (projection.dfy): the filter view and the choice between
  spinner, banner and table.
- `Pages` (dashboard.dfy): class `Dashboard`. Each handler's `ensures` ties the
  new state to `Sync.Load` and to the old state. It also holds two client
  scenarios.
- `Components` (device_card.dfy): class `DeviceCard`, with two client
  scenarios. `toggleSwitch` and `handleDelete` are each split at their
  `await` into a `Begin…` method and a `Finish…` method, so that the busy
  flag can be stated while the request is pending.

The two components follow different policies, and both are modelled as
written:

- **Toggle.** The page never flips a switch locally. Only the silent reload
  after a confirmed toggle changes the list. The card flips its local copy,
  and only after the registry confirms.
- **Rename.** The page always sends the update, even when the name is
  unchanged. The card sends nothing when the name is unchanged.

## Model

| member | source | states |
|---|---|---|
| `Sync.LoadSeen` | src/pages/Dashboard.jsx:13-27 | one `loadDevices` run, with the toast decided by the `error` value the running closure sees: success stores exactly the returned list and clears the error; failure stores the unreachable message and an empty list; a silent run keeps `loading`, a visible one ends with it false; a toast is appended exactly when the seen state differs from the new one, and it names the new state |
| `Sync.Load` | src/pages/Dashboard.jsx:13-27 | `loadDevices` reading the current `error`: Healthy afterwards iff the call succeeded; the list is the returned data on success and empty on failure; silent runs leave `loading` alone and visible runs end with it false; "unreachable" is toasted only on entering Degraded and "reconnected" only on leaving it, never otherwise; a Degraded result always holds no devices |
| `Sync.LoadIdempotent` | src/pages/Dashboard.jsx:16-19 | two successful polls returning the same list leave the state and the toasts exactly as one poll does |
| `Sync.RunAppends` | src/pages/Dashboard.jsx:18-21 | over any sequence of polls, earlier toasts are never altered or removed |
| `Sync.RunAlternates` | src/pages/Dashboard.jsx:18-22 | over any sequence of polls, the toasts alternate "unreachable"/"reconnected", beginning with the one that leaves the starting state; the last toast names the final state, and with no toast the final state equals the initial one |
| `Sync.RunLastWins` | src/pages/Dashboard.jsx:16-23 | after a non-empty sequence of polls, the last poll alone decides the state: Healthy iff it succeeded, with its list if it did and an empty list if it failed |
| `Sync.UniformRunToastsOnce` | src/pages/Dashboard.jsx:18-22 | a run of only failures (or only successes) toasts at most once: one toast if the first poll changes the state, none otherwise |
| `Sync.FailFailSucceed` | src/pages/Dashboard.jsx:16-22 | from Healthy, polls fail, fail, succeed give Degraded, Degraded, Healthy with the returned list, and exactly one "unreachable" then one "reconnected" toast |
| `Sync.StaleTick` | src/pages/Dashboard.jsx:37-43 | the 2 s poll as registered: it writes the same state as a silent poll, but its closure always sees `error` null, so every failure toasts "unreachable" and a success never toasts |
| `Sync.StaleTicksRepeatNotice` | src/pages/Dashboard.jsx:37-43 | three failing 2 s polls as written toast "unreachable" three times, and a following success toasts nothing |
| `Sync.ThreeFailuresToastOnce` | src/pages/Dashboard.jsx:18-23 | with the current `error` read, three failing silent polls from Healthy end Degraded with no devices and exactly one "unreachable" toast |
| `Projection.Keep` | src/pages/Dashboard.jsx:89-92 | `Array.filter`: the result is an in-order subsequence of the input and holds each device as many times as the input if it passes the test, else not at all |
| `Projection.FilteredDevices` | src/pages/Dashboard.jsx:87-95 | the visible rows are the in-order subsequence of the list holding exactly the devices the filter value matches, with their multiplicities; "all" and every unrecognised value give the list unchanged |
| `Projection.Partition` | src/pages/Dashboard.jsx:89-92 | "online"/"offline", and likewise "switchOn"/"switchOff", split the list: together they hold every device exactly as often as the list does |
| `Projection.SwitchlessIsOff` | src/pages/Dashboard.jsx:91-92 | a listed device whose switch is not `true` (e.g. a monitoring device with no switch) appears under "switchOff" and not under "switchOn" |
| `Projection.KeepTwice` | src/pages/Dashboard.jsx:89-92 | filtering an already filtered list by the same test changes nothing |
| `Projection.FilterStable` | src/pages/Dashboard.jsx:87-95 | re-deriving the view from the view gives the same view, for every filter value |
| `Projection.Render` | src/pages/Dashboard.jsx:195-209 | the spinner exactly while loading; otherwise the banner with the error message exactly while an error is held, replacing the list entirely; otherwise a table whose rows are exactly `FilteredDevices` of the list and the filter |
| `Pages.Dashboard.constructor` | src/pages/Dashboard.jsx:6-11 | first render: empty list, `loading` true, no error, filter "all", no row in edit, empty edit text, empty logs |
| `Pages.Dashboard.LoadDevices` | src/pages/Dashboard.jsx:13-27 | one `list` call logged; list, loading, error and toasts become `Sync.Load` of the old ones; filter and editor untouched; keeps "Degraded holds no devices" |
| `Pages.Dashboard.SteadyTick` | src/pages/Dashboard.jsx:39-41 | the 2 s poll, corrected to read the current error: a silent `Sync.Load` |
| `Pages.Dashboard.RecoveryTick` | src/pages/Dashboard.jsx:31-33 | the 3 s poll: with no error it issues nothing and changes nothing; with an error it makes one visible poll |
| `Pages.Dashboard.AddDevice` | src/pages/Dashboard.jsx:45-52 | one `create` call; on success a silent reload with no toast of its own; on failure only the "Failed to add device" toast, with the list and everything else unchanged |
| `Pages.Dashboard.ToggleSwitch` | src/pages/Dashboard.jsx:54-63 | one switch request keyed by `record.name` asking for the negation of the record's switch; on success the "Switch turned ON/OFF for" toast then a silent reload, the list changing only through that reload; on failure the list is bit-for-bit unchanged and no reload is issued |
| `Pages.Dashboard.Delete` | src/pages/Dashboard.jsx:65-73 | one delete request keyed by `record.name`; on success the "deleted" toast and a silent reload; on failure the device stays listed and only the error toast is added |
| `Pages.Dashboard.StartEdit` | src/pages/Dashboard.jsx:112-115 | starting an edit sets `editingName` to the record's id and `newName` to its current name, and changes nothing else |
| `Pages.Dashboard.EditNewName` | src/pages/Dashboard.jsx:106 | typing changes only `newName` |
| `Pages.Dashboard.SetFilter` | src/pages/Dashboard.jsx:182 | the selector changes only `filter` |
| `Pages.Dashboard.Rename` | src/pages/Dashboard.jsx:75-85 | always one update keyed by `record._id` carrying `newName`; on success the "Renamed to" toast, `editingName` null, `newName` "" and a silent reload; on failure the editor keeps its row and text and only the error toast is added |
| `Components.DeviceCard.constructor` | src/components/DeviceCard.jsx:6-11 | on mount, the local name and switch are the device's, the editor is closed, both busy flags are off |
| `Components.DeviceCard.ReceiveProps` | src/components/DeviceCard.jsx:6-9 | a new `device` prop replaces the prop only; the local name, switch and flags keep their values |
| `Components.DeviceCard.StartEditing` | src/components/DeviceCard.jsx:68 | a click on the title opens the editor |
| `Components.DeviceCard.EditName` | src/components/DeviceCard.jsx:60 | typing changes only the local name |
| `Components.DeviceCard.BeginToggle` | src/components/DeviceCard.jsx:13-17 | while the toggle is pending `loadingSwitch` is true, and the request in flight is keyed by the local name and asks for the negation of the local switch |
| `Components.DeviceCard.FinishToggle` | src/components/DeviceCard.jsx:17-25 | once answered, `loadingSwitch` is false whatever the outcome; the local switch takes the requested state, with a toast and one `onRefresh(true)`, only on success; on failure the switch is unchanged and there is no refresh |
| `Components.DeviceCard.ToggleSwitch` | src/components/DeviceCard.jsx:13-26 | a whole toggle: one request keyed by the local name; the local switch reads as flipped exactly when the registry confirmed, and on success holds exactly the requested boolean; `onRefresh(true)` exactly on success; `loadingSwitch` false afterwards |
| `Components.DeviceCard.BeginDelete` | src/components/DeviceCard.jsx:28-31 | while the delete is pending `loadingDelete` is true, and the request is keyed by the local name |
| `Components.DeviceCard.FinishDelete` | src/components/DeviceCard.jsx:31-38 | once answered, `loadingDelete` is false whatever the outcome; on success the "deleted" toast and one `onRefresh(true)`; on failure only the error toast |
| `Components.DeviceCard.Delete` | src/components/DeviceCard.jsx:28-39 | a whole delete: one request keyed by the local name, `onRefresh(true)` exactly on success, `loadingDelete` false afterwards |
| `Components.DeviceCard.Rename` | src/components/DeviceCard.jsx:41-53 | the editor always ends closed; a name equal to `device.name` sends no call, shows no toast and asks for no refresh; otherwise one update keyed by `device._id`; success keeps the new name, toasts and calls `onRefresh(true)` once; failure reverts the name to `device.name` and does not refresh |

## Left out

- The HTTP client `src/services/api.js` (axios calls to the registry) is not part of this model. Each call is an outcome parameter, and its endpoint, key and value are recorded in `calls`.
- `src/App.jsx` is static demonstration markup and is not part of this model.
- The page's effect hooks (`src/pages/Dashboard.jsx:29-43`) are left out because they are timing and lifecycle: the initial loads on mount, the reload on every change of `error`, the 2 s and 3 s intervals and their teardown. The two interval callbacks are modelled one call at a time by `SteadyTick` and `RecoveryTick`.
- Overlapping polls and handlers that are not awaited are concurrency, and are not interleaved here. Each poll's outcome is applied as one step, and a sequence of polls is applied in order (`Sync.Run`), so the last poll applied wins. The silent reload that a successful mutation starts is applied right after that handler's own updates.
- The arguments of `createDevice()` (`src/pages/Dashboard.jsx:47`) are left out. The page passes none and relies on the client's defaults, so the request is recorded as `CreateDevice` without fields.
- Toasts are left out as UI. They appear only as the entries appended to `notices`.
- Components.DeviceCard.ToggleSwitch: the card offers its switch button only to controller devices (`src/components/DeviceCard.jsx:101-109`) and shows the sensor value otherwise; the model does not gate `ToggleSwitch` or `BeginToggle` by mode, so it also describes a toggle the rendered card never offers.
- The rest of the JSX rendering, styling and date formatting (`toLocaleString`, `dayjs`) are left out as presentation and locale code. Left out with them: the card's display of mode, status and sensor value, and the Add Device button being disabled while an error is held (`src/pages/Dashboard.jsx:189`).
- `sensorValue` is a real number and `lastOnline` is a string. Both are only displayed, and neither is used by any operation.
- Polls carry no sequence number in the source, so a late response is not discarded; the model applies polls in the order they land.

## Findings

| source | as written | input that shows it | evidently intended | confidence | as-written member | corrected member |
|---|---|---|---|---|---|---|
| src/pages/Dashboard.jsx:37-43 | the 2 s interval is registered once with an empty dependency list, so its callback is the first render's `loadDevices`, whose `error` is always null: every failing steady poll toasts "unreachable", and a steady poll that recovers never toasts "reconnected" | three consecutive failing steady polls from Healthy: three "unreachable" toasts | the guard `if (!error)` at line 21 toasts only on entering the error state: one toast per outage | medium, not executed | `Sync.StaleTicksRepeatNotice` (on `Sync.StaleTick`) | `Sync.ThreeFailuresToastOnce` (on `Sync.Load`, used by `Pages.Dashboard.SteadyTick`) |
