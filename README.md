# LegPrio BLE client: a Dafny model

This project models the logic of a React Native app. The app connects to
a "LegPrio" reaction-time sensor over Bluetooth Low Energy, shows the
results of the sensor's game and exports them. Five parts are modelled:

- **`ble_context.dfy` (module `Ble`): the BLE provider.** It holds these
  state variables:
  - the discovered-device list
  - the `scanning` flag
  - `connectedDevice` and `isConnecting`
  - the adapter state
  - the persisted `"deviceId"` key

  Its operations are the Android permission gate, the scan session with
  per-session de-duplication and the 2000 ms stop, `connectToDevice`
  with its 3000 ms race, the peer-initiated disconnect listener,
  `disconnectDevice`, `subscribeToCharacteristic` and its notification
  callback, the launch-time reconnect, and reconciliation when the app
  returns to the foreground.
  - Each event is a pure transition function on the `BleState` datatype.
    The class `BleProvider` holds the same state as fields and proves each
    event method against its transition.
  - A ghost log of scan callbacks ties the device list to `Dedup`, the
    reference definition: the first sighting of each id, in order of first
    sighting.
- **`game_log.dfy` (module `GameLog`): the main screen.** It covers:
  - normalisation of incoming telemetry records (`t` defaults to 0)
  - the reference-time test
  - the 100-entry newest-first log
  - the result card (`GameInterface`) and the choice of panels
  - the CSV export, its rows and the read-back of the file
  - the subscription effect keyed on the connected device, with its cleanup
- **`terminal_plot.dfy` (module `Terminal`): the BLE terminal.** It covers
  the line buffer that keeps the last 1000 lines, the cancellation flag set
  on unmount, and the newest-first display.
- **`devices_list.dfy` (module `DeviceList`): the device picker.** It
  covers the `"LegPrio"` name filter, the choice between spinner, "No
  devices found." and the rows, and the press handler. The handler drives
  the BLE provider's connect.
- **`circular_timer.dfy` (module `Countdown`): the countdown.** It covers
  the whole-second countdown that saturates at 0 and clears its interval,
  and the completion callback.

Some parts of the app are not Dafny code and enter the model as parameters.
Timers, promises, radio callbacks and the liveness query become discrete
events applied one at a time. Base64 decoding and `JSON.parse` are
function-typed parameters. Alerts, navigation, hiding the splash screen and
stopping the radio scan are recorded as `Effect` values.

`common.dfy` (module `Common`) holds the shared vocabulary: `Option`,
`Device`, `AdapterState`, `SubscribeResult`, `IdsOf`, `UniqueIds`, `RemoveAt`
and `Reverse`.

Five behaviours of the code that a reader might not expect are modelled as written:

- When a launch-time reconnect fails, the splash screen is hidden twice:
  once in `connectToDevice`'s catch and again in the reconnect's `finally`.
  `Ble.Reconnected` records both.
- When the write of `"deviceId"` fails after `setConnectedDevice`, the
  device stays connected, no disconnect listener is registered and
  "Connection Error" is raised. This is the `StoreFailed` outcome.
- `startScan` checks its guard only before it awaits the permission
  dialog. A scan still starts when the adapter turns off while the dialog
  is open (`Ble.ScanStartsAfterPowerOff`).
- On resume, when every removal of `"deviceId"` rejects, the connection
  is dropped but the key stays, so the next launch reconnects
  (`Ble.ResumeKeepsKeyWhenRemovalFails`).
- The main screen's `isConnecting` is a local state that is never set, so
  it is always false. `GameLog.ScreenPanels` takes it as a parameter, and
  its exactly-one-panel property is stated for `isConnecting == false`.

## Model

| member | source | states |
|---|---|---|
| Ble.AllGranted | store/BLE-context.tsx:60-62 | the result is true exactly when every permission answer is GRANTED |
| Ble.PermissionsGranted | store/BLE-context.tsx:53-65 | off Android the gate always passes; on Android it passes exactly when every answer is granted, so any denial fails it |
| Ble.DedupIds | store/BLE-context.tsx:128-142 | the first-sighting list of a scan log holds exactly the ids seen, and each id once |
| Ble.DedupFirstSeen | store/BLE-context.tsx:128-142 | each entry of the first-sighting list is the device of its id's first callback, and entries are in first-sighting order |
| Ble.Deliver | store/BLE-context.tsx:198-217 | a notification reaches onDataReceived exactly when it has no error and a non-empty value; it then carries the decoded value and the characteristic's uuid |
| Ble.DeliverAllConcat | store/BLE-context.tsx:198-217 | deliveries keep arrival order: a stream delivers what its first part delivers, then what its second part delivers |
| Ble.DeliverAllMembers | store/BLE-context.tsx:198-217 | a delivery occurs in the output exactly when some notification of the stream delivers it |
| Ble.ErrorsNeverDelivered | store/BLE-context.tsx:199-206 | a stream of error notifications delivers nothing |
| Ble.Launch | store/BLE-context.tsx:43-47 | on launch the list is empty, nothing is scanning, connected or connecting, the adapter state is unknown, and the stored id is whatever storage holds |
| Ble.StateReported | store/BLE-context.tsx:252-255 | an adapter report is recorded; PoweredOff, and only PoweredOff, raises "Bluetooth is off"; nothing else changes |
| Ble.ScanRequested | store/BLE-context.tsx:122-125 | startScan changes nothing when already scanning or when the adapter is not PoweredOn; otherwise it opens the permission dialog and changes nothing else yet |
| Ble.PermissionsAnswered | store/BLE-context.tsx:125-149 | a refused dialog ends startScan with nothing changed; a granted one empties the list and the seen-id set, sets scanning and arms one stop timer, without checking the guard again; nothing else changes |
| Ble.DeviceSeen | store/BLE-context.tsx:132-142 | a callback appends the device only if its id is new to the session; the old list is always a prefix of the new one; nothing else changes |
| Ble.ScanErrored | store/BLE-context.tsx:133-137 | a scan error clears scanning and raises "Scan Error" but keeps the devices found |
| Ble.ScanTimerFired | store/BLE-context.tsx:145-148 | the 2000 ms timer stops the radio scan and clears scanning; the list is kept |
| Ble.ConnectBegun | store/BLE-context.tsx:68-69 | a connect sets isConnecting and becomes pending, with no guard against one already in flight |
| Ble.ConnectSettled | store/BLE-context.tsx:71-118 | on success the device is connected, its id persisted and a disconnect listener registered; a failure of the race, discovery or MTU (the timeout included) leaves the connection unchanged, while a failed write of "deviceId" (StoreFailed) leaves the device connected without a listener; every failure keeps the stored id, hides the splash and raises "Connection Error" with "Connection timeout" or the error's own message; every path ends with isConnecting false and an empty list |
| Ble.PeerDisconnect | store/BLE-context.tsx:90-110 | with an error nothing changes, the listener included; otherwise the connection and scanning drop when the device is named, and the listener removes itself; the stored id is never touched |
| Ble.Disconnected | store/BLE-context.tsx:152-170 | with no connection it only alerts; a confirmed cancel and removal drops the connection, removes "deviceId" and goes home; a failed cancel keeps both; a cancel whose removal of the key fails drops the connection but keeps "deviceId"; both failures raise "Disconnection Error"; the list is emptied on every path |
| Ble.Subscribed | store/BLE-context.tsx:177-230 | a handle is returned exactly when a device is connected, both uuids are non-empty and the monitor call did not throw; otherwise null is returned, an alert is raised and nothing is registered |
| Ble.MonitorRemoved | store/BLE-context.tsx:195-221 | remove() deactivates exactly that monitor and is idempotent |
| Ble.Resumed | store/BLE-context.tsx:275-292 | on return to the foreground with a connection, a negative or failed liveness answer clears the connection without an alert, and clears "deviceId" exactly when a removeItem call succeeds (a negative answer gets a second try in the catch, a failed query only one); otherwise nothing changes |
| Ble.Reconnected | store/BLE-context.tsx:234-247 | the launch reconnect connects only for a stored, non-empty id with the radio PoweredOn, then the list is empty, nothing is connecting and the connection and error alerts are those of the connect outcome; the splash is hidden on every path, last |
| Ble.ReconnectedSteps | store/BLE-context.tsx:238-246 | the launch reconnect is exactly ConnectBegun on the stored id followed by ConnectSettled of that call when a connect is wanted, nothing otherwise, and then HideSplash |
| Ble.DiscoverAllIsDedup | store/BLE-context.tsx:128-143 | in a fresh session the set-based filter yields exactly the first sightings in order, and the seen set is the set of ids of the callbacks |
| Ble.ScanListsUniqueIds | store/BLE-context.tsx:125-143 | after a granted dialog and any callbacks, the list is the first sightings and holds each id at most once |
| Ble.ScanStartsAfterPowerOff | store/BLE-context.tsx:122-129 | an adapter that reports PoweredOff while the dialog is open does not stop a granted scan from starting |
| Ble.ResumeKeepsKeyWhenRemovalFails | store/BLE-context.tsx:277-287 | when every removal of "deviceId" rejects on resume, the connection drops but the key stays, so the next launch reconnects to that device |
| Ble.PeerDropThenRelaunchReconnects | store/BLE-context.tsx:86-110 | after a connect and a peer drop the stored id survives, so the next launch reconnects to the same device |
| Ble.DevicesAreUnique | store/BLE-context.tsx:128-142 | in every valid provider state the device list has no repeated id |
| Ble.DevicesInFirstSeenOrder | store/BLE-context.tsx:128-142 | in every valid provider state the device list is a suffix of the session's first sightings, in first-sighting order |
| Ble.BleProvider.constructor | store/BLE-context.tsx:43-47 | the provider starts in the launch state |
| Ble.BleProvider.AdapterStateChanged | store/BLE-context.tsx:252-255 | the new state is StateReported of the old one |
| Ble.BleProvider.StartScan | store/BLE-context.tsx:122-125 | the new state is ScanRequested of the old one, and the result says whether the dialog opened |
| Ble.BleProvider.PermissionsReturned | store/BLE-context.tsx:125-149 | the new state is PermissionsAnswered of the old one, and the result says whether the scan started |
| Ble.BleProvider.DeviceDiscovered | store/BLE-context.tsx:139-142 | the new state is DeviceSeen of the old one, and the list stays the session's de-duplicated log |
| Ble.BleProvider.ScanFailed | store/BLE-context.tsx:133-137 | the new state is ScanErrored of the old one |
| Ble.BleProvider.ScanTimeout | store/BLE-context.tsx:145-148 | the new state is ScanTimerFired of the old one |
| Ble.BleProvider.BeginConnect | store/BLE-context.tsx:68-69 | the new state is ConnectBegun of the old one |
| Ble.BleProvider.SettleConnect | store/BLE-context.tsx:71-118 | the new state is ConnectSettled of the old one |
| Ble.BleProvider.PeerDisconnected | store/BLE-context.tsx:92-109 | the new state is PeerDisconnect of the old one |
| Ble.BleProvider.DisconnectDevice | store/BLE-context.tsx:152-170 | the new state is Disconnected of the old one |
| Ble.BleProvider.Subscribe | store/BLE-context.tsx:177-230 | the new state and the returned handle are those of Subscribed |
| Ble.BleProvider.Notify | store/BLE-context.tsx:198-217 | an active monitor hands a notification on exactly when it has no error and a non-empty value, decoded and with its uuid |
| Ble.BleProvider.RemoveSubscription | store/BLE-context.tsx:195-221 | the new state is MonitorRemoved of the old one |
| Ble.BleProvider.ReconnectPreviousDevice | store/BLE-context.tsx:234-247 | the new state is Reconnected of the old one, and the result says whether a connect was attempted |
| Ble.BleProvider.ConnectStored | store/BLE-context.tsx:240-242 | connecting to the stored id is ConnectBegun followed by ConnectSettled |
| Ble.BleProvider.AppStateChanged | store/BLE-context.tsx:276-289 | the new state is Resumed of the old one, with the liveness answer and the removeItem results |
| GameLog.IsReference | app/mainScreen.tsx:224 | a reference-time record carries t and has s, p, b and e all equal to 0 |
| GameLog.Normalize | app/mainScreen.tsx:222-224 | a record without t gets t = 0 and nothing else changes; a normalised record is a reference record exactly when s, p, b and e are all 0 |
| GameLog.PushLog | app/mainScreen.tsx:226 | the new record goes first, the old log follows, and the result is cut to at most 100 entries |
| GameLog.FeedLogsNewestFirst | app/mainScreen.tsx:226 | after a run of records the log is the first 100 of the run newest first and the old log taken together |
| GameLog.GameInterfaceView | app/mainScreen.tsx:74-94 | the placeholder wins; missing or empty data shows the default record; stored data that does not parse fails to render; a reference record renders nothing; a parsed record that is not a reference record is shown as itself; a shown record is never a reference record |
| GameLog.CallbackDataIsShown | app/mainScreen.tsx:222-229 | data kept by the callback is always shown by the result card, never hidden as a reference record |
| GameLog.ScreenPanels | app/mainScreen.tsx:344-365 | the result card shows exactly when connected, with the data when it is a non-empty string and the placeholder otherwise; the welcome box shows exactly when disconnected, not scanning, not connecting and with no devices, its button disabled exactly when the adapter is not PoweredOn; the device list shows exactly when disconnected, not connecting and with devices or a scan running; so the two never show together, and with isConnecting false exactly one shows when disconnected |
| GameLog.RowCells | app/mainScreen.tsx:257-259 | a row has the 11 columns of the header; reference rows leave timing, position and score empty and end in true; other rows hold the formatted timing of b and position and score of p there, and end in false; a non-reference record without p throws |
| GameLog.CsvExport | app/mainScreen.tsx:254-266 | an empty log shares nothing; the export fails exactly when some non-reference record lacks p |
| GameLog.ExportReadsBack | app/mainScreen.tsx:254-261 | when no cell holds a comma or line break, the shared file splits into the header columns and then one line per log, in log order, holding that log's cells |
| GameLog.TableRows | app/mainScreen.tsx:433-436 | one table row per log, in log order, highlighted exactly for reference records, and only the last row without a bottom border |
| GameLog.LogTable | app/mainScreen.tsx:433-449 | rendering the results table throws exactly when some non-reference record lacks p; otherwise it draws one row per log, highlighted exactly for reference records, with only the last row lacking a bottom border |
| GameLog.TableFailsWithExport | app/mainScreen.tsx:433-449 | for a non-empty log, the results table fails to render exactly when the CSV export fails |
| GameLog.MainScreen.constructor | app/mainScreen.tsx:148-152 | the screen starts with no logs and no data |
| GameLog.MainScreen.OnData | app/mainScreen.tsx:220-231 | a payload that does not parse changes nothing; otherwise the normalised record is pushed onto the log, and the payload becomes the data unless it is a reference record |
| GameLog.MainScreen.ClearLogs | app/mainScreen.tsx:269-281 | the log empties only when the clear is confirmed |
| GameLog.MainScreen.LoadDummyLogs | app/mainScreen.tsx:284-291 | the log becomes exactly the four fixed records, none of them a reference record |
| GameLog.MainScreen.EditSubjectId | app/mainScreen.tsx:402 | the subject id becomes the typed text |
| GameLog.MainScreen.EditTrialId | app/mainScreen.tsx:413 | the trial id becomes the typed text |
| GameLog.MainScreen.DownloadLogs | app/mainScreen.tsx:254-266 | the export of the current ids and log; nothing is shared for an empty log |
| GameLog.MainScreen.CleanUp | app/mainScreen.tsx:244-250 | remove() is called only on a subscription that has resolved to a monitor |
| GameLog.MainScreen.ConnectedDeviceChanged | app/mainScreen.tsx:199-251 | the previous run is cleaned up; a subscription is attempted exactly when the device has an id, whatever the liveness answer |
| GameLog.MainScreen.Unmount | app/mainScreen.tsx:244-250 | the live run is cleaned up |
| GameLog.MainScreen.SubscribeSettled | app/mainScreen.tsx:215-241 | a monitor for the live run is kept; one for a run already cleaned up is leaked; a thrown error clears the data |
| Terminal.AppendLine | components/mainScreen/TerminalPlot.tsx:25-29 | the line goes last and the buffer keeps the newest 1000 lines, the older ones in order before it |
| Terminal.AppendAllKeepsNewest | components/mainScreen/TerminalPlot.tsx:25-29 | after a run of lines the buffer is the last 1000 lines of the old buffer and the run taken together, in arrival order |
| Terminal.TerminalPlot.constructor | components/mainScreen/TerminalPlot.tsx:7-37 | the terminal starts empty, not cancelled, with its subscription pending |
| Terminal.TerminalPlot.SubscribeSettled | components/mainScreen/TerminalPlot.tsx:18-35 | the returned monitor is stored; one that arrives after cleanup is leaked |
| Terminal.TerminalPlot.OnLine | components/mainScreen/TerminalPlot.tsx:23-30 | after cleanup a line is ignored; otherwise it is appended |
| Terminal.TerminalPlot.ClearLogs | components/mainScreen/TerminalPlot.tsx:62-64 | the buffer becomes empty |
| Terminal.TerminalPlot.CleanUp | components/mainScreen/TerminalPlot.tsx:39-44 | later lines are ignored, and remove() is called only on a resolved monitor |
| Terminal.TerminalPlot.Render | components/mainScreen/TerminalPlot.tsx:96 | the view is the buffer reversed, newest line first, and the buffer is unchanged |
| DeviceList.Offered | components/mainScreen/DevicesList.jsx:36 | a device is offered when it has a non-empty name starting with "LegPrio" |
| DeviceList.NamedDevices | components/mainScreen/DevicesList.jsx:35-37 | a device is offered exactly when it is in the list and its name starts with "LegPrio" |
| DeviceList.NamedDevicesConcat | components/mainScreen/DevicesList.jsx:35-37 | filtering a concatenation filters each part, so discovery order is kept |
| DeviceList.NamedDevicesUnique | components/mainScreen/DevicesList.jsx:35-37 | filtering keeps ids unique |
| DeviceList.RenderDevices | components/mainScreen/DevicesList.jsx:34-75 | a spinner while scanning with no match, "No devices found." with no match otherwise, else one row per match in order; only the last row drops its border, and only the connecting device's row shows the spinner |
| DeviceList.AtMostOneSpinner | components/mainScreen/DevicesList.jsx:71 | over a list with unique ids, at most one row shows the spinner |
| DeviceList.DevicesList.constructor | components/mainScreen/DevicesList.jsx:20-21 | rows start enabled with no connecting device |
| DeviceList.DevicesList.Press | components/mainScreen/DevicesList.jsx:24-32 | a disabled row does nothing; otherwise the row's id is marked connecting, all rows are disabled and the provider begins the connect |
| DeviceList.DevicesList.ConnectReturned | components/mainScreen/DevicesList.jsx:28-29 | the connect settles in the provider, connecting resets, and the rows stay disabled |
| Countdown.Tick | components/BindSensor/CircularTimer.tsx:55-61 | a tick never goes below 0, gives 0 exactly for a time of 1 or less, and otherwise takes one second off |
| Countdown.AfterTicksSaturates | components/BindSensor/CircularTimer.tsx:54-62 | from a whole duration d >= 0, k ticks leave max(d - k, 0) |
| Countdown.ZeroIsFinal | components/BindSensor/CircularTimer.tsx:56-58 | once the time reaches 0 it stays 0 |
| Countdown.CircularTimer.constructor | components/BindSensor/CircularTimer.tsx:24-34 | the time starts at the duration, 60 by default, and the interval runs |
| Countdown.CircularTimer.IntervalFired | components/BindSensor/CircularTimer.tsx:54-62 | the time is ticked, and the interval stops exactly when the time reaches 0 |
| Countdown.CircularTimer.AnimationEnded | components/BindSensor/CircularTimer.tsx:47-51 | onComplete runs only for a finished animation with a supplied callback |
| Countdown.CircularTimer.PropsChanged | components/BindSensor/CircularTimer.tsx:64-69 | a new duration or callback restarts the interval without resetting the remaining time |
| Countdown.CircularTimer.Unmount | components/BindSensor/CircularTimer.tsx:65-68 | the interval is cleared |

## Left out

- The BLE radio stack is not modelled: scanning, connect, service discovery, the MTU request, cancelDeviceConnection, isDeviceConnected and onStateChange. Their results are event parameters.
- Base64 to UTF-8 decoding and `JSON.parse` are function parameters. A JSON value that is not an object of optional numbers is not modelled.
- AsyncStorage is reduced to the `"deviceId"` key. A failed read of that key at launch is not modelled. The main screen's persisted logs, subject id and trial id are not modelled either; logs loaded from storage at mount would not be capped at 100.
- `Share`, `Alert` buttons, `Linking` deep links, the splash screen and `router.replace` are recorded as effects or not at all.
- Ble.BleProvider.DisconnectDevice: the awaits of cancelDeviceConnection and of removing the key are modelled as one step. Other events cannot interleave between them.
- Ble.BleProvider.Subscribe: modelled as one step. Whether a monitor keeps delivering after its device disconnects is left to the radio stack.
- Ble.BleProvider.ReconnectPreviousDevice: the launch reconnect is one step from reading the key to hiding the splash.
- Ble.BleProvider.SettleConnect: one step from the race's answer to the finally block. In the code, the device is set, then "deviceId" is written, and only then is the disconnect listener registered. A peer drop inside that window goes unnoticed by the app, and the model does not capture it.
- Ble.BleProvider.AppStateChanged: the liveness query and the removeItem calls are one step, so other events cannot run between them. The unhandled rejection of a last failed removal is not modelled beyond keeping the key.
- Floating-point display arithmetic is not modelled: the error colour, the progress position, the `toFixed` formatting and the score formula. The CSV number cells are opaque strings from the `Formats` parameter.
- GameLog.GameInterfaceView: the layout of the shown record (colours, progress position, texts) is not modelled. The contract states which view is chosen and which record it shows.
- Countdown.AfterTicksSaturates: stated for whole-second durations only. A fractional duration is not modelled.
- The circle animation's interpolation and radius, and the terminal's scroll-to-bottom test, are presentation and are not modelled.
- React re-render timing and stale closures are not modelled. Every event sees the current state.
