// The BLE provider: permission gate, scan session with per-session
// de-duplication, connect with a 3000 ms race, peer-initiated and manual
// disconnect, characteristic subscriptions, auto-reconnect on launch and
// reconciliation on app resume. Timers, promises and radio callbacks are
// discrete events applied one at a time.
module Ble {
  import opened Common

  // ---------------------------------------------------------------------
  // Permission gate

  datatype Platform = Android | Ios | OtherPlatform

  /** One answer of the Android permission dialog. */
  datatype PermissionResult = Granted | Denied | NeverAskAgain

  /** `every` over the dialog's answers. */
  function AllGranted(answers: seq<PermissionResult>): (ok: bool)
    ensures ok <==> forall i :: 0 <= i < |answers| ==> answers[i] == Granted
  {
    if answers == [] then true else answers[0] == Granted && AllGranted(answers[1..])
  }

  /** requestPermissions: on Android, true exactly when every requested
      permission (scan and connect) came back granted; elsewhere always true. */
  function PermissionsGranted(platform: Platform, answers: seq<PermissionResult>): (ok: bool)
    ensures platform != Android ==> ok
    ensures platform == Android ==>
      (ok <==> forall i :: 0 <= i < |answers| ==> answers[i] == Granted)
    ensures platform == Android && Denied in answers ==> !ok
  {
    platform != Android || AllGranted(answers)
  }

  // ---------------------------------------------------------------------
  // Scan de-duplication: the discovered-device list of one scan session is
  // the first sighting of every identifier, in the order of first sighting.

  /** The first sighting of each identifier in a log of scan callbacks. */
  function Dedup(log: seq<Device>): (r: seq<Device>)
    ensures |r| <= |log|
  {
    if log == [] then []
    else
      var prev := Dedup(log[..|log| - 1]);
      if log[|log| - 1].id in IdsOf(log[..|log| - 1]) then prev else prev + [log[|log| - 1]]
  }

  /** Index of the first callback in `log` that reported `id`. */
  function FirstIndex(log: seq<Device>, id: string): (j: nat)
    requires id in IdsOf(log)
    ensures j < |log| && log[j].id == id
    ensures forall k :: 0 <= k < j ==> log[k].id != id
  {
    var pre := log[..|log| - 1];
    if id in IdsOf(pre) then
      var j := FirstIndex(pre, id);
      assert forall k :: 0 <= k < j ==> log[k] == pre[k];
      j
    else
      assert forall k :: 0 <= k < |pre| ==> pre[k].id in IdsOf(pre);
      |log| - 1
  }

  lemma IdsOfSnoc(log: seq<Device>, d: Device)
    ensures IdsOf(log + [d]) == IdsOf(log) + {d.id}
  {
    var l := log + [d];
    forall x | x in IdsOf(l) ensures x in IdsOf(log) + {d.id} {
      var i :| 0 <= i < |l| && l[i].id == x;
      if i < |log| { assert log[i] == l[i]; }
    }
    forall x | x in IdsOf(log) + {d.id} ensures x in IdsOf(l) {
      if x == d.id { assert l[|log|] == d; }
      else { var i :| 0 <= i < |log| && log[i].id == x; assert l[i] == log[i]; }
    }
  }

  /** Unfolding of Dedup on a log that grows by one callback. */
  lemma DedupSnoc(log: seq<Device>, d: Device)
    ensures Dedup(log + [d]) == if d.id in IdsOf(log) then Dedup(log) else Dedup(log) + [d]
  {
    assert (log + [d])[..|log|] == log;
  }

  /** The de-duplicated list holds every identifier seen, each once. */
  lemma {:induction false} DedupIds(log: seq<Device>)
    ensures IdsOf(Dedup(log)) == IdsOf(log)
    ensures UniqueIds(Dedup(log))
  {
    if log != [] {
      var pre, d := log[..|log| - 1], log[|log| - 1];
      assert log == pre + [d];
      DedupIds(pre);
      DedupSnoc(pre, d);
      IdsOfSnoc(pre, d);
      if d.id !in IdsOf(pre) {
        IdsOfSnoc(Dedup(pre), d);
        var r := Dedup(log);
        assert r == Dedup(pre) + [d];
        forall i, j | 0 <= i < j < |r| ensures r[i].id != r[j].id {
          if j == |r| - 1 {
            assert r[i] == Dedup(pre)[i];
            assert Dedup(pre)[i].id in IdsOf(Dedup(pre));
          }
        }
      }
    }
  }

  /** Each entry is the device of its identifier's first sighting, and the
      entries appear in the order their identifiers were first seen. */
  lemma {:induction false} DedupFirstSeen(log: seq<Device>)
    ensures forall i :: 0 <= i < |Dedup(log)| ==>
      Dedup(log)[i].id in IdsOf(log) && Dedup(log)[i] == log[FirstIndex(log, Dedup(log)[i].id)]
    ensures forall i, j :: 0 <= i < j < |Dedup(log)| ==>
      Dedup(log)[i].id in IdsOf(log) && Dedup(log)[j].id in IdsOf(log) &&
      FirstIndex(log, Dedup(log)[i].id) < FirstIndex(log, Dedup(log)[j].id)
  {
    if log != [] {
      var pre, d := log[..|log| - 1], log[|log| - 1];
      assert log == pre + [d];
      DedupFirstSeen(pre);
      DedupSnoc(pre, d);
      IdsOfSnoc(pre, d);
      var p := Dedup(pre);
      assert forall i :: 0 <= i < |p| ==> p[i].id in IdsOf(pre) && FirstIndex(log, p[i].id) == FirstIndex(pre, p[i].id);
      assert forall k :: 0 <= k < |pre| ==> log[k] == pre[k];
      if d.id !in IdsOf(pre) {
        assert FirstIndex(log, d.id) == |pre|;
      }
    }
  }

  // ---------------------------------------------------------------------
  // Characteristic notifications

  /** A notification as the radio delivers it to a monitor callback: an
      error, or a characteristic whose base64 value may be missing. */
  datatype Notification = Notification(error: Option<string>, value: Option<string>, uuid: string)

  /** What reaches onDataReceived: the decoded text and the characteristic's uuid. */
  datatype Delivery = Delivery(text: string, uuid: string)

  /** The monitor callback. `decode` stands for the base64 to UTF-8
      conversion of the Buffer library. An error or an absent or empty
      value (falsy in the source) never reaches the consumer. */
  function Deliver(n: Notification, decode: string -> string): (d: Option<Delivery>)
    ensures d.Some? <==> n.error.None? && n.value.Some? && n.value.value != ""
    ensures d.Some? ==> d.value == Delivery(decode(n.value.value), n.uuid)
  {
    if n.error.Some? then None
    else if n.value.Some? && n.value.value != "" then Some(Delivery(decode(n.value.value), n.uuid))
    else None
  }

  /** Everything a monitor hands to the consumer for a stream of notifications. */
  function DeliverAll(ns: seq<Notification>, decode: string -> string): (ds: seq<Delivery>)
    ensures |ds| <= |ns|
  {
    if ns == [] then []
    else
      (match Deliver(ns[0], decode) case Some(d) => [d] case None => [])
      + DeliverAll(ns[1..], decode)
  }

  /** Deliveries keep arrival order: the stream's deliveries are those of
      its first part followed by those of its second. */
  lemma {:induction false} DeliverAllConcat(a: seq<Notification>, b: seq<Notification>, decode: string -> string)
    ensures DeliverAll(a + b, decode) == DeliverAll(a, decode) + DeliverAll(b, decode)
  {
    if a != [] {
      assert (a + b)[1..] == a[1..] + b;
      DeliverAllConcat(a[1..], b, decode);
    } else {
      assert a + b == b;
    }
  }

  /** A delivery exists exactly for each deliverable notification. */
  lemma {:induction false} DeliverAllMembers(ns: seq<Notification>, decode: string -> string, x: Delivery)
    ensures x in DeliverAll(ns, decode) <==>
      exists i :: 0 <= i < |ns| && Deliver(ns[i], decode) == Some(x)
  {
    if ns != [] {
      DeliverAllMembers(ns[1..], decode, x);
      if exists i :: 0 <= i < |ns| && Deliver(ns[i], decode) == Some(x) {
        var i :| 0 <= i < |ns| && Deliver(ns[i], decode) == Some(x);
        if i > 0 { assert ns[1..][i - 1] == ns[i]; }
      }
      if exists i :: 0 <= i < |ns[1..]| && Deliver(ns[1..][i], decode) == Some(x) {
        var i :| 0 <= i < |ns[1..]| && Deliver(ns[1..][i], decode) == Some(x);
        assert ns[i + 1] == ns[1..][i];
      }
    }
  }

  /** A stream of errors delivers nothing. */
  lemma {:induction false} ErrorsNeverDelivered(ns: seq<Notification>, decode: string -> string)
    requires forall i :: 0 <= i < |ns| ==> ns[i].error.Some?
    ensures DeliverAll(ns, decode) == []
  {
    if ns != [] {
      ErrorsNeverDelivered(ns[1..], decode);
    }
  }

  // ---------------------------------------------------------------------
  // Events settled from outside and the effects the provider produces

  /** How the awaited part of connectToDevice settles: the race between
      the radio's connect and the 3000 ms timer, then service discovery,
      the 512-byte MTU request and the write of the "deviceId" key. */
  datatype ConnectOutcome =
    | RaceTimedOut                                 // the 3000 ms timer rejected first
    | ConnectRejected(reason: string)              // the radio's connect rejected first
    | DiscoveryFailed(reason: string)
    | MtuFailed(reason: string)
    | StoreFailed(name: Option<string>, reason: string)   // setItem("deviceId") rejected
    | Established(name: Option<string>)

  /** The message of the error that ends a failed connect. */
  function ConnectErrorReason(o: ConnectOutcome): (reason: string)
    requires !o.Established?
  {
    if o.RaceTimedOut? then "Connection timeout" else o.reason
  }

  /** The outcomes in which setConnectedDevice has run: the store of
      "deviceId" comes after it. */
  predicate SetsDevice(o: ConnectOutcome)
  {
    o.Established? || o.StoreFailed?
  }

  /** How cancelDeviceConnection and the removal of "deviceId" settle. */
  datatype DisconnectOutcome = Cancelled | CancelFailed(reason: string) | RemoveFailed(reason: string)

  /** The radio's answer to isDeviceConnected on app resume. */
  datatype LiveAnswer = Live | NotLive | QueryFailed

  datatype AppStatus = Active | Background | Inactive

  /** A characteristic monitor registered through subscribeToCharacteristic. */
  datatype Monitor = Monitor(service: string, characteristic: string, active: bool)

  /** Side effects on the world outside the provider's state. */
  datatype Effect =
    | Alert(title: string, message: string)
    | NavigateHome          // router.replace("/")
    | HideSplash            // SplashScreen.hideAsync()
    | StopRadioScan         // bleManager.stopDeviceScan()

  /** How the source prints a device name inside a template string. */
  function NameText(name: Option<string>): string
  {
    match name case Some(n) => n case None => "null"
  }

  function ConnectionErrorAlert(reason: string): Effect
  {
    Alert("Connection Error", "Failed to connect: " + reason)
  }

  function DisconnectionErrorAlert(reason: string): Effect
  {
    Alert("Disconnection Error", "Failed to disconnect: " + reason)
  }

  const BluetoothOffAlert := Alert("Bluetooth is off", "Please turn on Bluetooth")
  const NoDeviceAlert := Alert("No device connected", "")
  const InvalidUuidAlert := Alert("Subscription Error44", "Invalid characteristic or service UUID")

  // ---------------------------------------------------------------------
  // The provider's state and its transitions, one function per event

  /** Every state variable of the provider. */
  datatype BleState = BleState(
    devices: seq<Device>,
    scanning: bool,
    connectedDevice: Option<Device>,
    isConnecting: bool,
    bleState: Option<AdapterState>,          // None until the first state report
    storedDeviceId: Option<string>,          // the persisted "deviceId" key
    scannedDeviceIds: set<string>,           // the current scan session's seen ids
    scanCallbackInstalled: bool,             // a startDeviceScan callback is live
    scanTimers: nat,                         // armed 2000 ms scan-stop timers
    permissionPrompts: nat,                  // startScan calls awaiting the permission dialog
    pendingConnects: seq<string>,            // connectToDevice calls still awaiting
    disconnectListeners: seq<string>,        // onDeviceDisconnected registrations
    monitors: seq<Monitor>,                  // subscription handles are indices
    effects: seq<Effect>)

  /** The provider on app launch, with whatever "deviceId" storage holds. */
  function Launch(stored: Option<string>): (m: BleState)
    ensures m.devices == [] && !m.scanning && m.connectedDevice == None && !m.isConnecting
    ensures m.bleState == None && m.storedDeviceId == stored && m.effects == []
  {
    BleState([], false, None, false, None, stored, {}, false, 0, 0, [], [], [], [])
  }

  /** onStateChange: records the adapter state; PoweredOff raises the
      "Bluetooth is off" notice. */
  function StateReported(m: BleState, s: AdapterState): (m': BleState)
    ensures m'.bleState == Some(s)
    ensures m'.effects == m.effects + if s == PoweredOff then [BluetoothOffAlert] else []
    ensures m'.(bleState := m.bleState, effects := m.effects) == m
  {
    m.(bleState := Some(s), effects := m.effects + if s == PoweredOff then [BluetoothOffAlert] else [])
  }

  /** The guard startScan checks before it awaits the permission dialog:
      not already scanning and the adapter known to be powered on. */
  predicate ScanAllowed(m: BleState)
  {
    !m.scanning && m.bleState == Some(PoweredOn)
  }

  /** startScan up to its await of the permission dialog: refused silently
      unless allowed, otherwise the dialog is pending and nothing else has
      changed yet. */
  function ScanRequested(m: BleState): (m': BleState)
    ensures !ScanAllowed(m) ==> m' == m
    ensures ScanAllowed(m) ==> m'.permissionPrompts == m.permissionPrompts + 1
    ensures m'.(permissionPrompts := m.permissionPrompts) == m
  {
    if ScanAllowed(m) then m.(permissionPrompts := m.permissionPrompts + 1) else m
  }

  /** The rest of startScan once the dialog answers. A refusal ends it;
      otherwise a new session starts with an empty list, an empty seen-id
      set and a 2000 ms stop timer. The guard is not checked again, so the
      session starts even if the adapter went off or a scan started while
      the dialog was open. */
  function PermissionsAnswered(m: BleState, platform: Platform, answers: seq<PermissionResult>): (m': BleState)
    requires m.permissionPrompts > 0
    ensures m'.permissionPrompts == m.permissionPrompts - 1
    ensures !PermissionsGranted(platform, answers) ==> m' == m.(permissionPrompts := m.permissionPrompts - 1)
    ensures PermissionsGranted(platform, answers) ==>
      m'.scanning && m'.devices == [] && m'.scannedDeviceIds == {} &&
      m'.scanCallbackInstalled && m'.scanTimers == m.scanTimers + 1
    ensures m'.(devices := m.devices, scanning := m.scanning, scannedDeviceIds := m.scannedDeviceIds,
      scanCallbackInstalled := m.scanCallbackInstalled, scanTimers := m.scanTimers,
      permissionPrompts := m.permissionPrompts) == m
  {
    var m1 := m.(permissionPrompts := m.permissionPrompts - 1);
    if !PermissionsGranted(platform, answers) then m1
    else m1.(devices := [], scanning := true, scannedDeviceIds := {},
      scanCallbackInstalled := true, scanTimers := m.scanTimers + 1)
  }

  /** The scan callback with a device: appended only if its id was not seen
      in this session; nothing is ever removed. */
  function DeviceSeen(m: BleState, d: Device): (m': BleState)
    requires m.scanCallbackInstalled
    ensures m'.scanCallbackInstalled
    ensures m.devices <= m'.devices
    ensures d.id in m'.scannedDeviceIds
    ensures d.id in m.scannedDeviceIds ==> m' == m
    ensures d.id !in m.scannedDeviceIds ==>
      m'.devices == m.devices + [d] && m'.scannedDeviceIds == m.scannedDeviceIds + {d.id}
    ensures m'.(devices := m.devices, scannedDeviceIds := m.scannedDeviceIds) == m
  {
    if d.id in m.scannedDeviceIds then m
    else m.(devices := m.devices + [d], scannedDeviceIds := m.scannedDeviceIds + {d.id})
  }

  /** The scan callback with an error: the flag drops and a notice is
      raised; the devices already found stay listed. */
  function ScanErrored(m: BleState, message: string): (m': BleState)
    requires m.scanCallbackInstalled
    ensures !m'.scanning && m'.devices == m.devices
    ensures m'.effects == m.effects + [Alert("Scan Error", "Failed to scan: " + message)]
    ensures m'.(scanning := m.scanning, effects := m.effects) == m
  {
    m.(scanning := false, effects := m.effects + [Alert("Scan Error", "Failed to scan: " + message)])
  }

  /** A 2000 ms timer fires: the radio scan stops and the flag drops. */
  function ScanTimerFired(m: BleState): (m': BleState)
    requires m.scanTimers > 0
    ensures !m'.scanning && !m'.scanCallbackInstalled && m'.devices == m.devices
    ensures m'.scanTimers == m.scanTimers - 1 && m'.effects == m.effects + [StopRadioScan]
    ensures m'.(scanning := m.scanning, scanCallbackInstalled := m.scanCallbackInstalled,
      scanTimers := m.scanTimers, effects := m.effects) == m
  {
    m.(scanning := false, scanCallbackInstalled := false, scanTimers := m.scanTimers - 1,
      effects := m.effects + [StopRadioScan])
  }

  /** connectToDevice up to its first await. There is no guard against a
      connect already in flight. */
  function ConnectBegun(m: BleState, deviceId: string): (m': BleState)
    ensures m'.isConnecting && m'.pendingConnects == m.pendingConnects + [deviceId]
    ensures m'.(isConnecting := m.isConnecting, pendingConnects := m.pendingConnects) == m
  {
    m.(isConnecting := true, pendingConnects := m.pendingConnects + [deviceId])
  }

  /** The awaited rest of the k-th pending connectToDevice call. On
      success the device becomes the connection, its id is persisted and a
      disconnect listener is registered. A failure of the race, of service
      discovery or of the MTU request (the timeout included) leaves the
      connection unchanged; a failed write of "deviceId" (StoreFailed)
      comes after the device was set, so the device stays connected, but
      without a listener. On every failure the stored id is unchanged, the
      splash is hidden and "Connection Error" is raised with the error's
      message. On every path isConnecting ends false and the list ends
      empty. The call leaves the pending set, so when the timer won, the
      radio's later answer has nothing to settle. */
  function ConnectSettled(m: BleState, k: nat, o: ConnectOutcome): (m': BleState)
    requires k < |m.pendingConnects|
    ensures m'.devices == [] && !m'.isConnecting
    ensures m'.pendingConnects == RemoveAt(m.pendingConnects, k)
    ensures o.Established? ==>
      && m'.connectedDevice == Some(Device(m.pendingConnects[k], o.name))
      && m'.storedDeviceId == Some(m.pendingConnects[k])
      && m'.disconnectListeners == m.disconnectListeners + [m.pendingConnects[k]]
      && m'.effects == m.effects
    ensures o.StoreFailed? ==> m'.connectedDevice == Some(Device(m.pendingConnects[k], o.name))
    ensures !SetsDevice(o) ==> m'.connectedDevice == m.connectedDevice
    ensures !o.Established? ==>
      && m'.storedDeviceId == m.storedDeviceId
      && m'.disconnectListeners == m.disconnectListeners
      && m'.effects == m.effects + [HideSplash, ConnectionErrorAlert(ConnectErrorReason(o))]
    ensures o.RaceTimedOut? ==>
      m'.effects == m.effects + [HideSplash, Alert("Connection Error", "Failed to connect: Connection timeout")]
    ensures o.ConnectRejected? || o.DiscoveryFailed? || o.MtuFailed? || o.StoreFailed? ==>
      m'.effects == m.effects + [HideSplash, Alert("Connection Error", "Failed to connect: " + o.reason)]
    ensures m'.(devices := m.devices, isConnecting := m.isConnecting, pendingConnects := m.pendingConnects,
      connectedDevice := m.connectedDevice, storedDeviceId := m.storedDeviceId,
      disconnectListeners := m.disconnectListeners, effects := m.effects) == m
  {
    var id := m.pendingConnects[k];
    assert "Failed to connect: " + "Connection timeout" == "Failed to connect: Connection timeout";
    m.(devices := [],
       isConnecting := false,
       pendingConnects := RemoveAt(m.pendingConnects, k),
       connectedDevice := if SetsDevice(o) then Some(Device(id, o.name)) else m.connectedDevice,
       storedDeviceId := if o.Established? then Some(id) else m.storedDeviceId,
       disconnectListeners := m.disconnectListeners + if o.Established? then [id] else [],
       effects := m.effects + if o.Established? then [] else [HideSplash, ConnectionErrorAlert(ConnectErrorReason(o))])
  }

  /** The notice of a peer-initiated disconnect. */
  function PeerDroppedAlert(d: Device): Effect
  {
    Alert("Device Disconnected", "The device " + NameText(d.name) + " has been disconnected.")
  }

  /** The k-th onDeviceDisconnected listener fires. With an error it
      returns at once, keeping even its registration; otherwise, if the
      radio names the device, the connection and the scan flag drop, the
      app goes home and a notice names the device; the listener then
      removes itself. The persisted id is never touched. */
  function PeerDisconnect(m: BleState, k: nat, error: Option<string>, reported: Option<Device>): (m': BleState)
    requires k < |m.disconnectListeners|
    ensures m'.storedDeviceId == m.storedDeviceId
    ensures error.Some? ==> m' == m
    ensures error.None? ==> m'.disconnectListeners == RemoveAt(m.disconnectListeners, k)
    ensures error.None? && reported.Some? ==>
      && m'.connectedDevice == None && !m'.scanning
      && m'.effects == m.effects + [NavigateHome, PeerDroppedAlert(reported.value)]
    ensures error.None? && reported.None? ==>
      m' == m.(disconnectListeners := RemoveAt(m.disconnectListeners, k))
    ensures m'.(connectedDevice := m.connectedDevice, scanning := m.scanning,
      disconnectListeners := m.disconnectListeners, effects := m.effects) == m
  {
    if error.Some? then m
    else
      var m1 := if reported.Some? then
        m.(connectedDevice := None, scanning := false,
           effects := m.effects + [NavigateHome, PeerDroppedAlert(reported.value)])
      else m;
      m1.(disconnectListeners := RemoveAt(m.disconnectListeners, k))
  }

  /** disconnectDevice. Without a connection it only alerts. A confirmed
      cancel drops the connection, removes "deviceId" and goes home; a
      failed cancel keeps the connection; a failed removal of the key
      comes after the connection was dropped. The list is emptied on
      every path. */
  function Disconnected(m: BleState, o: DisconnectOutcome): (m': BleState)
    ensures m'.devices == []
    ensures m.connectedDevice.None? ==>
      m'.connectedDevice == None && m'.storedDeviceId == m.storedDeviceId &&
      m'.effects == m.effects + [NoDeviceAlert]
    ensures m.connectedDevice.Some? && o.Cancelled? ==>
      m'.connectedDevice == None && m'.storedDeviceId == None && m'.effects == m.effects + [NavigateHome]
    ensures m.connectedDevice.Some? && o.CancelFailed? ==>
      m'.connectedDevice == m.connectedDevice && m'.storedDeviceId == m.storedDeviceId &&
      m'.effects == m.effects + [DisconnectionErrorAlert(o.reason)]
    ensures m.connectedDevice.Some? && o.RemoveFailed? ==>
      m'.connectedDevice == None && m'.storedDeviceId == m.storedDeviceId &&
      m'.effects == m.effects + [DisconnectionErrorAlert(o.reason)]
    ensures m'.(devices := m.devices, connectedDevice := m.connectedDevice,
      storedDeviceId := m.storedDeviceId, effects := m.effects) == m
  {
    var m1 :=
      if m.connectedDevice.None? then m.(effects := m.effects + [NoDeviceAlert])
      else match o
        case Cancelled =>
          m.(connectedDevice := None, storedDeviceId := None, effects := m.effects + [NavigateHome])
        case CancelFailed(reason) =>
          m.(effects := m.effects + [DisconnectionErrorAlert(reason)])
        case RemoveFailed(reason) =>
          m.(connectedDevice := None, effects := m.effects + [DisconnectionErrorAlert(reason)]);
    m1.(devices := [])
  }

  /** The guards of subscribeToCharacteristic. */
  predicate SubscribeAccepted(m: BleState, service: string, characteristic: string)
  {
    m.connectedDevice.Some? && service != "" && characteristic != ""
  }

  /** subscribeToCharacteristic: the new state and the handle returned.
      Without a connection or with an empty uuid it alerts and returns
      null, registering nothing; an exception from the radio's monitor
      call is alerted and also gives null. */
  function Subscribed(m: BleState, service: string, characteristic: string, monitorError: Option<string>)
    : (r: (BleState, Option<nat>))
    ensures r.1.Some? <==> SubscribeAccepted(m, service, characteristic) && monitorError.None?
    ensures r.1.Some? ==>
      r.1.value == |m.monitors| && r.0 == m.(monitors := m.monitors + [Monitor(service, characteristic, true)])
    ensures !SubscribeAccepted(m, service, characteristic) ==> r.0 == m.(effects := m.effects + [InvalidUuidAlert])
    ensures SubscribeAccepted(m, service, characteristic) && monitorError.Some? ==>
      r.0 == m.(effects := m.effects + [Alert("Unexpected Error", "An unexpected error occurred: " + monitorError.value)])
  {
    if !SubscribeAccepted(m, service, characteristic) then
      (m.(effects := m.effects + [InvalidUuidAlert]), None)
    else if monitorError.Some? then
      (m.(effects := m.effects + [Alert("Unexpected Error", "An unexpected error occurred: " + monitorError.value)]), None)
    else
      (m.(monitors := m.monitors + [Monitor(service, characteristic, true)]), Some(|m.monitors|))
  }

  /** subscription.remove() on handle h: the monitor stops; removing it
      again changes nothing. */
  function MonitorRemoved(m: BleState, h: nat): (m': BleState)
    requires h < |m.monitors|
    ensures |m'.monitors| == |m.monitors| && !m'.monitors[h].active
    ensures m'.monitors[h].service == m.monitors[h].service
    ensures m'.monitors[h].characteristic == m.monitors[h].characteristic
    ensures forall i :: 0 <= i < |m.monitors| && i != h ==> m'.monitors[i] == m.monitors[i]
    ensures m'.(monitors := m.monitors) == m
    ensures !m.monitors[h].active ==> m' == m
  {
    m.(monitors := m.monitors[h := m.monitors[h].(active := false)])
  }

  /** Whether handleAppStateChange removes "deviceId". A negative answer
      removes it in the try; when that removal rejects, the catch tries once
      more. A failed query removes it only in the catch, once. A rejection
      of the last attempt escapes and the key stays. `firstRemoved` and
      `retryRemoved` say whether the first and the second removeItem call
      succeed. */
  predicate KeyRemovedOnResume(answer: LiveAnswer, firstRemoved: bool, retryRemoved: bool)
  {
    match answer
    case Live => false
    case NotLive => firstRemoved || retryRemoved
    case QueryFailed => firstRemoved
  }

  /** On return to the foreground with a connection, a negative or failed
      liveness query silently drops the connection and, when a removal
      succeeds, "deviceId". */
  function Resumed(m: BleState, next: AppStatus, answer: LiveAnswer, firstRemoved: bool, retryRemoved: bool)
    : (m': BleState)
    ensures m'.effects == m.effects
    ensures next == Active && m.connectedDevice.Some? && answer != Live ==>
      && m'.connectedDevice == None
      && m'.storedDeviceId == (if KeyRemovedOnResume(answer, firstRemoved, retryRemoved) then None else m.storedDeviceId)
    ensures next == Active && m.connectedDevice.Some? && answer == QueryFailed && !firstRemoved ==>
      m'.storedDeviceId == m.storedDeviceId
    ensures next == Active && m.connectedDevice.Some? && answer == NotLive && (firstRemoved || retryRemoved) ==>
      m'.storedDeviceId == None
    ensures !(next == Active && m.connectedDevice.Some? && answer != Live) ==> m' == m
    ensures m'.(connectedDevice := m.connectedDevice, storedDeviceId := m.storedDeviceId) == m
  {
    if next == Active && m.connectedDevice.Some? && answer != Live then
      m.(connectedDevice := None,
         storedDeviceId := if KeyRemovedOnResume(answer, firstRemoved, retryRemoved) then None else m.storedDeviceId)
    else m
  }

  /** When every removal of "deviceId" rejects, the connection is dropped
      but the key stays, so the next launch reconnects to the device the
      resume check judged lost. */
  lemma ResumeKeepsKeyWhenRemovalFails(m: BleState, answer: LiveAnswer, name: Option<string>)
    requires m.connectedDevice.Some? && answer != Live
    requires m.storedDeviceId.Some? && m.storedDeviceId.value != ""
    ensures var m1 := Resumed(m, Active, answer, false, false);
      && m1.connectedDevice == None
      && m1.storedDeviceId == m.storedDeviceId
      && Reconnected(Launch(m1.storedDeviceId), PoweredOn, Established(name)).connectedDevice
           == Some(Device(m.storedDeviceId.value, name))
  {
  }

  /** The condition under which the launch-time reconnect connects: a
      stored, non-empty id and the radio reporting PoweredOn. */
  predicate ReconnectWanted(m: BleState, radioState: AdapterState)
  {
    m.storedDeviceId.Some? && m.storedDeviceId.value != "" && radioState == PoweredOn
  }

  /** reconnectPreviousDevice: connects through the same path as a manual
      connect when wanted; the splash is hidden on every path, last. */
  function Reconnected(m: BleState, radioState: AdapterState, o: ConnectOutcome): (m': BleState)
    ensures !ReconnectWanted(m, radioState) ==> m' == m.(effects := m.effects + [HideSplash])
    ensures ReconnectWanted(m, radioState) ==>
      && m'.devices == [] && !m'.isConnecting
      && m'.pendingConnects == m.pendingConnects
      && m'.storedDeviceId == m.storedDeviceId
      && m'.connectedDevice ==
           (if SetsDevice(o) then Some(Device(m.storedDeviceId.value, o.name)) else m.connectedDevice)
      && m'.effects == m.effects +
           (if o.Established? then [] else [HideSplash, ConnectionErrorAlert(ConnectErrorReason(o))])
           + [HideSplash]
    ensures |m'.effects| > |m.effects| && m'.effects[|m'.effects| - 1] == HideSplash
  {
    if ReconnectWanted(m, radioState) then
      var id := m.storedDeviceId.value;
      var m1 := ConnectBegun(m, id);
      var m2 := ConnectSettled(m1, |m.pendingConnects|, o);
      assert RemoveAt(m.pendingConnects + [id], |m.pendingConnects|) == m.pendingConnects;
      m2.(effects := m2.effects + [HideSplash])
    else
      m.(effects := m.effects + [HideSplash])
  }

  /** Reconnected is the connect step (when wanted) followed by HideSplash. */
  lemma ReconnectedSteps(m: BleState, radioState: AdapterState, o: ConnectOutcome, m2: BleState)
    requires ReconnectWanted(m, radioState) ==>
      m2 == ConnectSettled(ConnectBegun(m, m.storedDeviceId.value), |m.pendingConnects|, o)
    requires !ReconnectWanted(m, radioState) ==> m2 == m
    ensures Reconnected(m, radioState, o) == m2.(effects := m2.effects + [HideSplash])
  {
  }

  // ---------------------------------------------------------------------
  // Properties over sequences of events

  /** The scan callbacks of one session, applied in order. */
  function DiscoverAll(m: BleState, log: seq<Device>): (m': BleState)
    requires m.scanCallbackInstalled
    ensures m'.scanCallbackInstalled
  {
    if log == [] then m else DeviceSeen(DiscoverAll(m, log[..|log| - 1]), log[|log| - 1])
  }

  /** Within a freshly started session the set-based de-duplication of
      the scan callback yields exactly the first sightings, in order. */
  lemma {:induction false} DiscoverAllIsDedup(m: BleState, log: seq<Device>)
    requires m.scanCallbackInstalled && m.devices == [] && m.scannedDeviceIds == {}
    ensures DiscoverAll(m, log).devices == Dedup(log)
    ensures DiscoverAll(m, log).scannedDeviceIds == IdsOf(log)
  {
    if log != [] {
      var pre, d := log[..|log| - 1], log[|log| - 1];
      assert log == pre + [d];
      DiscoverAllIsDedup(m, pre);
      DedupSnoc(pre, d);
      IdsOfSnoc(pre, d);
    } else {
      assert IdsOf(log) == {};
    }
  }

  /** A granted scan followed by any callbacks lists each id at most once. */
  lemma ScanListsUniqueIds(m: BleState, platform: Platform, answers: seq<PermissionResult>, log: seq<Device>)
    requires m.permissionPrompts > 0 && PermissionsGranted(platform, answers)
    ensures PermissionsAnswered(m, platform, answers).scanCallbackInstalled
    ensures DiscoverAll(PermissionsAnswered(m, platform, answers), log).devices == Dedup(log)
    ensures UniqueIds(DiscoverAll(PermissionsAnswered(m, platform, answers), log).devices)
  {
    DiscoverAllIsDedup(PermissionsAnswered(m, platform, answers), log);
    DedupIds(log);
  }

  /** The guard is checked only before the dialog: an adapter that turns
      off while the dialog is open does not stop the scan from starting. */
  lemma ScanStartsAfterPowerOff(m: BleState, platform: Platform, answers: seq<PermissionResult>)
    requires ScanAllowed(m) && PermissionsGranted(platform, answers)
    ensures var m1 := StateReported(ScanRequested(m), PoweredOff);
      m1.permissionPrompts > 0 &&
      var m2 := PermissionsAnswered(m1, platform, answers);
      m2.scanning && m2.bleState == Some(PoweredOff) && !ScanAllowed(m1)
  {
  }

  /** A link dropped by the peer keeps its persisted id, so the next
      launch connects to the same device again. */
  lemma PeerDropThenRelaunchReconnects(m: BleState, id: string, name: Option<string>, dev: Device, name': Option<string>)
    requires id != ""
    ensures var m1 := ConnectSettled(ConnectBegun(m, id), |m.pendingConnects|, Established(name));
      var m2 := PeerDisconnect(m1, |m1.disconnectListeners| - 1, None, Some(dev));
      && m2.connectedDevice == None
      && m2.storedDeviceId == Some(id)
      && Reconnected(Launch(m2.storedDeviceId), PoweredOn, Established(name')).connectedDevice == Some(Device(id, name'))
  {
    var m1 := ConnectSettled(ConnectBegun(m, id), |m.pendingConnects|, Established(name));
    assert (m.pendingConnects + [id])[|m.pendingConnects|] == id;
  }

  // ---------------------------------------------------------------------
  // The provider object: the React state variables, updated by setters

  class BleProvider {
    var devices: seq<Device>
    var scanning: bool
    var connectedDevice: Option<Device>
    var isConnecting: bool
    var bleState: Option<AdapterState>
    var storedDeviceId: Option<string>
    var scannedDeviceIds: set<string>
    var scanCallbackInstalled: bool
    var scanTimers: nat
    var permissionPrompts: nat
    var pendingConnects: seq<string>
    var disconnectListeners: seq<string>
    var monitors: seq<Monitor>
    var effects: seq<Effect>

    // Every callback of the current scan session, and how many first
    // sightings had been dropped from `devices` when it was last cleared.
    ghost var scanLog: seq<Device>
    ghost var clearedCount: nat

    ghost predicate Valid()
      reads this
    {
      && scannedDeviceIds == IdsOf(scanLog)
      && clearedCount <= |Dedup(scanLog)|
      && devices == Dedup(scanLog)[clearedCount..]
      && (pendingConnects == [] ==> !isConnecting)
    }

    function Model(): BleState
      reads this
    {
      BleState(devices, scanning, connectedDevice, isConnecting, bleState, storedDeviceId,
        scannedDeviceIds, scanCallbackInstalled, scanTimers, permissionPrompts, pendingConnects,
        disconnectListeners, monitors, effects)
    }

    constructor (stored: Option<string>)
      ensures Valid() && Model() == Launch(stored)
    {
      devices, scanning, connectedDevice, isConnecting, bleState := [], false, None, false, None;
      storedDeviceId, scannedDeviceIds, scanCallbackInstalled, scanTimers := stored, {}, false, 0;
      permissionPrompts := 0;
      pendingConnects, disconnectListeners, monitors, effects := [], [], [], [];
      scanLog, clearedCount := [], 0;
    }

    // The setters: each replaces one state variable (a React useState
    // setter, the "deviceId" storage key, or a registration held by the
    // radio stack) and leaves everything else alone.

    method SetDevices(v: seq<Device>)
      modifies this`devices
      ensures Model() == old(Model()).(devices := v)
    {
      devices := v;
    }

    /** setDevices([]) without a new session: the session's seen ids stay,
        so a cleared device is not listed again by the same scan. */
    method ClearDevices()
      requires Valid()
      modifies this`devices, this`clearedCount
      ensures Valid() && Model() == old(Model()).(devices := [])
    {
      devices := [];
      clearedCount := |Dedup(scanLog)|;
    }

    method SetScanning(v: bool)
      modifies this`scanning
      ensures Model() == old(Model()).(scanning := v)
    {
      scanning := v;
    }

    method SetConnectedDevice(v: Option<Device>)
      modifies this`connectedDevice
      ensures Model() == old(Model()).(connectedDevice := v)
    {
      connectedDevice := v;
    }

    method SetIsConnecting(v: bool)
      modifies this`isConnecting
      ensures Model() == old(Model()).(isConnecting := v)
    {
      isConnecting := v;
    }

    method SetBleState(v: Option<AdapterState>)
      modifies this`bleState
      ensures Model() == old(Model()).(bleState := v)
    {
      bleState := v;
    }

    /** AsyncStorage.setItem / removeItem of "deviceId". */
    method StoreDeviceId(v: Option<string>)
      modifies this`storedDeviceId
      ensures Model() == old(Model()).(storedDeviceId := v)
    {
      storedDeviceId := v;
    }

    method SetScannedIds(v: set<string>)
      modifies this`scannedDeviceIds
      ensures Model() == old(Model()).(scannedDeviceIds := v)
    {
      scannedDeviceIds := v;
    }

    method SetScanCallback(v: bool)
      modifies this`scanCallbackInstalled
      ensures Model() == old(Model()).(scanCallbackInstalled := v)
    {
      scanCallbackInstalled := v;
    }

    method SetScanTimers(v: nat)
      modifies this`scanTimers
      ensures Model() == old(Model()).(scanTimers := v)
    {
      scanTimers := v;
    }

    method SetPermissionPrompts(v: nat)
      modifies this`permissionPrompts
      ensures Model() == old(Model()).(permissionPrompts := v)
    {
      permissionPrompts := v;
    }

    method SetPendingConnects(v: seq<string>)
      modifies this`pendingConnects
      ensures Model() == old(Model()).(pendingConnects := v)
    {
      pendingConnects := v;
    }

    method SetDisconnectListeners(v: seq<string>)
      modifies this`disconnectListeners
      ensures Model() == old(Model()).(disconnectListeners := v)
    {
      disconnectListeners := v;
    }

    method SetMonitors(v: seq<Monitor>)
      modifies this`monitors
      ensures Model() == old(Model()).(monitors := v)
    {
      monitors := v;
    }

    method Emit(e: seq<Effect>)
      modifies this`effects
      ensures Model() == old(Model()).(effects := old(effects) + e)
    {
      effects := effects + e;
    }

    // The events

    method AdapterStateChanged(s: AdapterState)
      requires Valid()
      modifies this
      ensures Valid() && Model() == StateReported(old(Model()), s)
    {
      SetBleState(Some(s));
      if s == PoweredOff {
        Emit([BluetoothOffAlert]);
      } else {
        Emit([]);
      }
    }

    /** startScan is called: the guard, then the permission dialog opens. */
    method StartScan() returns (prompted: bool)
      requires Valid()
      modifies this
      ensures Valid() && Model() == ScanRequested(old(Model()))
      ensures prompted == ScanAllowed(old(Model()))
    {
      if scanning || bleState != Some(PoweredOn) {
        return false;
      }
      SetPermissionPrompts(permissionPrompts + 1);
      prompted := true;
    }

    /** A pending permission dialog answers; a grant starts a new session. */
    method PermissionsReturned(platform: Platform, answers: seq<PermissionResult>) returns (started: bool)
      requires Valid() && permissionPrompts > 0
      modifies this
      ensures Valid() && Model() == PermissionsAnswered(old(Model()), platform, answers)
      ensures started == PermissionsGranted(platform, answers)
    {
      SetPermissionPrompts(permissionPrompts - 1);
      var granted := PermissionsGranted(platform, answers);
      if !granted {
        return false;
      }
      SetDevices([]);
      SetScanning(true);
      SetScannedIds({});
      SetScanCallback(true);
      SetScanTimers(scanTimers + 1);
      scanLog, clearedCount := [], 0;
      started := true;
    }

    method DeviceDiscovered(d: Device)
      requires Valid() && scanCallbackInstalled
      modifies this
      ensures Valid() && Model() == DeviceSeen(old(Model()), d)
    {
      DedupSnoc(scanLog, d);
      IdsOfSnoc(scanLog, d);
      if d.id !in scannedDeviceIds {
        SetScannedIds(scannedDeviceIds + {d.id});
        SetDevices(devices + [d]);
        assert (Dedup(scanLog) + [d])[clearedCount..] == Dedup(scanLog)[clearedCount..] + [d];
      }
      scanLog := scanLog + [d];
    }

    method ScanFailed(message: string)
      requires Valid() && scanCallbackInstalled
      modifies this
      ensures Valid() && Model() == ScanErrored(old(Model()), message)
    {
      SetScanning(false);
      Emit([Alert("Scan Error", "Failed to scan: " + message)]);
    }

    method ScanTimeout()
      requires Valid() && scanTimers > 0
      modifies this
      ensures Valid() && Model() == ScanTimerFired(old(Model()))
    {
      Emit([StopRadioScan]);
      SetScanCallback(false);
      SetScanning(false);
      SetScanTimers(scanTimers - 1);
    }

    method BeginConnect(deviceId: string)
      requires Valid()
      modifies this
      ensures Valid() && Model() == ConnectBegun(old(Model()), deviceId)
    {
      SetIsConnecting(true);
      SetPendingConnects(pendingConnects + [deviceId]);
    }

    method SettleConnect(k: nat, outcome: ConnectOutcome)
      requires Valid() && k < |pendingConnects|
      modifies this
      ensures Valid() && Model() == ConnectSettled(old(Model()), k, outcome)
    {
      var id := pendingConnects[k];
      SetPendingConnects(RemoveAt(pendingConnects, k));
      if SetsDevice(outcome) {
        SetConnectedDevice(Some(Device(id, outcome.name)));
      }
      if outcome.Established? {
        StoreDeviceId(Some(id));
        SetDisconnectListeners(disconnectListeners + [id]);
      } else {
        Emit([HideSplash, ConnectionErrorAlert(ConnectErrorReason(outcome))]);
      }
      SetIsConnecting(false);
      ClearDevices();
    }

    method PeerDisconnected(k: nat, error: Option<string>, reported: Option<Device>)
      requires Valid() && k < |disconnectListeners|
      modifies this
      ensures Valid() && Model() == PeerDisconnect(old(Model()), k, error, reported)
    {
      if error.Some? {
        return;
      }
      if reported.Some? {
        SetConnectedDevice(None);
        SetScanning(false);
        Emit([NavigateHome, PeerDroppedAlert(reported.value)]);
      }
      SetDisconnectListeners(RemoveAt(disconnectListeners, k));
    }

    method DisconnectDevice(outcome: DisconnectOutcome)
      requires Valid()
      modifies this
      ensures Valid() && Model() == Disconnected(old(Model()), outcome)
    {
      if connectedDevice.Some? {
        match outcome {
          case Cancelled =>
            SetConnectedDevice(None);
            StoreDeviceId(None);
            Emit([NavigateHome]);
          case CancelFailed(reason) =>
            Emit([DisconnectionErrorAlert(reason)]);
          case RemoveFailed(reason) =>
            SetConnectedDevice(None);
            Emit([DisconnectionErrorAlert(reason)]);
        }
      } else {
        Emit([NoDeviceAlert]);
      }
      ClearDevices();
    }

    method Subscribe(service: string, characteristic: string, monitorError: Option<string>)
      returns (handle: Option<nat>)
      requires Valid()
      modifies this
      ensures Valid()
      ensures (Model(), handle) == Subscribed(old(Model()), service, characteristic, monitorError)
    {
      if connectedDevice.None? || service == "" || characteristic == "" {
        Emit([InvalidUuidAlert]);
        return None;
      }
      if monitorError.Some? {
        Emit([Alert("Unexpected Error", "An unexpected error occurred: " + monitorError.value)]);
        return None;
      }
      handle := Some(|monitors|);
      SetMonitors(monitors + [Monitor(service, characteristic, true)]);
    }

    /** A notification arrives at monitor h: what reaches the subscriber's
        onDataReceived. Errors are only logged and leave the monitor in place. */
    method Notify(h: nat, n: Notification, decode: string -> string) returns (d: Option<Delivery>)
      requires h < |monitors|
      ensures d.Some? <==> monitors[h].active && n.error.None? && n.value.Some? && n.value.value != ""
      ensures d.Some? ==> d.value.text == decode(n.value.value) && d.value.uuid == n.uuid
    {
      d := None;
      if monitors[h].active {
        d := Deliver(n, decode);
      }
    }

    method RemoveSubscription(h: nat)
      requires Valid() && h < |monitors|
      modifies this
      ensures Valid() && Model() == MonitorRemoved(old(Model()), h)
    {
      SetMonitors(monitors[h := monitors[h].(active := false)]);
    }

    method ReconnectPreviousDevice(radioState: AdapterState, outcome: ConnectOutcome)
      returns (attempted: bool)
      requires Valid()
      modifies this
      ensures Valid() && Model() == Reconnected(old(Model()), radioState, outcome)
      ensures attempted == ReconnectWanted(old(Model()), radioState)
    {
      attempted := storedDeviceId.Some? && storedDeviceId.value != "" && radioState == PoweredOn;
      if attempted {
        ConnectStored(outcome);
      }
      ghost var m2 := Model();
      Emit([HideSplash]);
      ReconnectedSteps(old(Model()), radioState, outcome, m2);
    }

    /** connectToDevice on the persisted id, awaited to its outcome. */
    method ConnectStored(outcome: ConnectOutcome)
      requires Valid() && storedDeviceId.Some?
      modifies this
      ensures Valid()
      ensures Model() == ConnectSettled(ConnectBegun(old(Model()), old(storedDeviceId).value),
                                        |old(pendingConnects)|, outcome)
    {
      BeginConnect(storedDeviceId.value);
      SettleConnect(|pendingConnects| - 1, outcome);
    }

    /** handleAppStateChange with the liveness answer and the results of
        the removeItem calls it makes. */
    method AppStateChanged(next: AppStatus, answer: LiveAnswer, firstRemoved: bool, retryRemoved: bool)
      requires Valid()
      modifies this
      ensures Valid() && Model() == Resumed(old(Model()), next, answer, firstRemoved, retryRemoved)
    {
      if next == Active && connectedDevice.Some? {
        if answer != Live {
          SetConnectedDevice(None);
          if KeyRemovedOnResume(answer, firstRemoved, retryRemoved) {
            StoreDeviceId(None);
          }
        }
      }
    }
  }

  /** The discovered-device list never holds an id twice, and every id in
      it has been seen in the current scan session. */
  lemma DevicesAreUnique(p: BleProvider)
    requires p.Valid()
    ensures UniqueIds(p.devices)
    ensures forall i :: 0 <= i < |p.devices| ==> p.devices[i].id in p.scannedDeviceIds
  {
    DedupIds(p.scanLog);
    var all := Dedup(p.scanLog);
    assert forall i :: 0 <= i < |p.devices| ==> p.devices[i] == all[p.clearedCount + i];
  }

  /** The listed devices are, in order, first sightings of the current
      session: their first-sighting positions strictly increase. */
  lemma DevicesInFirstSeenOrder(p: BleProvider)
    requires p.Valid()
    ensures forall i :: 0 <= i < |p.devices| ==>
      p.devices[i].id in IdsOf(p.scanLog) &&
      p.devices[i] == p.scanLog[FirstIndex(p.scanLog, p.devices[i].id)]
    ensures forall i, j :: 0 <= i < j < |p.devices| ==>
      p.devices[i].id in IdsOf(p.scanLog) && p.devices[j].id in IdsOf(p.scanLog) &&
      FirstIndex(p.scanLog, p.devices[i].id) < FirstIndex(p.scanLog, p.devices[j].id)
  {
    DedupFirstSeen(p.scanLog);
    var all := Dedup(p.scanLog);
    assert forall i :: 0 <= i < |p.devices| ==> p.devices[i] == all[p.clearedCount + i];
  }
}
