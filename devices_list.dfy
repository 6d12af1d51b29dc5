// The device picker: which discovered devices are offered, what the list
// shows while scanning, and the press handler that starts a connection.
module DeviceList {
  import opened Common
  import Ble

  /** Only devices advertising a name with this prefix are offered. */
  const Prefix: string := "LegPrio"

  /** The filter of renderDevices: a non-empty name starting with Prefix. */
  predicate Offered(d: Device)
  {
    d.name.Some? && d.name.value != "" && Prefix <= d.name.value
  }

  /** The offered devices, in discovery order. */
  function NamedDevices(devices: seq<Device>): (named: seq<Device>)
    ensures |named| <= |devices|
    ensures forall i :: 0 <= i < |named| ==> Offered(named[i]) && named[i] in devices
    ensures forall i :: 0 <= i < |devices| && Offered(devices[i]) ==> devices[i] in named
  {
    if devices == [] then []
    else (if Offered(devices[0]) then [devices[0]] else []) + NamedDevices(devices[1..])
  }

  /** Filtering a concatenation filters each part: the order of discovery is
      kept among the offered devices. */
  lemma {:induction false} NamedDevicesConcat(a: seq<Device>, b: seq<Device>)
    ensures NamedDevices(a + b) == NamedDevices(a) + NamedDevices(b)
    decreases |a|
  {
    if a == [] {
      assert a + b == b;
    } else {
      assert (a + b)[1..] == a[1..] + b;
      NamedDevicesConcat(a[1..], b);
    }
  }

  /** Filtering keeps ids unique. */
  lemma {:induction false} NamedDevicesUnique(devices: seq<Device>)
    requires UniqueIds(devices)
    ensures UniqueIds(NamedDevices(devices))
    decreases |devices|
  {
    if devices != [] {
      var rest := devices[1..];
      assert UniqueIds(rest) by {
        forall i, j | 0 <= i < j < |rest|
          ensures rest[i].id != rest[j].id
        {
          assert rest[i] == devices[i + 1] && rest[j] == devices[j + 1];
        }
      }
      NamedDevicesUnique(rest);
      var named := NamedDevices(rest);
      forall k | 0 <= k < |named|
        ensures named[k].id != devices[0].id
      {
        var j :| 0 <= j < |rest| && rest[j] == named[k];
        assert devices[j + 1] == named[k];
      }
    }
  }

  /** One row of the list. */
  datatype Row = Row(device: Device, lastRow: bool, spinner: bool, disabled: bool)

  /** What renderDevices shows. */
  datatype ListView = Spinner | NoDevicesFound | Rows(rows: seq<Row>)

  function RenderDevices(devices: seq<Device>, scanning: bool, connecting: Option<string>,
                         isDisabled: bool): (v: ListView)
    ensures v == Spinner <==> scanning && NamedDevices(devices) == []
    ensures v == NoDevicesFound <==> !scanning && NamedDevices(devices) == []
    ensures v.Rows? ==> |v.rows| == |NamedDevices(devices)| > 0
    ensures v.Rows? ==> forall i :: 0 <= i < |v.rows| ==>
      && v.rows[i].device == NamedDevices(devices)[i]
      && (v.rows[i].lastRow <==> i == |v.rows| - 1)
      && (v.rows[i].spinner <==> connecting == Some(v.rows[i].device.id))
      && v.rows[i].disabled == isDisabled
  {
    var named := NamedDevices(devices);
    if scanning && |named| == 0 then Spinner
    else if |named| == 0 then NoDevicesFound
    else Rows(seq(|named|, i requires 0 <= i < |named| =>
      Row(named[i], i == |named| - 1, connecting == Some(named[i].id), isDisabled)))
  }

  /** Over a list of unique ids (the scan list is one), at most one row
      shows the connecting spinner. */
  lemma AtMostOneSpinner(devices: seq<Device>, scanning: bool, connecting: Option<string>,
                         isDisabled: bool, i: nat, j: nat)
    requires UniqueIds(devices)
    requires RenderDevices(devices, scanning, connecting, isDisabled).Rows?
    requires i < j < |RenderDevices(devices, scanning, connecting, isDisabled).rows|
    ensures !(RenderDevices(devices, scanning, connecting, isDisabled).rows[i].spinner &&
              RenderDevices(devices, scanning, connecting, isDisabled).rows[j].spinner)
  {
    NamedDevicesUnique(devices);
  }

  class DevicesList {
    /** The BLE provider the list connects through. */
    const ble: Ble.BleProvider
    var isDisabled: bool
    var connecting: Option<string>

    constructor (ble: Ble.BleProvider)
      ensures this.ble == ble && !isDisabled && connecting.None?
    {
      this.ble := ble;
      isDisabled, connecting := false, None;
    }

    /** A row is pressed. A disabled row does not react; otherwise the row
        shows the spinner, every row is disabled and connectToDevice starts. */
    method Press(d: Device)
      requires ble.Valid()
      modifies this, ble
      ensures ble.Valid() && isDisabled
      ensures old(isDisabled) ==> connecting == old(connecting) && ble.Model() == old(ble.Model())
      ensures !old(isDisabled) ==>
        connecting == Some(d.id) && ble.Model() == Ble.ConnectBegun(old(ble.Model()), d.id)
    {
      if !isDisabled {
        connecting := Some(d.id);
        isDisabled := true;
        ble.BeginConnect(d.id);
      }
    }

    /** The awaited connectToDevice call (the k-th pending connect) returns:
        the spinner goes away but the rows stay disabled. */
    method ConnectReturned(k: nat, outcome: Ble.ConnectOutcome)
      requires ble.Valid() && k < |ble.pendingConnects|
      modifies this, ble
      ensures ble.Valid() && ble.Model() == Ble.ConnectSettled(old(ble.Model()), k, outcome)
      ensures connecting.None? && isDisabled == old(isDisabled)
    {
      ble.SettleConnect(k, outcome);
      connecting := None;
    }
  }
}
