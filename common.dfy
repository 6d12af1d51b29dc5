// Shared vocabulary of the BLE client: optional values, discovered devices
// and the radio adapter's power state.
module Common {

  datatype Option<+T> = None | Some(value: T)

  /** A peripheral as the radio stack reports it: its identifier and, when
      it advertises one, its name. */
  datatype Device = Device(id: string, name: Option<string>)

  /** The radio adapter's power state as the BLE stack reports it. */
  datatype AdapterState =
    | Unknown | Resetting | Unsupported | Unauthorized | PoweredOff | PoweredOn

  /** What an awaited subscribeToCharacteristic call produced, as seen by a
      screen that subscribes: a monitor handle, null, or a thrown error. */
  datatype SubscribeResult = Handle(monitor: nat) | NoHandle | SubscribeThrew

  /** The set of identifiers occurring in a list of devices. */
  function IdsOf(ds: seq<Device>): (ids: set<string>)
    ensures forall i :: 0 <= i < |ds| ==> ds[i].id in ids
  {
    set i | 0 <= i < |ds| :: ds[i].id
  }

  /** No identifier occurs twice. */
  predicate UniqueIds(ds: seq<Device>)
  {
    forall i, j :: 0 <= i < j < |ds| ==> ds[i].id != ds[j].id
  }

  /** `s` without its element at index `k`; the others keep their order. */
  function RemoveAt<T>(s: seq<T>, k: nat): (r: seq<T>)
    requires k < |s|
    ensures |r| == |s| - 1
    ensures forall i :: 0 <= i < k ==> r[i] == s[i]
    ensures forall i :: k <= i < |r| ==> r[i] == s[i + 1]
  {
    s[..k] + s[k + 1..]
  }

  /** The elements of `s` in the opposite order. */
  function Reverse<T>(s: seq<T>): (r: seq<T>)
    ensures |r| == |s|
    ensures forall i :: 0 <= i < |s| ==> r[i] == s[|s| - 1 - i]
  {
    if s == [] then [] else [s[|s| - 1]] + Reverse(s[..|s| - 1])
  }
}
