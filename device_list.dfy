/** The paired-device list screen: a permission gate that depends on the
    SDK level, two parallel lists filled from the bonded devices, and a row
    click that launches the controller for the device in that row. */
module DeviceList {
  import opened JavaLang
  import Controller
  import BluetoothUuid

  /** `REQ_PERMS`, the request code of the runtime permission request. */
  const RequestCode := 1001
  /** `Build.VERSION_CODES.S`, Android 12. */
  const SdkS := 31

  /** The toasts the screen shows. */
  datatype Notice = BluetoothNotSupported | NoPairedDevices

  /** The text of each toast. */
  function NoticeText(n: Notice): string
  {
    match n
    case BluetoothNotSupported => "Bluetooth not supported"
    case NoPairedDevices => "No paired devices. Pair in system settings first."
  }

  // The extras put on the intent that starts the controller.
  const AddressExtra := "device_address"
  const NameExtra := "device_name"

  /** A bonded device as the list sees it; `getName()` may return null. */
  datatype Device = Device(name: Option<string>, address: string)

  /** The text of a device's row: `getName() + "\n" + getAddress()`. */
  function Label(d: Device): (r: string)
    ensures |r| == |StringOf(d.name)| + 1 + |d.address|
    ensures r[..|StringOf(d.name)|] == StringOf(d.name)
    ensures r[|StringOf(d.name)|] == '\n'
    ensures r[|StringOf(d.name)| + 1..] == d.address
  {
    StringOf(d.name) + "\n" + d.address
  }

  /** The devices `loadDevices` lists: none for a null or empty set,
      otherwise the set in its iteration order. */
  function Listed(bonded: Option<seq<Device>>): (r: seq<Device>)
    ensures bonded.Some? ==> r == bonded.value
    ensures bonded.None? ==> r == []
  {
    if bonded.Some? && |bonded.value| > 0 then bonded.value else []
  }

  datatype Permission = BluetoothConnect | BluetoothScan | AccessFineLocation

  /** What `ensurePermissionsThenLoad` does: load the list now, or ask for
      permissions and wait for the answer. */
  datatype Decision = LoadNow | Request(permissions: seq<Permission>, requestCode: int)

  /** The permissions the screen needs on a given SDK level. */
  function Needed(sdk: int): seq<Permission>
  {
    if sdk >= SdkS then [BluetoothConnect, BluetoothScan] else [AccessFineLocation]
  }

  /** From Android 12 on the list loads at once only when both
      BLUETOOTH_CONNECT and BLUETOOTH_SCAN are granted, and otherwise both
      are requested; before Android 12 the same holds for
      ACCESS_FINE_LOCATION alone. */
  function EnsurePermissions(sdk: int, granted: set<Permission>): (d: Decision)
    ensures d.LoadNow? <==> forall p :: p in Needed(sdk) ==> p in granted
    ensures d.Request? ==> d.permissions == Needed(sdk) && d.requestCode == RequestCode
    ensures sdk >= SdkS ==> (d.LoadNow? <==> BluetoothConnect in granted && BluetoothScan in granted)
    ensures sdk < SdkS ==> (d.LoadNow? <==> AccessFineLocation in granted)
  {
    if sdk >= SdkS then
      if BluetoothConnect !in granted || BluetoothScan !in granted then
        Request([BluetoothConnect, BluetoothScan], RequestCode)
      else
        LoadNow
    else
      if AccessFineLocation !in granted then Request([AccessFineLocation], RequestCode) else LoadNow
  }

  /** The intent extras for launching the controller on device `d`. */
  function ExtrasFor(d: Device): (extras: map<string, Option<string>>)
    ensures extras.Keys == {AddressExtra, NameExtra}
    ensures extras[AddressExtra] == Some(d.address) && extras[NameExtra] == d.name
  {
    map[AddressExtra := Some(d.address), NameExtra := d.name]
  }

  /** The controller launched for a device shows that device's name and
      address and connects to its address: the two screens agree on the
      extra keys. */
  lemma LaunchShowsDevice(d: Device, outcome: Controller.ConnectOutcome)
    ensures Controller.Extra(ExtrasFor(d), Controller.AddressExtra) == Some(d.address)
    ensures var r := Controller.OnCreateSpec(d.address, Controller.Extra(ExtrasFor(d), Controller.NameExtra), outcome);
      && r.connectedDevice == "Connected to " + StringOf(d.name)
      && r.deviceId == "Device ID: " + d.address
      && (outcome.Established? ==> r.socket == Some(Controller.Socket(d.address, BluetoothUuid.SppUuid)))
  {
    var extras := ExtrasFor(d);
    assert Controller.Extra(extras, Controller.NameExtra) == d.name;
  }

  class DeviceListActivity {
    var deviceInfoList: seq<string>
    var deviceList: seq<Device>
    var finished: bool
    ghost var notices: seq<Notice>
    ghost var requests: seq<Decision>

    /** The two lists run in lockstep: row i shows device i. */
    ghost predicate Valid()
      reads this
    {
      && |deviceInfoList| == |deviceList|
      && forall i :: 0 <= i < |deviceList| ==> deviceInfoList[i] == Label(deviceList[i])
    }

    constructor ()
      ensures Valid()
      ensures deviceInfoList == [] && deviceList == [] && !finished
      ensures notices == [] && requests == []
    {
      deviceInfoList, deviceList, finished := [], [], false;
      notices, requests := [], [];
    }

    /** `onCreate`: without an adapter the screen closes itself. */
    method OnCreate(adapterPresent: bool, sdk: int, granted: set<Permission>, bonded: Option<seq<Device>>)
      requires Valid()
      modifies this
      ensures Valid()
      ensures !adapterPresent ==> && finished
                                  && notices == old(notices) + [BluetoothNotSupported]
                                  && deviceList == old(deviceList) && deviceInfoList == old(deviceInfoList)
                                  && requests == old(requests)
      ensures adapterPresent ==> && finished == old(finished)
                                 && Gated(old(this.deviceList), old(this.deviceInfoList), old(this.notices),
                                          old(this.requests), sdk, granted, bonded)
    {
      if !adapterPresent {
        notices := notices + [BluetoothNotSupported];
        finished := true;
        return;
      }
      EnsurePermissionsThenLoad(sdk, granted, bonded);
    }

    /** The state after `ensurePermissionsThenLoad`, given the state before. */
    ghost predicate Gated(devices0: seq<Device>, labels0: seq<string>, notices0: seq<Notice>,
                          requests0: seq<Decision>, sdk: int, granted: set<Permission>,
                          bonded: Option<seq<Device>>)
      reads this
    {
      var d := EnsurePermissions(sdk, granted);
      if d.LoadNow? then
        && deviceList == Listed(bonded)
        && notices == notices0 + (if Listed(bonded) == [] then [NoPairedDevices] else [])
        && requests == requests0
      else
        && deviceList == devices0 && deviceInfoList == labels0
        && notices == notices0
        && requests == requests0 + [d]
    }

    method EnsurePermissionsThenLoad(sdk: int, granted: set<Permission>, bonded: Option<seq<Device>>)
      requires Valid()
      modifies this
      ensures Valid() && finished == old(finished)
      ensures Gated(old(deviceList), old(deviceInfoList), old(notices), old(requests), sdk, granted, bonded)
    {
      var d := EnsurePermissions(sdk, granted);
      if d.Request? {
        requests := requests + [d];
        return;
      }
      LoadDevices(bonded);
    }

    /** `loadDevices`: both lists are emptied, then refilled in lockstep from
        the bonded set, so the result depends on the bonded set alone. */
    method LoadDevices(bonded: Option<seq<Device>>)
      modifies this
      ensures Valid()
      ensures deviceList == Listed(bonded)
      ensures notices == old(notices) + (if Listed(bonded) == [] then [NoPairedDevices] else [])
      ensures Listed(bonded) == [] ==>
        NoticeText(notices[|notices| - 1]) == "No paired devices. Pair in system settings first."
      ensures requests == old(requests) && finished == old(finished)
    {
      deviceInfoList := [];
      deviceList := [];
      if bonded.Some? && |bonded.value| > 0 {
        var devices := bonded.value;
        for i := 0 to |devices|
          invariant deviceList == devices[..i]
          invariant |deviceInfoList| == i
          invariant forall k :: 0 <= k < i ==> deviceInfoList[k] == Label(devices[k])
          invariant notices == old(notices) && requests == old(requests) && finished == old(finished)
        {
          deviceInfoList := deviceInfoList + [Label(devices[i])];
          deviceList := deviceList + [devices[i]];
        }
        assert devices[..|devices|] == devices;
      } else {
        notices := notices + [NoPairedDevices];
      }
    }

    /** `onRequestPermissionsResult` reloads the list for its own request
        code, whatever was granted, and ignores every other code. */
    method OnRequestPermissionsResult(requestCode: int, bonded: Option<seq<Device>>)
      requires Valid()
      modifies this
      ensures Valid() && finished == old(finished) && requests == old(requests)
      ensures requestCode == RequestCode ==>
        && deviceList == Listed(bonded)
        && notices == old(notices) + (if Listed(bonded) == [] then [NoPairedDevices] else [])
      ensures requestCode != RequestCode ==>
        deviceList == old(deviceList) && deviceInfoList == old(deviceInfoList) && notices == old(notices)
    {
      if requestCode == RequestCode {
        LoadDevices(bonded);
      }
    }

    /** A click on row `position` launches the controller with exactly that
        row's device: the address and name shown in the row. */
    method OnItemClick(position: int) returns (extras: map<string, Option<string>>)
      requires Valid() && 0 <= position < |deviceInfoList|
      ensures extras == ExtrasFor(deviceList[position])
      ensures AddressExtra in extras && NameExtra in extras && extras[AddressExtra].Some?
      ensures deviceInfoList[position] == StringOf(extras[NameExtra]) + "\n" + extras[AddressExtra].value
    {
      var selected := deviceList[position];
      extras := map[AddressExtra := Some(selected.address), NameExtra := selected.name];
    }
  }
}
