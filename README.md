# Robot Bluetooth controller — a Dafny model

The Android app has two screens. The **device list** (`DeviceListActivity`) first checks the
runtime permissions the platform requires. It then lists the phone's bonded Bluetooth devices,
one row per device. A tap on a row opens the **controller** (`ControllerActivity`). The
controller opens an RFCOMM socket to the chosen device with the Serial Port Profile UUID. Each
of its eight buttons sends a single command character over the socket's output stream, and the
screen closes the stream and the socket when it is destroyed.

This model replaces the Bluetooth stack and the UI with outcomes that the caller passes in. Ghost
logs record the following:
- the radio calls `connect` makes;
- the texts set on the three text views;
- the toasts (called notices here);
- the write calls and their bytes, failed ones included;
- the close calls.

The files are:

- `java_lang.dfy` (`JavaLang`): nullable references, and how Java renders `null` when it
  concatenates strings.
- `utf8.dfy` (`Utf8`): `String.getBytes()`. Android's default charset is always UTF-8. The module
  also has a strict decoder that serves as its inverse.
- `bluetooth_uuid.dfy` (`BluetoothUuid`): the SPP UUID as a `java.util.UUID`. This is the 16-bit
  Serial Port service class 0x1101 expanded over the Bluetooth Base UUID, as section 2.5.1 of the
  Bluetooth Core Specification, Vol 3, Part B describes.
- `controller.dfy` (`Controller`): the button table and the value `Session` of everything a
  controller screen shows and does. It also has one specification function per operation
  (`ConnectSpec`, `SendSpec`, `PressSpec`, `DestroySpec`). The class `ControllerActivity` holds
  the real fields `socket`, `output` and `status` and the two labels. Each method proves that the
  new `State()` is the specification function applied to the old one.
- `controller_traces.dfy` (`ControllerTraces`): lemmas, proved by induction, about runs of
  button presses.
- `device_list.dfy` (`DeviceList`): the permission decision rule, the row label, the launch
  extras, and the class `DeviceListActivity`. The class fills its two parallel lists in one loop,
  and its invariant `Valid()` keeps them in lockstep.

The controller has no "closed" state, and the model has none either. `onDestroy` closes the
handles but never clears `socket` or `output`. A failed write is only reported and never ends the
session. `PressesAfterDestroyStillWrite` states this as written: a press after `onDestroy` still
reaches `write`.

## Model

| member | source | states |
|---|---|---|
| `BluetoothUuid.FromShort` | RobotBluetoothController/app/src/main/java/com/example/robotcontroller/ControllerActivity.java:19 | a 16-bit assigned number expands to a well-formed UUID whose value is the Base UUID plus the number shifted to bits 96..111 |
| `BluetoothUuid.SppIsSerialPort` | RobotBluetoothController/app/src/main/java/com/example/robotcontroller/ControllerActivity.java:19 | the controller's UUID constant is exactly Serial Port (0x1101) over the Base UUID |
| `Utf8.EncodeChar` | RobotBluetoothController/app/src/main/java/com/example/robotcontroller/ControllerActivity.java:79 | one character takes 1 to 4 bytes; it takes one byte, equal to its code, exactly when it is ASCII; every byte after the first is a continuation byte |
| `Utf8.Encode` | RobotBluetoothController/app/src/main/java/com/example/robotcontroller/ControllerActivity.java:79 | `getBytes()` yields between one and four bytes per character |
| `Utf8.DecodeChar` | RobotBluetoothController/app/src/main/java/com/example/robotcontroller/ControllerActivity.java:79 | the reference decoder consumes between 1 and 4 bytes of its input for each character |
| `Utf8.DecodeEncodeChar` | RobotBluetoothController/app/src/main/java/com/example/robotcontroller/ControllerActivity.java:79 | decoding an encoded character gives back that character and its length, whatever bytes follow |
| `Utf8.DecodeEncode` | RobotBluetoothController/app/src/main/java/com/example/robotcontroller/ControllerActivity.java:79 | decoding `getBytes()` of any string gives back that string |
| `Utf8.EncodeInjective` | RobotBluetoothController/app/src/main/java/com/example/robotcontroller/ControllerActivity.java:79 | two different messages never go out as the same bytes |
| `Utf8.EncodeAscii` | RobotBluetoothController/app/src/main/java/com/example/robotcontroller/ControllerActivity.java:79 | an ASCII message goes out as one byte per character, equal to the character's code |
| `Controller.Payload` | RobotBluetoothController/app/src/main/java/com/example/robotcontroller/ControllerActivity.java:41-49 | every button sends a single ASCII character |
| `Controller.NoticeTextInjective` | RobotBluetoothController/app/src/main/java/com/example/robotcontroller/ControllerActivity.java:69-81 | the toasts "Not connected", "Send failed: " + message and "Connection error: " + message never show the same text for two different notices (the toast texts themselves are the reference definition `Controller.NoticeText`) |
| `Controller.ButtonFor` | RobotBluetoothController/app/src/main/java/com/example/robotcontroller/ControllerActivity.java:41-49 | inverse of the button table: a payload maps back to the one button that sends it, and a string that no button sends maps to none. So the eight payloads are distinct |
| `Controller.Wire` | RobotBluetoothController/app/src/main/java/com/example/robotcontroller/ControllerActivity.java:41-54 | a press puts exactly one byte on the stream, the code of its payload character |
| `Controller.ButtonForWire` | RobotBluetoothController/app/src/main/java/com/example/robotcontroller/ControllerActivity.java:41-54 | a write maps back to the one button whose bytes it is, and to none when no button sends those bytes. So no two buttons put the same bytes on the stream |
| `Controller.Labelled` | RobotBluetoothController/app/src/main/java/com/example/robotcontroller/ControllerActivity.java:34-37 | the labels are "Connected to " + name (or "null") and "Device ID: " + address, set before anything else while both handles are still null |
| `Controller.Extra` | RobotBluetoothController/app/src/main/java/com/example/robotcontroller/ControllerActivity.java:34-35 | `getStringExtra` yields the extra stored under the key, and null when the key is absent (a reference definition; `ExtraPutGet` and `DeviceList.LaunchShowsDevice` state what callers rely on) |
| `Controller.ExtraPutGet` | RobotBluetoothController/app/src/main/java/com/example/robotcontroller/ControllerActivity.java:34-35 | reading an extra gives back what was last put under that key, and putting one key leaves every other key's extra unchanged |
| `Controller.ConnectSpec` | RobotBluetoothController/app/src/main/java/com/example/robotcontroller/ControllerActivity.java:57-71 | the status is set to "Connecting..." and then to the final text. The final text is "Connected and ready to send commands" iff the attempt succeeds, and "Failed to connect" otherwise. The radio calls are a prefix of: get device, create socket with the SPP UUID, cancel discovery, connect, get stream. So discovery is cancelled before the connect, and the connect is attempted iff socket creation succeeded. On success both handles are set and no notice is shown. On failure `output` is unchanged and one "Connection error" notice is shown; `socket` is set unless creation failed. Nothing is written or closed |
| `Controller.ConnectFailure` | RobotBluetoothController/app/src/main/java/com/example/robotcontroller/ControllerActivity.java:67-70 | the catch block sets the status to "Failed to connect" and adds one connection-error notice carrying the message. It touches neither handle, makes no radio call, and writes and closes nothing |
| `Controller.OnCreateSpec` | RobotBluetoothController/app/src/main/java/com/example/robotcontroller/ControllerActivity.java:26-39 | the screen shows the two labels, then "Connecting...", then the final status; `output` is set iff the connection succeeded; nothing is written or closed |
| `Controller.SendSpec` | RobotBluetoothController/app/src/main/java/com/example/robotcontroller/ControllerActivity.java:73-83 | only the write log and the notices change. With `output` null there is no write and exactly one "Not connected" notice. Otherwise there is exactly one write, of the message's bytes, no notice on success, and exactly one "Send failed" notice on failure |
| `Controller.PressSpec` | RobotBluetoothController/app/src/main/java/com/example/robotcontroller/ControllerActivity.java:52-55 | a press writes its button's byte when `output` is set, and nothing otherwise |
| `Controller.DestroySpec` | RobotBluetoothController/app/src/main/java/com/example/robotcontroller/ControllerActivity.java:85-92 | only the close log grows, and by one of [], [output], [socket] or [output, socket]. `output` is closed iff it is set. `socket` is closed iff it is set and `output` is unset or closed without error. No field is cleared and no error escapes |
| `Controller.ControllerActivity.constructor` | RobotBluetoothController/app/src/main/java/com/example/robotcontroller/ControllerActivity.java:26-39 | requires the address extra that the list always supplies; the new screen's state is `OnCreateSpec` of the address and name extras, with a missing name read as null |
| `Controller.ControllerActivity.UpdateText` | RobotBluetoothController/app/src/main/java/com/example/robotcontroller/ControllerActivity.java:36-37 | `setText` on one of the three views replaces that view's text, appends the update to the screen log, and changes nothing else |
| `Controller.ControllerActivity.Connect` | RobotBluetoothController/app/src/main/java/com/example/robotcontroller/ControllerActivity.java:57-71 | the fields and logs after `connect` are `ConnectSpec` of those before |
| `Controller.ControllerActivity.ReportConnectFailure` | RobotBluetoothController/app/src/main/java/com/example/robotcontroller/ControllerActivity.java:67-70 | the catch block sets "Failed to connect" and adds one connection-error notice |
| `Controller.ControllerActivity.Send` | RobotBluetoothController/app/src/main/java/com/example/robotcontroller/ControllerActivity.java:73-83 | the fields and logs after `send` are `SendSpec` of those before |
| `Controller.ControllerActivity.Press` | RobotBluetoothController/app/src/main/java/com/example/robotcontroller/ControllerActivity.java:52-55 | the fields and logs after a button's listener runs are `PressSpec` of those before |
| `Controller.ControllerActivity.OnDestroy` | RobotBluetoothController/app/src/main/java/com/example/robotcontroller/ControllerActivity.java:85-92 | the fields and logs after `onDestroy` are `DestroySpec` of those before |
| `ControllerTraces.ClicksChangeOnlyLogs` | RobotBluetoothController/app/src/main/java/com/example/robotcontroller/ControllerActivity.java:73-83 | no run of presses changes the handles, the status, the labels, the radio log or the close log, whatever the writes' outcomes |
| `ControllerTraces.ClicksWhileDisconnected` | RobotBluetoothController/app/src/main/java/com/example/robotcontroller/ControllerActivity.java:74-77 | with `output` null, a run of n presses writes nothing and adds exactly n "Not connected" notices |
| `ControllerTraces.ClicksWhileConnected` | RobotBluetoothController/app/src/main/java/com/example/robotcontroller/ControllerActivity.java:78-82 | with `output` set, a run of presses makes one write call per press, in order, with that press's payload, even after earlier write calls failed. It adds one "Send failed" notice per failed write and no other notice |
| `ControllerTraces.ClicksSendOnlyCommands` | RobotBluetoothController/app/src/main/java/com/example/robotcontroller/ControllerActivity.java:41-54 | if every earlier write was one of the eight commands, every write after any run of presses is too |
| `ControllerTraces.FailedConnectNeverWrites` | RobotBluetoothController/app/src/main/java/com/example/robotcontroller/ControllerActivity.java:57-77 | after a failed connection attempt at any step, no run of presses writes anything. `output` stays null, the status stays "Failed to connect", and the notices are the one connection error followed by one "Not connected" per press |
| `ControllerTraces.ConnectedWritesEveryPress` | RobotBluetoothController/app/src/main/java/com/example/robotcontroller/ControllerActivity.java:26-82 | after a successful connection, every run of presses writes exactly its payloads in order, and only command bytes. The status stays "Connected and ready to send commands" |
| `ControllerTraces.PressesAfterDestroyStillWrite` | RobotBluetoothController/app/src/main/java/com/example/robotcontroller/ControllerActivity.java:73-92 | `onDestroy` leaves `output` set, so later presses still reach `write` |
| `ControllerTraces.RobotXSession` | RobotBluetoothController/app/src/main/java/com/example/robotcontroller/ControllerActivity.java:26-79 | for device AA:BB:CC:DD:EE:FF named RobotX: the screen shows the labels, "Connecting..." and then the ready text; forward and then speed two write 'F' and then '2' |
| `DeviceList.Listed` | RobotBluetoothController/app/src/main/java/com/example/robotcontroller/DeviceListActivity.java:65-75 | a null bonded set lists nothing; otherwise the list is the set in its iteration order |
| `DeviceList.Label` | RobotBluetoothController/app/src/main/java/com/example/robotcontroller/DeviceListActivity.java:70 | a row reads the name (or "null"), then one newline, then the address (a reference definition; `DeviceListActivity.LoadDevices` and `OnItemClick` state the promises made with it) |
| `DeviceList.EnsurePermissions` | RobotBluetoothController/app/src/main/java/com/example/robotcontroller/DeviceListActivity.java:44-62 | the list loads now iff every permission needed for the SDK level is granted: BLUETOOTH_CONNECT and BLUETOOTH_SCAN from SDK 31 (S), ACCESS_FINE_LOCATION before that. Otherwise exactly those permissions are requested, with code 1001 |
| `DeviceList.ExtrasFor` | RobotBluetoothController/app/src/main/java/com/example/robotcontroller/DeviceListActivity.java:82-84 | the launch intent carries exactly "device_address" (the address) and "device_name" (the name, possibly null) (a reference definition; `LaunchShowsDevice` and `OnItemClick` state the promises made with it) |
| `DeviceList.LaunchShowsDevice` | RobotBluetoothController/app/src/main/java/com/example/robotcontroller/DeviceListActivity.java:80-85 | a controller launched for a device reads back that device's address, connects to it, and labels itself with that device's name and address; the two screens agree on the extra keys |
| `DeviceList.DeviceListActivity.constructor` | RobotBluetoothController/app/src/main/java/com/example/robotcontroller/DeviceListActivity.java:27-28 | both lists start empty and in lockstep |
| `DeviceList.DeviceListActivity.OnCreate` | RobotBluetoothController/app/src/main/java/com/example/robotcontroller/DeviceListActivity.java:31-42 | without an adapter: one "Bluetooth not supported" notice, the screen finishes and nothing else changes. With an adapter it runs the permission gate |
| `DeviceList.DeviceListActivity.EnsurePermissionsThenLoad` | RobotBluetoothController/app/src/main/java/com/example/robotcontroller/DeviceListActivity.java:44-62 | if `EnsurePermissions` says load, the lists are reloaded from the bonded set and no request is made. Otherwise one request is recorded and the lists and notices are unchanged |
| `DeviceList.DeviceListActivity.LoadDevices` | RobotBluetoothController/app/src/main/java/com/example/robotcontroller/DeviceListActivity.java:64-75 | both lists are rebuilt from the bonded set alone, so calling twice with the same set gives the same lists. They have equal length, the bonded devices are listed in iteration order, and row i reads name + "\n" + address of device i. A null or empty set adds exactly one "No paired devices" notice. The notice's text is given by the reference definition `DeviceList.NoticeText`, which also holds the "Bluetooth not supported" text of line 37 |
| `DeviceList.DeviceListActivity.OnRequestPermissionsResult` | RobotBluetoothController/app/src/main/java/com/example/robotcontroller/DeviceListActivity.java:90-97 | with request code 1001 the lists are reloaded as by `LoadDevices`, whatever the grant results; with any other code nothing changes |
| `DeviceList.DeviceListActivity.OnItemClick` | RobotBluetoothController/app/src/main/java/com/example/robotcontroller/DeviceListActivity.java:80-85 | a click at position p launches with exactly the address and name of device p, which are the name and address shown in row p |

## Left out

- The Bluetooth stack: `getDefaultAdapter`, `getRemoteDevice`, `createRfcommSocketToServiceRecord`, `cancelDiscovery`, `connect`, `getOutputStream`, `write`, `close` and `getBondedDevices`. Each is replaced as follows:
  - The calls `connect` makes go in the ghost log `radio`. `getRemoteDevice` and `cancelDiscovery` always succeed in the model. `createRfcommSocketToServiceRecord`, `connect` and `getOutputStream` take their outcome from a parameter.
  - `write` calls go in `written`, with their bytes; their outcome is a parameter.
  - `close` calls go in `closes`. The outcome of `output.close()` is a parameter, and that of `socket.close()` is ignored, as the source ignores it.
  - `getDefaultAdapter` and `getBondedDevices` are not logged. Their results are the parameters `adapterPresent` and `bonded` (the bonded devices in iteration order, or null).
- Runtime permissions: the model assumes they are granted whenever `loadDevices` and `connect` run. From SDK 31 on, a refused BLUETOOTH_CONNECT makes `getBondedDevices` throw a `SecurityException`. The list still reloads on request code 1001 whatever the grant results. A refused BLUETOOTH_SCAN makes `cancelDiscovery` throw one too, and `connect`'s `catch (IOException e)` does not catch it. Either would end the app, in the second case with the status still "Connecting...". So `ConnectSpec`'s promise that the status ends "Connected and ready to send commands" or "Failed to connect" holds only with the permissions granted.
- Unchecked exceptions that nothing catches: a null default adapter in `connect`, an address that `getRemoteDevice` rejects, a missing address extra, and a click position outside the list. Each would end the app. The constructor and `OnItemClick` instead require what their callers always supply.
- Views, adapters, intents, `startActivity`, `finish` and toast rendering. A toast is a `Notice` value in a ghost log, and `NoticeText` gives its text. `OnItemClick` returns the intent's extras.
- The initial texts from the layout files. The layouts are not part of this model, and each view starts as "".
- The text of an exception's message is a parameter of the failure outcome, and it is copied into the notice as is.
- `UUID.fromString`: the model does not parse the UUID text. It gives the UUID's two 64-bit halves directly.
- `getBytes()` on strings with unpaired UTF-16 surrogates: a Dafny `char` is a Unicode scalar value, so such strings cannot occur.
- Threading: `connect` blocks the UI thread in the source, and the model runs it as one synchronous step.
- The contents of `grantResults`: the result handler ignores them.
