/** The controller screen: a session to one paired robot kept in the two
    nullable fields `socket` and `output`, a status line, and eight buttons
    that each send one fixed command character. The radio stack is replaced
    by outcomes passed in by the caller; what the activity does to the radio,
    to the stream and to the screen is recorded in ghost logs. */
module Controller {
  import opened JavaLang
  import opened BluetoothUuid
  import Utf8

  // Intent extras the screen is launched with.
  const AddressExtra := "device_address"
  const NameExtra := "device_name"

  // The status line.
  const Connecting := "Connecting..."
  const Ready := "Connected and ready to send commands"
  const ConnectFailed := "Failed to connect"

  /** The eight buttons of the controller screen. */
  datatype Button = Up | Down | Left | Right | Stop | Speed1 | Speed2 | Speed3

  /** The command each button sends: one ASCII character. */
  function Payload(b: Button): (p: string)
    ensures |p| == 1 && (p[0] as int) < 0x80
  {
    match b
    case Up => "F"
    case Down => "B"
    case Left => "L"
    case Right => "R"
    case Stop => "S"
    case Speed1 => "1"
    case Speed2 => "2"
    case Speed3 => "3"
  }

  /** The inverse of the button table: which button, if any, sends `p`. */
  function ButtonFor(p: string): (b: Option<Button>)
    ensures b.Some? ==> Payload(b.value) == p
    ensures b.None? ==> forall x :: Payload(x) != p
    ensures forall x :: Payload(x) == p ==> b == Some(x)
  {
    if p == "F" then Some(Up)
    else if p == "B" then Some(Down)
    else if p == "L" then Some(Left)
    else if p == "R" then Some(Right)
    else if p == "S" then Some(Stop)
    else if p == "1" then Some(Speed1)
    else if p == "2" then Some(Speed2)
    else if p == "3" then Some(Speed3)
    else None
  }

  /** The bytes a press of `b` puts on the stream: exactly its one character. */
  function Wire(b: Button): (w: seq<Utf8.byte>)
    ensures |w| == 1 && w[0] as int == Payload(b)[0] as int
  {
    Utf8.EncodeAscii(Payload(b));
    Utf8.Encode(Payload(b))
  }

  /** Which button, if any, a single write of `w` came from. */
  function ButtonForWire(w: seq<Utf8.byte>): (b: Option<Button>)
    ensures b.Some? ==> Wire(b.value) == w
    ensures b.None? ==> forall x :: Wire(x) != w
    ensures forall x :: Wire(x) == w ==> b == Some(x)
  {
    if |w| == 1 && w[0] < 0x80 then
      var p := [w[0] as int as char];
      var b := ButtonFor(p);
      if b.Some? then
        var w' := Wire(b.value);
        assert w'[0] == w[0];
        assert w' == w;
        b
      else
        None
    else
      None
  }

  /** How `connect` fares on the radio: it succeeds, or an IOException is
      raised by one of the three calls that can raise it. */
  datatype ConnectStep = CreateSocket | SocketConnect | OpenOutputStream
  datatype ConnectOutcome = Established | FailsAt(step: ConnectStep, message: string)

  predicate FailsAtStep(outcome: ConnectOutcome, step: ConnectStep)
  {
    outcome.FailsAt? && outcome.step == step
  }

  /** How one `write` or `close` call fares. */
  datatype IoOutcome = Ok | Fails(message: string)

  /** An RFCOMM socket to a peer for a service, and the stream it hands out. */
  datatype Socket = Socket(address: string, service: Uuid)
  datatype Stream = Stream(socket: Socket)

  /** The calls `connect` makes on the Bluetooth stack, in the order made. */
  datatype RadioCall =
    | GetRemoteDevice(address: string)
    | CreateRfcommSocket(address: string, service: Uuid)
    | CancelDiscovery
    | ConnectSocket
    | GetOutputStream

  /** The full call sequence of a connection attempt that gets to the end. */
  function ConnectCalls(address: string): seq<RadioCall>
  {
    [GetRemoteDevice(address), CreateRfcommSocket(address, SppUuid), CancelDiscovery, ConnectSocket,
     GetOutputStream]
  }

  /** The three text views and the texts set on them. */
  datatype View = StatusView | ConnectedDeviceView | DeviceIdView
  datatype TextUpdate = SetText(view: View, text: string)

  /** The toasts the screen shows. */
  datatype Notice = NotConnected | SendFailed(message: string) | ConnectionError(message: string)

  /** The text of each toast. */
  function NoticeText(n: Notice): string
  {
    match n
    case NotConnected => "Not connected"
    case SendFailed(m) => "Send failed: " + m
    case ConnectionError(m) => "Connection error: " + m
  }

  /** The three kinds of toast, and the error message each carries, can be
      told apart on screen. */
  lemma NoticeTextInjective(a: Notice, b: Notice)
    requires NoticeText(a) == NoticeText(b)
    ensures a == b
  {
    var t := NoticeText(a);
    assert t[0] == NoticeText(b)[0];
    if a.SendFailed? && b.SendFailed? {
      assert a.message == t[|"Send failed: "|..] == b.message;
    } else if a.ConnectionError? && b.ConnectionError? {
      assert a.message == t[|"Connection error: "|..] == b.message;
    }
  }

  datatype CloseCall = CloseOutput | CloseSocket

  /** Everything observable about one controller screen. */
  datatype Session = Session(
    socket: Option<Socket>,
    output: Option<Stream>,
    status: string,
    connectedDevice: string,
    deviceId: string,
    screen: seq<TextUpdate>,
    notices: seq<Notice>,
    radio: seq<RadioCall>,
    written: seq<seq<Utf8.byte>>,
    closes: seq<CloseCall>)

  /** A freshly created screen: both handles null, nothing shown or done. */
  const Initial := Session(None, None, "", "", "", [], [], [], [], [])

  /** `getStringExtra(key)`: null when the extra is absent. */
  function Extra(extras: map<string, Option<string>>, key: string): (r: Option<string>)
    ensures r.Some? ==> key in extras && extras[key] == r
    ensures key in extras ==> r == extras[key]
  {
    if key in extras then extras[key] else None
  }

  /** Reading back an extra gives what was last put under that key, and
      putting one key leaves the others as they were. */
  lemma ExtraPutGet(extras: map<string, Option<string>>, key: string, value: Option<string>, other: string)
    ensures Extra(extras[key := value], key) == value
    ensures other != key ==> Extra(extras[key := value], other) == Extra(extras, other)
  {
  }

  /** The two labels, set from the launch extras before anything else. */
  function Labelled(address: string, name: Option<string>): (r: Session)
    ensures r.connectedDevice == "Connected to " + StringOf(name)
    ensures r.deviceId == "Device ID: " + address
    ensures r.screen == [SetText(ConnectedDeviceView, r.connectedDevice), SetText(DeviceIdView, r.deviceId)]
    ensures r.socket.None? && r.output.None?
  {
    var caption := "Connected to " + StringOf(name);
    var id := "Device ID: " + address;
    Initial.(connectedDevice := caption, deviceId := id,
             screen := [SetText(ConnectedDeviceView, caption), SetText(DeviceIdView, id)])
  }

  /** The catch block of `connect`. */
  function ConnectFailure(s: Session, message: string): (r: Session)
    ensures r.status == ConnectFailed
    ensures r.screen == s.screen + [SetText(StatusView, ConnectFailed)]
    ensures r.notices == s.notices + [ConnectionError(message)]
    ensures r.socket == s.socket && r.output == s.output && r.radio == s.radio
    ensures r.written == s.written && r.closes == s.closes
    ensures r.connectedDevice == s.connectedDevice && r.deviceId == s.deviceId
  {
    s.(status := ConnectFailed, screen := s.screen + [SetText(StatusView, ConnectFailed)],
       notices := s.notices + [ConnectionError(message)])
  }

  /** `connect(address)`: "Connecting...", then the radio calls, then either
      "Connected and ready ..." with both handles set, or "Failed to connect"
      with a notice and `output` as it was. */
  function ConnectSpec(s: Session, address: string, outcome: ConnectOutcome): (r: Session)
    ensures r.screen == s.screen + [SetText(StatusView, Connecting), SetText(StatusView, r.status)]
    ensures r.status == Ready <==> outcome.Established?
    ensures r.status == Ready || r.status == ConnectFailed
    ensures |s.radio| <= |r.radio| && r.radio[..|s.radio|] == s.radio
    ensures r.radio[|s.radio|..] <= ConnectCalls(address)
    ensures ConnectSocket in r.radio[|s.radio|..] <==> !FailsAtStep(outcome, CreateSocket)
    ensures outcome.Established? ==>
      && r.socket == Some(Socket(address, SppUuid))
      && r.output == Some(Stream(Socket(address, SppUuid)))
      && r.notices == s.notices
    ensures outcome.FailsAt? ==>
      && r.output == s.output
      && r.notices == s.notices + [ConnectionError(outcome.message)]
      && r.socket == if outcome.step == CreateSocket then s.socket else Some(Socket(address, SppUuid))
    ensures r.written == s.written && r.closes == s.closes
    ensures r.connectedDevice == s.connectedDevice && r.deviceId == s.deviceId
  {
    var sock := Socket(address, SppUuid);
    var calls := ConnectCalls(address);
    var s := s.(status := Connecting, screen := s.screen + [SetText(StatusView, Connecting)]);
    match outcome
    case FailsAt(CreateSocket, m) =>
      ConnectFailure(s.(radio := s.radio + calls[..2]), m)
    case FailsAt(SocketConnect, m) =>
      var r := ConnectFailure(s.(socket := Some(sock), radio := s.radio + calls[..4]), m);
      assert r.radio[|s.radio|..][3] == ConnectSocket;
      r
    case FailsAt(OpenOutputStream, m) =>
      ConnectFailure(s.(socket := Some(sock), radio := s.radio + calls), m)
    case Established =>
      s.(socket := Some(sock), output := Some(Stream(sock)), radio := s.radio + calls,
         status := Ready, screen := s.screen + [SetText(StatusView, Ready)])
  }

  /** `onCreate`: the labels, then `connect` to the address extra. */
  function OnCreateSpec(address: string, name: Option<string>, outcome: ConnectOutcome): (r: Session)
    ensures r.screen == [SetText(ConnectedDeviceView, "Connected to " + StringOf(name)),
                         SetText(DeviceIdView, "Device ID: " + address),
                         SetText(StatusView, Connecting),
                         SetText(StatusView, if outcome.Established? then Ready else ConnectFailed)]
    ensures r.output.Some? <==> outcome.Established?
    ensures r.written == [] && r.closes == []
  {
    ConnectSpec(Labelled(address, name), address, outcome)
  }

  /** `send(message)`: only the write log and the notices change. Without an
      output stream nothing is written and "Not connected" is shown; with one,
      exactly one write of the message's bytes is made, and a failure is only
      reported. */
  function SendSpec(s: Session, message: string, outcome: IoOutcome): (r: Session)
    ensures r == s.(written := r.written, notices := r.notices)
    ensures s.output.None? ==> r.written == s.written && r.notices == s.notices + [NotConnected]
    ensures s.output.Some? ==> r.written == s.written + [Utf8.Encode(message)]
    ensures s.output.Some? && outcome.Ok? ==> r.notices == s.notices
    ensures s.output.Some? && outcome.Fails? ==> r.notices == s.notices + [SendFailed(outcome.message)]
  {
    if s.output.None? then
      s.(notices := s.notices + [NotConnected])
    else
      s.(written := s.written + [Utf8.Encode(message)],
         notices := if outcome.Fails? then s.notices + [SendFailed(outcome.message)] else s.notices)
  }

  /** A press of button `b`: `send` with its payload. */
  function PressSpec(s: Session, b: Button, outcome: IoOutcome): (r: Session)
    ensures s.output.Some? ==> r.written == s.written + [Wire(b)]
    ensures s.output.None? ==> r.written == s.written
  {
    SendSpec(s, Payload(b), outcome)
  }

  /** `onDestroy`: closes `output` if set, then `socket` if set, inside one
      try block whose errors are ignored, so a failing `output.close()`
      skips `socket.close()`. Neither field is cleared and nothing else
      changes. */
  function DestroySpec(s: Session, outputClose: IoOutcome): (r: Session)
    ensures r == s.(closes := r.closes)
    ensures |s.closes| <= |r.closes| && r.closes[..|s.closes|] == s.closes
    ensures var added := r.closes[|s.closes|..];
      && (CloseOutput in added <==> s.output.Some?)
      && (CloseSocket in added <==> s.socket.Some? && (s.output.None? || outputClose.Ok?))
      && (added == [] || added == [CloseOutput] || added == [CloseSocket] || added == [CloseOutput, CloseSocket])
  {
    if s.output.Some? && outputClose.Fails? then
      s.(closes := s.closes + [CloseOutput])
    else
      var first := if s.output.Some? then [CloseOutput] else [];
      var second := if s.socket.Some? then [CloseSocket] else [];
      var r := s.(closes := s.closes + first + second);
      assert r.closes[|s.closes|..] == first + second;
      r
  }

  /** The activity itself. Its handles, status and labels are real fields;
      what it did to the screen, the radio and the stream is ghost. */
  class ControllerActivity {
    var socket: Option<Socket>
    var output: Option<Stream>
    var status: string
    var connectedDevice: string
    var deviceId: string
    ghost var screen: seq<TextUpdate>
    ghost var notices: seq<Notice>
    ghost var radio: seq<RadioCall>
    ghost var written: seq<seq<Utf8.byte>>
    ghost var closes: seq<CloseCall>

    ghost function State(): Session
      reads this
    {
      Session(socket, output, status, connectedDevice, deviceId, screen, notices, radio, written, closes)
    }

    /** `onCreate`. The device list always supplies the address; without it
        `getRemoteDevice(null)` would throw an exception nothing catches. */
    constructor (extras: map<string, Option<string>>, outcome: ConnectOutcome)
      requires Extra(extras, AddressExtra).Some?
      ensures State() == OnCreateSpec(Extra(extras, AddressExtra).value, Extra(extras, NameExtra), outcome)
    {
      socket, output := None, None;
      status, connectedDevice, deviceId := "", "", "";
      screen, notices, radio, written, closes := [], [], [], [], [];
      new;
      var address := Extra(extras, AddressExtra).value;
      var name := Extra(extras, NameExtra);
      UpdateText(ConnectedDeviceView, "Connected to " + StringOf(name));
      UpdateText(DeviceIdView, "Device ID: " + address);
      Connect(address, outcome);
    }

    /** `TextView.setText` on one of the three views. */
    method UpdateText(view: View, text: string)
      modifies this
      ensures State() == match view
        case StatusView => old(State()).(status := text, screen := old(screen) + [SetText(view, text)])
        case ConnectedDeviceView =>
          old(State()).(connectedDevice := text, screen := old(screen) + [SetText(view, text)])
        case DeviceIdView => old(State()).(deviceId := text, screen := old(screen) + [SetText(view, text)])
    {
      match view {
        case StatusView => status := text;
        case ConnectedDeviceView => connectedDevice := text;
        case DeviceIdView => deviceId := text;
      }
      screen := screen + [SetText(view, text)];
    }

    method Connect(address: string, outcome: ConnectOutcome)
      modifies this
      ensures State() == ConnectSpec(old(State()), address, outcome)
    {
      UpdateText(StatusView, Connecting);
      radio := radio + [GetRemoteDevice(address), CreateRfcommSocket(address, SppUuid)];
      if FailsAtStep(outcome, CreateSocket) {
        ReportConnectFailure(outcome.message);
        return;
      }
      socket := Some(Socket(address, SppUuid));
      radio := radio + [CancelDiscovery, ConnectSocket];
      if FailsAtStep(outcome, SocketConnect) {
        ReportConnectFailure(outcome.message);
        return;
      }
      radio := radio + [GetOutputStream];
      if FailsAtStep(outcome, OpenOutputStream) {
        ReportConnectFailure(outcome.message);
        return;
      }
      output := Some(Stream(socket.value));
      UpdateText(StatusView, Ready);
    }

    /** The catch block of `connect`. */
    method ReportConnectFailure(message: string)
      modifies this
      ensures State() == ConnectFailure(old(State()), message)
    {
      UpdateText(StatusView, ConnectFailed);
      notices := notices + [ConnectionError(message)];
    }

    method Send(message: string, outcome: IoOutcome)
      modifies this
      ensures State() == SendSpec(old(State()), message, outcome)
    {
      if output == None {
        notices := notices + [NotConnected];
        return;
      }
      written := written + [Utf8.Encode(message)];
      if outcome.Fails? {
        notices := notices + [SendFailed(outcome.message)];
      }
    }

    /** The click listener that `onCreate` binds to button `b`. */
    method Press(b: Button, outcome: IoOutcome)
      modifies this
      ensures State() == PressSpec(old(State()), b, outcome)
    {
      Send(Payload(b), outcome);
    }

    method OnDestroy(outputClose: IoOutcome)
      modifies this
      ensures State() == DestroySpec(old(State()), outputClose)
    {
      if output.Some? {
        closes := closes + [CloseOutput];
        if outputClose.Fails? {
          return;
        }
      }
      if socket.Some? {
        closes := closes + [CloseSocket];
      }
    }
  }
}
