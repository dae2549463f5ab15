/** What runs of button presses do to a controller screen: the guard on
    `output`, the write per press, and the fact that nothing but the logs
    ever changes after `connect`, not even after a failed write or after
    `onDestroy`. */
module ControllerTraces {
  import opened JavaLang
  import opened Controller
  import Utf8

  /** One button press and how its write fares. */
  datatype Click = Click(button: Button, outcome: IoOutcome)

  /** The session after a run of presses, in order. */
  function Clicks(s: Session, cs: seq<Click>): Session
    decreases |cs|
  {
    if cs == [] then s else Clicks(PressSpec(s, cs[0].button, cs[0].outcome), cs[1..])
  }

  /** One write per press, of that button's payload. */
  function WireOf(cs: seq<Click>): seq<seq<Utf8.byte>>
  {
    if cs == [] then [] else [Wire(cs[0].button)] + WireOf(cs[1..])
  }

  /** The number of presses whose write fails. */
  function FailureCount(cs: seq<Click>): nat
  {
    if cs == [] then 0 else (if cs[0].outcome.Fails? then 1 else 0) + FailureCount(cs[1..])
  }

  function NotConnectedTimes(n: nat): seq<Notice>
  {
    seq(n, _ => NotConnected)
  }

  /** Every write in the log is one of the eight commands. */
  ghost predicate OnlyCommands(w: seq<seq<Utf8.byte>>)
  {
    forall i :: 0 <= i < |w| ==> ButtonForWire(w[i]).Some?
  }

  /** Presses change only the write log and the notices: the handles, the
      status line, the radio and the close log stay as they were. */
  lemma {:induction false} ClicksChangeOnlyLogs(s: Session, cs: seq<Click>)
    ensures Clicks(s, cs) == s.(written := Clicks(s, cs).written, notices := Clicks(s, cs).notices)
    decreases |cs|
  {
    if cs != [] {
      ClicksChangeOnlyLogs(PressSpec(s, cs[0].button, cs[0].outcome), cs[1..]);
    }
  }

  /** Without an output stream no press writes anything, and each press
      shows exactly one "Not connected". */
  lemma {:induction false} ClicksWhileDisconnected(s: Session, cs: seq<Click>)
    requires s.output.None?
    ensures Clicks(s, cs).written == s.written
    ensures Clicks(s, cs).notices == s.notices + NotConnectedTimes(|cs|)
    decreases |cs|
  {
    if cs != [] {
      var next := PressSpec(s, cs[0].button, cs[0].outcome);
      ClicksWhileDisconnected(next, cs[1..]);
      assert [NotConnected] + NotConnectedTimes(|cs| - 1) == NotConnectedTimes(|cs|);
    }
  }

  /** With an output stream every press writes its payload, in order, even
      after earlier writes failed; each failure adds one "Send failed". */
  lemma {:induction false} ClicksWhileConnected(s: Session, cs: seq<Click>)
    requires s.output.Some?
    ensures Clicks(s, cs).written == s.written + WireOf(cs)
    ensures |Clicks(s, cs).notices| == |s.notices| + FailureCount(cs)
    ensures Clicks(s, cs).notices[..|s.notices|] == s.notices
    ensures forall i :: |s.notices| <= i < |Clicks(s, cs).notices| ==> Clicks(s, cs).notices[i].SendFailed?
    decreases |cs|
  {
    if cs != [] {
      var next := PressSpec(s, cs[0].button, cs[0].outcome);
      ClicksWhileConnected(next, cs[1..]);
      assert s.written + WireOf(cs) == next.written + WireOf(cs[1..]);
      var r := Clicks(s, cs);
      assert r.notices[..|next.notices|] == next.notices;
      assert r.notices[..|s.notices|] == r.notices[..|next.notices|][..|s.notices|];
    }
  }

  /** Presses put nothing on the stream but the eight commands. */
  lemma {:induction false} ClicksSendOnlyCommands(s: Session, cs: seq<Click>)
    requires OnlyCommands(s.written)
    ensures OnlyCommands(Clicks(s, cs).written)
    decreases |cs|
  {
    if cs != [] {
      var b := cs[0].button;
      var next := PressSpec(s, b, cs[0].outcome);
      assert ButtonForWire(Wire(b)).Some?;
      ClicksSendOnlyCommands(next, cs[1..]);
    }
  }

  /** A screen whose connection attempt failed never writes: whatever is
      pressed afterwards, the only notices are the connection error and one
      "Not connected" per press. */
  lemma FailedConnectNeverWrites(address: string, name: Option<string>, step: ConnectStep, message: string,
                                 cs: seq<Click>)
    ensures var r := Clicks(OnCreateSpec(address, name, FailsAt(step, message)), cs);
      && r.written == []
      && r.output.None?
      && r.status == ConnectFailed
      && r.notices == [ConnectionError(message)] + NotConnectedTimes(|cs|)
  {
    var s := OnCreateSpec(address, name, FailsAt(step, message));
    ClicksWhileDisconnected(s, cs);
    ClicksChangeOnlyLogs(s, cs);
  }

  /** A screen that connected writes one payload per press, in order, and
      stays "Connected and ready to send commands" however the writes fare. */
  lemma ConnectedWritesEveryPress(address: string, name: Option<string>, cs: seq<Click>)
    ensures var r := Clicks(OnCreateSpec(address, name, Established), cs);
      && r.written == WireOf(cs)
      && r.status == Ready
      && r.output.Some?
      && OnlyCommands(r.written)
  {
    var s := OnCreateSpec(address, name, Established);
    ClicksWhileConnected(s, cs);
    ClicksChangeOnlyLogs(s, cs);
    ClicksSendOnlyCommands(s, cs);
  }

  /** `onDestroy` closes but keeps both handles, so there is no closed state:
      a press that arrives afterwards still reaches `write`. */
  lemma PressesAfterDestroyStillWrite(s: Session, outputClose: IoOutcome, cs: seq<Click>)
    requires s.output.Some?
    ensures Clicks(DestroySpec(s, outputClose), cs).written == s.written + WireOf(cs)
  {
    ClicksWhileConnected(DestroySpec(s, outputClose), cs);
  }

  /** The robot at AA:BB:CC:DD:EE:FF named RobotX: the screen shows the two
      labels, "Connecting..." and then "Connected and ready ...", and
      forward followed by speed two puts the bytes 'F' and '2' on the wire. */
  lemma RobotXSession()
    ensures var r := Clicks(OnCreateSpec("AA:BB:CC:DD:EE:FF", Some("RobotX"), Established),
                            [Click(Up, Ok), Click(Speed2, Ok)]);
      && r.screen == [SetText(ConnectedDeviceView, "Connected to RobotX"),
                      SetText(DeviceIdView, "Device ID: AA:BB:CC:DD:EE:FF"),
                      SetText(StatusView, Connecting),
                      SetText(StatusView, Ready)]
      && r.written == [[0x46], [0x32]]
      && r.notices == []
  {
    var s := OnCreateSpec("AA:BB:CC:DD:EE:FF", Some("RobotX"), Established);
    var cs := [Click(Up, Ok), Click(Speed2, Ok)];
    ClicksWhileConnected(s, cs);
    ClicksChangeOnlyLogs(s, cs);
    assert WireOf(cs) == [Wire(Up), Wire(Speed2)];
    assert Wire(Up) == [0x46] by { assert Wire(Up)[0] as int == 'F' as int; }
    assert Wire(Speed2) == [0x32] by { assert Wire(Speed2)[0] as int == '2' as int; }
    assert "Connected to " + "RobotX" == "Connected to RobotX";
    assert "Device ID: " + "AA:BB:CC:DD:EE:FF" == "Device ID: AA:BB:CC:DD:EE:FF";
  }
}
