/**
 * The GUI side of the bridge protocol (frontend/utils/network_comm.py):
 * the four command lines `BridgeCommander` sends to the command port, and
 * the rule by which `NetworkWorker` turns the data stream into readings
 * and connection-status signals.
 */
module NetworkComm {
  import opened Wrappers
  import opened Text
  import Backend

  /** The commands the GUI can send. */
  datatype BridgeCommand =
    | ConnectSerial(port: string)
    | DisconnectSerial
    | StartSampling
    | StopSampling

  /** The command text, before the line feed that `_send` appends. */
  function CommandText(c: BridgeCommand): string {
    match c
    case ConnectSerial(p) => "CONNECT_SERIAL " + p
    case DisconnectSerial => "DISCONNECT_SERIAL"
    case StartSampling => "START_SAMPLING"
    case StopSampling => "STOP_SAMPLING"
  }

  /** What one `_send` did: whether it reported success, and the bytes it handed to the socket. */
  datatype Delivery = Delivery(ok: bool, sent: Option<string>)

  /**
   * `_send`: a fresh connection per command, the text and a line feed sent,
   * no reply read. `connects` and `sends` say whether connect and sendall
   * completed without raising.
   */
  function Send(c: BridgeCommand, connects: bool, sends: bool): (d: Delivery)
    ensures d.ok <==> connects && sends
    ensures d.sent.Some? <==> d.ok
    ensures d.ok ==> EndsWith(d.sent.value, "\n") && d.sent.value[..|d.sent.value| - 1] == CommandText(c)
  {
    if connects && sends then
      var line := CommandText(c) + "\n";
      assert line[|line| - 1..] == "\n";
      assert line[..|line| - 1] == CommandText(c);
      Delivery(true, Some(line))
    else Delivery(false, None)
  }

  /** A single word not starting with 'C' is one line, its own trim, and a disconnect or a forward. */
  lemma PlainCommand(t: string)
    requires t != [] && NoSpace(t) && t[0] != 'C'
    ensures Lines(t + "\n") == [t]
    ensures Trim(t) == t
    ensures Backend.ParseCommand(t) == if t == "DISCONNECT_SERIAL" then Backend.DisconnectSerial else Backend.Forward(t)
  {
    SingleWordLine(t);
    PlainParse(t);
  }

  /** A single word is one line and its own trim. */
  lemma SingleWordLine(t: string)
    requires t != [] && NoSpace(t)
    ensures Lines(t + "\n") == [t]
    ensures Trim(t) == t
  {
    assert forall j :: 0 <= j < |t| ==> t[j] != '\n';
    LinesOfOne(t);
    TrimUnchanged(t);
  }

  /** Trimmed text not starting with 'C' is a disconnect or a forward. */
  lemma PlainParse(t: string)
    requires t != [] && Trim(t) == t && t[0] != 'C'
    ensures Backend.ParseCommand(t) == if t == "DISCONNECT_SERIAL" then Backend.DisconnectSerial else Backend.Forward(t)
  {
    assert !StartsWith(t, "CONNECT_SERIAL") by {
      if |t| >= 14 {
        assert t[..14][0] == t[0];
      }
    }
  }

  const ConnectHead: string := "CONNECT_SERIAL"

  lemma ConnectHeadPlain()
    ensures ConnectHead != [] && NoSpace(ConnectHead) && '\n' !in ConnectHead
  {
  }

  /** The connect line for a whitespace-free name is one line, its own trim, of two tokens. */
  lemma ConnectLine(p: string)
    requires p != [] && NoSpace(p)
    ensures Lines(CommandText(ConnectSerial(p)) + "\n") == [CommandText(ConnectSerial(p))]
    ensures Trim(CommandText(ConnectSerial(p))) == CommandText(ConnectSerial(p))
    ensures Words(CommandText(ConnectSerial(p))) == [ConnectHead, p]
  {
    var t := ConnectHead + " " + p;
    assert CommandText(ConnectSerial(p)) == t;
    ConnectHeadPlain();
    NoNewline(ConnectHead, p);
    assert t[|t| - 1] == p[|p| - 1];
    LinesOfOne(t);
    assert t[0] == ConnectHead[0];
    TrimUnchanged(t);
    WordsOfPair(ConnectHead, p);
  }

  lemma NoNewline(a: string, b: string)
    requires '\n' !in a && NoSpace(b)
    ensures '\n' !in a + " " + b
  {
    var t := a + " " + b;
    forall j | |a| < j < |t|
      ensures t[j] != '\n'
    {
      assert t[j] == b[j - |a| - 1];
    }
  }

  /** The dispatcher recovers each command the GUI sends, with the port name for a connect. */
  lemma CommandRoundTrip(c: BridgeCommand)
    requires c.ConnectSerial? ==> c.port != [] && NoSpace(c.port)
    ensures Lines(CommandText(c) + "\n") == [CommandText(c)]
    ensures Trim(CommandText(c)) == CommandText(c)
    ensures Backend.ParseCommand(CommandText(c)) == ExpectedCommand(c)
  {
    var t := CommandText(c);
    if c.ConnectSerial? {
      ConnectLine(c.port);
      assert t[..|ConnectHead|] == ConnectHead;
    } else {
      PlainCommand(t);
    }
  }

  /** How the dispatcher should classify each command. */
  function ExpectedCommand(c: BridgeCommand): Backend.Command {
    match c
    case ConnectSerial(p) => Backend.ConnectSerial(p)
    case DisconnectSerial => Backend.DisconnectSerial
    case StartSampling => Backend.Forward("START_SAMPLING")
    case StopSampling => Backend.Forward("STOP_SAMPLING")
  }

  /**
   * What a delivered command does to the bridge's serial slot: connect
   * opens the named port (when it can be opened), disconnect empties the
   * slot, start and stop are written to the open port.
   */
  lemma DeliveredCommandEffect(c: BridgeCommand, slot: Option<Backend.SerialPort>, io: Backend.SerialIo)
    requires c.ConnectSerial? ==> c.port != [] && NoSpace(c.port)
    ensures var next := Backend.RunCommands(slot, Lines(Send(c, true, true).sent.value), io);
      match c
      case ConnectSerial(p) => next == (if p in io.openable then Some(Backend.SerialPort(p, [])) else slot)
      case DisconnectSerial => next == None
      case _ =>
        next.Some? == slot.Some? &&
        (slot.Some? ==>
          next.value.name == slot.value.name &&
          next.value.written == slot.value.written + (if io.writable then [CommandText(c) + "\n"] else []))
  {
    CommandRoundTrip(c);
    var t := CommandText(c);
    assert Lines(Send(c, true, true).sent.value) == [t];
    assert Backend.RunCommands(slot, [t], io) == Backend.Step(slot, t, io).0;
    Backend.StepEffect(slot, t, io);
    TrimUnchanged(t);
  }

  /** An empty port name gets no connection: the dispatcher sees only one token. */
  lemma EmptyPortIgnored()
    ensures Backend.ParseCommand(CommandText(ConnectSerial(""))) == Backend.ConnectIncomplete
  {
    ConnectHeadPlain();
    assert CommandText(ConnectSerial("")) == ConnectHead + " ";
    TrimTrailingSpace(ConnectHead, " ");
    LoneHead(ConnectHead + " ");
  }

  /** A command that trims to the bare connect keyword is an incomplete connect. */
  lemma LoneHead(t: string)
    requires Trim(t) == ConnectHead
    ensures Backend.ParseCommand(t) == Backend.ConnectIncomplete
  {
    ConnectHeadPlain();
    assert ConnectHead[..|ConnectHead|] == ConnectHead;
    WordsOfToken(ConnectHead);
  }
}
