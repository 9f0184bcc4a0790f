/**
 * The bridge process (backend/src/main.rs): the parser for the Arduino's
 * "SENSOR:" lines, the GUI command dispatcher acting on the single serial
 * port slot, and the list of GUI data subscribers that every reading is
 * broadcast to.
 */
module Backend {
  import opened Wrappers
  import opened Text
  import opened Decimal

  const SensorPrefix: string := "SENSOR:"
  /** Finite-state-machine phases reported by the Arduino, by index. */
  const StateNames: seq<string> := ["IDLE", "PRE-COND", "RAMP_UP", "HOLD", "PURGE", "RECOVERY", "DONE"]
  const BaudRate: nat := 9600

  /** One reading: seven sensor voltages, the machine state and level, and the receive time in ms. */
  datatype SensorData = SensorData(
    timestamp: nat,
    no2: real, eth: real, voc: real, co: real,
    coMics: real, ethMics: real, vocMics: real,
    state: int, level: int,
    stateName: string)

  /** A numeric field: trimmed and parsed as a float, 0.0 when it does not parse. */
  function FieldReal(s: string): real {
    ParseDecimal(Trim(s)).GetOr(0.0)
  }

  /** An integer field: trimmed and parsed as an i32, 0 when it does not parse. */
  function FieldInt(s: string): int {
    ParseI32(Trim(s)).GetOr(0)
  }

  function StateName(state: int): string {
    if 0 <= state < |StateNames| then StateNames[state] else "UNKNOWN"
  }

  /**
   * A line "SENSOR:f0,...,f8[,...]" becomes a reading stamped with the
   * receive time `now`; anything else is rejected.
   */
  function ParseSensorLine(line: string, now: nat): (r: Option<SensorData>)
    ensures r.Some? ==> StartsWith(line, SensorPrefix) && r.value.timestamp == now
    ensures r.Some? ==> r.value.stateName == StateName(r.value.state)
  {
    if !StartsWith(line, SensorPrefix) then None
    else
      var parts := Split(TrimStartMatches(line, SensorPrefix), ',');
      if |parts| < 9 then None
      else
        var state := FieldInt(parts[7]);
        Some(SensorData(now,
          FieldReal(parts[0]), FieldReal(parts[1]), FieldReal(parts[2]), FieldReal(parts[3]),
          FieldReal(parts[4]), FieldReal(parts[5]), FieldReal(parts[6]),
          state, FieldInt(parts[8]), StateName(state)))
  }

  /**
   * A line is accepted exactly when it starts with the prefix and, once
   * every leading copy of the prefix is stripped, holds at least eight commas.
   */
  lemma ParseSensorLineAccepts(line: string, now: nat)
    ensures ParseSensorLine(line, now).Some? <==>
      StartsWith(line, SensorPrefix) && Count(TrimStartMatches(line, SensorPrefix), ',') >= 8
  {
    if StartsWith(line, SensorPrefix) {
      SplitCount(TrimStartMatches(line, SensorPrefix), ',');
    }
  }

  /** Repeating the prefix changes nothing: all leading copies are stripped. */
  lemma ParseSensorLineRepeatedPrefix(line: string, now: nat)
    ensures ParseSensorLine(SensorPrefix + line, now) == ParseSensorLine(line, now) || !StartsWith(line, SensorPrefix)
  {
    var s := SensorPrefix + line;
    assert s[..|SensorPrefix|] == SensorPrefix;
    assert s[|SensorPrefix|..] == line;
  }

  /**
   * Fields in order: the first seven are the sensor values, the eighth the
   * state, the ninth the level; any further fields are ignored.
   */
  lemma ParseSensorLineFields(fields: seq<string>, now: nat)
    requires |fields| >= 9
    requires forall k :: 0 <= k < |fields| ==> ',' !in fields[k]
    requires !StartsWith(Join(fields, ','), SensorPrefix)
    ensures ParseSensorLine(SensorPrefix + Join(fields, ','), now) == Some(SensorData(now,
      FieldReal(fields[0]), FieldReal(fields[1]), FieldReal(fields[2]), FieldReal(fields[3]),
      FieldReal(fields[4]), FieldReal(fields[5]), FieldReal(fields[6]),
      FieldInt(fields[7]), FieldInt(fields[8]), StateName(FieldInt(fields[7]))))
  {
    var body := Join(fields, ',');
    var s := SensorPrefix + body;
    assert s[..|SensorPrefix|] == SensorPrefix;
    assert s[|SensorPrefix|..] == body;
    assert TrimStartMatches(s, SensorPrefix) == body;
    SplitJoin(fields, ',');
  }

  /**
   * The state field: a field that does not parse gives state 0, "IDLE"; the
   * decimal text of k gives state k, named by the table for k < 7 and
   * "UNKNOWN" beyond it, the raw number being kept either way.
   */
  lemma StateField(f: string, k: nat)
    requires k <= I32Max
    ensures ParseI32(Trim(f)).None? ==> FieldInt(f) == 0 && StateName(FieldInt(f)) == "IDLE"
    ensures FieldInt(NatToString(k)) == k
    ensures StateName(k) == (if k < 7 then StateNames[k] else "UNKNOWN")
  {
    var t := NatToString(k);
    assert !IsSpace(t[0]) && !IsSpace(t[|t| - 1]);
    TrimUnchanged(t);
    ParseI32Range(t, k);
  }

  // ----- Command dispatch (GUI command port -> serial) -----

  /** An open serial port: its device name and every line written to it. */
  datatype SerialPort = SerialPort(name: string, written: seq<string>)

  /** What the environment does: which device names open, and whether writes succeed. */
  datatype SerialIo = SerialIo(openable: set<string>, writable: bool)

  datatype Command =
    | ConnectSerial(port: string)
    | ConnectIncomplete
    | DisconnectSerial
    | Forward(text: string)

  /** What the dispatcher logs for a command. */
  datatype Report =
    | Opened(port: string)
    | OpenFailed(port: string)
    | Ignored
    | Disconnected
    | Forwarded(text: string)
    | WriteFailed(text: string)
    | NotConnected(text: string)

  /** The three-way classification of one received line, after trimming. */
  function ParseCommand(raw: string): (c: Command)
    ensures c.ConnectSerial? ==> c.port != [] && NoSpace(c.port) && StartsWith(Trim(raw), "CONNECT_SERIAL")
    ensures c.ConnectIncomplete? ==> StartsWith(Trim(raw), "CONNECT_SERIAL")
    ensures c.DisconnectSerial? <==> Trim(raw) == "DISCONNECT_SERIAL"
    ensures c.Forward? <==> !StartsWith(Trim(raw), "CONNECT_SERIAL") && Trim(raw) != "DISCONNECT_SERIAL"
    ensures c.Forward? ==> c.text == Trim(raw)
  {
    var cmd := Trim(raw);
    if StartsWith(cmd, "CONNECT_SERIAL") then
      DisconnectIsNotConnect(cmd);
      var parts := Words(cmd);
      if |parts| >= 2 then ConnectSerial(parts[1]) else ConnectIncomplete
    else if cmd == "DISCONNECT_SERIAL" then DisconnectSerial
    else Forward(cmd)
  }

  /**
   * When a line connects: it starts with CONNECT_SERIAL (after trimming)
   * and has at least two whitespace-separated tokens, and then the port is
   * the second token; with fewer tokens the line does nothing.
   */
  lemma ConnectRule(raw: string)
    ensures ParseCommand(raw).ConnectSerial? <==> StartsWith(Trim(raw), "CONNECT_SERIAL") && |Words(Trim(raw))| >= 2
    ensures ParseCommand(raw).ConnectSerial? ==> ParseCommand(raw).port == Words(Trim(raw))[1]
    ensures ParseCommand(raw).ConnectIncomplete? <==> StartsWith(Trim(raw), "CONNECT_SERIAL") && |Words(Trim(raw))| < 2
  {
  }

  /**
   * A connect keyword followed by whitespace: the port is the first token
   * after it, and without one the line does nothing.
   */
  lemma ConnectFirstArgument(raw: string, sp: char, rest: string)
    requires IsSpace(sp) && Trim(raw) == "CONNECT_SERIAL" + [sp] + rest
    ensures ParseCommand(raw) == if Words(rest) == [] then ConnectIncomplete else ConnectSerial(Words(rest)[0])
  {
    var cmd := Trim(raw);
    assert StartsWith(cmd, "CONNECT_SERIAL") by {
      assert cmd[..14] == "CONNECT_SERIAL";
    }
    WordsAfterKeyword(cmd, sp, rest);
    ConnectRule(raw);
  }

  /** The tokens of the connect keyword, whitespace and a rest: the keyword, then the rest's tokens. */
  lemma WordsAfterKeyword(cmd: string, sp: char, rest: string)
    requires IsSpace(sp) && cmd == "CONNECT_SERIAL" + [sp] + rest
    ensures Words(cmd) == ["CONNECT_SERIAL"] + Words(rest)
  {
    WordsOfToken("CONNECT_SERIAL");
    WordsSplit("CONNECT_SERIAL", sp, rest);
  }

  /** Text that starts with the connect keyword is not the disconnect keyword. */
  lemma DisconnectIsNotConnect(cmd: string)
    requires StartsWith(cmd, "CONNECT_SERIAL")
    ensures cmd != "DISCONNECT_SERIAL"
  {
    assert cmd[0] == cmd[..14][0] == 'C';
  }

  /** One command applied to the serial slot: the new slot and the log entry. */
  function Step(slot: Option<SerialPort>, raw: string, io: SerialIo): (r: (Option<SerialPort>, Report))
    ensures r.1.Opened? ==> r.0 == Some(SerialPort(r.1.port, [])) && r.1.port in io.openable
    ensures r.1.Disconnected? ==> r.0 == None
    ensures r.0.Some? ==> (slot.Some? && r.0.value.name == slot.value.name) || r.0.value.name in io.openable
  {
    match ParseCommand(raw)
    case ConnectSerial(p) =>
      if p in io.openable then (Some(SerialPort(p, [])), Opened(p)) else (slot, OpenFailed(p))
    case ConnectIncomplete => (slot, Ignored)
    case DisconnectSerial => (None, Disconnected)
    case Forward(cmd) =>
      match slot
      case None => (slot, NotConnected(cmd))
      case Some(port) =>
        if io.writable then (Some(port.(written := port.written + [cmd + "\n"])), Forwarded(cmd))
        else (slot, WriteFailed(cmd))
  }

  /**
   * How a command moves the slot: a connect that opens replaces the slot by
   * a fresh port, a connect that fails or lacks a name keeps it, a
   * disconnect empties it, anything else keeps the same port (if any) and
   * at most appends the trimmed command and a line feed to its output.
   */
  lemma StepEffect(slot: Option<SerialPort>, raw: string, io: SerialIo)
    ensures var (next, _) := Step(slot, raw, io);
      match ParseCommand(raw)
      case ConnectSerial(p) => next == (if p in io.openable then Some(SerialPort(p, [])) else slot)
      case ConnectIncomplete => next == slot
      case DisconnectSerial => next == None
      case Forward(cmd) =>
        next.Some? == slot.Some? &&
        (slot.Some? ==>
          next.value.name == slot.value.name &&
          next.value.written == slot.value.written + (if io.writable then [Trim(raw) + "\n"] else []))
  {
  }

  /** A line that is not a connect or disconnect never opens or closes the port. */
  lemma ForwardKeepsConnection(slot: Option<SerialPort>, raw: string, io: SerialIo)
    requires !StartsWith(Trim(raw), "CONNECT_SERIAL") && Trim(raw) != "DISCONNECT_SERIAL"
    ensures Step(slot, raw, io).0.Some? <==> slot.Some?
    ensures slot.None? ==> Step(slot, raw, io) == (None, NotConnected(Trim(raw)))
  {
  }

  /** The slot after a sequence of command lines, handled in order. */
  function RunCommands(slot: Option<SerialPort>, lines: seq<string>, io: SerialIo): (r: Option<SerialPort>)
    ensures r.Some? ==> (slot.Some? && r.value.name == slot.value.name) || r.value.name in io.openable
    decreases |lines|
  {
    if lines == [] then slot
    else
      var next := Step(slot, lines[0], io).0;
      assert next.Some? ==> (slot.Some? && next.value.name == slot.value.name) || next.value.name in io.openable;
      RunCommands(next, lines[1..], io)
  }

  lemma {:induction false} RunCommandsAppend(slot: Option<SerialPort>, a: seq<string>, b: seq<string>, io: SerialIo)
    ensures RunCommands(slot, a + b, io) == RunCommands(RunCommands(slot, a, io), b, io)
    decreases |a|
  {
    if a == [] {
      assert a + b == b;
    } else {
      assert (a + b)[0] == a[0];
      assert (a + b)[1..] == a[1..] + b;
      RunCommandsAppend(Step(slot, a[0], io).0, a[1..], b, io);
    }
  }

  /** Whatever came before, a final line reading DISCONNECT_SERIAL (after trimming) leaves no port open. */
  lemma DisconnectLast(slot: Option<SerialPort>, lines: seq<string>, d: string, io: SerialIo)
    requires Trim(d) == "DISCONNECT_SERIAL"
    ensures RunCommands(slot, lines + [d], io) == None
  {
    var mid := RunCommands(slot, lines, io);
    RunCommandsAppend(slot, lines, [d], io);
    assert [d][0] == d && [d][1..] == [];
    assert RunCommands(mid, [d], io) == RunCommands(Step(mid, d, io).0, [], io);
  }

  /** The bare DISCONNECT_SERIAL line is its own trim. */
  lemma DisconnectTrimmed(d: string)
    requires d == "DISCONNECT_SERIAL"
    ensures Trim(d) == d
  {
    assert !IsSpace(d[0]) && !IsSpace(d[|d| - 1]);
    TrimUnchanged(d);
  }

  // ----- GUI data subscribers -----

  /** Rust `Vec::retain`: the clients whose channel still accepts a message, in order. */
  function Retained(clients: seq<nat>, alive: set<nat>): (r: seq<nat>)
    ensures |r| <= |clients|
    ensures forall k :: 0 <= k < |r| ==> r[k] in alive
    decreases |clients|
  {
    if clients == [] then []
    else (if clients[0] in alive then [clients[0]] else []) + Retained(clients[1..], alive)
  }

  /** A client survives exactly when it was subscribed and is still alive. */
  lemma {:induction false} RetainedMembers(clients: seq<nat>, alive: set<nat>, c: nat)
    ensures c in Retained(clients, alive) <==> c in clients && c in alive
    decreases |clients|
  {
    if clients != [] {
      RetainedMembers(clients[1..], alive, c);
      assert c in clients <==> c == clients[0] || c in clients[1..];
    }
  }

  /** Retaining works piecewise, so the survivors keep their relative order. */
  lemma {:induction false} RetainedConcat(a: seq<nat>, b: seq<nat>, alive: set<nat>)
    ensures Retained(a + b, alive) == Retained(a, alive) + Retained(b, alive)
    decreases |a|
  {
    if a == [] {
      assert a + b == b;
    } else {
      var head := if a[0] in alive then [a[0]] else [];
      assert (a + b)[0] == a[0];
      assert (a + b)[1..] == a[1..] + b;
      assert Retained(a + b, alive) == head + Retained(a[1..] + b, alive);
      RetainedConcat(a[1..], b, alive);
      assert Retained(a, alive) == head + Retained(a[1..], alive);
      assert head + (Retained(a[1..], alive) + Retained(b, alive)) == (head + Retained(a[1..], alive)) + Retained(b, alive);
    }
  }

  /** With every client alive nothing is dropped, and a second pass drops nothing more. */
  lemma {:induction false} RetainedStable(clients: seq<nat>, alive: set<nat>)
    ensures (forall k :: 0 <= k < |clients| ==> clients[k] in alive) ==> Retained(clients, alive) == clients
    ensures Retained(Retained(clients, alive), alive) == Retained(clients, alive)
    decreases |clients|
  {
    if clients != [] {
      RetainedStable(clients[1..], alive);
      var head := if clients[0] in alive then [clients[0]] else [];
      RetainedConcat(head, Retained(clients[1..], alive), alive);
      if clients[0] in alive {
        assert head[1..] == [];
        assert Retained(head, alive) == head + Retained([], alive);
      }
      assert clients == [clients[0]] + clients[1..];
    }
  }

  /** The shared state of the bridge. */
  class AppState {
    /** Subscribed GUI data connections, by connection number. */
    var guiBroadcast: seq<nat>
    /** The serial port opened on the GUI's request, if any. */
    var serialPort: Option<SerialPort>
    /** Number given to the next data connection. */
    var nextClient: nat

    /** No subscribers and no port: the port is opened later, on request. */
    constructor ()
      ensures guiBroadcast == [] && serialPort == None && nextClient == 0
    {
      guiBroadcast := [];
      serialPort := None;
      nextClient := 0;
    }

    /** One command line received from the GUI. */
    method HandleCommand(raw: string, io: SerialIo) returns (report: Report)
      modifies this
      ensures serialPort == Step(old(serialPort), raw, io).0 && report == Step(old(serialPort), raw, io).1
      ensures guiBroadcast == old(guiBroadcast) && nextClient == old(nextClient)
    {
      var step := Step(serialPort, raw, io);
      serialPort, report := step.0, step.1;
    }

    /** Every line of one command connection, in order. */
    method ServeCommandConnection(input: string, io: SerialIo) returns (reports: seq<Report>)
      modifies this
      ensures serialPort == RunCommands(old(serialPort), Lines(input), io)
      ensures |reports| == |Lines(input)|
      ensures guiBroadcast == old(guiBroadcast) && nextClient == old(nextClient)
    {
      var lines := Lines(input);
      reports := [];
      var i := 0;
      while i < |lines|
        invariant 0 <= i <= |lines| && |reports| == i
        invariant RunCommands(serialPort, lines[i..], io) == RunCommands(old(serialPort), lines, io)
        invariant guiBroadcast == old(guiBroadcast) && nextClient == old(nextClient)
      {
        assert lines[i..][1..] == lines[i + 1..];
        var r := HandleCommand(lines[i], io);
        reports := reports + [r];
        i := i + 1;
      }
    }

    /** A new GUI data connection subscribes at the end of the list. */
    method AddClient() returns (id: nat)
      modifies this
      ensures id == old(nextClient) && nextClient == old(nextClient) + 1
      ensures guiBroadcast == old(guiBroadcast) + [id]
      ensures serialPort == old(serialPort)
    {
      id := nextClient;
      guiBroadcast := guiBroadcast + [id];
      nextClient := nextClient + 1;
    }

    /**
     * Send one message to every subscriber, dropping those whose channel is
     * closed (`alive` are the ones whose send succeeds). Returns the
     * clients that received it.
     */
    method Broadcast(alive: set<nat>) returns (delivered: seq<nat>)
      modifies this
      ensures guiBroadcast == Retained(old(guiBroadcast), alive) && delivered == guiBroadcast
      ensures serialPort == old(serialPort) && nextClient == old(nextClient)
    {
      var clients := guiBroadcast;
      var kept := [];
      var i := 0;
      while i < |clients|
        invariant 0 <= i <= |clients|
        invariant kept == Retained(clients[..i], alive)
        invariant serialPort == old(serialPort) && nextClient == old(nextClient)
      {
        assert clients[..i + 1] == clients[..i] + [clients[i]];
        RetainedConcat(clients[..i], [clients[i]], alive);
        assert [clients[i]][1..] == [];
        if clients[i] in alive {
          kept := kept + [clients[i]];
        }
        i := i + 1;
      }
      assert clients[..i] == clients;
      guiBroadcast := kept;
      delivered := kept;
    }

    /**
     * A line from the Arduino: a valid reading is broadcast to the
     * subscribers; any other line is dropped without effect.
     */
    method OnArduinoLine(line: string, now: nat, alive: set<nat>) returns (reading: Option<SensorData>, delivered: seq<nat>)
      modifies this
      ensures reading == ParseSensorLine(line, now)
      ensures guiBroadcast == (if reading.Some? then Retained(old(guiBroadcast), alive) else old(guiBroadcast))
      ensures delivered == (if reading.Some? then guiBroadcast else [])
      ensures serialPort == old(serialPort) && nextClient == old(nextClient)
    {
      reading := ParseSensorLine(line, now);
      delivered := [];
      if reading.Some? {
        delivered := Broadcast(alive);
      }
    }
  }
}
