/**
 * The widgets of frontend/gui/widgets.py that hold state or decide
 * something: the real-time plot's buffers (`SensorPlot`), the sample
 * information of the control panel, and the port list and connection
 * settings of the connection panel.
 */
module Widgets {
  import opened Wrappers
  import opened Text
  import opened Decimal
  import opened Constants

  // ----- Plot line names and colours -----

  /** The legend name of plot line i: the configured sensor name, or "Sensor i+1" past the table. */
  function SensorLabel(i: nat): (tag: string)
    ensures tag != []
  {
    if i < |SensorNames| then SensorNames[i] else "Sensor " + NatToString(i + 1)
  }

  /** The configured names, all distinct, none starting with 'S'. */
  lemma SensorNamesShape()
    ensures forall i :: 0 <= i < |SensorNames| ==> SensorNames[i] != [] && SensorNames[i][0] != 'S'
    ensures forall i, j :: 0 <= i < j < |SensorNames| ==> SensorNames[i] != SensorNames[j]
  {
  }

  /** Different plot lines never share a legend name. */
  lemma LabelsDistinct(i: nat, j: nat)
    requires i != j
    ensures SensorLabel(i) != SensorLabel(j)
  {
    SensorNamesShape();
    if i >= |SensorNames| && j >= |SensorNames| {
      var p := "Sensor ";
      assert SensorLabel(i)[|p|..] == NatToString(i + 1);
      assert SensorLabel(j)[|p|..] == NatToString(j + 1);
      assert DigitsValue(NatToString(i + 1)) != DigitsValue(NatToString(j + 1));
    } else if i >= |SensorNames| {
      assert SensorLabel(i)[0] == 'S';
    } else if j >= |SensorNames| {
      assert SensorLabel(j)[0] == 'S';
    }
  }

  /** Every line of the seven-sensor plot carries its sensor's configured name. */
  lemma LabelsOfConfiguredSensors(i: nat)
    requires i < NumSensors
    ensures SensorLabel(i) == SensorNames[i]
  {
  }

  /** The pen colour of plot line i: the palette, cycled. */
  function PlotColor(i: nat): (c: string)
    ensures c in PlotColors
  {
    PlotColors[i % |PlotColors|]
  }

  /** Colours repeat with the palette's length and differ within one turn of it. */
  lemma ColorsCycle(i: nat, j: nat)
    ensures PlotColor(i + |PlotColors|) == PlotColor(i)
    ensures i < j < |PlotColors| ==> PlotColor(i) != PlotColor(j)
  {
    assert (i + |PlotColors|) % |PlotColors| == i % |PlotColors|;
  }

  // ----- The real-time plot -----

  /** What a plot line currently draws: x values against y values. */
  datatype Curve = Curve(xs: seq<real>, ys: seq<real>)

  /**
   * The sensor buffers after one reading: buffer i gains values[i] for
   * the buffers the reading reaches; extra values are dropped and the
   * buffers past the reading stay as they were.
   */
  function Grown(buffers: seq<seq<real>>, values: seq<real>): (r: seq<seq<real>>)
    ensures |r| == |buffers|
    ensures forall i :: 0 <= i < |buffers| && i < |values| ==> r[i] == buffers[i] + [values[i]]
    ensures forall i :: |values| <= i < |buffers| ==> r[i] == buffers[i]
  {
    seq(|buffers|, i requires 0 <= i < |buffers| => if i < |values| then buffers[i] + [values[i]] else buffers[i])
  }

  /** Growing by a longer reading one value at a time is growing by the reading. */
  lemma GrownStep(buffers: seq<seq<real>>, values: seq<real>, i: nat)
    requires i < |buffers| && i < |values|
    ensures Grown(buffers, values[..i + 1]) == Grown(buffers, values[..i])[i := Grown(buffers, values[..i])[i] + [values[i]]]
  {
  }

  /** No buffer outgrows the time buffer: each gains at most the one value a reading adds to the times. */
  lemma GrownBounded(buffers: seq<seq<real>>, values: seq<real>, n: nat)
    requires forall i :: 0 <= i < |buffers| ==> |buffers[i]| <= n
    ensures forall i :: 0 <= i < |buffers| ==> |Grown(buffers, values)[i]| <= n + 1
    ensures |values| >= |buffers| && (forall i :: 0 <= i < |buffers| ==> |buffers[i]| == n) ==>
      forall i :: 0 <= i < |buffers| ==> |Grown(buffers, values)[i]| == n + 1
  {
  }

  /** The plot widget: a time buffer, one buffer per sensor, and one drawn line per sensor. */
  class SensorPlot {
    const title: string
    const numSensors: nat
    /** Stored, and never consulted: the buffers are not trimmed. */
    const maxPoints: nat
    var timeData: seq<real>
    var sensorData: seq<seq<real>>
    var lines: seq<Curve>
    /** Legend name and pen colour of each line. */
    var legend: seq<string>
    var pens: seq<string>

    /** One buffer and one line per sensor, no buffer longer than the times, every line showing its buffer. */
    ghost predicate Valid()
      reads this
    {
      |sensorData| == numSensors && |lines| == numSensors &&
      |legend| == numSensors && |pens| == numSensors &&
      (forall i :: 0 <= i < numSensors ==> |sensorData[i]| <= |timeData|) &&
      (forall i :: 0 <= i < numSensors ==> lines[i] == Curve(timeData, sensorData[i]))
    }

    constructor (title: string)
      ensures Valid()
      ensures this.title == title && numSensors == NumSensors && maxPoints == MaxPlotPoints
      ensures timeData == [] && forall i :: 0 <= i < numSensors ==> sensorData[i] == []
      ensures forall i :: 0 <= i < numSensors ==> legend[i] == SensorLabel(i) && pens[i] == PlotColor(i)
    {
      this.title := title;
      numSensors := NumSensors;
      maxPoints := MaxPlotPoints;
      var names: seq<string> := [];
      var colors: seq<string> := [];
      var i := 0;
      while i < NumSensors
        invariant 0 <= i <= NumSensors
        invariant |names| == i && |colors| == i
        invariant forall k :: 0 <= k < i ==> names[k] == SensorLabel(k) && colors[k] == PlotColor(k)
      {
        names := names + [SensorLabel(i)];
        colors := colors + [PlotColor(i)];
        i := i + 1;
      }
      timeData := [];
      sensorData := seq(NumSensors, _ => []);
      lines := seq(NumSensors, _ => Curve([], []));
      legend := names;
      pens := colors;
    }

    /**
     * `add_data_point`: one more time, one more value for each of the
     * first min(|values|, numSensors) sensors, and every line redrawn.
     * Nothing is dropped, however long the buffers grow.
     */
    method AddDataPoint(time: real, values: seq<real>)
      requires Valid()
      modifies this
      ensures Valid()
      ensures timeData == old(timeData) + [time]
      ensures sensorData == Grown(old(sensorData), values)
      ensures legend == old(legend) && pens == old(pens)
    {
      ghost var before := sensorData;
      ghost var count := |timeData|;
      ghost var shown, names, colors := lines, legend, pens;
      timeData := timeData + [time];
      ghost var times := timeData;
      var n := if |values| < numSensors then |values| else numSensors;
      var i := 0;
      assert values[..0] == [];
      while i < n
        invariant 0 <= i <= n
        invariant sensorData == Grown(before, values[..i])
        invariant timeData == times && lines == shown && legend == names && pens == colors
      {
        GrownStep(before, values, i);
        sensorData := sensorData[i := sensorData[i] + [values[i]]];
        i := i + 1;
      }
      if n == |values| {
        assert values[..n] == values;
      } else {
        assert Grown(before, values[..n]) == Grown(before, values);
      }
      GrownBounded(before, values, count);
      ghost var grown := sensorData;
      i := 0;
      while i < numSensors
        invariant 0 <= i <= numSensors == |lines| == |sensorData|
        invariant forall k :: 0 <= k < i ==> lines[k] == Curve(timeData, sensorData[k])
        invariant timeData == times && sensorData == grown && legend == names && pens == colors
      {
        lines := lines[i := Curve(timeData, sensorData[i])];
        i := i + 1;
      }
    }

    /** `clear_data`: every buffer and every line emptied. */
    method ClearData()
      requires Valid()
      modifies this
      ensures Valid()
      ensures timeData == [] && forall i :: 0 <= i < numSensors ==> sensorData[i] == []
      ensures legend == old(legend) && pens == old(pens)
    {
      ghost var names, colors := legend, pens;
      timeData := [];
      var i := 0;
      while i < numSensors
        invariant 0 <= i <= numSensors == |lines| == |sensorData|
        invariant forall k :: 0 <= k < i ==> sensorData[k] == [] && lines[k] == Curve([], [])
        invariant timeData == [] && legend == names && pens == colors
      {
        sensorData := sensorData[i := []];
        lines := lines[i := Curve([], [])];
        i := i + 1;
      }
    }
  }

  // ----- Control panel -----

  /** What `get_sample_info` returns. */
  datatype SampleInfo = SampleInfo(name: string, sampleType: string, mode: string)

  /** The typed name, or "Unnamed Sample" when the field is empty; the chosen type; the fixed mode. */
  function GetSampleInfo(nameText: string, typeText: string): (info: SampleInfo)
    ensures info.name != []
    ensures nameText != [] <==> info.name == nameText
    ensures nameText == [] ==> info.name == "Unnamed Sample"
    ensures info.sampleType == typeText && info.mode == "Auto (FSM)"
  {
    SampleInfo(if nameText == [] then "Unnamed Sample" else nameText, typeText, "Auto (FSM)")
  }

  // ----- Connection panel -----

  /**
   * `get_available_ports`, given what the port scan did: None when it
   * raised, else the device names it found.
   */
  function GetAvailablePorts(scan: Option<seq<string>>): (ports: seq<string>)
    ensures ports != []
    ensures scan.None? ==> ports == ["Error Scanning"]
    ensures scan == Some([]) ==> ports == ["No Ports"]
    ensures scan.Some? && scan.value != [] ==> ports == scan.value
  {
    match scan
    case None => ["Error Scanning"]
    case Some(found) => if found == [] then ["No Ports"] else found
  }

  /** What `get_connection_settings` returns. */
  datatype Settings = Settings(host: string, port: nat, serialPort: string, baudRate: nat)

  /** The address field trimmed, the command port, the selected serial port and 9600 baud. */
  function GetConnectionSettings(ipText: string, serialPort: string): (s: Settings)
    ensures s.host == [] || (!IsSpace(s.host[0]) && !IsSpace(s.host[|s.host| - 1]))
    ensures |s.host| <= |ipText|
    ensures s.port == CmdPort && s.serialPort == serialPort && s.baudRate == 9600
  {
    Settings(Trim(ipText), CmdPort, serialPort, 9600)
  }

  /** An untouched address field gives the default host, and settings are stable under re-entry. */
  lemma SettingsOfTrimmedHost(ipText: string, serialPort: string)
    ensures GetConnectionSettings(DefaultHost, serialPort).host == DefaultHost
    ensures var s := GetConnectionSettings(ipText, serialPort);
      GetConnectionSettings(s.host, serialPort) == s
  {
    TrimUnchanged(DefaultHost);
    TrimUnchanged(Trim(ipText));
  }

  /** The connection panel's fields: the address text and the port selector. */
  class ConnectionPanel {
    var ipText: string
    var ports: seq<string>
    var selected: nat

    ghost predicate Valid()
      reads this
    {
      selected < |ports|
    }

    /** The panel as built: the default host and a first port scan. */
    constructor (scan: Option<seq<string>>)
      ensures Valid() && ipText == DefaultHost && ports == GetAvailablePorts(scan) && selected == 0
    {
      ipText := DefaultHost;
      ports := GetAvailablePorts(scan);
      selected := 0;
    }

    /** `refresh_ports`: the selector refilled from a new scan, its first entry selected. */
    method RefreshPorts(scan: Option<seq<string>>)
      modifies this
      ensures Valid() && ports == GetAvailablePorts(scan) && selected == 0 && ipText == old(ipText)
    {
      ports := GetAvailablePorts(scan);
      selected := 0;
    }

    /** The settings for the current field contents. */
    method ConnectionSettings() returns (s: Settings)
      requires Valid()
      ensures s == GetConnectionSettings(ipText, ports[selected])
    {
      s := Settings(Trim(ipText), CmdPort, ports[selected], 9600);
    }
  }
}
