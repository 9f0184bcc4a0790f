/**
 * The sampling session of frontend/gui/main_window.py: four per-sensor
 * lists and a list of times that a timer tick extends while sampling, the
 * real-time plot that mirrors them, and the CSV file the save button
 * writes from them.
 */
module MainWindow {
  import opened Wrappers
  import opened Text
  import opened Constants
  import opened Widgets
  import opened FileHandler
  import opened Decimal

  /** The session keeps four sensor lists. */
  const SessionSensors: nat := 4

  /** Seconds added to the session clock per tick: the update interval over 1000. */
  const TickSeconds: real := UpdateIntervalMs as real / 1000.0

  /** Successive times one tick apart. */
  ghost predicate Spaced(ts: seq<real>) {
    forall k :: 0 <= k < |ts| - 1 ==> ts[k + 1] == ts[k] + TickSeconds
  }

  /** Spaced times are strictly increasing. */
  lemma {:induction false} SpacedIncreasing(ts: seq<real>, i: nat, j: nat)
    requires Spaced(ts) && i < j < |ts|
    ensures ts[i] < ts[j]
    ensures ts[j] == ts[i] + (j - i) as real * TickSeconds
    decreases j - i
  {
    if j > i + 1 {
      SpacedIncreasing(ts, i, j - 1);
    }
  }

  /** The main window's session state, with its plot widget. */
  class Window {
    var isSampling: bool
    var samplingData: seq<seq<real>>
    var samplingTimes: seq<real>
    /** The session clock in seconds (None in the source until the first start; ticks never read it before). */
    var startTime: real
    const plot: SensorPlot

    /**
     * Four lists as long as the times, the times one tick apart and ending
     * at the clock, and the plot showing exactly the session's data (its
     * other three sensors empty).
     */
    ghost predicate Valid()
      reads this, plot
    {
      plot.Valid() && plot.numSensors == NumSensors &&
      |samplingData| == SessionSensors &&
      (forall i :: 0 <= i < SessionSensors ==> |samplingData[i]| == |samplingTimes|) &&
      Spaced(samplingTimes) &&
      (samplingTimes != [] ==> samplingTimes[|samplingTimes| - 1] == startTime) &&
      plot.timeData == samplingTimes &&
      (forall i :: 0 <= i < SessionSensors ==> plot.sensorData[i] == samplingData[i]) &&
      (forall i :: SessionSensors <= i < NumSensors ==> plot.sensorData[i] == [])
    }

    /** Not sampling, four empty lists and no times. */
    constructor ()
      ensures Valid() && fresh(plot)
      ensures !isSampling && samplingTimes == [] && samplingData == [[], [], [], []]
    {
      isSampling := false;
      samplingData := [[], [], [], []];
      samplingTimes := [];
      startTime := 0.0;
      plot := new SensorPlot("Real-Time Sensor Data");
    }

    /** Empty every list and the plot. */
    method ClearSession()
      requires Valid()
      modifies this, plot
      ensures Valid()
      ensures samplingTimes == [] && samplingData == [[], [], [], []]
      ensures isSampling == old(isSampling) && startTime == old(startTime)
    {
      plot.ClearData();
      samplingData := [[], [], [], []];
      samplingTimes := [];
    }

    /**
     * `on_start_sampling`: a nameless sample is refused and changes
     * nothing; otherwise the lists and the plot are emptied, the clock is
     * set to 0 and sampling begins.
     */
    method StartSampling(info: SampleInfo)
      requires Valid()
      modifies this, plot
      ensures Valid()
      ensures info.name == [] ==>
        isSampling == old(isSampling) && samplingTimes == old(samplingTimes) &&
        samplingData == old(samplingData) && startTime == old(startTime) && plot.timeData == old(plot.timeData)
      ensures info.name != [] ==>
        isSampling && startTime == 0.0 && samplingTimes == [] && samplingData == [[], [], [], []]
    {
      if info.name == [] {
        return;
      }
      ClearSession();
      isSampling := true;
      startTime := 0.0;
    }

    /** `on_stop_sampling`: sampling ends and the collected data stays. */
    method StopSampling()
      requires Valid()
      modifies this
      ensures Valid()
      ensures !isSampling
      ensures samplingTimes == old(samplingTimes) && samplingData == old(samplingData) && startTime == old(startTime)
    {
      isSampling := false;
    }

    /**
     * `on_update_plot`, given the tick's four sensor values and the
     * session's duration: nothing happens when not sampling; otherwise the
     * clock advances one tick, every list gains one entry, the plot gains
     * the point, and sampling stops once the clock reaches the duration.
     */
    method Tick(values: seq<real>, duration: real)
      requires Valid() && |values| == SessionSensors
      modifies this, plot
      ensures Valid()
      ensures !old(isSampling) ==>
        !isSampling && samplingTimes == old(samplingTimes) && samplingData == old(samplingData) && startTime == old(startTime)
      ensures old(isSampling) ==>
        startTime == old(startTime) + TickSeconds &&
        samplingTimes == old(samplingTimes) + [startTime] &&
        (forall i :: 0 <= i < SessionSensors ==> samplingData[i] == old(samplingData)[i] + [values[i]]) &&
        isSampling == (startTime < duration)
    {
      if !isSampling {
        return;
      }
      ghost var data0, times0 := samplingData, samplingTimes;
      startTime := startTime + TickSeconds;
      plot.AddDataPoint(startTime, values);
      ghost var clock := startTime;
      var i := 0;
      while i < SessionSensors
        modifies this
        invariant 0 <= i <= SessionSensors == |samplingData|
        invariant startTime == clock
        invariant forall k :: 0 <= k < i ==> samplingData[k] == data0[k] + [values[k]]
        invariant forall k :: i <= k < SessionSensors ==> samplingData[k] == data0[k]
        invariant samplingTimes == times0 && isSampling
      {
        samplingData := samplingData[i := samplingData[i] + [values[i]]];
        i := i + 1;
      }
      samplingTimes := samplingTimes + [startTime];
      SessionStep(times0, startTime - TickSeconds, startTime);
      if startTime >= duration {
        StopSampling();
      }
    }

    /** `on_clear_plot`: only a confirmed clear empties the lists and the plot. */
    method ClearPlot(confirmed: bool)
      requires Valid()
      modifies this, plot
      ensures Valid()
      ensures confirmed ==> samplingTimes == [] && samplingData == [[], [], [], []]
      ensures !confirmed ==> samplingTimes == old(samplingTimes) && samplingData == old(samplingData)
      ensures isSampling == old(isSampling) && startTime == old(startTime)
    {
      if confirmed {
        ClearSession();
      }
    }

    /** `on_save_data` on the current session (see `SaveSession`). */
    method SaveData(info: SampleInfo, timestamp: string, date: string, writable: bool)
      returns (r: SaveOutcome)
      requires Valid()
      ensures r == SessionSave(info, timestamp, date, samplingData, samplingTimes, writable)
    {
      r := SaveSession(info, timestamp, date, samplingData, samplingTimes, writable);
    }
  }

  /** One tick appended to spaced times that ended at the old clock keeps them spaced. */
  lemma SessionStep(times: seq<real>, clock: real, next: real)
    requires Spaced(times) && (times != [] ==> times[|times| - 1] == clock)
    requires next == clock + TickSeconds
    ensures Spaced(times + [next])
  {
    var ts := times + [next];
    forall k | 0 <= k < |ts| - 1
      ensures ts[k + 1] == ts[k] + TickSeconds
    {
      if k + 1 < |times| {
        assert ts[k + 1] == times[k + 1] && ts[k] == times[k];
      }
    }
  }

  // ----- Saving a session -----

  /** The name with every space replaced by '_'. */
  function Underscored(name: string): (r: string)
    ensures |r| == |name| && ' ' !in r
    ensures forall k :: 0 <= k < |name| ==> r[k] == (if name[k] == ' ' then '_' else name[k])
  {
    seq(|name|, k requires 0 <= k < |name| => if name[k] == ' ' then '_' else name[k])
  }

  /** `data/<name with '_' for spaces>_<timestamp>.csv`. */
  function SessionFileName(name: string, timestamp: string): (f: string)
    ensures StartsWith(f, "data/") && EndsWith(f, ".csv")
  {
    var f := "data/" + Underscored(name) + "_" + timestamp + ".csv";
    assert f[..5] == "data/";
    assert f[|f| - 4..] == ".csv";
    f
  }

  /** The six rows before the header: title, name, type, date, point count, an empty row (no mode row). */
  function SessionMetadata(name: string, sampleType: string, date: string, points: nat): (rows: Table)
    ensures |rows| == 6 && rows[5] == []
    ensures rows[1] == [Text("Sample Name"), Text(name)] && rows[4] == [Text("Number of Points"), Count(points)]
  {
    [[Text(ExportTitle)], [Text("Sample Name"), Text(name)], [Text("Sample Type"), Text(sampleType)],
     [Text("Export Date"), Text(date)], [Text("Number of Points"), Count(points)], []]
  }

  /** The column names "Sensor 1" to "Sensor 4". */
  const SessionColumns: seq<string> := ["Sensor 1", "Sensor 2", "Sensor 3", "Sensor 4"]

  /** The session file: metadata, the header, one five-cell row per time with "0" padding. */
  function SessionTable(name: string, sampleType: string, date: string,
                        data: seq<seq<real>>, times: seq<real>): (rows: Table)
    requires |data| == SessionSensors
    ensures |rows| == 7 + |times|
    ensures rows[..6] == SessionMetadata(name, sampleType, date, |times|)
    ensures rows[6] == Header(SessionColumns)
    ensures forall t :: 0 <= t < |times| ==> rows[7..][t] == DataRow(data, times, t) && |rows[7..][t]| == 5
  {
    var head := SessionMetadata(name, sampleType, date, |times|) + [Header(SessionColumns)];
    var rows := head + DataRows(data, times, |times|);
    assert rows[..6] == head[..6] == SessionMetadata(name, sampleType, date, |times|);
    assert rows[6] == head[6];
    assert rows[7..] == DataRows(data, times, |times|);
    forall t | 0 <= t < |times|
      ensures rows[7..][t] == DataRow(data, times, t)
    {
      DataRowsAt(data, times, |times|, t);
    }
    rows
  }

  /** What the save button did: refused without data, saved a file, or failed to write it. */
  datatype SaveOutcome = NoData | Saved(path: string, file: Table) | SaveFailed(path: string)

  /** `on_save_data`: the outcome for a session's data. */
  function SessionSave(info: SampleInfo, timestamp: string, date: string,
                       data: seq<seq<real>>, times: seq<real>, writable: bool): (r: SaveOutcome)
    requires |data| == SessionSensors
    ensures r.NoData? <==> times == []
    ensures !r.NoData? ==> r.path == SessionFileName(info.name, timestamp)
    ensures r.Saved? <==> times != [] && writable
  {
    if times == [] then NoData
    else if !writable then SaveFailed(SessionFileName(info.name, timestamp))
    else Saved(SessionFileName(info.name, timestamp), SessionTable(info.name, info.sampleType, date, data, times))
  }

  /** The save, row by row as the code writes them. */
  method SaveSession(info: SampleInfo, timestamp: string, date: string,
                     data: seq<seq<real>>, times: seq<real>, writable: bool)
    returns (r: SaveOutcome)
    requires |data| == SessionSensors
    ensures r == SessionSave(info, timestamp, date, data, times, writable)
  {
    if times == [] {
      return NoData;
    }
    var path := SessionFileName(info.name, timestamp);
    if !writable {
      return SaveFailed(path);
    }
    var head := SessionMetadata(info.name, info.sampleType, date, |times|) + [Header(SessionColumns)];
    var rows := head;
    var t := 0;
    while t < |times|
      invariant 0 <= t <= |times|
      invariant rows == head + DataRows(data, times, t)
    {
      var row := CsvRow(data, times, t);
      rows := rows + [row];
      t := t + 1;
    }
    return Saved(path, rows);
  }

  // ----- Converting a saved session -----

  /** The first cells of a session file's first seven lines. */
  predicate SessionHeads(lines: seq<seq<string>>, name: string) {
    |lines| >= 7 &&
    lines[0] == [ExportTitle] && lines[1] == ["Sample Name", name] &&
    |lines[2]| == 2 && lines[2][0] == "Sample Type" &&
    |lines[3]| == 2 && lines[3][0] == "Export Date" &&
    |lines[4]| == 2 && lines[4][0] == "Number of Points" &&
    lines[5] == [] && |lines[6]| >= 1 && lines[6][0] == TimeHeader
  }

  lemma SessionLineHeads(name: string, sampleType: string, date: string, data: seq<seq<real>>, times: seq<real>)
    requires |data| == SessionSensors
    ensures SessionHeads(Written(SessionTable(name, sampleType, date, data, times)), name)
  {
    var rows := SessionTable(name, sampleType, date, data, times);
    var lines := Written(rows);
    var meta := SessionMetadata(name, sampleType, date, |times|);
    var heads := Written(meta) + [WrittenRow(Header(SessionColumns))];
    forall k | 0 <= k < 7
      ensures lines[k] == heads[k]
    {
      if k < 6 {
        assert rows[k] == rows[..6][k];
      }
    }
    assert heads[..6] == Written(meta);
    SessionMetadataHeads(name, sampleType, date, |times|, heads);
  }

  /** The session metadata rows' text, followed by the header's, is how a session file begins. */
  lemma SessionMetadataHeads(name: string, sampleType: string, date: string, points: nat, heads: seq<seq<string>>)
    requires |heads| == 7 && heads[..6] == Written(SessionMetadata(name, sampleType, date, points))
    requires |heads[6]| >= 1 && heads[6][0] == TimeHeader
    ensures SessionHeads(heads, name)
  {
    var meta := SessionMetadata(name, sampleType, date, points);
    assert heads[4] == WrittenRow(meta[4]);
  }

  /** A file that begins like a session file scans to its sample name and a header at line 6. */
  lemma ScanOfSessionHeads(lines: seq<seq<string>>, name: string)
    requires SessionHeads(lines, name)
    ensures ScanOf(lines) == Scan(name, 6)
  {
    assert Limit(lines) >= 7;
    forall k | 0 <= k < 5
      ensures !IsHeader(lines[k])
    {
      NotTime(lines[k][0]);
    }
    assert TimeHeader[..4] == "Time";
    assert IsHeader(lines[6]);
    assert FirstHeader(lines, 0) == Some(6);
    assert !IsNameRow(lines[2]) && !IsNameRow(lines[3]) && !IsNameRow(lines[4]);
    assert !IsNameRow(lines[5]) && !IsNameRow(lines[6]);
    assert LastName(lines, 7) == Some(name);
  }

  /** The converter takes "Sensor 1" to "Sensor 4" from a session file's header. */
  lemma SessionHeaderNames(name: string, sampleType: string, date: string, data: seq<seq<real>>, times: seq<real>)
    requires |data| == SessionSensors
    ensures HeaderNames(Written(SessionTable(name, sampleType, date, data, times))[6]) == SessionColumns
  {
    var header := WrittenRow(Header(SessionColumns));
    assert header[1..] == SessionColumns by {
      forall k | 0 <= k < |SessionColumns|
        ensures header[1..][k] == SessionColumns[k]
      {
        assert header[1..][k] == header[k + 1];
      }
    }
  }

  /** The data rows of a session file read back as the rounded series. */
  lemma SessionBody(name: string, sampleType: string, date: string, data: seq<seq<real>>, times: seq<real>)
    requires |data| == SessionSensors
    ensures ParseRows(Written(SessionTable(name, sampleType, date, data, times))[7..], SessionSensors) ==
      Some(ReadBack(data, times, |times|))
  {
    var rows := SessionTable(name, sampleType, date, data, times);
    var body := Written(rows)[7..];
    forall t | 0 <= t < |times|
      ensures body[t] == WrittenRow(DataRow(data, times, t))
    {
      assert rows[7 + t] == rows[7..][t];
    }
    ReadExportAll(data, times, body);
  }

  /**
   * The library's conversion of a file the save button wrote gives the
   * document of the read-back series under the converted name: the columns
   * "Sensor 1" to "Sensor 4", times with three decimals, values with two
   * (0 where a list was short), the sample count kept and the interval
   * within a millisecond of the true one.
   */
  lemma SessionThenConvert(path: string, name: string, sampleType: string, date: string,
                           data: seq<seq<real>>, times: seq<real>, now: int)
    requires |data| == SessionSensors && |times| >= 1
    ensures var back := ReadBack(data, times, |times|);
      Convert(path, true, Written(SessionTable(name, sampleType, date, data, times)), now, true) ==
      Ok(Export(ConvertedName(path), EdgeImpulseDocument(SessionColumns, back.data, IntervalMs(back.times), now))) &&
      |back.times| == |times| && -1.0 <= IntervalMs(back.times) - IntervalMs(times) <= 1.0
  {
    var lines := Written(SessionTable(name, sampleType, date, data, times));
    SessionLineHeads(name, sampleType, date, data, times);
    ScanOfSessionHeads(lines, name);
    SessionHeaderNames(name, sampleType, date, data, times);
    SessionBody(name, sampleType, date, data, times);
    ReadBackTimesNear(data, times);
    ConvertOfParts(path, lines, now, name, 6, SessionColumns, ReadBack(data, times, |times|));
  }

  /**
   * Times a whole number of ticks from zero, one tick apart, as a session
   * started from a zero clock records them, are exact at three decimals:
   * they read back unchanged and the converted interval is 250 ms.
   */
  lemma SessionInterval(data: seq<seq<real>>, times: seq<real>, first: nat)
    requires Spaced(times) && |times| >= 2 && times[0] == first as real * TickSeconds
    ensures ReadBack(data, times, |times|).times == times
    ensures IntervalMs(ReadBack(data, times, |times|).times) == UpdateIntervalMs as real
  {
    var back := ReadBack(data, times, |times|).times;
    assert Pow10(3) == 1000;
    forall t | 0 <= t < |times|
      ensures back[t] == times[t] && times[t] == times[0] + t as real * TickSeconds
    {
      if t > 0 {
        SpacedIncreasing(times, 0, t);
      }
      TickExact(first + t, times[t]);
    }
    IntervalOfUniform(times, TickSeconds);
  }

  /** A whole number of ticks is exact at three decimals. */
  lemma TickExact(k: nat, x: real)
    requires x == k as real * TickSeconds
    ensures Rounded(x, 3) == x
  {
    assert Pow10(3) == 1000;
    assert x == (k * 250) as real / 1000.0;
    RoundedExact(k * 250, 3);
  }
}
