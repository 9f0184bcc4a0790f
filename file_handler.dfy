/**
 * Export and conversion of sampling sessions (frontend/utils/file_handler.py):
 * the CSV layout written by `save_as_csv`, the Edge Impulse acquisition
 * document written by `save_edge_impulse_json`, and `convert_csv_to_json`,
 * which reads an exported CSV back and writes the document. Files are
 * tables of cells; a per-sensor dictionary keyed 0..n-1 is a sequence.
 */
module FileHandler {
  import opened Wrappers
  import opened Text
  import opened Decimal

  /**
   * A value handed to `csv.writer`: text, a whole number (written by
   * `str()`), or a number already formatted with a fixed count of decimals.
   */
  datatype Cell = Text(text: string) | Count(n: nat) | Fixed(x: real, places: nat)

  /** A CSV file as rows of cells. */
  type Table = seq<seq<Cell>>

  /** The characters written for a cell. */
  function CellText(c: Cell): string {
    match c
    case Text(s) => s
    case Count(n) => NatToString(n)
    case Fixed(x, p) => FormatFixed(x, p)
  }

  /** The text of every cell of a row. */
  function WrittenRow(row: seq<Cell>): (line: seq<string>)
    ensures |line| == |row|
    ensures forall j :: 0 <= j < |row| ==> line[j] == CellText(row[j])
  {
    seq(|row|, j requires 0 <= j < |row| => CellText(row[j]))
  }

  /** The text of every cell of a table, row by row: what `csv.reader` gives back for the file. */
  function Written(rows: Table): (lines: seq<seq<string>>)
    ensures |lines| == |rows|
    ensures forall i :: 0 <= i < |rows| ==> lines[i] == WrittenRow(rows[i])
  {
    seq(|rows|, i requires 0 <= i < |rows| => WrittenRow(rows[i]))
  }

  const ExportTitle: string := "Electronic Nose Data Export"
  const TimeHeader: string := "Time (s)"

  /** Plain text cells. */
  function Texts(ss: seq<string>): (row: seq<Cell>)
    ensures |row| == |ss|
    ensures forall k :: 0 <= k < |ss| ==> row[k] == Text(ss[k])
  {
    seq(|ss|, k requires 0 <= k < |ss| => Text(ss[k]))
  }

  /** The seven rows before the header: title, name, type, date, mode, point count, an empty row. */
  function Metadata(name: string, sampleType: string, date: string, points: nat): (rows: Table)
    ensures |rows| == 7 && rows[6] == []
    ensures rows[1] == [Text("Sample Name"), Text(name)] && rows[5] == [Text("Number of Points"), Count(points)]
  {
    [[Text(ExportTitle)], [Text("Sample Name"), Text(name)], [Text("Sample Type"), Text(sampleType)],
     [Text("Export Date"), Text(date)], [Text("Mode"), Text("Auto FSM")],
     [Text("Number of Points"), Count(points)], []]
  }

  /** The header row: the time column, then one column per sensor name. */
  function Header(names: seq<string>): (row: seq<Cell>)
    ensures |row| == 1 + |names| && row[0] == Text(TimeHeader)
    ensures forall k :: 0 <= k < |names| ==> row[1..][k] == Text(names[k])
  {
    var row := [Text(TimeHeader)] + Texts(names);
    assert row[1..] == Texts(names);
    row
  }

  /** The cell for sensor s at time index t: two decimals, or "0" past the end of its list. */
  function DataCell(data: seq<seq<real>>, s: nat, t: nat): Cell
    requires s < |data|
  {
    if t < |data[s]| then Fixed(data[s][t], 2) else Text("0")
  }

  /** The first s sensor cells of time index t. */
  function Cells(data: seq<seq<real>>, t: nat, s: nat): (cells: seq<Cell>)
    requires s <= |data|
    ensures |cells| == s
  {
    if s == 0 then [] else Cells(data, t, s - 1) + [DataCell(data, s - 1, t)]
  }

  lemma {:induction false} CellsAt(data: seq<seq<real>>, t: nat, s: nat, k: nat)
    requires k < s <= |data|
    ensures Cells(data, t, s)[k] == DataCell(data, k, t)
  {
    if k < s - 1 {
      CellsAt(data, t, s - 1, k);
    }
  }

  /** Data row t: the time with three decimals, then one cell per sensor. */
  function DataRow(data: seq<seq<real>>, times: seq<real>, t: nat): (row: seq<Cell>)
    requires t < |times|
    ensures |row| == 1 + |data| && row[0] == Fixed(times[t], 3)
    ensures forall s :: 0 <= s < |data| ==> row[1..][s] == DataCell(data, s, t)
  {
    var row := [Fixed(times[t], 3)] + Cells(data, t, |data|);
    assert row[1..] == Cells(data, t, |data|);
    forall s | 0 <= s < |data|
      ensures row[1..][s] == DataCell(data, s, t)
    {
      CellsAt(data, t, |data|, s);
    }
    row
  }

  /** The first n data rows. */
  function DataRows(data: seq<seq<real>>, times: seq<real>, n: nat): (rows: Table)
    requires n <= |times|
    ensures |rows| == n
  {
    if n == 0 then [] else DataRows(data, times, n - 1) + [DataRow(data, times, n - 1)]
  }

  lemma {:induction false} DataRowsAt(data: seq<seq<real>>, times: seq<real>, n: nat, t: nat)
    requires t < n <= |times|
    ensures DataRows(data, times, n)[t] == DataRow(data, times, t)
  {
    if t < n - 1 {
      DataRowsAt(data, times, n - 1, t);
    }
  }

  /** The whole CSV file: metadata, the header, one row per time value. */
  function CsvTable(name: string, sampleType: string, date: string,
                    data: seq<seq<real>>, times: seq<real>, names: seq<string>): (rows: Table)
    ensures |rows| == 8 + |times|
    ensures rows[..7] == Metadata(name, sampleType, date, |times|)
    ensures rows[7] == Header(names)
    ensures forall t :: 0 <= t < |times| ==> rows[8..][t] == DataRow(data, times, t)
  {
    var head := Metadata(name, sampleType, date, |times|) + [Header(names)];
    var rows := head + DataRows(data, times, |times|);
    assert rows[8..] == DataRows(data, times, |times|);
    assert rows[..7] == head[..7];
    forall t | 0 <= t < |times|
      ensures rows[8..][t] == DataRow(data, times, t)
    {
      DataRowsAt(data, times, |times|, t);
    }
    rows
  }

  /** `data.get(key, 'Unknown')`. */
  function OrUnknown(v: Option<string>): string {
    v.GetOr("Unknown")
  }

  /**
   * `save_as_csv`: builds the rows cell by cell and writes them; the file
   * is written only when `writable` (otherwise the error is caught and the
   * result is false). `date` is the export time's ISO text.
   */
  method SaveAsCsv(name: Option<string>, sampleType: Option<string>, date: string,
                   data: seq<seq<real>>, times: seq<real>, names: seq<string>, writable: bool)
    returns (ok: bool, file: Table)
    ensures ok == writable
    ensures ok ==> file == CsvTable(OrUnknown(name), OrUnknown(sampleType), date, data, times, names)
    ensures !ok ==> file == []
  {
    if !writable {
      return false, [];
    }
    var head := Metadata(OrUnknown(name), OrUnknown(sampleType), date, |times|);
    head := head + [Header(names)];
    var rows := head;
    var t := 0;
    while t < |times|
      invariant 0 <= t <= |times|
      invariant rows == head + DataRows(data, times, t)
    {
      var row := CsvRow(data, times, t);
      rows := rows + [row];
      t := t + 1;
    }
    return true, rows;
  }

  /** One data row, cell by cell. */
  method CsvRow(data: seq<seq<real>>, times: seq<real>, t: nat) returns (row: seq<Cell>)
    requires t < |times|
    ensures row == DataRow(data, times, t)
  {
    var first := Fixed(times[t], 3);
    row := [first];
    var s := 0;
    while s < |data|
      invariant 0 <= s <= |data|
      invariant row == [first] + Cells(data, t, s)
    {
      var cell := Text("0");
      if t < |data[s]| {
        cell := Fixed(data[s][t], 2);
      }
      row := row + [cell];
      s := s + 1;
    }
  }

  // ----- Edge Impulse document -----

  /** `len(sensor_data[0])`, or 0 when there is no sensor 0. */
  function NumPoints(data: seq<seq<real>>): nat {
    if |data| > 0 then |data[0]| else 0
  }

  /** Sensor j's value at point i, 0.0 when the sensor or the point is missing. */
  function ValueAt(data: seq<seq<real>>, j: nat, i: nat): real {
    if j < |data| && i < |data[j]| then data[j][i] else 0.0
  }

  /** The row-major values matrix: one row per point of sensor 0, one column per sensor name. */
  function Matrix(names: seq<string>, data: seq<seq<real>>): (values: seq<seq<real>>)
    ensures |values| == NumPoints(data)
    ensures forall i :: 0 <= i < |values| ==> |values[i]| == |names|
    ensures forall i, j :: 0 <= i < |values| && 0 <= j < |names| ==> values[i][j] == ValueAt(data, j, i)
  {
    seq(NumPoints(data), i requires 0 <= i < NumPoints(data) =>
      seq(|names|, j requires 0 <= j < |names| => ValueAt(data, j, i)))
  }

  /** The transposition loop of `save_edge_impulse_json`. */
  method ValuesMatrix(names: seq<string>, data: seq<seq<real>>) returns (values: seq<seq<real>>)
    ensures values == Matrix(names, data)
  {
    var numPoints := 0;
    if |data| > 0 {
      numPoints := |data[0]|;
    }
    ghost var expected := Matrix(names, data);
    values := [];
    var i := 0;
    while i < numPoints
      invariant 0 <= i <= numPoints == NumPoints(data)
      invariant values == expected[..i]
    {
      var row := MatrixRow(names, data, i);
      assert expected[..i + 1] == expected[..i] + [expected[i]];
      values := values + [row];
      i := i + 1;
    }
    assert expected[..i] == expected;
  }

  /** Row i of the matrix: every sensor's value at point i. */
  method MatrixRow(names: seq<string>, data: seq<seq<real>>, i: nat) returns (row: seq<real>)
    requires i < NumPoints(data)
    ensures row == Matrix(names, data)[i]
  {
    ghost var expected := Matrix(names, data)[i];
    row := [];
    var j := 0;
    while j < |names|
      invariant 0 <= j <= |names|
      invariant row == expected[..j]
    {
      var val := 0.0;
      if j < |data| && i < |data[j]| {
        val := data[j][i];
      }
      assert expected[..j + 1] == expected[..j] + [expected[j]];
      row := row + [val];
      j := j + 1;
    }
    assert expected[..j] == expected;
  }

  datatype SensorInfo = SensorInfo(name: string, units: string)
  datatype Protected = Protected(ver: string, alg: string, iat: int)
  datatype Payload = Payload(deviceName: string, deviceType: string, intervalMs: real,
                             sensors: seq<SensorInfo>, values: seq<seq<real>>)
  /** The Edge Impulse data acquisition document. */
  datatype Document = Document(protected: Protected, signature: string, payload: Payload)

  /** One sensor entry per name, in order, measured in volts. */
  function SensorInfos(names: seq<string>): (infos: seq<SensorInfo>)
    ensures |infos| == |names|
    ensures forall k :: 0 <= k < |names| ==> infos[k].name == names[k] && infos[k].units == "V"
  {
    seq(|names|, k requires 0 <= k < |names| => SensorInfo(names[k], "V"))
  }

  /** The document: unsigned ("alg" none, signature "0"), issued at `now` seconds. */
  function EdgeImpulseDocument(names: seq<string>, data: seq<seq<real>>, intervalMs: real, now: int): (d: Document)
    ensures d.payload.intervalMs == intervalMs && d.protected.iat == now
    ensures |d.payload.sensors| == |names| && forall k :: 0 <= k < |names| ==> d.payload.sensors[k].name == names[k]
    ensures |d.payload.values| == NumPoints(data)
    ensures forall i :: 0 <= i < |d.payload.values| ==> |d.payload.values[i]| == |names|
    ensures forall i, j :: 0 <= i < |d.payload.values| && 0 <= j < |names| ==> d.payload.values[i][j] == ValueAt(data, j, i)
  {
    Document(Protected("v1", "none", now), "0",
      Payload("ENose-UnoR4", "ELECTRONIC_NOSE", intervalMs, SensorInfos(names), Matrix(names, data)))
  }

  /** A name ending in ".json" is kept; otherwise every ".csv" becomes ".json". */
  function JsonFileName(filename: string): (r: string)
    ensures EndsWith(filename, ".json") || !Occurs(filename, ".csv") ==> r == filename
  {
    ReplaceAllAbsent(filename, ".csv", ".json");
    if EndsWith(filename, ".json") then filename else ReplaceAll(filename, ".csv", ".json")
  }

  /** For a base name without '.', "base.csv" and "base.json" both name "base.json". */
  lemma JsonFileNameOfCsv(base: string)
    requires '.' !in base
    ensures JsonFileName(base + ".csv") == base + ".json"
    ensures JsonFileName(base + ".json") == base + ".json"
    ensures ReplaceAll(base + ".csv", ".csv", ".json") == base + ".json"
  {
    var c := base + ".csv";
    var j := base + ".json";
    assert j[|j| - 5..] == ".json";
    assert !EndsWith(c, ".json") by {
      if |c| >= 5 {
        assert c[|c| - 5..][1] == c[|c| - 4] == '.';
      }
    }
    ReplaceAllSuffix(base, ".csv", ".json");
  }

  /** The written document and where it went. */
  datatype Export = Export(path: string, doc: Document)

  /**
   * `save_edge_impulse_json`: the document for these names and lists,
   * written under the JSON name when `writable`. The sample name is not
   * used. `now` is the issue time in whole seconds.
   */
  method SaveEdgeImpulseJson(filename: string, sampleName: string, names: seq<string>,
                             data: seq<seq<real>>, intervalMs: real, now: int, writable: bool)
    returns (r: Option<Export>)
    ensures r.Some? <==> writable
    ensures r.Some? ==> r.value == Export(JsonFileName(filename), EdgeImpulseDocument(names, data, intervalMs, now))
  {
    var values := ValuesMatrix(names, data);
    var doc := Document(Protected("v1", "none", now), "0",
      Payload("ENose-UnoR4", "ELECTRONIC_NOSE", intervalMs, SensorInfos(names), values));
    var path := filename;
    if !EndsWith(filename, ".json") {
      path := ReplaceAll(filename, ".csv", ".json");
    }
    if !writable {
      return None;
    }
    return Some(Export(path, doc));
  }

  // ----- Reading an exported CSV back -----

  /** Python `float(cell)`: white space around the number is ignored. */
  function ParseFloat(cell: string): Option<real> {
    ParseDecimal(Trim(cell))
  }

  /** The header line: its first cell starts with "Time". */
  predicate IsHeader(line: seq<string>) {
    |line| > 0 && StartsWith(line[0], "Time")
  }

  predicate IsNameRow(line: seq<string>) {
    |line| >= 2 && line[0] == "Sample Name"
  }

  /** The metadata scan looks at no more than the first fifteen lines. */
  const ScanLimit: nat := 15

  function Limit(lines: seq<seq<string>>): (n: nat)
    ensures n <= |lines| && n <= ScanLimit
  {
    if |lines| < ScanLimit then |lines| else ScanLimit
  }

  /** The first header line at index i or later, within the scan limit. */
  function FirstHeader(lines: seq<seq<string>>, i: nat): (h: Option<nat>)
    ensures h.Some? ==> i <= h.value < Limit(lines) && IsHeader(lines[h.value])
    ensures h.Some? ==> forall k :: i <= k < h.value ==> !IsHeader(lines[k])
    ensures h.None? ==> forall k :: i <= k < Limit(lines) ==> !IsHeader(lines[k])
    decreases Limit(lines) - i
  {
    if i >= Limit(lines) then None
    else if IsHeader(lines[i]) then Some(i)
    else FirstHeader(lines, i + 1)
  }

  /** The value of the last name row among the first `end` lines. */
  function LastName(lines: seq<seq<string>>, end: nat): (name: Option<string>)
    requires end <= |lines|
    ensures name.None? <==> forall k :: 0 <= k < end ==> !IsNameRow(lines[k])
    ensures name.Some? ==>
      exists k :: 0 <= k < end && IsNameRow(lines[k]) && lines[k][1] == name.value &&
        forall j :: k < j < end ==> !IsNameRow(lines[j])
  {
    if end == 0 then None
    else if IsNameRow(lines[end - 1]) then Some(lines[end - 1][1])
    else LastName(lines, end - 1)
  }

  /** What the metadata scan finds: the sample name and the header's index. */
  datatype Scan = Scan(name: string, start: nat)

  /**
   * The scan stops at the first header; the name is the last name row up to
   * and including it, "Unknown" without one; the start stays 0 without a
   * header.
   */
  function ScanOf(lines: seq<seq<string>>): (sc: Scan)
    ensures sc.start > 0 ==> sc.start < |lines| && IsHeader(lines[sc.start])
    ensures sc.name != "Unknown" ==> |lines| > 0
  {
    var h := FirstHeader(lines, 0);
    var end := if h.Some? then h.value + 1 else Limit(lines);
    Scan(LastName(lines, end).GetOr("Unknown"), h.GetOr(0))
  }

  /** The format check: a file with neither a header past line 0 nor a sample name is refused. */
  predicate Recognised(sc: Scan) {
    !(sc.start == 0 && sc.name == "Unknown")
  }

  /** `convert_csv_to_json`'s metadata loop, which breaks at the header. */
  method ScanMetadata(lines: seq<seq<string>>) returns (sc: Scan)
    ensures sc == ScanOf(lines)
  {
    var name := "Unknown";
    var start := 0;
    var limit := if |lines| < ScanLimit then |lines| else ScanLimit;
    var i := 0;
    while i < limit
      invariant 0 <= i <= limit == Limit(lines)
      invariant FirstHeader(lines, i) == FirstHeader(lines, 0)
      invariant name == LastName(lines, i).GetOr("Unknown")
      invariant start == 0
    {
      var line := lines[i];
      if |line| >= 2 && line[0] == "Sample Name" {
        name := line[1];
      }
      if |line| > 0 && StartsWith(line[0], "Time") {
        start := i;
        break;
      }
      i := i + 1;
    }
    sc := Scan(name, start);
  }

  /** How the data loop treats one row. */
  datatype RowRead =
    | Skipped                                  // fewer than two cells, or no time
    | TooShort                                 // a value cell is missing: IndexError ends the conversion
    | Parsed(time: real, values: seq<real>)    // the time, and the values read before any non-number

  /** What `float()` makes of each cell of a row; None where it raises ValueError. */
  function Numbers(row: seq<string>): (xs: seq<Option<real>>)
    ensures |xs| == |row|
    ensures forall k :: 0 <= k < |row| ==> xs[k] == ParseFloat(row[k])
  {
    seq(|row|, k requires 0 <= k < |row| => ParseFloat(row[k]))
  }

  /**
   * The values of sensors s, s+1, ... from a row's numbers (sensor k in
   * column k+1): None when the row ends before sensor n-1, cut short at the
   * first cell that is not a number.
   */
  function RowValues(xs: seq<Option<real>>, n: nat, s: nat): (vs: Option<seq<real>>)
    requires s <= n
    ensures vs.Some? ==> |vs.value| <= n - s
    decreases n - s
  {
    if s == n then Some([])
    else if s + 1 >= |xs| then None
    else
      match xs[s + 1]
      case None => Some([])
      case Some(v) =>
        match RowValues(xs, n, s + 1)
        case None => None
        case Some(rest) => Some([v] + rest)
  }

  /** A row, given the numbers of its cells. */
  function ReadNumbers(xs: seq<Option<real>>, n: nat): (r: RowRead)
    ensures r.Parsed? ==> |r.values| <= n
  {
    if |xs| < 2 then Skipped
    else
      match xs[0]
      case None => Skipped
      case Some(t) =>
        match RowValues(xs, n, 0)
        case None => TooShort
        case Some(vs) => Parsed(t, vs)
  }

  function ReadRow(row: seq<string>, n: nat): (r: RowRead)
    ensures r.Parsed? ==> |r.values| <= n
  {
    ReadNumbers(Numbers(row), n)
  }

  /** The collected times and one value list per sensor. */
  datatype Series = Series(times: seq<real>, data: seq<seq<real>>)

  /** Sensor k's list gains vs[k], for the sensors vs reaches. */
  function AddValues(data: seq<seq<real>>, vs: seq<real>): (d: seq<seq<real>>)
    requires |vs| <= |data|
    ensures |d| == |data|
  {
    seq(|data|, k requires 0 <= k < |data| => if k < |vs| then data[k] + [vs[k]] else data[k])
  }

  function AddRow(acc: Series, r: RowRead): Option<Series>
    requires r.Parsed? ==> |r.values| <= |acc.data|
  {
    match r
    case Skipped => Some(acc)
    case TooShort => None
    case Parsed(t, vs) => Some(Series(acc.times + [t], AddValues(acc.data, vs)))
  }

  function NoSeries(n: nat): (s: Series)
    ensures s.times == [] && |s.data| == n
    ensures forall k :: 0 <= k < n ==> s.data[k] == []
  {
    Series([], seq(n, _ => []))
  }

  /** What the data loop collects from `rows` for n sensors; None when a row is too short. */
  function ParseRows(rows: seq<seq<string>>, n: nat): (r: Option<Series>)
    ensures r.Some? ==> |r.value.data| == n
    decreases |rows|
  {
    if rows == [] then Some(NoSeries(n))
    else
      match ParseRows(rows[..|rows| - 1], n)
      case None => None
      case Some(acc) => AddRow(acc, ReadRow(rows[|rows| - 1], n))
  }

  /** The values so far in front of the values still to come. */
  function Prepend(got: seq<real>, rest: Option<seq<real>>): Option<seq<real>> {
    match rest
    case None => None
    case Some(vs) => Some(got + vs)
  }

  lemma PrependNothing(r: Option<seq<real>>)
    ensures Prepend([], r) == r
  {
    if r.Some? {
      assert [] + r.value == r.value;
    }
  }

  lemma PrependValue(got: seq<real>, v: real, r: Option<seq<real>>)
    ensures Prepend(got + [v], r) == Prepend(got, Prepend([v], r))
  {
    if r.Some? {
      assert (got + [v]) + r.value == got + ([v] + r.value);
    }
  }

  lemma AddValuesSnoc(data: seq<seq<real>>, got: seq<real>, v: real)
    requires |got| < |data|
    ensures AddValues(data, got)[|got| := data[|got|] + [v]] == AddValues(data, got + [v])
  {
  }

  /** The data loop's body for one row: the time first, then each sensor's value in turn. */
  method ReadRowInto(xs: seq<Option<real>>, n: nat, acc: Series) returns (r: Option<Series>)
    requires |acc.data| == n
    ensures r == AddRow(acc, ReadNumbers(xs, n))
  {
    if |xs| < 2 {
      return Some(acc);
    }
    var t := xs[0];
    if t.None? {
      return Some(acc);
    }
    var times := acc.times + [t.value];
    var data := acc.data;
    ghost var got: seq<real> := [];
    PrependNothing(RowValues(xs, n, 0));
    var s := 0;
    while s < n
      invariant 0 <= s <= n && |got| == s
      invariant data == AddValues(acc.data, got)
      invariant Prepend(got, RowValues(xs, n, s)) == RowValues(xs, n, 0)
    {
      if s + 1 >= |xs| {
        return None;
      }
      var v := xs[s + 1];
      if v.None? {
        assert got + [] == got;
        break;
      }
      AddValuesSnoc(acc.data, got, v.value);
      PrependValue(got, v.value, RowValues(xs, n, s + 1));
      data := data[s := data[s] + [v.value]];
      got := got + [v.value];
      s := s + 1;
    }
    assert got + [] == got;
    assert RowValues(xs, n, 0) == Some(got);
    return Some(Series(times, data));
  }

  /** `convert_csv_to_json`'s data loop over the lines after the header. */
  method ParseDataRows(rows: seq<seq<string>>, n: nat) returns (r: Option<Series>)
    ensures r == ParseRows(rows, n)
  {
    var acc := NoSeries(n);
    var i := 0;
    while i < |rows|
      invariant 0 <= i <= |rows|
      invariant ParseRows(rows[..i], n) == Some(acc)
    {
      assert rows[..i + 1][..i] == rows[..i];
      var next := ReadRowInto(Numbers(rows[i]), n, acc);
      if next.None? {
        assert ParseRows(rows[..i + 1], n) == None;
        ParseRowsNone(rows, n, i + 1);
        return None;
      }
      acc := next.value;
      i := i + 1;
    }
    assert rows[..i] == rows;
    r := Some(acc);
  }

  /** Once a row is too short, no later row brings the conversion back. */
  lemma {:induction false} ParseRowsNone(rows: seq<seq<string>>, n: nat, i: nat)
    requires i <= |rows| && ParseRows(rows[..i], n) == None
    ensures ParseRows(rows, n) == None
    decreases |rows| - i
  {
    if i < |rows| {
      var p := rows[..i + 1];
      assert p != [] && p[..|p| - 1] == rows[..i];
      assert ParseRows(p, n) == None;
      ParseRowsNone(rows, n, i + 1);
    } else {
      assert rows[..i] == rows;
    }
  }

  /** No sensor's list grows longer than the list of times; each grows by at most one per row. */
  lemma {:induction false} ParseRowsBound(rows: seq<seq<string>>, n: nat)
    ensures ParseRows(rows, n).Some? ==>
      |ParseRows(rows, n).value.times| <= |rows| &&
      forall k :: 0 <= k < n ==> |ParseRows(rows, n).value.data[k]| <= |ParseRows(rows, n).value.times|
    decreases |rows|
  {
    if rows != [] {
      ParseRowsBound(rows[..|rows| - 1], n);
    }
  }

  /**
   * A row (given by its cells' numbers) whose time and first value are
   * numbers but whose second value is not adds a time and a value for sensor 0 only: from then on the later
   * sensors' lists are shorter than the list of times.
   */
  lemma PartialRow(acc: Series, xs: seq<Option<real>>, n: nat, t: real, v: real)
    requires n >= 2 && |acc.data| == n && |xs| >= 3
    requires xs[0] == Some(t) && xs[1] == Some(v) && xs[2].None?
    ensures AddRow(acc, ReadNumbers(xs, n)) == Some(Series(acc.times + [t], acc.data[0 := acc.data[0] + [v]]))
  {
    assert RowValues(xs, n, 1) == Some([]);
    assert [v] + [] == [v];
    assert RowValues(xs, n, 0) == Some([v]);
    assert AddValues(acc.data, [v]) == acc.data[0 := acc.data[0] + [v]];
  }

  // ----- Sampling interval -----

  /** How many successive differences the estimate averages: at most five. */
  function DiffCount(times: seq<real>): nat
    requires |times| >= 2
  {
    if |times| - 1 < 5 then |times| - 1 else 5
  }

  /** The sum of the first k successive differences. */
  function SumDiffs(times: seq<real>, k: nat): real
    requires k < |times|
  {
    if k == 0 then 0.0 else SumDiffs(times, k - 1) + (times[k] - times[k - 1])
  }

  /** The differences telescope: their sum is the distance from the first time. */
  lemma {:induction false} Telescope(times: seq<real>, k: nat)
    requires k < |times|
    ensures SumDiffs(times, k) == times[k] - times[0]
  {
    if k > 0 {
      Telescope(times, k - 1);
    }
  }

  /**
   * The interval in milliseconds: 100 for fewer than two times, otherwise
   * the mean of the first (up to five) successive differences, times 1000.
   */
  function IntervalMs(times: seq<real>): (ms: real)
    ensures |times| < 2 ==> ms == 100.0
    ensures |times| >= 2 ==> ms == SumDiffs(times, DiffCount(times)) / DiffCount(times) as real * 1000.0
  {
    if |times| < 2 then 100.0
    else
      Telescope(times, DiffCount(times));
      (times[DiffCount(times)] - times[0]) / DiffCount(times) as real * 1000.0
  }

  /**
   * Moving every time by at most half a millisecond moves the estimate by
   * at most one millisecond.
   */
  lemma IntervalNear(times: seq<real>, near: seq<real>)
    requires |near| == |times|
    requires forall t :: 0 <= t < |times| ==> -0.0005 <= near[t] - times[t] <= 0.0005
    ensures -1.0 <= IntervalMs(near) - IntervalMs(times) <= 1.0
  {
    if |times| >= 2 {
      var k := DiffCount(times);
      assert DiffCount(near) == k;
      var e := (near[k] - near[0]) - (times[k] - times[0]);
      assert -0.001 <= e <= 0.001;
      DiffShare(near[k] - near[0], times[k] - times[0], k as real);
    }
  }

  /** A difference of at most 0.001 between two totals, shared out n >= 1 ways and scaled by 1000, is at most 1. */
  lemma DiffShare(a: real, b: real, n: real)
    requires n >= 1.0 && -0.001 <= a - b <= 0.001
    ensures -1.0 <= a / n * 1000.0 - b / n * 1000.0 <= 1.0
  {
    assert a / n - b / n == (a - b) / n;
    assert -0.001 <= (a - b) / n <= 0.001;
  }

  /** For evenly spaced times the estimate is the spacing in milliseconds. */
  lemma IntervalOfUniform(times: seq<real>, step: real)
    requires |times| >= 2
    requires forall i :: 0 <= i < |times| ==> times[i] == times[0] + i as real * step
    ensures IntervalMs(times) == step * 1000.0
  {
    var k := DiffCount(times);
    assert times[k] - times[0] == k as real * step;
  }

  /** The code's loop: collect the differences, take their mean, scale to milliseconds. */
  method EstimateIntervalMs(times: seq<real>) returns (ms: real)
    ensures ms == IntervalMs(times)
  {
    ms := 100.0;
    if |times| > 1 {
      var count := if |times| - 1 < 5 then |times| - 1 else 5;
      var sum := 0.0;
      var k := 0;
      while k < count
        invariant 0 <= k <= count == DiffCount(times)
        invariant sum == SumDiffs(times, k)
      {
        sum := sum + (times[k + 1] - times[k]);
        k := k + 1;
      }
      Telescope(times, count);
      ms := sum / count as real * 1000.0;
    }
  }

  // ----- The conversion -----

  datatype ConvertError =
    | MissingFile      // the CSV file does not exist
    | UnknownFormat    // no header past the first line and no sample name
    | RowTooShort      // a data row lacks a value cell (IndexError)
    | NoTimes          // no data row had a time
    | WriteFailed      // the JSON file could not be written

  /** The JSON name: every ".csv" becomes ".json", and the writer applies its own rule on top. */
  function ConvertedName(csvName: string): string {
    JsonFileName(ReplaceAll(csvName, ".csv", ".json"))
  }

  /** The sensor names: the header's cells after the first. */
  function HeaderNames(header: seq<string>): seq<string> {
    if |header| >= 1 then header[1..] else []
  }

  /**
   * `convert_csv_to_json` on the file's rows: scan the metadata, take the
   * sensor names from the header, collect the data rows, estimate the
   * interval and write the document issued at `now`.
   */
  function Convert(csvName: string, found: bool, lines: seq<seq<string>>, now: int, writable: bool)
    : (r: Result<Export, ConvertError>)
    ensures r.Ok? ==> found && Recognised(ScanOf(lines)) && writable
    ensures r.Ok? ==> r.value.path == ConvertedName(csvName)
  {
    if !found then Err(MissingFile)
    else
      var sc := ScanOf(lines);
      if !Recognised(sc) then Err(UnknownFormat)
      else
        var names := HeaderNames(lines[sc.start]);
        Finish(csvName, names, ParseRows(lines[sc.start + 1..], |names|), now, writable)
  }

  /**
   * Every way the conversion fails, in the order the code checks them: a
   * missing file, an unrecognised layout, a data row without a value cell
   * (the caught IndexError), no times at all, then a failed write.
   */
  lemma ConvertFailures(csvName: string, found: bool, lines: seq<seq<string>>, now: int, writable: bool)
    ensures !found ==> Convert(csvName, found, lines, now, writable) == Err(MissingFile)
    ensures found && !Recognised(ScanOf(lines)) ==> Convert(csvName, found, lines, now, writable) == Err(UnknownFormat)
    ensures found && Recognised(ScanOf(lines)) ==>
      var series := ParseRows(lines[ScanOf(lines).start + 1..], |HeaderNames(lines[ScanOf(lines).start])|);
      (series.None? ==> Convert(csvName, found, lines, now, writable) == Err(RowTooShort)) &&
      (series.Some? && series.value.times == [] ==> Convert(csvName, found, lines, now, writable) == Err(NoTimes)) &&
      (series.Some? && series.value.times != [] && !writable ==> Convert(csvName, found, lines, now, writable) == Err(WriteFailed)) &&
      (series.Some? && series.value.times != [] && writable ==> Convert(csvName, found, lines, now, writable).Ok?)
  {
  }

  /** The end of the conversion, once the data rows have been read. */
  function Finish(csvName: string, names: seq<string>, series: Option<Series>, now: int, writable: bool)
    : Result<Export, ConvertError>
  {
    match series
    case None => Err(RowTooShort)
    case Some(s) =>
      if s.times == [] then Err(NoTimes)
      else if !writable then Err(WriteFailed)
      else Ok(Export(ConvertedName(csvName), EdgeImpulseDocument(names, s.data, IntervalMs(s.times), now)))
  }

  /** The conversion, step by step as the code performs it. */
  method ConvertCsvToJson(csvName: string, found: bool, lines: seq<seq<string>>, now: int, writable: bool)
    returns (r: Result<Export, ConvertError>)
    ensures r == Convert(csvName, found, lines, now, writable)
  {
    if !found {
      return Err(MissingFile);
    }
    var sc := ScanMetadata(lines);
    if sc.start == 0 && sc.name == "Unknown" {
      return Err(UnknownFormat);
    }
    var header := lines[sc.start];
    var names := if |header| >= 1 then header[1..] else [];
    var series := ParseDataRows(lines[sc.start + 1..], |names|);
    assert Convert(csvName, found, lines, now, writable) == Finish(csvName, names, series, now, writable);
    if series.None? {
      return Err(RowTooShort);
    }
    if series.value.times == [] {
      return Err(NoTimes);
    }
    var ms := EstimateIntervalMs(series.value.times);
    var jsonName := ReplaceAll(csvName, ".csv", ".json");
    var written := SaveEdgeImpulseJson(jsonName, sc.name, names, series.value.data, ms, now, writable);
    if written.None? {
      return Err(WriteFailed);
    }
    return Ok(written.value);
  }

  // ----- Export, then conversion -----

  /** What the converter reads back from the cell of sensor s at time index t. */
  function CellValue(data: seq<seq<real>>, s: nat, t: nat): real
    requires s < |data|
  {
    if t < |data[s]| then Rounded(data[s][t], 2) else 0.0
  }

  /** The sensor values read back from data row t of an export. */
  function RowBack(data: seq<seq<real>>, t: nat): (vs: seq<real>)
    ensures |vs| == |data|
    ensures forall s :: 0 <= s < |data| ==> vs[s] == CellValue(data, s, t)
  {
    seq(|data|, s requires 0 <= s < |data| => CellValue(data, s, t))
  }

  /** The series read back from the first m data rows of an export. */
  function ReadBack(data: seq<seq<real>>, times: seq<real>, m: nat): Series
    requires m <= |times|
  {
    Series(seq(m, t requires 0 <= t < m => Rounded(times[t], 3)),
           seq(|data|, s requires 0 <= s < |data| => seq(m, t requires 0 <= t < m => CellValue(data, s, t))))
  }

  /** Fixed-point text reads back through `float()` as the rounded value. */
  lemma ParseFixedText(x: real, p: nat)
    ensures ParseFloat(FormatFixed(x, p)) == Some(Rounded(x, p))
  {
    FormatFixedEdges(x, p);
    TrimUnchanged(FormatFixed(x, p));
    ParseFormatFixed(x, p);
  }

  lemma ParseZero()
    ensures ParseFloat("0") == Some(0.0)
  {
    TrimUnchanged("0");
    ParseWhole("0");
  }

  /** Every sensor cell of an export reads back as its value rounded to two decimals, or 0 past the list's end. */
  lemma ParseDataCell(data: seq<seq<real>>, s: nat, t: nat)
    requires s < |data|
    ensures ParseFloat(CellText(DataCell(data, s, t))) == Some(CellValue(data, s, t))
  {
    if t < |data[s]| {
      ParseFixedText(data[s][t], 2);
    } else {
      ParseZero();
    }
  }

  /** When cells 1..n hold the numbers vs, the values from sensor s on are vs[s..]. */
  lemma {:induction false} RowValuesAll(xs: seq<Option<real>>, n: nat, s: nat, vs: seq<real>)
    requires s <= n < |xs| && |vs| == n
    requires forall k :: 0 <= k < n ==> xs[k + 1] == Some(vs[k])
    ensures RowValues(xs, n, s) == Some(vs[s..])
    decreases n - s
  {
    if s < n {
      RowValuesAll(xs, n, s + 1, vs);
      assert xs[s + 1] == Some(vs[s]);
      assert [vs[s]] + vs[s + 1..] == vs[s..];
    } else {
      assert vs[s..] == [];
    }
  }

  /** Column s+1 of an exported data row reads back as sensor s's value. */
  lemma ReadDataCell(data: seq<seq<real>>, times: seq<real>, t: nat, s: nat)
    requires t < |times| && s < |data|
    ensures Numbers(WrittenRow(DataRow(data, times, t)))[s + 1] == Some(CellValue(data, s, t))
  {
    ParseDataCell(data, s, t);
    ReadRowCell(data, times, t, s);
  }

  lemma ReadRowCell(data: seq<seq<real>>, times: seq<real>, t: nat, s: nat)
    requires t < |times| && s < |data|
    requires ParseFloat(CellText(DataCell(data, s, t))) == Some(CellValue(data, s, t))
    ensures Numbers(WrittenRow(DataRow(data, times, t)))[s + 1] == Some(CellValue(data, s, t))
  {
    var row := DataRow(data, times, t);
    assert row[s + 1] == row[1..][s];
    NumberAt(row, s + 1, DataCell(data, s, t), CellValue(data, s, t));
  }

  /** Cell k of a written row reads back as its cell's number. */
  lemma NumberAt(row: seq<Cell>, k: nat, c: Cell, v: real)
    ensures k < |row| && row[k] == c && ParseFloat(CellText(c)) == Some(v) ==>
      Numbers(WrittenRow(row))[k] == Some(v)
  {
  }

  /** Column 0 of an exported data row reads back as the time rounded to three decimals. */
  lemma ReadTimeCell(data: seq<seq<real>>, times: seq<real>, t: nat)
    requires t < |times|
    ensures Numbers(WrittenRow(DataRow(data, times, t)))[0] == Some(Rounded(times[t], 3))
  {
    ParseFixedText(times[t], 3);
    NumberAt(DataRow(data, times, t), 0, Fixed(times[t], 3), Rounded(times[t], 3));
  }

  /** An exported data row reads back as the rounded time and every sensor's read-back value. */
  lemma ReadDataRow(data: seq<seq<real>>, times: seq<real>, t: nat)
    requires t < |times| && |data| >= 1
    ensures ReadRow(WrittenRow(DataRow(data, times, t)), |data|) ==
      Parsed(Rounded(times[t], 3), RowBack(data, t))
  {
    var row := DataRow(data, times, t);
    var xs := Numbers(WrittenRow(row));
    var vs := RowBack(data, t);
    ReadTimeCell(data, times, t);
    forall s | 0 <= s < |data|
      ensures xs[s + 1] == Some(vs[s])
    {
      ReadDataCell(data, times, t, s);
    }
    RowValuesAll(xs, |data|, 0, vs);
    assert vs[0..] == vs;
  }

  /** The data loop over the first m rows of an export collects exactly the read-back series. */
  lemma {:induction false} ReadExportRows(data: seq<seq<real>>, times: seq<real>, rows: seq<seq<string>>, m: nat)
    requires |data| >= 1 && m <= |times| == |rows|
    requires forall t :: 0 <= t < |times| ==> rows[t] == WrittenRow(DataRow(data, times, t))
    ensures ParseRows(rows[..m], |data|) == Some(ReadBack(data, times, m))
  {
    if m == 0 {
      assert ReadBack(data, times, 0) == NoSeries(|data|);
    } else {
      var i := m - 1;
      ReadExportRows(data, times, rows, i);
      ReadDataRow(data, times, i);
      ReadBackStep(data, times, i);
      ParseRowsStep(rows, |data|, i, ReadBack(data, times, i), ReadBack(data, times, m));
    }
  }

  /** The data loop's result after one more row, when that row's read extends the series so far. */
  lemma ParseRowsStep(rows: seq<seq<string>>, n: nat, i: nat, acc: Series, next: Series)
    requires i < |rows|
    requires ParseRows(rows[..i], n) == Some(acc)
    requires AddRow(acc, ReadRow(rows[i], n)) == Some(next)
    ensures ParseRows(rows[..i + 1], n) == Some(next)
  {
    ParseRowsSnoc(rows, n, i);
  }

  /** The data loop's result after one more row. */
  lemma ParseRowsSnoc(rows: seq<seq<string>>, n: nat, i: nat)
    requires i < |rows|
    ensures ParseRows(rows[..i + 1], n) ==
      match ParseRows(rows[..i], n)
      case None => None
      case Some(acc) => AddRow(acc, ReadRow(rows[i], n))
  {
    assert rows[..i + 1][..i] == rows[..i];
  }

  /** Appending time i's read-back values to the series of the first i rows gives that of the first i+1. */
  lemma ReadBackStep(data: seq<seq<real>>, times: seq<real>, i: nat)
    requires |data| >= 1 && i < |times|
    ensures AddRow(ReadBack(data, times, i),
                   Parsed(Rounded(times[i], 3), RowBack(data, i)))
      == Some(ReadBack(data, times, i + 1))
  {
    var before := ReadBack(data, times, i);
    var after := ReadBack(data, times, i + 1);
    var vs := RowBack(data, i);
    assert after.times == before.times + [Rounded(times[i], 3)];
    forall s | 0 <= s < |data|
      ensures after.data[s] == before.data[s] + [vs[s]]
    {
    }
    assert AddValues(before.data, vs) == after.data;
  }

  /** The first cells of an export's first eight lines. */
  predicate ExportHeads(lines: seq<seq<string>>, name: string) {
    |lines| >= 8 &&
    lines[0] == [ExportTitle] && lines[1] == ["Sample Name", name] &&
    |lines[2]| == 2 && lines[2][0] == "Sample Type" &&
    |lines[3]| == 2 && lines[3][0] == "Export Date" &&
    |lines[4]| == 2 && lines[4][0] == "Mode" &&
    |lines[5]| == 2 && lines[5][0] == "Number of Points" &&
    lines[6] == [] && |lines[7]| >= 1 && lines[7][0] == TimeHeader
  }

  lemma ExportLineHeads(name: string, sampleType: string, date: string,
                        data: seq<seq<real>>, times: seq<real>, names: seq<string>)
    ensures ExportHeads(Written(CsvTable(name, sampleType, date, data, times, names)), name)
  {
    var rows := CsvTable(name, sampleType, date, data, times, names);
    var lines := Written(rows);
    var meta := Metadata(name, sampleType, date, |times|);
    var heads := Written(meta) + [WrittenRow(Header(names))];
    forall k | 0 <= k < 8
      ensures lines[k] == heads[k]
    {
      if k < 7 {
        assert rows[k] == rows[..7][k];
      }
    }
    assert heads[..7] == Written(meta);
    MetadataHeads(name, sampleType, date, |times|, heads);
  }

  /** The metadata rows' text, followed by the header's, is how an export begins. */
  lemma MetadataHeads(name: string, sampleType: string, date: string, points: nat, heads: seq<seq<string>>)
    requires |heads| == 8 && heads[..7] == Written(Metadata(name, sampleType, date, points))
    requires |heads[7]| >= 1 && heads[7][0] == TimeHeader
    ensures ExportHeads(heads, name)
  {
    var meta := Metadata(name, sampleType, date, points);
    assert heads[5] == WrittenRow(meta[5]);
  }

  /** A cell whose first character is not 'T' does not start a header. */
  lemma NotTime(cell: string)
    requires cell != [] && cell[0] != 'T'
    ensures !StartsWith(cell, "Time")
  {
    if |cell| >= 4 {
      assert cell[..4][0] == cell[0];
    }
  }

  /** A file that begins like an export scans to its sample name and a header at line 7. */
  lemma ScanOfHeads(lines: seq<seq<string>>, name: string)
    requires ExportHeads(lines, name)
    ensures ScanOf(lines) == Scan(name, 7)
  {
    assert Limit(lines) >= 8;
    forall k | 0 <= k < 6
      ensures !IsHeader(lines[k])
    {
      NotTime(lines[k][0]);
    }
    assert TimeHeader[..4] == "Time";
    assert IsHeader(lines[7]);
    assert FirstHeader(lines, 0) == Some(7);
    assert !IsNameRow(lines[2]) && !IsNameRow(lines[3]) && !IsNameRow(lines[4]);
    assert !IsNameRow(lines[5]) && !IsNameRow(lines[6]) && !IsNameRow(lines[7]);
    assert LastName(lines, 8) == Some(name);
  }

  /** The scan of an export finds the header at line 7 and the sample name on line 1. */
  lemma ScanExport(name: string, sampleType: string, date: string,
                   data: seq<seq<real>>, times: seq<real>, names: seq<string>)
    ensures ScanOf(Written(CsvTable(name, sampleType, date, data, times, names))) == Scan(name, 7)
  {
    ExportLineHeads(name, sampleType, date, data, times, names);
    ScanOfHeads(Written(CsvTable(name, sampleType, date, data, times, names)), name);
  }

  /**
   * Exporting a session and converting the file gives the document of the
   * read-back series: the sample name and the sensor names survive, each
   * time comes back with three decimals, each value with two (0 where its
   * list was short), the sample count is kept, and the interval, estimated
   * from the rounded times, is within a millisecond of the true one.
   */
  lemma ExportThenConvert(base: string, name: string, sampleType: string, date: string,
                          data: seq<seq<real>>, times: seq<real>, names: seq<string>, now: int)
    requires '.' !in base
    requires |names| == |data| >= 1 && |times| >= 1
    ensures var back := ReadBack(data, times, |times|);
      Convert(base + ".csv", true, Written(CsvTable(name, sampleType, date, data, times, names)), now, true) ==
      Ok(Export(base + ".json", EdgeImpulseDocument(names, back.data, IntervalMs(back.times), now))) &&
      |back.times| == |times| && -1.0 <= IntervalMs(back.times) - IntervalMs(times) <= 1.0
  {
    var lines := Written(CsvTable(name, sampleType, date, data, times, names));
    ReadBackTimesNear(data, times);
    ScanExport(name, sampleType, date, data, times, names);
    ExportHeaderNames(name, sampleType, date, data, times, names);
    ExportBody(name, sampleType, date, data, times, names);
    JsonFileNameOfCsv(base);
    ConvertOfParts(base + ".csv", lines, now, name, 7, names, ReadBack(data, times, |times|));
  }

  /** The times read back from a whole export: as many as were written, and the estimate within a millisecond. */
  lemma ReadBackTimesNear(data: seq<seq<real>>, times: seq<real>)
    ensures var back := ReadBack(data, times, |times|).times;
      |back| == |times| && -1.0 <= IntervalMs(back) - IntervalMs(times) <= 1.0
  {
    var back := ReadBack(data, times, |times|).times;
    assert Pow10(3) == 1000;
    forall t | 0 <= t < |times|
      ensures -0.0005 <= back[t] - times[t] <= 0.0005
    {
      RoundedNear(times[t], 3);
    }
    IntervalNear(times, back);
  }

  /** A file whose scan, header and data rows read as given converts to their document. */
  lemma ConvertOfParts(csvName: string, lines: seq<seq<string>>, now: int, name: string, start: nat,
                        names: seq<string>, s: Series)
    requires 0 < start < |lines| && ScanOf(lines) == Scan(name, start)
    requires HeaderNames(lines[start]) == names
    requires ParseRows(lines[start + 1..], |names|) == Some(s) && s.times != []
    ensures Convert(csvName, true, lines, now, true) ==
      Ok(Export(ConvertedName(csvName), EdgeImpulseDocument(names, s.data, IntervalMs(s.times), now)))
  {
  }

  /** The converter takes an export's sensor names from its header line. */
  lemma ExportHeaderNames(name: string, sampleType: string, date: string,
                          data: seq<seq<real>>, times: seq<real>, names: seq<string>)
    ensures HeaderNames(Written(CsvTable(name, sampleType, date, data, times, names))[7]) == names
  {
    var header := WrittenRow(Header(names));
    assert header[1..] == names by {
      forall k | 0 <= k < |names|
        ensures header[1..][k] == names[k]
      {
        assert header[1..][k] == header[k + 1];
      }
    }
  }

  /** The data rows of an export read back as the rounded series. */
  lemma ExportBody(name: string, sampleType: string, date: string,
                   data: seq<seq<real>>, times: seq<real>, names: seq<string>)
    requires |names| == |data| >= 1
    ensures ParseRows(Written(CsvTable(name, sampleType, date, data, times, names))[8..], |names|) ==
      Some(ReadBack(data, times, |times|))
  {
    ExportBodyRows(name, sampleType, date, data, times, names);
    ReadExportAll(data, times, Written(CsvTable(name, sampleType, date, data, times, names))[8..]);
  }

  /** Line 8 + t of an export is the text of data row t. */
  lemma ExportBodyRows(name: string, sampleType: string, date: string,
                       data: seq<seq<real>>, times: seq<real>, names: seq<string>)
    ensures var body := Written(CsvTable(name, sampleType, date, data, times, names))[8..];
      |body| == |times| && forall t :: 0 <= t < |times| ==> body[t] == WrittenRow(DataRow(data, times, t))
  {
    var rows := CsvTable(name, sampleType, date, data, times, names);
    var body := Written(rows)[8..];
    forall t | 0 <= t < |times|
      ensures body[t] == WrittenRow(DataRow(data, times, t))
    {
      assert rows[8 + t] == rows[8..][t];
    }
  }

  /** All the data rows of an export read back as the rounded series. */
  lemma ReadExportAll(data: seq<seq<real>>, times: seq<real>, rows: seq<seq<string>>)
    requires |data| >= 1 && |times| == |rows|
    requires forall t :: 0 <= t < |times| ==> rows[t] == WrittenRow(DataRow(data, times, t))
    ensures ParseRows(rows, |data|) == Some(ReadBack(data, times, |times|))
  {
    ReadExportRows(data, times, rows, |times|);
    assert rows[..|times|] == rows;
  }

  /** Each converted value lies within 0.005 of the exported one, and is 0 where the sensor's list was short. */
  lemma ReadBackNear(data: seq<seq<real>>, times: seq<real>, s: nat, t: nat)
    requires s < |data| && t < |times|
    ensures var v := ReadBack(data, times, |times|).data[s][t];
      (t < |data[s]| ==> -0.005 <= v - data[s][t] <= 0.005) && (t >= |data[s]| ==> v == 0.0)
  {
    if t < |data[s]| {
      RoundedNear(data[s][t], 2);
      assert Pow10(2) == 100;
    }
  }
}
