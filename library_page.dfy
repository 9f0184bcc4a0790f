/**
 * The data library page (frontend/gui/pages/library_page.py): the table of
 * saved CSV files, newest first, and the decisions of the upload button,
 * which converts a file to the Edge Impulse format when needed and names
 * its label after the file.
 */
module LibraryPage {
  import opened Wrappers
  import opened Text
  import opened Decimal
  import opened FileHandler

  // ----- Names derived from a file name -----

  /** The Edge Impulse label: the JSON file name up to its first '_', then up to its first '-'. */
  function UploadLabel(jsonName: string): (tag: string)
    ensures '_' !in tag && '-' !in tag
    ensures StartsWith(jsonName, tag)
    ensures |tag| < |jsonName| ==> jsonName[|tag|] == '_' || jsonName[|tag|] == '-'
  {
    var head := Split(jsonName, '_')[0];
    SplitHead(jsonName, '_');
    var tag := Split(head, '-')[0];
    SplitHead(head, '-');
    assert tag == jsonName[..|tag|];
    tag
  }

  /** `.replace('.csv', '.json')`. */
  function JsonName(csvName: string): (r: string)
    ensures !Occurs(csvName, ".csv") ==> r == csvName
  {
    ReplaceAllAbsent(csvName, ".csv", ".json");
    ReplaceAll(csvName, ".csv", ".json")
  }

  /** `.replace('.csv', '.png')`: where the preview image of a CSV file lives. */
  function PngPath(csvPath: string): (r: string)
    ensures !Occurs(csvPath, ".csv") ==> r == csvPath
    ensures |r| == |csvPath|
  {
    ReplaceAllAbsent(csvPath, ".csv", ".png");
    ReplaceAll(csvPath, ".csv", ".png")
  }

  /** A plain `<base>.csv` maps to `<base>.json` and `<base>.png`. */
  lemma DerivedNames(base: string)
    requires '.' !in base
    ensures JsonName(base + ".csv") == base + ".json"
    ensures PngPath(base + ".csv") == base + ".png"
  {
    ReplaceAllSuffix(base, ".csv", ".json");
    ReplaceAllSuffix(base, ".csv", ".png");
  }

  /**
   * A file saved under a one-word sample name is labelled with that name:
   * the label stops at the '_' that joins the name to the timestamp.
   */
  lemma LabelOfSessionFile(name: string, rest: string)
    requires '_' !in name && '-' !in name
    ensures UploadLabel(name + "_" + rest) == name
  {
    var s := name + "_" + rest;
    assert s[..|name|] == name && s[|name|] == '_';
  }

  /** `os.path.join("data", name)`. */
  function DataPath(name: string): string {
    "data/" + name
  }

  // ----- The library table -----

  /** A CSV file found in `data/`: its name, modification time, size in bytes and formatted date. */
  datatype FileEntry = FileEntry(name: string, mtime: real, bytes: nat, modified: string)

  /** Column 0 of a row: the PNG beside the file, or the text "No Preview". */
  datatype Preview = Icon(png: string) | NoPreview

  /** One table row: preview, file name, modification date, size in KB (shown with one decimal). */
  datatype LibRow = LibRow(preview: Preview, filename: string, modified: string, sizeKb: real)

  /** The size column's text. */
  function SizeText(kb: real): string {
    FormatFixed(kb, 1) + " KB"
  }

  /** True when every entry is at least as new as the next. */
  ghost predicate NewestFirst(fs: seq<FileEntry>) {
    forall i, j :: 0 <= i < j < |fs| ==> fs[i].mtime >= fs[j].mtime
  }

  /** The entries with modification time m, in their order. */
  function WithTime(fs: seq<FileEntry>, m: real): (r: seq<FileEntry>)
    ensures |r| <= |fs|
  {
    if fs == [] then []
    else (if fs[0].mtime == m then [fs[0]] else []) + WithTime(fs[1..], m)
  }

  /** Place f before the first entry that is not newer than it. */
  function Insert(f: FileEntry, fs: seq<FileEntry>): (r: seq<FileEntry>)
    ensures multiset(r) == multiset(fs) + multiset{f}
    ensures |r| == |fs| + 1
  {
    if fs == [] || fs[0].mtime <= f.mtime then [f] + fs
    else
      assert fs == [fs[0]] + fs[1..];
      [fs[0]] + Insert(f, fs[1..])
  }

  /** `files.sort(key=os.path.getmtime, reverse=True)`: a stable sort, newest first. */
  function SortNewestFirst(fs: seq<FileEntry>): (r: seq<FileEntry>)
    ensures multiset(r) == multiset(fs) && |r| == |fs|
  {
    if fs == [] then []
    else
      assert fs == [fs[0]] + fs[1..];
      Insert(fs[0], SortNewestFirst(fs[1..]))
  }

  /** No entry newer than t. */
  ghost predicate NotNewer(fs: seq<FileEntry>, t: real) {
    forall k :: 0 <= k < |fs| ==> fs[k].mtime <= t
  }

  lemma ConsNewestFirst(f: FileEntry, fs: seq<FileEntry>)
    requires NewestFirst(fs) && NotNewer(fs, f.mtime)
    ensures NewestFirst([f] + fs)
  {
    var r := [f] + fs;
    forall i, j | 0 <= i < j < |r|
      ensures r[i].mtime >= r[j].mtime
    {
      assert r[j] == fs[j - 1];
      if i > 0 {
        assert r[i] == fs[i - 1];
      }
    }
  }

  lemma {:induction false} InsertNotNewer(f: FileEntry, fs: seq<FileEntry>, t: real)
    requires NotNewer(fs, t) && f.mtime <= t
    ensures NotNewer(Insert(f, fs), t)
    decreases |fs|
  {
    if fs != [] && fs[0].mtime > f.mtime {
      InsertNotNewer(f, fs[1..], t);
      var r := Insert(f, fs);
      assert r[1..] == Insert(f, fs[1..]);
      forall k | 0 <= k < |r|
        ensures r[k].mtime <= t
      {
        if k > 0 {
          assert r[k] == r[1..][k - 1];
        }
      }
    } else {
      var r := Insert(f, fs);
      forall k | 0 <= k < |r|
        ensures r[k].mtime <= t
      {
        if k > 0 {
          assert r[k] == fs[k - 1];
        }
      }
    }
  }

  lemma {:induction false} InsertNewestFirst(f: FileEntry, fs: seq<FileEntry>)
    requires NewestFirst(fs)
    ensures NewestFirst(Insert(f, fs))
    decreases |fs|
  {
    if fs == [] || fs[0].mtime <= f.mtime {
      assert NotNewer(fs, f.mtime) by {
        forall k | 0 <= k < |fs|
          ensures fs[k].mtime <= f.mtime
        {
          if k > 0 {
            assert fs[0].mtime >= fs[k].mtime;
          }
        }
      }
      ConsNewestFirst(f, fs);
    } else {
      var tail := fs[1..];
      assert NewestFirst(tail) by {
        forall i, j | 0 <= i < j < |tail|
          ensures tail[i].mtime >= tail[j].mtime
        {
          assert tail[i] == fs[i + 1] && tail[j] == fs[j + 1];
        }
      }
      assert NotNewer(tail, fs[0].mtime) by {
        forall k | 0 <= k < |tail|
          ensures tail[k].mtime <= fs[0].mtime
        {
          assert tail[k] == fs[k + 1];
        }
      }
      InsertNewestFirst(f, tail);
      InsertNotNewer(f, tail, fs[0].mtime);
      ConsNewestFirst(fs[0], Insert(f, tail));
    }
  }

  /** Inserting f adds it in front of the entries with its time, and leaves the others' order alone. */
  lemma {:induction false} InsertWithTime(f: FileEntry, fs: seq<FileEntry>, m: real)
    ensures WithTime(Insert(f, fs), m) == (if f.mtime == m then [f] else []) + WithTime(fs, m)
    decreases |fs|
  {
    var r := Insert(f, fs);
    if fs == [] || fs[0].mtime <= f.mtime {
      assert r[0] == f && r[1..] == fs;
    } else {
      InsertWithTime(f, fs[1..], m);
      assert r[0] == fs[0] && r[1..] == Insert(f, fs[1..]);
      if f.mtime == m {
        assert fs[0].mtime != m;
      }
    }
  }

  /** The sorted list is newest first. */
  lemma {:induction false} SortedNewestFirst(fs: seq<FileEntry>)
    ensures NewestFirst(SortNewestFirst(fs))
    decreases |fs|
  {
    if fs != [] {
      SortedNewestFirst(fs[1..]);
      InsertNewestFirst(fs[0], SortNewestFirst(fs[1..]));
    }
  }

  /** The sort is stable: the files with any one time keep their listing order. */
  lemma {:induction false} SortStable(fs: seq<FileEntry>, m: real)
    ensures WithTime(SortNewestFirst(fs), m) == WithTime(fs, m)
    decreases |fs|
  {
    if fs != [] {
      SortStable(fs[1..], m);
      InsertWithTime(fs[0], SortNewestFirst(fs[1..]), m);
    }
  }

  /** The row shown for a file, given the paths that exist. */
  function RowOf(f: FileEntry, existing: set<string>): (row: LibRow)
    ensures row.filename == f.name
    ensures row.preview.Icon? <==> PngPath(DataPath(f.name)) in existing
  {
    var png := PngPath(DataPath(f.name));
    LibRow(if png in existing then Icon(png) else NoPreview, f.name, f.modified, f.bytes as real / 1024.0)
  }

  /** The page's state: whether `data/` exists, and the table rows. */
  class Library {
    var dataDirExists: bool
    var rows: seq<LibRow>

    constructor (dataDirExists: bool)
      ensures this.dataDirExists == dataDirExists && rows == []
    {
      this.dataDirExists := dataDirExists;
      rows := [];
    }

    /**
     * `refresh_library`: the table emptied; without `data/` the folder is
     * created and the table stays empty; otherwise one row per file,
     * newest first.
     */
    method RefreshLibrary(files: seq<FileEntry>, existing: set<string>)
      modifies this
      ensures dataDirExists
      ensures !old(dataDirExists) ==> rows == []
      ensures old(dataDirExists) ==>
        |rows| == |files| &&
        forall k :: 0 <= k < |rows| ==> rows[k] == RowOf(SortNewestFirst(files)[k], existing)
    {
      rows := [];
      if !dataDirExists {
        dataDirExists := true;
        return;
      }
      var sorted := SortNewestFirst(files);
      var i := 0;
      while i < |sorted|
        invariant 0 <= i <= |sorted| && |rows| == i && dataDirExists
        invariant forall k :: 0 <= k < i ==> rows[k] == RowOf(sorted[k], existing)
      {
        rows := rows + [RowOf(sorted[i], existing)];
        i := i + 1;
      }
    }
  }

  // ----- The upload button -----

  /** What pressing the upload button leads to. */
  datatype UploadOutcome =
    | MissingKey                    // warning, focus on the key field
    | NoSelection                   // warning
    | ConvertFailed(csvPath: string)
    | NothingToUpload               // neither the JSON nor the CSV exists: silent return
    | Uploaded(jsonPath: string, key: string, tag: string, converted: bool)

  /**
   * `on_upload_click`, given the key field, the selected rows in selection
   * order, the table, the paths that exist and whether a conversion would
   * succeed. The upload itself is the call `Uploaded` describes.
   */
  function UploadPlan(apiText: string, selected: seq<nat>, rows: seq<LibRow>,
                      existing: set<string>, convertSucceeds: bool): (r: UploadOutcome)
    requires selected != [] ==> selected[0] < |rows|
    ensures r.MissingKey? <==> Trim(apiText) == []
    ensures r.NoSelection? <==> Trim(apiText) != [] && selected == []
    ensures (r.ConvertFailed? || (r.Uploaded? && r.converted)) <==>
      Trim(apiText) != [] && selected != [] &&
      DataPath(JsonName(rows[selected[0]].filename)) !in existing &&
      DataPath(rows[selected[0]].filename) in existing
    ensures r.ConvertFailed? ==> !convertSucceeds && r.csvPath == DataPath(rows[selected[0]].filename)
    ensures r.Uploaded? && r.converted ==> convertSucceeds
    ensures r.NothingToUpload? <==>
      Trim(apiText) != [] && selected != [] &&
      DataPath(JsonName(rows[selected[0]].filename)) !in existing &&
      DataPath(rows[selected[0]].filename) !in existing
    ensures r.Uploaded? ==>
      var jsonName := JsonName(rows[selected[0]].filename);
      r.jsonPath == DataPath(jsonName) && r.key == Trim(apiText) && r.tag == UploadLabel(jsonName)
  {
    var key := Trim(apiText);
    if key == [] then MissingKey
    else if selected == [] then NoSelection
    else
      var filename := rows[selected[0]].filename;
      var csvPath := DataPath(filename);
      var jsonName := JsonName(filename);
      var jsonPath := DataPath(jsonName);
      if jsonPath !in existing then
        if csvPath in existing then
          if !convertSucceeds then ConvertFailed(csvPath)
          else Uploaded(jsonPath, key, UploadLabel(jsonName), true)
        else NothingToUpload
      else Uploaded(jsonPath, key, UploadLabel(jsonName), false)
  }

  /**
   * For a plain `<base>.csv` in the library, a conversion writes exactly
   * the JSON file the upload then sends.
   */
  lemma ConvertedFileIsUploaded(base: string)
    requires '.' !in base && '/' !in base
    ensures ConvertedName(DataPath(base + ".csv")) == DataPath(JsonName(base + ".csv"))
  {
    var d := "data/" + base;
    assert forall k :: 0 <= k < |d| ==> d[k] == (if k < 5 then "data/"[k] else base[k - 5]);
    assert '.' !in d;
    JsonFileNameOfCsv(d);
    assert DataPath(base + ".csv") == d + ".csv";
    assert ConvertedName(d + ".csv") == d + ".json";
    DerivedNames(base);
    assert DataPath(base + ".json") == d + ".json";
  }
}
