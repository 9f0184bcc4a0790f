/**
 * The statistics page of frontend/gui/pages/stats_page.py: one table row
 * per sensor holding its name and the minimum, maximum, mean and standard
 * deviation of the sensor's collected values, each written with two
 * decimals.
 */
module StatsPage {
  import opened Wrappers
  import opened Decimal
  import opened Constants
  import opened TableGrid
  import opened Widgets

  // ----- Reductions -----

  /** The smallest value: one of the values, and no greater than any of them. */
  function Min(xs: seq<real>): (m: real)
    requires xs != []
    ensures m in xs && forall k :: 0 <= k < |xs| ==> m <= xs[k]
    decreases |xs|
  {
    if |xs| == 1 then xs[0]
    else
      var rest := Min(xs[1..]);
      assert forall k :: 1 <= k < |xs| ==> xs[k] == xs[1..][k - 1];
      if xs[0] <= rest then xs[0] else rest
  }

  /** The largest value: one of the values, and no smaller than any of them. */
  function Max(xs: seq<real>): (m: real)
    requires xs != []
    ensures m in xs && forall k :: 0 <= k < |xs| ==> xs[k] <= m
    decreases |xs|
  {
    if |xs| == 1 then xs[0]
    else
      var rest := Max(xs[1..]);
      assert forall k :: 1 <= k < |xs| ==> xs[k] == xs[1..][k - 1];
      if xs[0] >= rest then xs[0] else rest
  }

  function Sum(xs: seq<real>): real
    decreases |xs|
  {
    if xs == [] then 0.0 else xs[0] + Sum(xs[1..])
  }

  /** `np.mean` under real arithmetic. */
  function Mean(xs: seq<real>): (m: real)
    requires xs != []
    ensures |xs| as real * m == Sum(xs)
  {
    Sum(xs) / |xs| as real
  }

  /** Values no smaller than lo sum to at least |xs| * lo. */
  lemma {:induction false} SumAbove(xs: seq<real>, lo: real)
    requires forall k :: 0 <= k < |xs| ==> lo <= xs[k]
    ensures |xs| as real * lo <= Sum(xs)
    decreases |xs|
  {
    if xs != [] {
      SumAbove(xs[1..], lo);
      assert |xs| as real * lo == |xs[1..]| as real * lo + lo;
    }
  }

  /** Values no greater than hi sum to at most |xs| * hi. */
  lemma {:induction false} SumBelow(xs: seq<real>, hi: real)
    requires forall k :: 0 <= k < |xs| ==> xs[k] <= hi
    ensures Sum(xs) <= |xs| as real * hi
    decreases |xs|
  {
    if xs != [] {
      SumBelow(xs[1..], hi);
      assert |xs| as real * hi == |xs[1..]| as real * hi + hi;
    }
  }

  /** Values between lo and hi have their mean between lo and hi. */
  lemma MeanBetween(xs: seq<real>, lo: real, hi: real)
    requires xs != [] && forall k :: 0 <= k < |xs| ==> lo <= xs[k] <= hi
    ensures lo <= Mean(xs) <= hi
  {
    SumAbove(xs, lo);
    SumBelow(xs, hi);
    Quotient(Sum(xs), |xs| as real, lo, hi);
  }

  /** A total between n * lo and n * hi, shared out n ways, lies between lo and hi. */
  lemma Quotient(s: real, n: real, lo: real, hi: real)
    requires n > 0.0 && n * lo <= s <= n * hi
    ensures lo <= s / n <= hi
  {
    assert s / n * n == s;
  }

  /** Minimum, mean and maximum are ordered. */
  lemma MinMeanMax(xs: seq<real>)
    requires xs != []
    ensures Min(xs) <= Mean(xs) <= Max(xs)
  {
    MeanBetween(xs, Min(xs), Max(xs));
  }

  /** Constant values have that value as minimum, maximum and mean. */
  lemma ConstantStats(xs: seq<real>, v: real)
    requires xs != [] && forall k :: 0 <= k < |xs| ==> xs[k] == v
    ensures Min(xs) == v && Max(xs) == v && Mean(xs) == v
  {
    MeanBetween(xs, v, v);
  }

  // ----- The table -----

  /**
   * An item of the statistics table: none yet, a sensor name, or a number
   * shown with two decimals (`f"{x:.2f}"`; the literal "0.00" is the zero).
   */
  datatype Item = NoItem | Name(name: string) | Fixed2(value: real)

  /** The text an item shows. */
  function Shown(c: Item): string {
    match c
    case NoItem => ""
    case Name(n) => n
    case Fixed2(v) => FormatFixed(v, 2)
  }

  /** Zero shows as the "0.00" the page writes into unfilled statistic cells. */
  lemma ZeroShown()
    ensures Shown(Fixed2(0.0)) == "0.00"
  {
    assert Scaled(Abs(0.0), 2) == 0;
    FixedDigitsZero();
  }

  lemma FixedDigitsZero()
    ensures FixedDigits(0, 2) == "0.00"
  {
    assert Pow10(2) == 100;
    assert DivMod(0, 100) == (0, 0);
    assert NatToString(0) == "0";
  }

  /** Columns 1 to 4 of a row that shows no statistics yet. */
  const Zeros: seq<Item> := [Fixed2(0.0), Fixed2(0.0), Fixed2(0.0), Fixed2(0.0)]

  /**
   * Columns 1 to 4 for a sensor's values: minimum, maximum, mean and, from
   * `stdDev`, the standard deviation.
   */
  function StatCells(xs: seq<real>, stdDev: seq<real> -> real): (cells: seq<Item>)
    requires xs != []
    ensures |cells| == 4
    ensures cells[0] == Fixed2(Min(xs)) && cells[1] == Fixed2(Max(xs))
    ensures cells[2] == Fixed2(Mean(xs)) && cells[3] == Fixed2(stdDev(xs))
  {
    [Fixed2(Min(xs)), Fixed2(Max(xs)), Fixed2(Mean(xs)), Fixed2(stdDev(xs))]
  }

  /** The table once the first n sensors' values have been shown (sensors with no values skipped). */
  ghost function Refreshed(t: Grid<Item>, data: seq<seq<real>>, stdDev: seq<real> -> real, n: nat): (u: Grid<Item>)
    requires Shaped(t, |t|, 5)
  {
    seq(|t|, k requires 0 <= k < |t| =>
      if k < n && k < |data| && data[k] != [] then [t[k][0]] + StatCells(data[k], stdDev) else t[k])
  }

  /**
   * `update_statistics`: with no data, or none yet for the first sensor,
   * the table stays; otherwise the row of every sensor with values shows
   * its statistics, and every other row and every name stays.
   */
  ghost function UpdatedStats(t: Grid<Item>, data: seq<seq<real>>, stdDev: seq<real> -> real): (u: Grid<Item>)
    requires Shaped(t, |t|, 5)
    ensures Shaped(u, |t|, 5)
    ensures data == [] || data[0] == [] ==> u == t
    ensures forall k :: 0 <= k < |t| ==> u[k][0] == t[k][0]
    ensures forall k :: 0 <= k < |t| && (k >= |data| || data[k] == []) ==> u[k] == t[k]
    ensures data != [] && data[0] != [] ==>
      forall k :: 0 <= k < |t| && k < |data| && data[k] != [] ==> u[k][1..] == StatCells(data[k], stdDev)
  {
    if data == [] || data[0] == [] then t
    else
      var u := Refreshed(t, data, stdDev, |data|);
      assert forall k :: 0 <= k < |t| && k < |data| && data[k] != [] ==> u[k] == [t[k][0]] + StatCells(data[k], stdDev);
      u
  }

  /** One more sensor shown: its row, when it is in the table and has values, and nothing else. */
  lemma RefreshedStep(t: Grid<Item>, data: seq<seq<real>>, stdDev: seq<real> -> real, n: nat)
    requires Shaped(t, |t|, 5) && n < |data|
    ensures Refreshed(t, data, stdDev, n + 1) ==
      if n < |t| && data[n] != [] then Refreshed(t, data, stdDev, n)[n := [t[n][0]] + StatCells(data[n], stdDev)]
      else Refreshed(t, data, stdDev, n)
  {
  }

  /** Writing columns 1 to 4 of a row in turn replaces exactly those cells. */
  lemma FillRow(g: Grid<Item>, r: int, cells: seq<Item>)
    requires Shaped(g, |g|, 5) && |cells| == 4
    ensures SetCell(SetCell(SetCell(SetCell(g, r, 1, cells[0]), r, 2, cells[1]), r, 3, cells[2]), r, 4, cells[3]) ==
      if 0 <= r < |g| then g[r := [g[r][0]] + cells] else g
  {
    var h := SetCell(SetCell(SetCell(SetCell(g, r, 1, cells[0]), r, 2, cells[1]), r, 3, cells[2]), r, 4, cells[3]);
    if 0 <= r < |g| {
      assert h[r] == [g[r][0]] + cells;
    }
  }

  /** The next sensor's row written cell by cell extends the refresh by one. */
  lemma ShowRow(t: Grid<Item>, data: seq<seq<real>>, stdDev: seq<real> -> real, n: nat, g: Grid<Item>,
                a: Item, b: Item, c: Item, d: Item)
    requires Shaped(t, |t|, 5) && n < |data| && g == Refreshed(t, data, stdDev, n)
    requires data[n] != [] && [a, b, c, d] == StatCells(data[n], stdDev)
    ensures SetCell(SetCell(SetCell(SetCell(g, n, 1, a), n, 2, b), n, 3, c), n, 4, d) ==
      Refreshed(t, data, stdDev, n + 1)
  {
    RefreshedStep(t, data, stdDev, n);
    FillRow(g, n, [a, b, c, d]);
    if n < |t| {
      assert g[n][0] == t[n][0];
    }
  }

  /** A sensor with no values leaves the refresh where it was. */
  lemma SkipRow(t: Grid<Item>, data: seq<seq<real>>, stdDev: seq<real> -> real, n: nat)
    requires Shaped(t, |t|, 5) && n < |data| && data[n] == []
    ensures Refreshed(t, data, stdDev, n + 1) == Refreshed(t, data, stdDev, n)
  {
    RefreshedStep(t, data, stdDev, n);
  }

  /** Two-decimal rounding moves a value by at most 0.005. */
  lemma RoundedNear2(x: real)
    ensures -0.005 <= Rounded(x, 2) - x <= 0.005
  {
    RoundedNear(x, 2);
    assert Pow10(2) == 100;
  }

  /**
   * A refreshed row's statistics are ordered (minimum, mean, maximum), the
   * minimum and maximum are among the sensor's values, and each shown
   * text reads back, through the decimal parser, as its statistic rounded
   * to two decimals, within 0.005 of the exact value.
   */
  lemma ShownStats(t: Grid<Item>, data: seq<seq<real>>, stdDev: seq<real> -> real, k: nat)
    requires Shaped(t, |t|, 5) && k < |t| && k < |data| && data[0] != [] && data[k] != []
    ensures var row := UpdatedStats(t, data, stdDev)[k];
      row[1] == Fixed2(Min(data[k])) && row[2] == Fixed2(Max(data[k])) && row[3] == Fixed2(Mean(data[k])) &&
      Min(data[k]) in data[k] && Max(data[k]) in data[k] &&
      Min(data[k]) <= Mean(data[k]) <= Max(data[k]) &&
      ParseDecimal(Shown(row[1])) == Some(Rounded(Min(data[k]), 2)) &&
      ParseDecimal(Shown(row[2])) == Some(Rounded(Max(data[k]), 2)) &&
      ParseDecimal(Shown(row[3])) == Some(Rounded(Mean(data[k]), 2)) &&
      -0.005 <= Rounded(Min(data[k]), 2) - Min(data[k]) <= 0.005 &&
      -0.005 <= Rounded(Max(data[k]), 2) - Max(data[k]) <= 0.005 &&
      -0.005 <= Rounded(Mean(data[k]), 2) - Mean(data[k]) <= 0.005
  {
    var row := UpdatedStats(t, data, stdDev)[k];
    assert row[1..] == StatCells(data[k], stdDev);
    assert row[1] == row[1..][0] && row[2] == row[1..][1] && row[3] == row[1..][2];
    MinMeanMax(data[k]);
    ParseFormatFixed(Min(data[k]), 2);
    ParseFormatFixed(Max(data[k]), 2);
    ParseFormatFixed(Mean(data[k]), 2);
    RoundedNear2(Min(data[k]));
    RoundedNear2(Max(data[k]));
    RoundedNear2(Mean(data[k]));
  }

  /** The statistics table: seven rows of a name and four statistic columns. */
  class StatsPage {
    var table: Grid<Item>

    ghost predicate Valid()
      reads this
    {
      Shaped(table, NumSensors, 5)
    }

    /** The page as built: every row named, every statistic zero. */
    constructor ()
      ensures Valid()
      ensures forall r :: 0 <= r < NumSensors ==> table[r] == [Name(SensorLabel(r))] + Zeros
    {
      table := Blank(NumSensors, 5, NoItem);
      new;
      PopulateRows();
    }

    /** `populate_rows`: row r holds sensor r's name and "0.00" in every statistic column. */
    method PopulateRows()
      requires Valid()
      modifies this
      ensures Valid()
      ensures forall r :: 0 <= r < NumSensors ==> table[r] == [Name(SensorLabel(r))] + Zeros
    {
      var row := 0;
      while row < NumSensors
        invariant 0 <= row <= NumSensors
        invariant Valid()
        invariant forall r :: 0 <= r < row ==> table[r] == [Name(SensorLabel(r))] + Zeros
      {
        var name := SensorLabel(row);
        table := SetCell(table, row, 0, Name(name));
        var col := 1;
        while col < 5
          invariant 1 <= col <= 5
          invariant Valid()
          invariant table[row][0] == Name(name)
          invariant forall j :: 1 <= j < col ==> table[row][j] == Fixed2(0.0)
          invariant forall r :: 0 <= r < row ==> table[r] == [Name(SensorLabel(r))] + Zeros
        {
          table := SetCell(table, row, col, Fixed2(0.0));
          col := col + 1;
        }
        assert table[row] == [Name(name)] + Zeros;
        row := row + 1;
      }
    }

    /** `update_statistics`, with the standard deviation given by `stdDev`. */
    method UpdateStatistics(data: seq<seq<real>>, stdDev: seq<real> -> real)
      requires Valid()
      modifies this
      ensures Valid()
      ensures table == UpdatedStats(old(table), data, stdDev)
    {
      if data == [] || data[0] == [] {
        return;
      }
      ghost var t0 := table;
      var idx := 0;
      while idx < |data|
        invariant 0 <= idx <= |data|
        invariant Valid()
        invariant table == Refreshed(t0, data, stdDev, idx)
      {
        var values := data[idx];
        if values != [] {
          var vMin := Min(values);
          var vMax := Max(values);
          var vMean := Mean(values);
          var vStd := stdDev(values);
          ShowRow(t0, data, stdDev, idx, table, Fixed2(vMin), Fixed2(vMax), Fixed2(vMean), Fixed2(vStd));
          table := SetCell(table, idx, 1, Fixed2(vMin));
          table := SetCell(table, idx, 2, Fixed2(vMax));
          table := SetCell(table, idx, 3, Fixed2(vMean));
          table := SetCell(table, idx, 4, Fixed2(vStd));
        } else {
          SkipRow(t0, data, stdDev, idx);
        }
        idx := idx + 1;
      }
    }

    /** `clear_stats`: every statistic back to "0.00", every name kept. */
    method ClearStats()
      requires Valid()
      modifies this
      ensures Valid()
      ensures forall r :: 0 <= r < NumSensors ==> table[r] == [old(table)[r][0]] + Zeros
    {
      ghost var t0 := table;
      var row := 0;
      while row < NumSensors
        invariant 0 <= row <= NumSensors
        invariant Valid()
        invariant forall r :: 0 <= r < row ==> table[r] == [t0[r][0]] + Zeros
        invariant forall r :: row <= r < NumSensors ==> table[r] == t0[r]
      {
        var col := 1;
        while col < 5
          invariant 1 <= col <= 5
          invariant Valid()
          invariant table[row][0] == t0[row][0]
          invariant forall j :: 1 <= j < col ==> table[row][j] == Fixed2(0.0)
          invariant forall r :: 0 <= r < row ==> table[r] == [t0[r][0]] + Zeros
          invariant forall r :: row < r < NumSensors ==> table[r] == t0[r]
        {
          table := SetCell(table, row, col, Fixed2(0.0));
          col := col + 1;
        }
        assert table[row] == [t0[row][0]] + Zeros;
        row := row + 1;
      }
    }
  }
}
