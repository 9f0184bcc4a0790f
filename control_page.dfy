/**
 * The control page of frontend/gui/pages/control_page.py: the enabled
 * state and text of the connect, start and stop buttons, and the
 * five-row "Sampling Information" table.
 */
module ControlPage {
  import opened TableGrid

  /** What the buttons show: whether connect, start and stop can be pressed, and connect's text. */
  datatype Buttons = Buttons(connectEnabled: bool, connectText: string, startEnabled: bool, stopEnabled: bool)

  /** The connect button's text as the panel builds it, before any state is shown. */
  const InitialConnectText: string := "\U{2728} Connect Bridge"

  /**
   * `enable_controls`: connect can be pressed exactly when not connected and
   * reads "Connected" exactly when connected; start exactly when connected
   * and not sampling; stop exactly when connected and sampling.
   */
  function Controls(isConnected: bool, isSampling: bool): (b: Buttons)
    ensures b.connectEnabled <==> !isConnected
    ensures b.connectText == "Connected" <==> isConnected
    ensures !isConnected ==> b.connectText == "Connect Bridge"
    ensures b.startEnabled <==> isConnected && !isSampling
    ensures b.stopEnabled <==> isConnected && isSampling
  {
    Buttons(!isConnected, if isConnected then "Connected" else "Connect Bridge",
            isConnected && !isSampling, isConnected && isSampling)
  }

  /**
   * Start and stop are never offered together; disconnected, neither is;
   * connected, exactly one is, and connect is offered exactly when neither is.
   */
  lemma ControlsExclusive(isConnected: bool, isSampling: bool)
    ensures var b := Controls(isConnected, isSampling);
      !(b.startEnabled && b.stopEnabled) &&
      (!isConnected ==> !b.startEnabled && !b.stopEnabled) &&
      (isConnected ==> b.startEnabled != b.stopEnabled) &&
      (b.connectEnabled <==> !b.startEnabled && !b.stopEnabled)
  {
  }

  /**
   * The buttons tell two states apart exactly when the connection differs,
   * or the connection is up and sampling differs: while disconnected,
   * sampling does not show.
   */
  lemma ControlsShowState(c1: bool, s1: bool, c2: bool, s2: bool)
    ensures Controls(c1, s1) == Controls(c2, s2) <==> c1 == c2 && (c1 ==> s1 == s2)
  {
    if Controls(c1, s1) == Controls(c2, s2) {
      assert Controls(c1, s1).connectEnabled == Controls(c2, s2).connectEnabled;
      assert Controls(c1, s1).startEnabled == Controls(c2, s2).startEnabled;
    }
  }

  /** The information table's keys and starting values, in order. */
  const InfoDefaults: seq<(string, string)> := [
    ("Sample Name", "None"),
    ("Sample Type", "None"),
    ("Mode", "Auto (FSM)"),
    ("Points", "0"),
    ("Time", "0 s")
  ]

  /** The five keys are distinct (they are the keys of one dictionary). */
  lemma InfoKeysDistinct()
    ensures |InfoDefaults| == 5
    ensures forall i, j :: 0 <= i < j < |InfoDefaults| ==> InfoDefaults[i].0 != InfoDefaults[j].0
  {
  }

  /** The page: its buttons and its 5-by-2 information table. */
  class ControlPage {
    var buttons: Buttons
    var info: Grid<string>

    ghost predicate Valid()
      reads this
    {
      Shaped(info, |InfoDefaults|, 2)
    }

    /** The page as built: connect and start offered, stop not, the table filled with its defaults. */
    constructor ()
      ensures Valid()
      ensures buttons == Buttons(true, InitialConnectText, true, false)
      ensures forall r :: 0 <= r < |InfoDefaults| ==> info[r] == [InfoDefaults[r].0, InfoDefaults[r].1]
    {
      buttons := Buttons(true, InitialConnectText, true, false);
      info := Blank(|InfoDefaults|, 2, "");
      new;
      PopulateInfoTable();
    }

    /** `populate_info_table`: row r holds the r-th key and its value. */
    method PopulateInfoTable()
      requires Valid()
      modifies this
      ensures Valid()
      ensures forall r :: 0 <= r < |InfoDefaults| ==> info[r] == [InfoDefaults[r].0, InfoDefaults[r].1]
      ensures buttons == old(buttons)
    {
      var row := 0;
      while row < |InfoDefaults|
        invariant 0 <= row <= |InfoDefaults|
        invariant Valid() && buttons == old(buttons)
        invariant forall r :: 0 <= r < row ==> info[r] == [InfoDefaults[r].0, InfoDefaults[r].1]
      {
        var (key, value) := InfoDefaults[row];
        info := SetCell(info, row, 0, key);
        info := SetCell(info, row, 1, value);
        assert info[row] == [key, value];
        row := row + 1;
      }
    }

    /** `update_info`: the value column of row k becomes `value`; no other cell changes. */
    method UpdateInfo(k: int, value: string)
      requires Valid()
      modifies this
      ensures Valid()
      ensures info == SetCell(old(info), k, 1, value)
      ensures buttons == old(buttons)
    {
      info := SetCell(info, k, 1, value);
    }

    /** `enable_controls`: the buttons show the connection and sampling state; the table stays. */
    method EnableControls(isConnected: bool, isSampling: bool)
      requires Valid()
      modifies this
      ensures Valid()
      ensures buttons == Controls(isConnected, isSampling)
      ensures info == old(info)
    {
      buttons := Buttons(!isConnected, if isConnected then "Connected" else "Connect Bridge",
                         isConnected && !isSampling, isConnected && isSampling);
    }
  }

  /** An update of an existing row touches its value cell only; a key or another row never changes. */
  lemma UpdateInfoOnlyValue(info: Grid<string>, k: int, value: string)
    requires Shaped(info, |InfoDefaults|, 2)
    ensures var h := SetCell(info, k, 1, value);
      Shaped(h, |InfoDefaults|, 2) &&
      (forall r :: 0 <= r < |info| ==> h[r][0] == info[r][0]) &&
      (forall r :: 0 <= r < |info| && r != k ==> h[r] == info[r]) &&
      (0 <= k < |info| ==> h[k] == [info[k][0], value])
  {
    var h := SetCell(info, k, 1, value);
    forall r | 0 <= r < |info| && r != k
      ensures h[r] == info[r]
    {
      assert h[r][0] == info[r][0] && h[r][1] == info[r][1];
    }
    if 0 <= k < |info| {
      assert h[k][0] == info[k][0] && h[k][1] == value;
    }
  }
}
