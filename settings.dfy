/** The settings tab: a row cursor that saturates at both ends of `usize`. */
module TabSettings {
  import opened Numeric

  /** The items the tab renders; the cursor is not bounded by them. */
  const SETTINGS_ITEMS: seq<string> := ["Set mode", "Clear data"]

  class SettingsTab {
    var rowIndex: Usize

    /** The derived `Default`. */
    constructor Default()
      ensures rowIndex == 0
    {
      rowIndex := 0;
    }

    method PrevRow()
      modifies this
      ensures old(rowIndex) == 0 ==> rowIndex == 0
      ensures 0 < old(rowIndex) ==> rowIndex == old(rowIndex) - 1
      ensures rowIndex == SaturatingSub(old(rowIndex), 1)
    {
      rowIndex := SaturatingSub(rowIndex, 1);
    }

    method NextRow()
      modifies this
      ensures old(rowIndex) < USIZE_MAX ==> rowIndex == old(rowIndex) + 1
      ensures old(rowIndex) == USIZE_MAX ==> rowIndex == USIZE_MAX
      ensures rowIndex == SaturatingAdd(old(rowIndex), 1)
    {
      rowIndex := SaturatingAdd(rowIndex, 1);
    }
  }

  /** Two `NextRow` calls from the default take the cursor past the last rendered item. */
  method CursorPassesRenderedItems() returns (row: Usize)
    ensures row == 2 && row >= |SETTINGS_ITEMS|
  {
    var tab := new SettingsTab.Default();
    tab.NextRow();
    tab.NextRow();
    row := tab.rowIndex;
  }
}
