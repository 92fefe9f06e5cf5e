/** The stats tab: a row cursor that saturates at both ends of `usize`. */
module TabStats {
  import opened Numeric

  class StatsTab {
    var rowIndex: Usize

    /** The derived `Default`. */
    constructor Default()
      ensures rowIndex == 0
    {
      rowIndex := 0;
    }

    method PrevRow()
      modifies this
      ensures old(rowIndex) == 0 ==> rowIndex == 0
      ensures 0 < old(rowIndex) ==> rowIndex == old(rowIndex) - 1
      ensures rowIndex == SaturatingSub(old(rowIndex), 1)
    {
      rowIndex := SaturatingSub(rowIndex, 1);
    }

    method NextRow()
      modifies this
      ensures old(rowIndex) < USIZE_MAX ==> rowIndex == old(rowIndex) + 1
      ensures old(rowIndex) == USIZE_MAX ==> rowIndex == USIZE_MAX
      ensures rowIndex == SaturatingAdd(old(rowIndex), 1)
    {
      rowIndex := SaturatingAdd(rowIndex, 1);
    }
  }
}
