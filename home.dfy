/** The home tab: a three-entry button list with a saturating cursor, and the session history. */
module TabHome {
  import opened Numeric
  import opened Wrappers

  /**
   * One past session shown in the history table. The program imports `Task` but
   * defines it nowhere; these fields are placeholders that nothing in the core reads.
   */
  datatype Task = Task(title: string, description: string, timeSpentHours: real)

  /** The entries of the home list, in declaration order; `StartStop` is the default. */
  datatype Button = StartStop | Dummy | Dummy2 {

    /** The discriminant, `self as usize`. */
    function CurrentIndex(): (r: Usize)
      ensures r <= 2
    {
      match this
      case StartStop => 0
      case Dummy => 1
      case Dummy2 => 2
    }

    /** The variant whose discriminant is `n`, if there is one (`Button::from_repr`). */
    static function FromRepr(n: Usize): (r: Option<Button>)
      ensures r.Some? <==> n <= 2
    {
      if n == 0 then Some(StartStop)
      else if n == 1 then Some(Dummy)
      else if n == 2 then Some(Dummy2)
      else None
    }

    /** One entry up, staying on the first entry. */
    function Prev(): (r: Button)
      ensures this == StartStop ==> r == StartStop
      ensures this != StartStop ==> r.CurrentIndex() == CurrentIndex() - 1
    {
      FromRepr(SaturatingSub(CurrentIndex(), 1)).UnwrapOr(this)
    }

    /** One entry down, staying on the last entry. */
    function Next(): (r: Button)
      ensures this == Dummy2 ==> r == Dummy2
      ensures this != Dummy2 ==> r.CurrentIndex() == CurrentIndex() + 1
    {
      FromRepr(SaturatingAdd(CurrentIndex(), 1)).UnwrapOr(this)
    }
  }

  /** The discriminants number the variants 0, 1, 2 in declaration order, one to one. */
  lemma IndexFollowsDeclarationOrder(b: Button, n: Usize)
    ensures StartStop.CurrentIndex() == 0 && Dummy.CurrentIndex() == 1 && Dummy2.CurrentIndex() == 2
    ensures Button.FromRepr(b.CurrentIndex()) == Some(b)
    ensures n <= 2 ==> Button.FromRepr(n).value.CurrentIndex() == n
  {
  }

  /** `Prev` undoes `Next` except on the last entry, and `Next` undoes `Prev` except on the first. */
  lemma PrevNextInverse(b: Button)
    ensures b != Dummy2 ==> b.Next().Prev() == b
    ensures b != StartStop ==> b.Prev().Next() == b
  {
  }

  /** `HomeTab`: the selected entry moves; nothing else in the tab is ever changed. */
  class HomeTab {
    var rowIndex: Usize
    var currentlySelectedListItem: Button
    var history: seq<Task>

    /** The derived `Default`. */
    constructor Default()
      ensures rowIndex == 0 && currentlySelectedListItem == StartStop && history == []
    {
      rowIndex := 0;
      currentlySelectedListItem := StartStop;
      history := [];
    }

    /** `HomeTab::new`: the given history, every other field at its default. */
    constructor New(history: seq<Task>)
      ensures this.history == history
      ensures rowIndex == 0 && currentlySelectedListItem == StartStop
    {
      this.history := history;
      rowIndex := 0;
      currentlySelectedListItem := StartStop;
    }

    method PrevRow()
      modifies this
      ensures currentlySelectedListItem == old(currentlySelectedListItem).Prev()
      ensures rowIndex == old(rowIndex) && history == old(history)
    {
      currentlySelectedListItem := currentlySelectedListItem.Prev();
    }

    method NextRow()
      modifies this
      ensures currentlySelectedListItem == old(currentlySelectedListItem).Next()
      ensures rowIndex == old(rowIndex) && history == old(history)
    {
      currentlySelectedListItem := currentlySelectedListItem.Next();
    }
  }
}
