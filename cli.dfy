/** The format choice of the terminal front end (`run_cli`). */
module Cli {
  import opened Wrappers
  import opened Formats

  /**
   * The label picked by the number the user typed: positions 1 to 5 in
   * table order. `None` stands for input that is not an integer; it and an
   * out-of-range number fall back to the first label.
   */
  function ChooseFormat(choice: Option<int>): (formatOption: string)
    ensures formatOption in Labels(Table)
    ensures choice.Some? && 1 <= choice.value <= |Table| ==> formatOption == Labels(Table)[choice.value - 1]
    ensures !(choice.Some? && 1 <= choice.value <= |Table|) ==> formatOption == BestLabel
  {
    var formats := Labels(Table);
    if choice.Some? && 1 <= choice.value <= |formats| then formats[choice.value - 1] else formats[0]
  }

  /** Every label of the table can be chosen by its position. */
  lemma EveryLabelCanBeChosen(formatOption: string)
    requires formatOption in Labels(Table)
    ensures exists n :: 1 <= n <= |Table| && ChooseFormat(Some(n)) == formatOption
  {
    var k :| 0 <= k < |Labels(Table)| && Labels(Table)[k] == formatOption;
    assert ChooseFormat(Some(k + 1)) == formatOption;
  }

  /**
   * A label chosen in the terminal is always listed, so its selector comes
   * from the table and never from the "best" fallback.
   */
  lemma ChosenLabelIsListed(choice: Option<int>)
    ensures exists k :: 0 <= k < |Table| && Table[k].name == ChooseFormat(choice) &&
                        Selector(ChooseFormat(choice)) == Table[k].selector
  {
    var formatOption := ChooseFormat(choice);
    var k :| 0 <= k < |Labels(Table)| && Labels(Table)[k] == formatOption;
    TableHasDistinctLabels();
    GetListed(Table, k, DefaultSelector);
  }
}
