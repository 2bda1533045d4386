/**
 * The status-bar item that reflects the selected-line count: its state, the
 * update run on every active-editor and selection change, and its creation at
 * activation. The active editor, which the extension reads from the host at
 * the moment of the update, is passed in explicitly.
 */
module StatusBar {
  import opened Wrappers
  import opened Selections
  import opened StatusLabel

  /** The command the item runs when clicked. */
  const StatusBarCommandId: string := "sample.statusBar"

  /** A snapshot of the item's fields: displayed text, whether shown, bound command. */
  datatype ItemState = ItemState(text: string, visible: bool, command: Option<string>)

  /** The state an item in state `s` is left in by one update for `editor`. */
  function Updated(s: ItemState, editor: Option<TextEditor>): (r: ItemState)
    ensures r.command == s.command
    ensures r.visible <==> NumberOfSelectedLines(editor) > 0
    ensures r.visible ==> r.text == MegaphoneLabel(NumberOfSelectedLines(editor))
    ensures r.visible ==> LabelCount(r.text) == Some(NumberOfSelectedLines(editor))
    ensures !r.visible ==> r.text == s.text
  {
    var n := NumberOfSelectedLines(editor);
    if n > 0 then
      ItemState(MegaphoneLabel(n), true, s.command)
    else
      s.(visible := false)
  }

  /** The status-bar item; the host draws `text` while `visible` holds. */
  class StatusBarItem {
    var text: string
    var visible: bool
    var command: Option<string>

    /** A fresh item as the host creates it: no text, hidden, no command. */
    constructor ()
      ensures text == "" && !visible && command == None
    {
      text := "";
      visible := false;
      command := None;
    }

    function State(): ItemState
      reads this
    {
      ItemState(text, visible, command)
    }

    method Show()
      modifies this
      ensures visible && text == old(text) && command == old(command)
    {
      visible := true;
    }

    method Hide()
      modifies this
      ensures !visible && text == old(text) && command == old(command)
    {
      visible := false;
    }

    /**
     * Recount the selected lines of `editor`; when positive, show the item with
     * the megaphone label for the count, otherwise hide it and keep its text.
     */
    method Update(editor: Option<TextEditor>)
      modifies this
      ensures State() == Updated(old(State()), editor)
    {
      var n := NumberOfSelectedLines(editor);
      if n > 0 {
        text := MegaphoneLabel(n);
        Show();
      } else {
        Hide();
      }
    }
  }

  /**
   * The status-bar part of activation: create the item, bind it to the
   * status-bar command and update it once for the editor active at start.
   */
  method Activate(editor: Option<TextEditor>) returns (item: StatusBarItem)
    ensures fresh(item)
    ensures item.State() == Updated(ItemState("", false, Some(StatusBarCommandId)), editor)
  {
    item := new StatusBarItem();
    item.command := Some(StatusBarCommandId);
    item.Update(editor);
  }

  /** A second update for the same editor changes nothing. */
  lemma UpdateIdempotent(s: ItemState, editor: Option<TextEditor>)
    ensures Updated(Updated(s, editor), editor) == Updated(s, editor)
  {
  }

  /** The state after one update per event, in the order the host fires them. */
  function UpdateAll(s: ItemState, editors: seq<Option<TextEditor>>): (r: ItemState)
    ensures editors != [] ==>
      r == Updated(UpdateAll(s, editors[..|editors| - 1]), editors[|editors| - 1])
    decreases |editors|
  {
    if editors == [] then s
    else
      assert |editors| > 1 ==> editors[..|editors| - 1][1..] == editors[1..][..|editors| - 2];
      UpdateAll(Updated(s, editors[0]), editors[1..])
  }

  /** Updates never rebind the command, however many events arrive. */
  lemma {:induction false} UpdatesKeepCommand(s: ItemState, editors: seq<Option<TextEditor>>)
    ensures UpdateAll(s, editors).command == s.command
    decreases |editors|
  {
    if editors != [] {
      UpdatesKeepCommand(Updated(s, editors[0]), editors[1..]);
    }
  }

  /** After a series of events the item's visibility and label reflect the last editor only. */
  lemma {:induction false} LastUpdateWins(s: ItemState, editors: seq<Option<TextEditor>>)
    requires editors != []
    ensures var last := editors[|editors| - 1];
      UpdateAll(s, editors).visible == Updated(s, last).visible
      && (NumberOfSelectedLines(last) > 0 ==> UpdateAll(s, editors).text == Updated(s, last).text)
    decreases |editors|
  {
    if |editors| > 1 {
      LastUpdateWins(Updated(s, editors[0]), editors[1..]);
    }
  }

  /** The item does not depend on the order in which the editor lists its selections. */
  lemma UpdateIgnoresSelectionOrder(s: ItemState, a: seq<Selection>, b: seq<Selection>)
    requires multiset(a) == multiset(b)
    ensures Updated(s, Some(TextEditor(a))) == Updated(s, Some(TextEditor(b)))
  {
    TotalSpanPermutation(a, b);
  }

  /** With ordered selections the item is shown exactly when some selection crosses a line. */
  lemma ShownIffMultiLineSelection(s: ItemState, sels: seq<Selection>)
    requires AllOrdered(sels)
    ensures Updated(s, Some(TextEditor(sels))).visible <==>
      exists i :: 0 <= i < |sels| && sels[i].start.line < sels[i].end.line
  {
    TotalSpanSign(sels);
  }

  /** A caret-style selection within line 2 counts 0 lines, and the item is hidden. */
  method SingleLineScenario()
  {
    var item := Activate(Some(TextEditor([Selection(Position(2, 0), Position(2, 5))])));
    assert !item.visible && item.text == "";
    assert item.command == Some(StatusBarCommandId);
  }

  /** Ranges over lines 1-4 and 10-12 show the item with a label displaying 5. */
  method TwoRangesStatusScenario()
  {
    var editor := Some(TextEditor([
      Selection(Position(1, 0), Position(4, 0)),
      Selection(Position(10, 0), Position(12, 0))]));
    var item := Activate(editor);
    TwoRangesScenario();
    assert item.visible && LabelCount(item.text) == Some(5);
    item.Update(None);
    assert !item.visible && LabelCount(item.text) == Some(5);
  }
}
