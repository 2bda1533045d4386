# Selected-line status item of the sample editor extension

This project models, in Dafny, the one piece of original logic in the sample
extension `src/extension.ts`: the selected-line counter and the status-bar item
that displays it.

- `getNumberOfSelectedLines` takes an optional text editor. It returns 0 when
  there is none. Otherwise it folds over the editor's selections, adding
  `end.line - start.line` for each. The model is the left fold `FoldSpans`
  (module `Selections`). It is proved equal to an independent right-recursive
  sum, `TotalSpan`. The count is additive over concatenation and independent of
  selection order and column offsets. A single-line selection adds nothing. With
  ordered selections the count is non-negative, and it is positive exactly when
  some selection spans two or more lines.
- `updateStatusBarItem` recounts and then either writes the label
  `$(megaphone) <n> line(s) selected` and shows the item, or only hides it. The
  item is the class `StatusBar.StatusBarItem` with fields `text`, `visible` and
  `command`. Its `Update` method is specified by the function `Updated` on
  `ItemState` snapshots. The label is rendered as a real string (module
  `StatusLabel`): the count in decimal with no leading zeros. `LabelCount` reads
  the count back, and the two are proved exact inverses. The active editor, which
  the extension reads from host-global state, is an explicit parameter.
- `Activate` models the status-bar part of activation. It creates the item, binds
  it to the command `sample.statusBar` and runs one update for the editor active
  at start.

## Model

| member | source | states |
|---|---|---|
| Selections.LineSpan | src/extension.ts:182 | one selection's term is 0 iff it starts and ends on the same line, and non-negative iff its end line is not before its start line |
| Selections.FoldSpans | src/extension.ts:181-184 | the reduce from accumulator `acc` yields `acc` plus the sum of every selection's `end.line - start.line` |
| Selections.NumberOfSelectedLines | src/extension.ts:176-187 | no editor gives 0; an editor with no selections gives 0; otherwise the count is the sum of the line spans |
| Selections.TotalSpanAppend | src/extension.ts:181-184 | the count of a concatenation of selection lists is the sum of their counts |
| Selections.TotalSpanRemove | src/extension.ts:181-184 | removing the selection at index i lowers the count by exactly that selection's line span |
| Selections.TotalSpanPermutation | src/extension.ts:181-184 | any reordering of the selections leaves the count unchanged |
| Selections.TotalSpanIgnoresColumns | src/extension.ts:182 | two selection lists with the same start and end lines have the same count, whatever their columns |
| Selections.SingleLineSelectionAddsNothing | src/extension.ts:182 | inserting a selection whose start and end share a line, anywhere in the list, leaves the count unchanged |
| Selections.TotalSpanSign | src/extension.ts:182 | with every selection ordered (end line not before start line), the sum is non-negative and positive iff some selection spans more than one line |
| Selections.CountNonNegative | src/extension.ts:176-187 | the count is non-negative whenever the editor's selections are ordered, the assumption the code makes without checking it |
| Selections.TwoRangesScenario | src/extension.ts:181-184 | selections over lines 1-4 and 10-12 count 5 lines |
| StatusLabel.NatToString | src/extension.ts:169 | the rendered count is a non-empty string of decimal digits with no leading zero unless the count is 0 |
| StatusLabel.DigitValue | src/extension.ts:169 | a digit character's value is below 10 and renders back to the same character |
| StatusLabel.ParseNatToString | src/extension.ts:169 | reading the rendered digits back yields the count that was rendered |
| StatusLabel.NatToStringParse | src/extension.ts:169 | rendering the value of canonical digits yields those digits |
| StatusLabel.MegaphoneLabel | src/extension.ts:169 | the label `$(megaphone) <n> line(s) selected` for count n reads back as exactly n |
| StatusLabel.LabelCount | src/extension.ts:169 | a text from which a count n is read is exactly the prefix, the decimal form of n and the suffix of the label |
| StatusLabel.LabelCountMegaphoneLabel | src/extension.ts:169 | the label for n displays n, and every text that displays n is that label |
| StatusLabel.MegaphoneLabelInjective | src/extension.ts:169 | different counts give different labels |
| StatusBar.Updated | src/extension.ts:166-174 | the item is visible iff the count is positive; if visible, its text is the megaphone label of the count and displays exactly the count; if hidden, the text is the previous one; the command never changes |
| StatusBar.StatusBarItem.constructor | src/extension.ts:137-140 | a newly created item has empty text, is hidden and has no command |
| StatusBar.StatusBarItem.Show | src/extension.ts:170 | makes the item visible and changes nothing else |
| StatusBar.StatusBarItem.Hide | src/extension.ts:172 | hides the item and changes nothing else |
| StatusBar.StatusBarItem.Update | src/extension.ts:166-174 | the new field values are `Updated` applied to the old ones for the given editor |
| StatusBar.Activate | src/extension.ts:137-154 | returns a fresh item bound to `sample.statusBar` (line 128) whose state is one update of an empty, hidden item |
| StatusBar.UpdateIdempotent | src/extension.ts:166-174 | a second update for the same editor changes nothing |
| StatusBar.UpdateAll | src/extension.ts:146-151 | the state after a non-empty series of editor and selection events is one more update, for the last editor, of the state after all earlier events |
| StatusBar.UpdatesKeepCommand | src/extension.ts:141-151 | any series of updates leaves the bound command as it was set at creation |
| StatusBar.LastUpdateWins | src/extension.ts:146-151 | after a series of editor and selection events, visibility and a shown label depend only on the last event's editor |
| StatusBar.UpdateIgnoresSelectionOrder | src/extension.ts:167-174 | the item's new state does not depend on the order of the editor's selections |
| StatusBar.ShownIffMultiLineSelection | src/extension.ts:168-172 | with ordered selections, the item is shown iff some selection crosses a line boundary |

## Left out

- The command handlers `sample.helloWorld`, `sample.quickPick`, `sample.filePick`, `sample.outputChannel` and `sample.webview` (src/extension.ts:16-46, 106-126). Each is one host UI call with no logic of its own.
- The `sample.progress` handler (src/extension.ts:48-94). It is timer-driven asynchronous work scheduled by the host, with an advisory cancellation callback.
- The `sample.dataStorage` handler (src/extension.ts:96-104). Its write/read round trip depends on the host's workspace storage, which is not part of this model.
- The `sample.statusBar` command's notification (src/extension.ts:129-134). It only shows a message built from the same count.
- Registration of commands and event subscriptions, the disposal list and the empty `deactivate` (src/extension.ts:137-163, 189). These are host lifecycle plumbing. A series of events is modelled as a series of applications of `Updated` (`UpdateAll`), the state change one `Update` call makes.
- `console.log` and `JSON.stringify` (src/extension.ts:11, 33). These are foreign I/O and serialisation.
- Selections carry only start and end positions. The host's anchor and active positions and the `isEmpty`/`isReversed` flags are not part of this model.
- Selections.NumberOfSelectedLines: counts with unbounded integers. The source's JavaScript numbers are doubles, which are exact only up to 2^53.
- StatusLabel.NatToString: renders every count in plain decimal. JavaScript switches to exponent notation from 10^21 on, far beyond any line count.
- The item's alignment and priority (`StatusBarAlignment.Right`, 100, src/extension.ts:137-140) are layout hints that are not part of the item's state here.
