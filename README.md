# RadDataGrid input handling

A model of the decision procedures in the data grid's manipulation layer
(`RadDataGrid.Manipulation.cs`):

- how a tap on a column header becomes a sort context (may the column sort,
  may the tap add to a multi-column sort), depending on the column, the grid's
  user sort mode, the pointer device and the Ctrl key;
- how a key press becomes at most one request (cancel, begin or commit an
  edit, or a navigation lookup), whether the event is marked handled, and how
  the current item moves when a lookup finds a row;
- how a tap on a cell settles an edit in progress before it selects the cell
  and makes its row current;
- when the grid asks the focus manager for focus.

`manipulation.dfy` (module `Manipulation`) holds the value types, the
decision functions and the class `RadDataGrid` with the handlers that change
the grid's state (`HandleKeyDown`, `OnCellTap`, `OnColumnHeaderTap`);
each handler is proved against its decision function. `key_presses.dfy`
(module `KeyPresses`) follows the current item over a sequence of key
presses. `wrappers.dfy` holds `Option`, which stands for the source's null
references and nullable structs (`ItemInfo?`, a null event).

The grid's collaborators are parameters rather than code: the layout
model's navigation lookups are a function `Lookup` from a request and the
current item to an optional row; the edit service's answer to a commit is a
boolean; the state of the Ctrl and Shift keys are booleans; whether some
element is focused and has a cells panel (of this grid or any other) among
its visual ancestors is a boolean. What the grid asks
of the edit service is returned as a request.

The source's `DataGridUserSortMode.None` and `DataGridUserEditMode.None`
are called `NoSort` and `NoEdit` here, so that they do not clash with
`Option.None`.

## Model

| member | source | states |
|---|---|---|
| `Manipulation.GenerateColumnHeaderTapContext` | Controls/Grid/Grid.UWP/View/RadDataGrid.Manipulation.cs:38-74 | a column that cannot sort gives neither sorting nor multi-sorting; mode None never sorts; mode Multiple on a sortable column always multi-sorts; mode Auto multi-sorts on touch, otherwise exactly when Ctrl is down; multi-sort implies sort; sorting is allowed exactly for a sortable column in a mode other than None; the column is carried over and the flyout flag starts false |
| `Manipulation.ControlKeyMattersOnlyForAutoWithoutTouch` | Controls/Grid/Grid.UWP/View/RadDataGrid.Manipulation.cs:43-63 | the Ctrl key changes the header-tap context if and only if the column can sort, the mode is Auto and the device is not touch |
| `Manipulation.RadDataGrid.OnColumnHeaderTap` | Controls/Grid/Grid.UWP/View/RadDataGrid.Manipulation.cs:99-105 | the context passed on is the generated sort context with the flyout flag set to whether a flyout was open before the tap; afterwards no flyout is open |
| `Manipulation.KeyDown` | Controls/Grid/Grid.UWP/View/RadDataGrid.Manipulation.cs:294-381 | a null, already handled or repeated-Enter event does nothing; an event is marked handled exactly when one action is asked for; while editing only Escape and Enter are handled; cancel iff live Escape while editing; begin edit iff live F2 outside an edit; commit iff live Enter while editing; navigation iff live, not editing and the key has a binding (Up/Down, PageUp/PageDown, Enter, Home/End only with Ctrl), with the bound request; Enter outside an edit goes forward, or backward with Shift; Tab and unbound keys are never handled |
| `Manipulation.CurrentAfter` | Controls/Grid/Grid.UWP/View/RadDataGrid.Manipulation.cs:383-386 | the current item changes only to the row a navigation lookup returned, always changes to it when one is returned, and is never cleared |
| `Manipulation.RadDataGrid.HandleKeyDownTwice` | Controls/Grid/Grid.UWP/View/RadDataGrid.Manipulation.cs:393-403 | when one event is routed to the key-down handler twice, the first call acts as `KeyDown` decides and the second asks for nothing and leaves the current item where the first put it |
| `Manipulation.RadDataGrid.HandleKeyDown` | Controls/Grid/Grid.UWP/View/RadDataGrid.Manipulation.cs:294-387 | the returned request is the decision of `KeyDown` for the event and the grid's state; a non-null event becomes handled exactly when it was or the decision handles it; the current item is the one `CurrentAfter` gives for the lookup's answer; nothing else changes |
| `Manipulation.CellTap` | Controls/Grid/Grid.UWP/View/RadDataGrid.Manipulation.cs:228-249 | outside an edit the tap selects without an edit request; in External edit mode the edit is cancelled and the tap selects; in the other modes the edit is committed first and the tap selects exactly when the commit succeeds; the cell is focused exactly when the tap selects and the cell has a column |
| `Manipulation.RadDataGrid.OnCellTap` | Controls/Grid/Grid.UWP/View/RadDataGrid.Manipulation.cs:228-249 | the outcome is `CellTap`'s decision; a tap that selects makes the cell the selected one and its row's item current; a failed commit leaves selection and current item unchanged |
| `Manipulation.TryFocus` | Controls/Grid/Grid.UWP/View/RadDataGrid.Manipulation.cs:264-283 | a grid that is not a tab stop never asks for focus; a forced request on a tab stop always does; an unforced one does exactly when no focused element has a cells panel (of any grid) among its ancestors; the requested state is the one given |
| `KeyPresses.Run` | Controls/Grid/Grid.UWP/View/RadDataGrid.Manipulation.cs:383-386 | over any sequence of key presses, a current item that exists is never cleared |
| `KeyPresses.PressesWithoutNavigationKeepCurrent` | Controls/Grid/Grid.UWP/View/RadDataGrid.Manipulation.cs:307-386 | a sequence of presses none of which asks for navigation leaves the current item unchanged |
| `KeyPresses.PressesWhileEditingKeepCurrent` | Controls/Grid/Grid.UWP/View/RadDataGrid.Manipulation.cs:311-374 | no sequence of presses made while editing moves the current item |
| `KeyPresses.EditAndTabKeysKeepCurrent` | Controls/Grid/Grid.UWP/View/RadDataGrid.Manipulation.cs:311-326 | Escape, F2, Tab and unbound keys never move the current item, in any state |
| `KeyPresses.FruitlessLookupsKeepCurrent` | Controls/Grid/Grid.UWP/View/RadDataGrid.Manipulation.cs:383-386 | when no lookup finds a row, no sequence of presses moves the current item |

## Left out

- The edit service: what `CancelEdit`, `BeginEdit` and `CommitEdit` do to the edit state and to the current item is not modelled; the model returns the request, and the commit's answer in `OnCellTap` is a parameter.
- The currency service: `ChangeCurrentItem` is modelled as setting the current item; a change that the service refuses is not modelled.
- The selection service: `Select` is modelled as recording the last selected cell; selection modes and multiple selection are not modelled.
- The navigation algorithms of the layout model (`FindPreviousOrNextDataItem`, `FindPageUpOrDownDataItem`, `FindFirstDataItemInView`, `FindLastDataItemInView`): they are not part of this model and stand as the `Lookup` parameter.
- `CurrentAfter`: a lookup answer that is present is taken to carry a non-null item; an answer whose item is null, which the grid would pass on to the currency service unchecked, is not modelled, so the result that keys never clear the current item rests on this.
- `KeyboardHelper.IsModifierKeyDown`: the Ctrl and Shift states are parameters.
- `TryFocus`: the focus manager, the visual-tree search for the cells panel and the `Focus` call are host framework; only whether focus is requested, and with which state, is modelled. `TryFocusCell` on the column is the `focusesCell` flag.
- The cell flyout timer (`OnCellsPanelPointerOver`, `CellFlyoutTimerAnimationBoardCompleted`, `OnCellsPanelPointerExited`), hover decoration and flyout visibility other than the header tap: animation timing and host visual state.
- Hit-testing and coordinate conversion in the pointer, tap, double-tap and holding handlers (`OnCellsPanelTapped`, `OnCellsPanelDoubleTapped`, `OnCellsPanelHolding`, `OnCellsPanelPointerPressed`), and `OnCellHolding`, `OnCellDoubleTap`: they forward to the hit-test and command services.
- `GenerateFilterButtonTapContext`, `ExecuteFilter`, `OnFilterButtonTap`: they build filter controls through foreign factories and a lookup among the filter descriptors.
- `OnGroupHeaderTap` and `OnGroupIsExpandedChanged`: forwarding to the command, currency and edit services.
- Command routing (`ExecuteKeyDown`, `OnKeyDown`, `OnCellsPanelKeyDown`, `OnScrollViewerKeyDown`) and the frozen-host event subscription: forwarding only. That the same event may reach the handler twice is covered by `RadDataGrid.HandleKeyDownTwice`.
