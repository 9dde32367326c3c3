/**
 * Input handling of the data grid: how a tap on a column header becomes a
 * sort request, how a key press becomes an edit or a navigation request and
 * moves the current item, how a tap on a cell settles an edit in progress
 * before it changes the selection, and when the grid asks for focus.
 *
 * The services behind the grid (edit, currency, selection, the layout model's
 * navigation lookups, the focus manager) are not modelled: what the grid asks
 * of them is the observable result, and their answers are parameters.
 */
module Manipulation {
  import opened Wrappers

  // ---------------------------------------------------------------------------
  // Entities
  // ---------------------------------------------------------------------------

  /** A row's data item, known to the grid only by its identity. */
  datatype DataItem = DataItem(id: nat)

  /** A column of the grid; only whether it can be sorted matters here. */
  datatype DataGridColumn = DataGridColumn(name: string, canSort: bool)

  /** How the user may sort by tapping column headers. */
  datatype DataGridUserSortMode = Auto | Multiple | NoSort

  /** How the user edits rows: not at all, in the row itself, or in an external editor. */
  datatype DataGridUserEditMode = NoEdit | Inline | External

  datatype PointerDeviceType = Touch | Pen | Mouse

  datatype FocusState = Unfocused | Pointer | Keyboard | Programmatic

  /** What a tap on a column header asks the command service to do. */
  datatype ColumnHeaderTapContext = ColumnHeaderTapContext(
    column: DataGridColumn,
    canSort: bool,
    isMultipleSortAllowed: bool,
    isFlyoutOpen: bool)

  // ---------------------------------------------------------------------------
  // Column header tap
  // ---------------------------------------------------------------------------

  /**
   * The sort context of a tap on the header of `column`. `controlDown` is the
   * state of the Ctrl key at the time of the tap. The flyout flag is left at
   * its default; the tap handler fills it in.
   */
  function GenerateColumnHeaderTapContext(
    column: DataGridColumn,
    sortMode: DataGridUserSortMode,
    deviceType: PointerDeviceType,
    controlDown: bool): (context: ColumnHeaderTapContext)
    ensures context.column == column && !context.isFlyoutOpen
    // a column that cannot sort allows no sorting at all, whatever the mode or device
    ensures !column.canSort ==> !context.canSort && !context.isMultipleSortAllowed
    // sorting switched off by the grid
    ensures sortMode == NoSort ==> !context.canSort && !context.isMultipleSortAllowed
    ensures column.canSort && sortMode == Multiple ==> context.canSort && context.isMultipleSortAllowed
    // automatic mode: touch always adds to the sort, other devices only with Ctrl
    ensures column.canSort && sortMode == Auto ==>
      context.canSort && (context.isMultipleSortAllowed <==> deviceType == Touch || controlDown)
    ensures context.isMultipleSortAllowed ==> context.canSort
    ensures context.canSort <==> column.canSort && sortMode != NoSort
  {
    var (canSort, multiple) :=
      if !column.canSort then (false, false)
      else match sortMode
        case Auto => (true, if deviceType == Touch then true else controlDown)
        case Multiple => (true, true)
        case NoSort => (false, false);
    ColumnHeaderTapContext(column, canSort, multiple, false)
  }

  /** The Ctrl key decides a header tap exactly for a sortable column, in automatic mode, without touch. */
  lemma ControlKeyMattersOnlyForAutoWithoutTouch(
    column: DataGridColumn, sortMode: DataGridUserSortMode, deviceType: PointerDeviceType)
    ensures GenerateColumnHeaderTapContext(column, sortMode, deviceType, true)
              != GenerateColumnHeaderTapContext(column, sortMode, deviceType, false)
            <==> column.canSort && sortMode == Auto && deviceType != Touch
  {
  }

  // ---------------------------------------------------------------------------
  // Key down
  // ---------------------------------------------------------------------------

  datatype VirtualKey = Escape | F2 | Tab | Down | Up | PageDown | PageUp | Home | End | Enter | Other(code: int)

  /** The fields of a key event that the grid reads. */
  datatype KeyEvent = KeyEvent(key: VirtualKey, repeatCount: nat, handled: bool)

  /** What else a key press depends on: whether an edit is in progress, and the modifier keys. */
  datatype KeyState = KeyState(isEditing: bool, controlDown: bool, shiftDown: bool)

  /** The layout model's lookups, relative to the current item. */
  datatype NavigationRequest =
    | PreviousOrNext(next: bool)  // the row after (or before) the current one
    | PageUpOrDown(down: bool)    // one page further down (or up)
    | FirstInView                 // the first row in view
    | LastInView                  // the last row in view

  /** The one thing a key press asks for; edit requests act on the current item. */
  datatype KeyAction = NoAction | CancelEdit | BeginEdit | CommitEdit | Navigate(request: NavigationRequest)

  /** Whether the handler marks the event handled, and what it asks for. */
  datatype KeyDownOutcome = KeyDownOutcome(handles: bool, action: KeyAction)

  /** The layout model's answer to a navigation request from a given current item (None: no such row). */
  type Lookup = (NavigationRequest, Option<DataItem>) -> Option<DataItem>

  const Unhandled := KeyDownOutcome(false, NoAction)

  /**
   * An event the handler looks at: present, not yet handled, and not the
   * repeated Enter that the platform raises twice.
   */
  predicate IsLive(e: Option<KeyEvent>) {
    e.Some? && !e.value.handled && !(e.value.key == Enter && e.value.repeatCount > 0)
  }

  /**
   * The navigation key bindings, in effect when no edit is in progress: the
   * specification table that `KeyDown`'s contract checks its switch against.
   */
  function NavigationBinding(key: VirtualKey, s: KeyState): Option<NavigationRequest> {
    match key
    case Down => Some(PreviousOrNext(true))
    case Up => Some(PreviousOrNext(false))
    case PageDown => Some(PageUpOrDown(true))
    case PageUp => Some(PageUpOrDown(false))
    case Home => if s.controlDown then Some(FirstInView) else None
    case End => if s.controlDown then Some(LastInView) else None
    case Enter => Some(PreviousOrNext(!s.shiftDown))
    case _ => None
  }

  /** The decision of the key-down handler for event `e` (None: a null event). */
  function KeyDown(e: Option<KeyEvent>, s: KeyState): (r: KeyDownOutcome)
    // null, already handled, or a repeated Enter: nothing happens
    ensures !IsLive(e) ==> r == Unhandled
    // an event is marked handled exactly when something is asked for
    ensures r.handles <==> r.action != NoAction
    // while editing, only Escape and Enter are handled
    ensures s.isEditing ==> (r.handles <==> IsLive(e) && e.value.key in {Escape, Enter})
    ensures r.action == CancelEdit <==> IsLive(e) && e.value.key == Escape && s.isEditing
    ensures r.action == BeginEdit <==> IsLive(e) && e.value.key == F2 && !s.isEditing
    ensures r.action == CommitEdit <==> IsLive(e) && e.value.key == Enter && s.isEditing
    ensures r.action.Navigate? <==> IsLive(e) && !s.isEditing && NavigationBinding(e.value.key, s).Some?
    ensures r.action.Navigate? ==> NavigationBinding(e.value.key, s) == Some(r.action.request)
    // Home and End act only with Ctrl
    ensures e.Some? && e.value.key in {Home, End} && r.handles ==> s.controlDown
    // Enter outside an edit moves forward, or backward with Shift
    ensures IsLive(e) && e.value.key == Enter && !s.isEditing ==>
      r == KeyDownOutcome(true, Navigate(PreviousOrNext(!s.shiftDown)))
    // Tab and keys without a binding are never handled
    ensures e.Some? && (e.value.key == Tab || e.value.key.Other?) ==> r == Unhandled
  {
    if !IsLive(e) then Unhandled
    else
      var editing := s.isEditing;
      match e.value.key
      case Escape => if editing then KeyDownOutcome(true, CancelEdit) else Unhandled
      case F2 => if !editing then KeyDownOutcome(true, BeginEdit) else Unhandled
      case Tab => Unhandled
      case Down => if !editing then KeyDownOutcome(true, Navigate(PreviousOrNext(true))) else Unhandled
      case Up => if !editing then KeyDownOutcome(true, Navigate(PreviousOrNext(false))) else Unhandled
      case PageDown => if !editing then KeyDownOutcome(true, Navigate(PageUpOrDown(true))) else Unhandled
      case PageUp => if !editing then KeyDownOutcome(true, Navigate(PageUpOrDown(false))) else Unhandled
      case Home => if !editing && s.controlDown then KeyDownOutcome(true, Navigate(FirstInView)) else Unhandled
      case End => if !editing && s.controlDown then KeyDownOutcome(true, Navigate(LastInView)) else Unhandled
      case Enter =>
        if editing then KeyDownOutcome(true, CommitEdit)
        else KeyDownOutcome(true, Navigate(PreviousOrNext(!s.shiftDown)))
      case Other(_) => Unhandled
  }

  /**
   * The current item after a key press asked for `action`: it moves only to
   * the row a navigation lookup found.
   */
  function CurrentAfter(current: Option<DataItem>, action: KeyAction, lookup: Lookup): (r: Option<DataItem>)
    ensures r != current ==> action.Navigate? && r.Some? && r == lookup(action.request, current)
    ensures action.Navigate? && lookup(action.request, current).Some? ==> r == lookup(action.request, current)
    ensures current.Some? ==> r.Some?
  {
    if action.Navigate? && lookup(action.request, current).Some? then lookup(action.request, current)
    else current
  }

  // ---------------------------------------------------------------------------
  // Cell tap
  // ---------------------------------------------------------------------------

  /** A tapped cell: the row's item and its column (None for a cell without one). */
  datatype CellInfo = CellInfo(item: DataItem, column: Option<DataGridColumn>)

  /** What a cell tap asks of the edit service; a commit acts on the current item. */
  datatype EditRequest = NoEditRequest | CancelEditRequest | CommitEditRequest

  /** What a cell tap does: its edit request, whether it goes on to select, and whether it focuses the cell. */
  datatype CellTapOutcome = CellTapOutcome(edit: EditRequest, selects: bool, focusesCell: bool)

  /**
   * The decision of the cell-tap handler. `commitSucceeds` is the edit
   * service's answer to a commit, consulted only when one is asked for.
   */
  function CellTap(isEditing: bool, editMode: DataGridUserEditMode, commitSucceeds: bool, cell: CellInfo)
    : (r: CellTapOutcome)
    ensures !isEditing ==> r.edit == NoEditRequest && r.selects
    // an external editor is cancelled, and the tap goes on to select
    ensures isEditing && editMode == External ==> r.edit == CancelEditRequest && r.selects
    // otherwise the edit is committed first, and a failed commit stops the tap
    ensures isEditing && editMode != External ==> r.edit == CommitEditRequest && (r.selects <==> commitSucceeds)
    ensures r.focusesCell <==> r.selects && cell.column.Some?
  {
    var edit :=
      if !isEditing then NoEditRequest
      else if editMode == External then CancelEditRequest
      else CommitEditRequest;
    var selects := edit != CommitEditRequest || commitSucceeds;
    CellTapOutcome(edit, selects, selects && cell.column.Some?)
  }

  // ---------------------------------------------------------------------------
  // Focus
  // ---------------------------------------------------------------------------

  /**
   * Whether the grid asks for focus, and with which state. `focusWithinCellsPanel`
   * says that some element is focused and has a cells panel (of this grid or
   * of any other) among its visual ancestors; it is false when nothing is focused.
   */
  function TryFocus(isTabStop: bool, state: FocusState, force: bool, focusWithinCellsPanel: bool)
    : (request: Option<FocusState>)
    ensures request.Some? ==> request.value == state
    ensures !isTabStop ==> request == None
    ensures isTabStop && force ==> request == Some(state)
    // an unforced request never takes focus away from a cell
    ensures isTabStop && !force ==> (request.Some? <==> !focusWithinCellsPanel)
  {
    if !isTabStop then None
    else if force then Some(state)
    else if !focusWithinCellsPanel then Some(state)
    else None
  }

  // ---------------------------------------------------------------------------
  // The grid's state
  // ---------------------------------------------------------------------------

  /** A key event as routed to the grid; handlers mark it handled in place. */
  class KeyRoutedEventArgs {
    const key: VirtualKey
    const repeatCount: nat
    var handled: bool

    constructor (key: VirtualKey, repeatCount: nat)
      ensures this.key == key && this.repeatCount == repeatCount && !handled
    {
      this.key := key;
      this.repeatCount := repeatCount;
      handled := false;
    }
  }

  /** The fields of a possibly null event, as a value. */
  function Snapshot(e: KeyRoutedEventArgs?): (v: Option<KeyEvent>)
    reads e
    // the handler looks at a non-null event that is not handled and not a repeated Enter
    ensures IsLive(v) <==> e != null && !e.handled && !(e.key == Enter && e.repeatCount > 0)
  {
    if e == null then None else Some(KeyEvent(e.key, e.repeatCount, e.handled))
  }

  /** The part of the data grid that input handling reads and changes. */
  class RadDataGrid {
    var userSortMode: DataGridUserSortMode
    var userEditMode: DataGridUserEditMode
    var isTabStop: bool
    /** The edit service's state: whether a row is being edited. */
    var isEditing: bool
    /** The currency service's current item. */
    var currentItem: Option<DataItem>
    /** The cell most recently handed to the selection service. */
    var selectedCell: Option<CellInfo>
    /** Whether the content flyout is open. */
    var flyoutOpen: bool

    constructor (userSortMode: DataGridUserSortMode, userEditMode: DataGridUserEditMode, isTabStop: bool)
      ensures this.userSortMode == userSortMode && this.userEditMode == userEditMode
      ensures this.isTabStop == isTabStop
      ensures !isEditing && currentItem == None && selectedCell == None && !flyoutOpen
    {
      this.userSortMode := userSortMode;
      this.userEditMode := userEditMode;
      this.isTabStop := isTabStop;
      isEditing := false;
      currentItem := None;
      selectedCell := None;
      flyoutOpen := false;
    }

    /**
     * A tap on a column header: builds the sort context, records whether a
     * flyout was open, and closes every flyout.
     */
    method OnColumnHeaderTap(column: DataGridColumn, deviceType: PointerDeviceType, controlDown: bool)
      returns (context: ColumnHeaderTapContext)
      modifies this`flyoutOpen
      ensures !flyoutOpen
      ensures context == GenerateColumnHeaderTapContext(column, userSortMode, deviceType, controlDown)
                           .(isFlyoutOpen := old(flyoutOpen))
    {
      context := GenerateColumnHeaderTapContext(column, userSortMode, deviceType, controlDown);
      context := context.(isFlyoutOpen := flyoutOpen);
      flyoutOpen := false;
    }

    /**
     * The key-down handler. `lookup` answers the navigation requests; the
     * edit request, if any, is returned.
     */
    method HandleKeyDown(e: KeyRoutedEventArgs?, controlDown: bool, shiftDown: bool, lookup: Lookup)
      returns (action: KeyAction)
      modifies e, this`currentItem
      ensures var r := KeyDown(old(Snapshot(e)), KeyState(isEditing, controlDown, shiftDown));
        && action == r.action
        && (e != null ==> e.handled == (old(e.handled) || r.handles))
        && currentItem == CurrentAfter(old(currentItem), action, lookup)
    {
      action := NoAction;
      if e == null || e.handled {
        return;
      }
      // the platform raises Enter twice; the repeat is ignored
      if e.key == Enter && e.repeatCount > 0 {
        return;
      }

      var info: Option<DataItem> := None;
      match e.key {
        case Escape =>
          if isEditing {
            e.handled := true;
            action := CancelEdit;
          }
        case F2 =>
          if !isEditing {
            e.handled := true;
            action := BeginEdit;
          }
        case Tab =>
        case Down =>
          if !isEditing {
            e.handled := true;
            action := Navigate(PreviousOrNext(true));
            info := lookup(action.request, currentItem);
          }
        case Up =>
          if !isEditing {
            e.handled := true;
            action := Navigate(PreviousOrNext(false));
            info := lookup(action.request, currentItem);
          }
        case PageDown =>
          if !isEditing {
            e.handled := true;
            action := Navigate(PageUpOrDown(true));
            info := lookup(action.request, currentItem);
          }
        case PageUp =>
          if !isEditing {
            e.handled := true;
            action := Navigate(PageUpOrDown(false));
            info := lookup(action.request, currentItem);
          }
        case Home =>
          if !isEditing && controlDown {
            e.handled := true;
            action := Navigate(FirstInView);
            info := lookup(action.request, currentItem);
          }
        case End =>
          if !isEditing && controlDown {
            e.handled := true;
            action := Navigate(LastInView);
            info := lookup(action.request, currentItem);
          }
        case Enter =>
          e.handled := true;
          if isEditing {
            action := CommitEdit;
          } else {
            action := Navigate(PreviousOrNext(!shiftDown));
            info := lookup(action.request, currentItem);
          }
        case Other(_) =>
      }

      if info.Some? {
        currentItem := info;
      }
    }

    /**
     * One event routed to the key-down handler twice, as happens when both the
     * grid and its scroll viewer pass it on: the second time nothing happens.
     */
    method HandleKeyDownTwice(e: KeyRoutedEventArgs, controlDown: bool, shiftDown: bool, lookup: Lookup)
      returns (first: KeyAction, second: KeyAction)
      modifies e, this`currentItem
      ensures first == KeyDown(old(Snapshot(e)), KeyState(isEditing, controlDown, shiftDown)).action
      ensures second == NoAction
      ensures e.handled == (old(e.handled) || first != NoAction)
      ensures currentItem == CurrentAfter(old(currentItem), first, lookup)
    {
      first := HandleKeyDown(e, controlDown, shiftDown, lookup);
      second := HandleKeyDown(e, controlDown, shiftDown, lookup);
    }

    /**
     * A tap on a cell: settles an edit in progress, then selects the cell,
     * makes its row current and focuses it. A failed commit stops the tap.
     */
    method OnCellTap(cellInfo: CellInfo, commitSucceeds: bool) returns (outcome: CellTapOutcome)
      modifies this`selectedCell, this`currentItem
      ensures outcome == CellTap(isEditing, userEditMode, commitSucceeds, cellInfo)
      ensures outcome.selects ==> selectedCell == Some(cellInfo) && currentItem == Some(cellInfo.item)
      ensures !outcome.selects ==> selectedCell == old(selectedCell) && currentItem == old(currentItem)
    {
      var edit := NoEditRequest;
      if isEditing {
        if userEditMode == External {
          edit := CancelEditRequest;
        } else {
          edit := CommitEditRequest;
          if !commitSucceeds {
            return CellTapOutcome(edit, false, false);
          }
        }
      }

      selectedCell := Some(cellInfo);
      currentItem := Some(cellInfo.item);
      outcome := CellTapOutcome(edit, true, cellInfo.column.Some?);
    }
  }
}
