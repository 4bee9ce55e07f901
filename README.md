# Pedagogical agent side panel: a verified model

This project models the state logic of a notebook extension that attaches a
chat pane ("agent") to each notebook. The extension has these parts:

- a toolbar button that creates and toggles one chat container per notebook;
- a content slot that owns one Agent pane;
- a tab record that wraps the slot;
- the Agent and Dropzone chat panes, which hold an input box and a chat box
  (the transcript);
- a floating window that shows a pane detached from the panel. The user drags
  it by its header, and it stays inside its container.

DOM construction is not modelled. The model keeps only the state that the
handlers read and write: style positions and size bounds, listener and mask
bookkeeping, class lists, the input value, the chat box's children, and the
disposal flags. Every DOM measurement is a method parameter: the container's
bounding box, the pane's left edge, `offsetLeft`/`offsetTop`, the node's
rendered size and the pointer's `pageX`/`pageY`. Pixel values are `int`,
because the code only adds, subtracts, compares and takes `max`/`min`.

Modules, one per source file, plus three helpers:

- `Floating` (`src/floating.ts`): first placement, the header text, one drag
  step as the pure function `MoveStep`, and drag-session bookkeeping as
  `BeginDrag`/`EndDrag`. The class `FloatingWindow` is proved against these
  functions.
- `Toolbar` (`src/button.ts`): `ButtonExtension` with its map from notebook
  paths to containers. `MainContainer` is not part of this model. It is
  reduced to a hidden flag that `Show`/`Hide` clear and set.
- `AgentPane` (`src/agent.ts`) and `DropzonePane` (`src/dropzone.ts`): the two
  chat panes. The chat logic they share (`src/agent.ts` and `src/dropzone.ts`
  repeat it word for word) is defined once in `ChatLog`.
- `ContentSlot` (`src/content.ts`): `ContentType` and `AgentContent`.
- `TabModel` (`src/tab.ts`): the `Tab` record and `ContentTab`.
- Helpers: `ChatLog`; `Decimal`, for how a template literal renders the cell
  index in the header; and `Wrappers`, which holds `Option`.

Where one might expect otherwise, the model follows the code:

- A drag moves by the pointer's movement since the previous event. It is not
  measured from the position where the drag started.
- Only mouse up ends a drag session. Nothing handles pointer cancel.
- The drop handler is commented out, so `doseReceiveDrop` is never cleared.
  The flag stays true, as an invariant.
- `createTab` does not add the tab to any list and does not make it active.
- `showAgent` installs a new Agent without disposing the previous one.
- Only the roles `system` and `user` get a label.

## Model

| member | source | states |
|---|---|---|
| `Floating.InitialBox` | src/floating.ts:80-95 | with n windows already open, left = initLeft + 20n and top = 100 + 20n; maxWidth and maxHeight fill the container exactly, up to a 5 px gap |
| `Floating.Clamp` | src/floating.ts:172-179 | `max(0, v)` then `min(hi, ·)`: the result is at most hi; it is at least 0 whenever hi ≥ 0; it is v when v is already in [0, hi]; an overshoot past hi stops at hi; an undershoot below 0 stops at 0 when hi ≥ 0; it is hi when hi < 0 (a negative bound wins) |
| `Floating.MoveStep` | src/floating.ts:159-196 | one mouse move: the last pointer becomes the current pointer; each axis is clamped on its own to `container − size − 5`; a value already in range is kept exactly; an overshoot stops exactly at the far edge, and an undershoot stops at 0 when that edge is not negative; when the far edge is negative (window wider or taller than the container) the window sits exactly on it; maxWidth/maxHeight are recomputed (window plus bound plus gap fill the container) exactly when the window is not at the far edge, and otherwise keep their old value |
| `Floating.PushedPastRightEdge` | src/floating.ts:164-189 | container 2000×1500, window 400×300 at (1700, 50), pointer +500 px right: x stops at 1595, y stays 50, maxWidth is kept |
| `Floating.DragInBounds` | src/floating.ts:172-179 | after every move of a drag, not only the last, the window is within `[0, W − w − 5] × [0, H − h − 5]` (the lower bound wherever the upper one allows it) |
| `Floating.UnclampedDragFollowsPointer` | src/floating.ts:164-168 | because the delta is incremental, a drag that never clamps keeps the window's offset from the pointer constant on both axes |
| `Floating.HeaderTextDetermines` | src/floating.ts:97-107 | the header `Code-k` / `Markdown-k` determines whether the window shows code, and the index k |
| `Floating.SessionBalanced` | src/floating.ts:145-157 | mouse down of a new session adds exactly two listeners and two masks; its mouse up removes exactly those and sets the cursor to `default`, so nothing is left installed |
| `Floating.FloatingWindow.constructor` | src/floating.ts:38-111 | container is `#jp-main-content-panel`, else `#main-panel`; its size, or 2000×1500 when neither exists (and the node is then not attached); placement as `InitialBox` with initLeft = pane x + 10; header text from the active tab's index, or 1 without one; last mouse position (0, 0); nothing installed |
| `Floating.FloatingWindow.HeaderMousedown` | src/floating.ts:135-211 | records the pointer; installs a fresh session's two masks and two document listeners (`BeginDrag`); sets the cursor to `move`; leaves the style unchanged |
| `Floating.FloatingWindow.MouseMove` | src/floating.ts:159-196 | the new style and last pointer are `MoveStep` of the old ones; listeners and masks are unchanged |
| `Floating.FloatingWindow.MouseUp` | src/floating.ts:198-204 | removes that session's two listeners and two masks and resets the cursor (`EndDrag`); geometry is unchanged |
| `Floating.FloatingWindow.Dispose` | src/floating.ts:213-217 | stops the header listener, detaches the node, sets `isDisposed`; the document listeners of an open session are not removed |
| `Decimal.NatToString` | src/floating.ts:104-106 | a numeral of digits only, with no leading zero |
| `Decimal.IntRoundTrip` | src/floating.ts:104-106 | the rendered cell index reads back as that index |
| `Toolbar.ClickVisibility` | src/button.ts:41-58 | after a click for p, p has an entry; an existing entry's visibility flips; a new entry starts with the given visibility, flipped; every other path keeps its visibility |
| `Toolbar.ClickTwiceRestores` | src/button.ts:46-57 | two clicks on a notebook that already has a container restore all visibilities |
| `Toolbar.FirstClicksOnNewNotebook` | src/button.ts:46-57 | on a new notebook the first click flips the created container's visibility, and the second click restores it |
| `Toolbar.MainContainer.constructor` | src/button.ts:47 | stands for the container a click creates; its initial hidden flag is the given one |
| `Toolbar.MainContainer.Show` | src/button.ts:53-54 | the container is visible afterwards |
| `Toolbar.MainContainer.Hide` | src/button.ts:55-56 | the container is hidden afterwards |
| `Toolbar.ButtonExtension.constructor` | src/button.ts:23-32 | the container map starts empty |
| `Toolbar.ButtonExtension.OnClick` | src/button.ts:41-58 | the map contains the path afterwards; an existing container is reused and the map is unchanged; a missing one is created fresh and added for that path only; the visibilities change as `ClickVisibility` says; different paths never share a container |
| `ChatLog.RoleLabel` | src/agent.ts:101-107 | the label is `System` iff the role is `system`, `You` iff the role is `user`, and empty for any other role |
| `ChatLog.AppendMessage` | src/agent.ts:97-111 | the chat box grows by exactly two children, a role element and then the message element; the earlier children are a prefix |
| `ChatLog.AppendMessageEntries` | src/agent.ts:97-111 | adding a message keeps the chat box alternating role/message, and adds exactly one transcript entry (label, text) at the end |
| `ChatLog.SendRecordsInput` | src/agent.ts:134-141 | Send appends (`You`, input) to the transcript, even for an empty input, and empties the input |
| `ChatLog.KeyDownEffect` | src/agent.ts:117-128 | Enter without Shift appends (`You`, previous input) and empties the input; any other key, or Shift+Enter, changes neither |
| `ChatLog.ReplayAppendOnly` | src/agent.ts:97-141 | over any sequence of edits, key presses, Send clicks and posted messages, the chat box stays well formed and the earlier transcript is a prefix of the later one |
| `AgentPane.Agent.constructor` | src/agent.ts:21-87 | empty transcript and input; the welcome icon and label are never added, because the chat box is appended before the check |
| `AgentPane.Agent.AddMessage` | src/agent.ts:97-111 | the chat box becomes `AppendMessage` of the old one; nothing else changes |
| `AgentPane.Agent.EnterKey` | src/agent.ts:117-128 | the pane state becomes `KeyDown` of the old state |
| `AgentPane.Agent.ButtonClick` | src/agent.ts:134-141 | the pane state becomes `Send` of the old state |
| `AgentPane.Agent.Dispose` | src/agent.ts:143-146 | detaches the node and sets `isDisposed`; the transcript is untouched |
| `DropzonePane.Highlight` | src/dropzone.ts:114-130 | `drag-over` is present afterwards iff drops are received or it already was; no other class changes |
| `DropzonePane.Unhighlight` | src/dropzone.ts:163-166 | `drag-over` is removed unconditionally; no other class changes |
| `DropzonePane.HighlightIdempotent` | src/dropzone.ts:114-130 | highlighting again changes nothing, because the class list is a set |
| `DropzonePane.LeaveUndoesEnter` | src/dropzone.ts:114-166 | a drag that enters and then leaves restores a class list that had no highlight |
| `DropzonePane.Dropzone.constructor` | src/dropzone.ts:22-108 | `doseReceiveDrop` is true; transcript and input are empty; no welcome branch |
| `DropzonePane.Dropzone.DragEnter` | src/dropzone.ts:114-119 | the class list becomes `Highlight` of the old one; since the flag is always true, the pane is highlighted |
| `DropzonePane.Dropzone.DragOver` | src/dropzone.ts:125-130 | as drag enter |
| `DropzonePane.Dropzone.DragLeave` | src/dropzone.ts:163-166 | the class list becomes `Unhighlight` of the old one |
| `DropzonePane.Dropzone.AddMessage` | src/dropzone.ts:176-190 | the chat box becomes `AppendMessage` of the old one; nothing else changes |
| `DropzonePane.Dropzone.EnterKey` | src/dropzone.ts:196-207 | the pane state becomes `KeyDown` of the old state |
| `DropzonePane.Dropzone.ButtonClick` | src/dropzone.ts:213-219 | the pane state becomes `Send` of the old state |
| `DropzonePane.Dropzone.Dispose` | src/dropzone.ts:241-244 | detaches the node and sets `isDisposed` |
| `ContentSlot.AgentContent.constructor` | src/content.ts:25-51 | a fresh Agent in its initial state; the slot is attached and not disposed |
| `ContentSlot.AgentContent.ShowAgent` | src/content.ts:56-58 | `agent` becomes a fresh Agent; the previous Agent is left unchanged (not disposed, still attached) |
| `ContentSlot.AgentContent.Dispose` | src/content.ts:104-112 | the current Agent is disposed and detached, with its transcript, input and children kept; then the slot is detached and marked disposed |
| `TabModel.ContentTab.CreateTab` | src/tab.ts:50-74 | the tab is an `Agent` tab with index 0 and no update, a new-tab button and a fresh content slot; it changes no state |
| `TabModel.ContentTab.constructor` | src/tab.ts:23-42 | `tabContent` is the fresh content of the created tab; `activeTab` is null; auto-run state is empty |
| `TabModel.ContentTab.Dispose` | src/tab.ts:76-78 | sets `isDisposed`; the active tab and the auto-run state are untouched |

## Left out

- DOM construction, icons, textarea auto-resize and scroll-to-bottom: these
  are rendering, with no state that a handler reads back. The model keeps only
  two class lists: the pane's (`agent`, plus `drag-over` while highlighted)
  and the tab button's (`tab`, `new-tab`). It also keeps the tab button's
  title. The other classes are left out. These include the `floating-window`
  and `hidden` classes of the window, and the role classes of chat messages.
- Logging: the warning when no container is found (`src/floating.ts:51-55`)
  and the construction messages (`src/content.ts:30`, `src/tab.ts:35`). These
  are console output. The missing-container case itself is modelled: the node
  stays unattached and the default size is used.
- `preventDefault`/`stopPropagation` in the handlers: these are browser event
  plumbing.
- Raising the window to the end of its parent on mouse down
  (`src/floating.ts:142`): this is sibling order in the DOM.
- Moving the pane's child nodes into the floating window, and the CodeMirror
  width heuristic (`parseInt` of `minWidth`, `src/floating.ts:113-127`): these
  are DOM work and CSS-string parsing.
- The document delivers events only to installed listeners. Mouse moves and
  mouse ups reach a window only during a drag session. Mouse down on the
  header reaches a window only until `Dispose` removes the header listener
  (`src/floating.ts:214`). The model does not restrict when
  `FloatingWindow.HeaderMousedown`, `FloatingWindow.MouseMove` and
  `FloatingWindow.MouseUp` are called: their contracts hold for any call,
  including one after `Dispose`. `headerListening` records whether the header
  still listens.
- `Floating.UnclampedDragFollowsPointer` and `Floating.DragInBounds` fix the
  window's rendered size during a drag. They also assume that the layout
  reports the position last written to the style as `offsetLeft`/`offsetTop`.
  `MoveStep` itself takes both as parameters.
- `Decimal.IntToString` renders every integer in positional notation. A
  JavaScript number of magnitude 10^21 or more is rendered with an exponent;
  a cell index never reaches that.
- The document body's cursor is global state. It is kept here in the window
  that sets it.
- `Agent` has no reference back to its `AgentContent`. In `src/agent.ts` that
  reference appends the pane's node into the slot's content node. The floating
  window also reads it (`src/floating.ts:76-78`, `src/floating.ts:114-117`):
  it takes the active tab and the open-window count from its `stickyLand`,
  and moves the children of its `wrapperNode`. The model takes the active tab
  and the open-window count as constructor parameters instead.
- `FloatingWindow.constructor` assumes that the agent's slot provides a
  `stickyLand`. The slot class shown here, `AgentContent` (`src/content.ts:16-23`),
  has no such field, yet it is the only code shown that creates an `Agent`
  (`src/content.ts:50`, `src/content.ts:57`). Given such an agent, the source
  would fail when it reads `stickyTab` at `src/floating.ts:76`. The model's
  constructor always succeeds, as for a slot that does provide a
  `stickyLand`.
- `closeClicked` on both panes does nothing. The same holds for the unused
  static `numDz` counter.
- The drag forwarding in `src/content.ts:60-103`: it calls drag handlers that
  `src/agent.ts` does not define, so it has no behaviour to model.
- `createTab` is a static method here. The source reads `this` only for the
  DOM parents it passes along.
- `src/index.ts` plugin registration, and in `src/button.ts` the
  `ToolbarButton`, `insertItem` and `DisposableDelegate`: these are calls into
  the host application.
- The sources of `MainContainer`, `StickyLand` and the other files these
  sources import are not part of this model. `MainContainer` stands only as a
  hidden flag with `IsHidden`, `Show` and `Hide`. The number of floating windows already open is an
  input, and so is the initial visibility of a newly created container.
- Tab closing, active-tab switching, auto-run debouncing, the chat backend,
  and drop-to-cell swapping do not exist in these sources: the drop handler is
  commented out, and the auto-run fields are never used.
