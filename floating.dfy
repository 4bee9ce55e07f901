/** A detached pane shown as a floating window: where it is first placed, and
    how dragging its header moves it inside its container. */
module Floating {
  import opened Wrappers
  import opened Decimal
  import opened ContentSlot
  import opened TabModel
  import AgentPane

  /** The margin kept between the window and the container's far edges. */
  const WindowGap: int := 5
  /** How far each further window is shifted right and down. */
  const StaggerStep: int := 20
  /** The top of the first window. */
  const InitialTop: int := 100
  /** How far right of the pane's left edge the first window is placed. */
  const LeftInset: int := 10
  /** The index shown in the header when no tab is active. */
  const DefaultCellIndex: int := 1

  datatype Size = Size(width: int, height: int)

  /** The container size assumed when neither container element exists. */
  const DefaultContainerSize: Size := Size(2000, 1500)

  /** The style position and size bounds of the window's node. */
  datatype Box = Box(left: int, top: int, maxWidth: int, maxHeight: int)

  /** The placement of a new window when `openWindows` windows are already
      floating: staggered by 20 px each, bounded by the container minus the gap. */
  function InitialBox(initLeft: int, openWindows: nat, container: Size): (b: Box)
    ensures b.left == initLeft + StaggerStep * openWindows
    ensures b.top == InitialTop + StaggerStep * openWindows
    ensures b.left + b.maxWidth + WindowGap == container.width
    ensures b.top + b.maxHeight + WindowGap == container.height
  {
    var left := initLeft + openWindows * StaggerStep;
    var top := InitialTop + openWindows * StaggerStep;
    Box(left, top, container.width - left - WindowGap, container.height - top - WindowGap)
  }

  /** The index shown in the header: the active tab's, or 1 without one. */
  function HeaderIndex(activeTab: Option<Tab>): int {
    if activeTab.Some? then activeTab.value.cellIndex else DefaultCellIndex
  }

  function HeaderPrefix(cellType: ContentType): string {
    if cellType == Code then "Code-" else "Markdown-"
  }

  /** The header text: `Code-k` for code, `Markdown-k` for anything else. */
  function HeaderText(cellType: ContentType, cellIndex: int): string {
    HeaderPrefix(cellType) + IntToString(cellIndex)
  }

  /** The header text determines whether the window shows code, and its index. */
  lemma HeaderTextDetermines(t1: ContentType, i1: int, t2: ContentType, i2: int)
    requires HeaderText(t1, i1) == HeaderText(t2, i2)
    ensures (t1 == Code) == (t2 == Code)
    ensures i1 == i2
  {
    var h := HeaderText(t1, i1);
    assert h[0] == HeaderPrefix(t1)[0] && h[0] == HeaderPrefix(t2)[0];
    assert (t1 == Code) == (t2 == Code);
    var n := |HeaderPrefix(t1)|;
    assert h[n..] == IntToString(i1);
    assert h[n..] == IntToString(i2);
    IntToStringInjective(i1, i2);
  }

  /** `v` raised to 0, then lowered to `hi`, in that order. */
  function Clamp(v: int, hi: int): (r: int)
    ensures r <= hi
    ensures 0 <= hi ==> 0 <= r
    ensures 0 <= v <= hi ==> r == v
    ensures hi < 0 ==> r == hi
    ensures hi < v ==> r == hi
    ensures v < 0 <= hi ==> r == 0
    ensures r == v || r == 0 || r == hi
  {
    var raised := if 0 < v then v else 0;
    if hi < raised then hi else raised
  }

  /** What a drag step knows: the window's style and the last pointer position. */
  datatype DragState = DragState(box: Box, lastX: int, lastY: int)

  /** The pointer position of a mouse-move event. */
  datatype Pointer = Pointer(pageX: int, pageY: int)

  /** What the layout reports about the node at a mouse move: its offset
      position and its rendered size. */
  datatype Layout = Layout(offsetLeft: int, offsetTop: int, width: int, height: int)

  /** The largest left and top that keep the window inside the container. */
  function MaxLeft(container: Size, m: Layout): int {
    container.width - m.width - WindowGap
  }

  function MaxTop(container: Size, m: Layout): int {
    container.height - m.height - WindowGap
  }

  /** One mouse move: the window moves by the pointer's movement since the
      previous event, each axis clamped to the container on its own, and the
      size bound of an axis is recomputed unless the window sits at its far edge. */
  function MoveStep(s: DragState, container: Size, p: Pointer, m: Layout): (r: DragState)
    ensures r.lastX == p.pageX && r.lastY == p.pageY
    ensures r.box.left <= MaxLeft(container, m) && r.box.top <= MaxTop(container, m)
    ensures 0 <= MaxLeft(container, m) ==> 0 <= r.box.left
    ensures 0 <= MaxTop(container, m) ==> 0 <= r.box.top
    ensures var x := m.offsetLeft + p.pageX - s.lastX;
            && (0 <= x <= MaxLeft(container, m) ==> r.box.left == x)
            && (MaxLeft(container, m) < x ==> r.box.left == MaxLeft(container, m))
            && (x < 0 <= MaxLeft(container, m) ==> r.box.left == 0)
            && (MaxLeft(container, m) < 0 ==> r.box.left == MaxLeft(container, m))
    ensures var y := m.offsetTop + p.pageY - s.lastY;
            && (0 <= y <= MaxTop(container, m) ==> r.box.top == y)
            && (MaxTop(container, m) < y ==> r.box.top == MaxTop(container, m))
            && (y < 0 <= MaxTop(container, m) ==> r.box.top == 0)
            && (MaxTop(container, m) < 0 ==> r.box.top == MaxTop(container, m))
    ensures r.box.left != MaxLeft(container, m) ==> r.box.left + r.box.maxWidth + WindowGap == container.width
    ensures r.box.left == MaxLeft(container, m) ==> r.box.maxWidth == s.box.maxWidth
    ensures r.box.top != MaxTop(container, m) ==> r.box.top + r.box.maxHeight + WindowGap == container.height
    ensures r.box.top == MaxTop(container, m) ==> r.box.maxHeight == s.box.maxHeight
  {
    var maxX := MaxLeft(container, m);
    var maxY := MaxTop(container, m);
    var x := Clamp(m.offsetLeft + p.pageX - s.lastX, maxX);
    var y := Clamp(m.offsetTop + p.pageY - s.lastY, maxY);
    var w := if x != maxX then container.width - x - WindowGap else s.box.maxWidth;
    var h := if y != maxY then container.height - y - WindowGap else s.box.maxHeight;
    DragState(Box(x, y, w, h), p.pageX, p.pageY)
  }

  /** A 400x300 window at (1700, 50) in a 2000x1500
      container pushed 500 px right stops at 1595, and its width bound is kept. */
  lemma PushedPastRightEdge(maxWidth: int, maxHeight: int)
    ensures var s := DragState(Box(1700, 50, maxWidth, maxHeight), 0, 0);
            var r := MoveStep(s, Size(2000, 1500), Pointer(500, 0), Layout(1700, 50, 400, 300));
            r.box.left == 1595 && r.box.top == 50 && r.box.maxWidth == maxWidth
  {
  }

  /** A drag of a window of fixed rendered size, where the layout reports the
      position last written to the style. */
  function Drag(s: DragState, container: Size, width: int, height: int, moves: seq<Pointer>): DragState
    decreases |moves|
  {
    if moves == [] then s
    else
      var before := Drag(s, container, width, height, moves[..|moves| - 1]);
      MoveStep(before, container, moves[|moves| - 1],
               Layout(before.box.left, before.box.top, width, height))
  }

  /** After every move of a drag, not only the last, the window is inside the
      container bounds (and at 0 or beyond wherever the bound allows it). */
  lemma DragInBounds(s: DragState, container: Size, width: int, height: int, moves: seq<Pointer>)
    requires moves != []
    ensures var r := Drag(s, container, width, height, moves);
            r.box.left <= container.width - width - WindowGap &&
            r.box.top <= container.height - height - WindowGap &&
            (0 <= container.width - width - WindowGap ==> 0 <= r.box.left) &&
            (0 <= container.height - height - WindowGap ==> 0 <= r.box.top)
  {
  }

  /** No move of the drag needs clamping on either axis. */
  predicate Unclamped(s: DragState, container: Size, width: int, height: int, moves: seq<Pointer>)
    decreases |moves|
  {
    moves == [] ||
    (var before := Drag(s, container, width, height, moves[..|moves| - 1]);
     var p := moves[|moves| - 1];
     var x := before.box.left + p.pageX - before.lastX;
     var y := before.box.top + p.pageY - before.lastY;
     && Unclamped(s, container, width, height, moves[..|moves| - 1])
     && 0 <= x <= container.width - width - WindowGap
     && 0 <= y <= container.height - height - WindowGap)
  }

  /** Each move is relative to the previous pointer position, so as long as
      nothing is clamped the window keeps its offset from the pointer. */
  lemma {:induction false} UnclampedDragFollowsPointer(
    s: DragState, container: Size, width: int, height: int, moves: seq<Pointer>)
    requires Unclamped(s, container, width, height, moves)
    ensures var r := Drag(s, container, width, height, moves);
            r.box.left - r.lastX == s.box.left - s.lastX &&
            r.box.top - r.lastY == s.box.top - s.lastY
    decreases |moves|
  {
    if moves != [] {
      UnclampedDragFollowsPointer(s, container, width, height, moves[..|moves| - 1]);
    }
  }

  /** A document-level listener installed by drag session `session`. */
  datatype DocListener = MoveListener(session: nat) | UpListener(session: nat)

  /** A cursor mask installed by drag session `session`: one over the whole
      page, one inside the window. */
  datatype CursorMask = PageMask(session: nat) | InnerMask(session: nat)

  /** The cursor style of the document body; `Unset` until a drag sets it. */
  datatype Cursor = Unset | MoveCursor | DefaultCursor

  /** What drag sessions have installed in the document. */
  datatype Hooks = Hooks(listeners: set<DocListener>, masks: set<CursorMask>, cursor: Cursor)

  function SessionListeners(session: nat): set<DocListener> {
    {MoveListener(session), UpListener(session)}
  }

  function SessionMasks(session: nat): set<CursorMask> {
    {PageMask(session), InnerMask(session)}
  }

  /** Nothing in the document belongs to `session` yet. */
  predicate Unused(h: Hooks, session: nat) {
    (forall l :: l in h.listeners ==> l.session != session) &&
    (forall k :: k in h.masks ==> k.session != session)
  }

  /** Mouse down on the header: two masks, two listeners, the move cursor. */
  function BeginDrag(h: Hooks, session: nat): Hooks {
    Hooks(h.listeners + SessionListeners(session), h.masks + SessionMasks(session), MoveCursor)
  }

  /** Mouse up: the session's listeners and masks go, the cursor is reset. */
  function EndDrag(h: Hooks, session: nat): Hooks {
    Hooks(h.listeners - SessionListeners(session), h.masks - SessionMasks(session), DefaultCursor)
  }

  /** A new session installs exactly two listeners and two masks, and its
      mouse up removes exactly those: nothing else is left behind or removed. */
  lemma SessionBalanced(h: Hooks, session: nat)
    requires Unused(h, session)
    ensures |BeginDrag(h, session).listeners| == |h.listeners| + 2
    ensures |BeginDrag(h, session).masks| == |h.masks| + 2
    ensures EndDrag(BeginDrag(h, session), session) == Hooks(h.listeners, h.masks, DefaultCursor)
  {
  }

  class FloatingWindow {
    const containerSize: Size
    const cellType: ContentType
    const agent: AgentPane.Agent
    const tab: Option<Tab>
    const headerText: string

    /** Whether the window's node is in a container. */
    var nodeAttached: bool
    var left: int
    var top: int
    var maxWidth: int
    var maxHeight: int
    var lastMouseX: int
    var lastMouseY: int
    /** Whether the header listens for mouse down. */
    var headerListening: bool
    var listeners: set<DocListener>
    var masks: set<CursorMask>
    var bodyCursor: Cursor
    /** The identity the next drag session's closures get. */
    var nextSession: nat
    var isDisposed: bool

    /** Every installed listener and mask belongs to a session already begun. */
    ghost predicate Valid()
      reads this
    {
      (forall l :: l in listeners ==> l.session < nextSession) &&
      (forall k :: k in masks ==> k.session < nextSession)
    }

    function Style(): Box
      reads this
    {
      Box(left, top, maxWidth, maxHeight)
    }

    function Geometry(): DragState
      reads this
    {
      DragState(Style(), lastMouseX, lastMouseY)
    }

    function Installed(): Hooks
      reads this
    {
      Hooks(listeners, masks, bodyCursor)
    }

    /** `mainContentPanel` and `mainPanel` are the bounding boxes of the two
        candidate containers, when present; `agentX` is the left of the
        pane's bounding box; `openWindows` counts the windows already floating. */
    constructor (cellType: ContentType, agent: AgentPane.Agent, agentX: int,
                 mainContentPanel: Option<Size>, mainPanel: Option<Size>,
                 openWindows: nat, activeTab: Option<Tab>)
      ensures mainContentPanel.Some? ==> nodeAttached && containerSize == mainContentPanel.value
      ensures mainContentPanel.None? && mainPanel.Some? ==> nodeAttached && containerSize == mainPanel.value
      ensures mainContentPanel.None? && mainPanel.None? ==> !nodeAttached && containerSize == DefaultContainerSize
      ensures Style() == InitialBox(agentX + LeftInset, openWindows, containerSize)
      ensures headerText == HeaderText(cellType, HeaderIndex(activeTab))
      ensures this.cellType == cellType && this.agent == agent && tab == activeTab
      ensures lastMouseX == 0 && lastMouseY == 0
      ensures headerListening && listeners == {} && masks == {} && bodyCursor == Unset
      ensures Valid() && !isDisposed
    {
      var container := if mainContentPanel.Some? then mainContentPanel else mainPanel;
      nodeAttached := container.Some?;
      var size := DefaultContainerSize;
      if container.Some? {
        size := Size(container.value.width, container.value.height);
      }
      containerSize := size;
      this.cellType := cellType;
      this.agent := agent;
      tab := activeTab;

      var initLeft := agentX + LeftInset;
      var curLeft := initLeft + openWindows * StaggerStep;
      var curTop := InitialTop + openWindows * StaggerStep;
      left, top := curLeft, curTop;
      maxWidth := size.width - curLeft - WindowGap;
      maxHeight := size.height - curTop - WindowGap;

      var cellIndex := DefaultCellIndex;
      if activeTab.Some? {
        cellIndex := activeTab.value.cellIndex;
      }
      headerText := HeaderText(cellType, cellIndex);

      lastMouseX, lastMouseY := 0, 0;
      headerListening := true;
      listeners, masks, bodyCursor := {}, {}, Unset;
      nextSession := 0;
      isDisposed := false;
    }

    /** Starts drag session `session`, recording the pointer position. */
    method HeaderMousedown(pageX: int, pageY: int) returns (session: nat)
      requires Valid()
      modifies this
      ensures Valid()
      ensures session == old(nextSession) && nextSession == session + 1
      ensures Unused(old(Installed()), session)
      ensures Installed() == BeginDrag(old(Installed()), session)
      ensures lastMouseX == pageX && lastMouseY == pageY
      ensures Style() == old(Style())
      ensures nodeAttached == old(nodeAttached) && headerListening == old(headerListening)
      ensures isDisposed == old(isDisposed)
    {
      session := nextSession;
      nextSession := nextSession + 1;
      masks := masks + {PageMask(session)};
      masks := masks + {InnerMask(session)};
      lastMouseX, lastMouseY := pageX, pageY;
      listeners := listeners + {MoveListener(session)};
      listeners := listeners + {UpListener(session)};
      bodyCursor := MoveCursor;
    }

    /** The move listener of a drag session. The offsets and the rendered size
        are what the layout reports for the node at this event. */
    method MouseMove(pageX: int, pageY: int,
                     offsetLeft: int, offsetTop: int, width: int, height: int)
      modifies this
      ensures Geometry() == MoveStep(old(Geometry()), containerSize, Pointer(pageX, pageY),
                                     Layout(offsetLeft, offsetTop, width, height))
      ensures Installed() == old(Installed()) && nextSession == old(nextSession)
      ensures nodeAttached == old(nodeAttached) && headerListening == old(headerListening)
      ensures isDisposed == old(isDisposed)
    {
      var newX := offsetLeft + pageX - lastMouseX;
      var newY := offsetTop + pageY - lastMouseY;
      lastMouseX := pageX;
      lastMouseY := pageY;

      var maxNewX := containerSize.width - width - WindowGap;
      newX := if 0 < newX then newX else 0;
      newX := if maxNewX < newX then maxNewX else newX;

      var maxNewY := containerSize.height - height - WindowGap;
      newY := if 0 < newY then newY else 0;
      newY := if maxNewY < newY then maxNewY else newY;

      left := newX;
      top := newY;
      if newX != maxNewX {
        maxWidth := containerSize.width - newX - WindowGap;
      }
      if newY != maxNewY {
        maxHeight := containerSize.height - newY - WindowGap;
      }
    }

    /** The up listener of `session`: ends the session wherever the pointer is. */
    method MouseUp(session: nat)
      requires Valid()
      modifies this
      ensures Valid()
      ensures Installed() == EndDrag(old(Installed()), session)
      ensures Geometry() == old(Geometry()) && nextSession == old(nextSession)
      ensures nodeAttached == old(nodeAttached) && headerListening == old(headerListening)
      ensures isDisposed == old(isDisposed)
    {
      listeners := listeners - {MoveListener(session)};
      listeners := listeners - {UpListener(session)};
      bodyCursor := DefaultCursor;
      masks := masks - {PageMask(session)};
      masks := masks - {InnerMask(session)};
    }

    /** Stops listening on the header and removes the node. A drag session
        still open keeps its document listeners and its masks. */
    method Dispose()
      modifies this
      ensures !headerListening && !nodeAttached && isDisposed
      ensures Installed() == old(Installed()) && Geometry() == old(Geometry())
      ensures nextSession == old(nextSession)
    {
      headerListening := false;
      nodeAttached := false;
      isDisposed := true;
    }
  }
}
