/** The main layout's pointer-gesture controller. Two mutable snapshots, the
    drag reference and the resize reference, are armed on mouse-down, read on
    every mouse-move to turn pointer deltas into UPDATE_WINDOW dispatches, and
    cleared by a mouse-up anywhere in the page. Every dispatch goes through the
    store's reducer. The same layout owns the chat input box. */
module AppController {
  import opened Wrappers
  import opened Types
  import opened NeuralContext
  import Strings

  /** Arming a drag records the pointer start and the window's origin. */
  datatype DragRef = DragRef(id: string, startX: int, startY: int, windowX: int, windowY: int)

  /** Arming a resize records the pointer start and the window's size. */
  datatype ResizeRef = ResizeRef(id: string, startX: int, startY: int, width: int, height: int)

  const MinWidth := 300
  const MinHeight := 200

  /** The position a drag move asks for: the window's origin moved by the
      pointer's delta since the drag began. Only x and y are patched. */
  function DragPatch(d: DragRef, clientX: int, clientY: int): (p: WindowPatch)
    ensures p == EmptyWindowPatch.(x := p.x, y := p.y)
    ensures p.x.Some? && p.x.value - d.windowX == clientX - d.startX
    ensures p.y.Some? && p.y.value - d.windowY == clientY - d.startY
  {
    EmptyWindowPatch.(x := Some(d.windowX + (clientX - d.startX)),
                      y := Some(d.windowY + (clientY - d.startY)))
  }

  /** The size a resize move asks for: the recorded size grown by the
      pointer's delta, but never below 300 by 200. Only width and height
      are patched. */
  function ResizePatch(r: ResizeRef, clientX: int, clientY: int): (p: WindowPatch)
    ensures p == EmptyWindowPatch.(width := p.width, height := p.height)
    ensures p.width.Some? && p.width.value >= MinWidth
    ensures p.height.Some? && p.height.value >= MinHeight
    ensures p.width.value == if r.width + (clientX - r.startX) >= MinWidth then r.width + (clientX - r.startX) else MinWidth
    ensures p.height.value == if r.height + (clientY - r.startY) >= MinHeight then r.height + (clientY - r.startY) else MinHeight
  {
    var w := r.width + (clientX - r.startX);
    var h := r.height + (clientY - r.startY);
    EmptyWindowPatch.(width := Some(if w > MinWidth then w else MinWidth),
                      height := Some(if h > MinHeight then h else MinHeight))
  }

  /** What one mouse-move dispatches: nothing when neither reference is
      armed, the drag update first and the resize update second when both are. */
  function MoveDispatches(drag: Option<DragRef>, resize: Option<ResizeRef>, clientX: int, clientY: int): (r: seq<Action>)
    ensures |r| == (if drag.Some? then 1 else 0) + (if resize.Some? then 1 else 0)
    ensures drag.Some? ==> r[0] == UpdateWindow(drag.value.id, DragPatch(drag.value, clientX, clientY))
    ensures resize.Some? ==> r[|r| - 1] == UpdateWindow(resize.value.id, ResizePatch(resize.value, clientX, clientY))
  {
    (if drag.Some? then [UpdateWindow(drag.value.id, DragPatch(drag.value, clientX, clientY))] else [])
    + (if resize.Some? then [UpdateWindow(resize.value.id, ResizePatch(resize.value, clientX, clientY))] else [])
  }

  /** A drag from (100,100) to (130,115) on a window at (50,50) asks for (80,65). */
  lemma DragExample(id: string)
    ensures var p := DragPatch(DragRef(id, 100, 100, 50, 50), 130, 115);
      p.x == Some(80) && p.y == Some(65)
  {
  }

  /** After a resize move the resized window is at least 300 by 200, however
      far the pointer went, and its position is untouched. */
  lemma ResizeMoveKeepsMinimum(s: NeuralState, r: ResizeRef, clientX: int, clientY: int, i: nat)
    requires i < |s.windows| && s.windows[i].id == r.id
    ensures var t := Reduce(s, UpdateWindow(r.id, ResizePatch(r, clientX, clientY)));
      t.windows[i].width >= MinWidth && t.windows[i].height >= MinHeight &&
      t.windows[i].x == s.windows[i].x && t.windows[i].y == s.windows[i].y
  {
  }

  /** A drag move never changes a window's size. */
  lemma DragMoveKeepsSize(s: NeuralState, d: DragRef, clientX: int, clientY: int, i: nat)
    requires i < |s.windows|
    ensures var t := Reduce(s, UpdateWindow(d.id, DragPatch(d, clientX, clientY)));
      t.windows[i].width == s.windows[i].width && t.windows[i].height == s.windows[i].height &&
      (s.windows[i].id == d.id ==> t.windows[i].x == d.windowX + (clientX - d.startX))
  {
  }

  class MainLayout {
    var store: NeuralState
    var dragRef: Option<DragRef>
    var resizeRef: Option<ResizeRef>
    var input: string

    constructor (initial: NeuralState)
      ensures store == initial && dragRef.None? && resizeRef.None? && input == ""
    {
      store := initial;
      dragRef := None;
      resizeRef := None;
      input := "";
    }

    method Dispatch(a: Action)
      modifies this`store
      ensures store == Reduce(old(store), a)
    {
      store := Reduce(store, a);
    }

    /** Mouse-down on a header. Refused, with nothing dispatched and the
        reference left as it was, when no window has the id or it is
        maximized; otherwise the window is focused and then the drag armed. */
    method OnDragStart(id: string, clientX: int, clientY: int)
      modifies this`store, this`dragRef
      ensures var win := FindWindow(old(store).windows, id);
        if win.None? || win.value.isMaximized then
          store == old(store) && dragRef == old(dragRef)
        else
          store == Reduce(old(store), FocusWindow(id)) &&
          dragRef == Some(DragRef(id, clientX, clientY, win.value.x, win.value.y))
    {
      var win := FindWindow(store.windows, id);
      if win.None? || win.value.isMaximized {
        return;
      }
      Dispatch(FocusWindow(id));
      dragRef := Some(DragRef(id, clientX, clientY, win.value.x, win.value.y));
    }

    /** Mouse-down on a resize handle: the same guard, then focus, then the
        size snapshot. */
    method OnResizeStart(id: string, clientX: int, clientY: int)
      modifies this`store, this`resizeRef
      ensures var win := FindWindow(old(store).windows, id);
        if win.None? || win.value.isMaximized then
          store == old(store) && resizeRef == old(resizeRef)
        else
          store == Reduce(old(store), FocusWindow(id)) &&
          resizeRef == Some(ResizeRef(id, clientX, clientY, win.value.width, win.value.height))
    {
      var win := FindWindow(store.windows, id);
      if win.None? || win.value.isMaximized {
        return;
      }
      Dispatch(FocusWindow(id));
      resizeRef := Some(ResizeRef(id, clientX, clientY, win.value.width, win.value.height));
    }

    /** Mouse-move anywhere: dispatches the drag update if a drag is armed,
        then the resize update if a resize is armed. */
    method HandleMouseMove(clientX: int, clientY: int)
      modifies this`store
      ensures store == ReduceAll(old(store), MoveDispatches(dragRef, resizeRef, clientX, clientY))
    {
      ghost var start := store;
      ghost var moves := MoveDispatches(dragRef, resizeRef, clientX, clientY);
      if dragRef.Some? {
        var d := dragRef.value;
        Dispatch(UpdateWindow(d.id, DragPatch(d, clientX, clientY)));
      }
      ghost var mid := store;
      if resizeRef.Some? {
        var r := resizeRef.value;
        Dispatch(UpdateWindow(r.id, ResizePatch(r, clientX, clientY)));
      }
      if dragRef.Some? && resizeRef.Some? {
        assert ReduceAll(start, moves) == ReduceAll(mid, moves[1..]);
        assert ReduceAll(mid, moves[1..]) == ReduceAll(store, moves[1..][1..]);
      } else if dragRef.Some? {
        assert ReduceAll(start, moves) == ReduceAll(store, moves[1..]);
      } else if resizeRef.Some? {
        assert ReduceAll(start, moves) == ReduceAll(store, moves[1..]);
      }
    }

    /** Mouse-up anywhere in the page disarms both gestures. */
    method HandleMouseUp()
      modifies this`dragRef, this`resizeRef
      ensures dragRef.None? && resizeRef.None?
    {
      dragRef := None;
      resizeRef := None;
    }

    /** The send button: nothing when the input is blank after trimming or a
        reply is loading; otherwise the untrimmed input is handed to the
        engine (returned here) and the box is cleared. */
    method HandleSendMessage(isChatLoading: bool) returns (sent: Option<string>)
      modifies this`input
      ensures Strings.Trim(old(input)) == "" || isChatLoading ==> sent.None? && input == old(input)
      ensures !(Strings.Trim(old(input)) == "" || isChatLoading) ==> sent == Some(old(input)) && input == ""
    {
      if Strings.Trim(input) == "" || isChatLoading {
        return None;
      }
      sent := Some(input);
      input := "";
    }
  }

  /** A drag from start to release: once the pointer is released, further
      moves leave the store as it was. */
  method ReleaseEndsGesture(initial: NeuralState, id: string) returns (released: NeuralState, later: NeuralState)
    ensures later == released
  {
    var layout := new MainLayout(initial);
    layout.OnDragStart(id, 100, 100);
    layout.HandleMouseMove(130, 115);
    layout.HandleMouseUp();
    released := layout.store;
    layout.HandleMouseMove(500, 500);
    later := layout.store;
  }
}
