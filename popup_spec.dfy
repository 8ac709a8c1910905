// The popup's behaviour as functions of its own state and the UI-manager
// state: the routed-message handler, the raw-input handler, the guarded
// public helpers, copying, handle fix-up and the builder.
module PopupSpec {
  import opened Geometry
  import opened Placements
  import opened Ui

  /** The popup's fields, with the part of the widget base it uses: its own
      handle, visibility, desired local position and actual size. */
  datatype PopupState = PopupState(
    handle: Handle,
    visible: bool,
    desiredPosition: Vec2,
    actualSize: Vec2,
    placement: Placement,
    staysOpen: bool,
    isOpen: bool,
    content: Handle,
    body: Handle)

  /** A popup together with the UI manager it lives in. */
  datatype World = World(popup: PopupState, ui: UiState)

  function TopMostMsg(h: Handle): UiMessage
  {
    UiMessage(Widget(TopMost), h, false)
  }

  // ---------------------------------------------------------------------
  // Routed messages

  /** Handling Open. The handler does not look at `isOpen`. */
  function OnOpen(w: World): (r: World)
    ensures r.popup.isOpen && r.popup.visible
    ensures Aligned(w.popup.placement, r.popup.desiredPosition,
                    w.popup.actualSize, w.ui.screenSize, w.ui.cursorPosition)
    ensures r.popup == w.popup.(isOpen := true, visible := true,
                                desiredPosition := r.popup.desiredPosition)
    ensures r.ui.outbox == w.ui.outbox + [TopMostMsg(w.popup.handle)]
    ensures w.popup.staysOpen ==> r.ui.pickingStack == w.ui.pickingStack
    ensures !w.popup.staysOpen ==> Top(r.ui.pickingStack) == w.popup.handle
    ensures !w.popup.staysOpen ==>
      r.ui.pickingStack == if Top(w.ui.pickingStack) == w.popup.handle then w.ui.pickingStack
                           else w.ui.pickingStack + [w.popup.handle]
    ensures r.ui == w.ui.(pickingStack := r.ui.pickingStack, outbox := r.ui.outbox)
  {
    var p := w.popup;
    var ui1 := if !p.staysOpen && Top(w.ui.pickingStack) != p.handle then Push(w.ui, p.handle) else w.ui;
    var ui2 := Send(ui1, TopMostMsg(p.handle));
    var pos := DesiredPosition(p.placement, p.actualSize, ui2.screenSize, ui2.cursorPosition);
    World(p.(isOpen := true, visible := true, desiredPosition := pos), ui2)
  }

  /** Handling Close. The handler does not look at `isOpen`: every Close
      message pops the stack once when the popup is not stays-open. */
  function OnClose(w: World): (r: World)
    ensures !r.popup.isOpen && !r.popup.visible
    ensures r.popup == w.popup.(isOpen := false, visible := false)
    ensures w.popup.staysOpen ==> r.ui.pickingStack == w.ui.pickingStack
    ensures !w.popup.staysOpen && w.ui.pickingStack != [] ==>
      r.ui.pickingStack + [Top(w.ui.pickingStack)] == w.ui.pickingStack
    ensures !w.popup.staysOpen && w.ui.pickingStack == [] ==> r.ui.pickingStack == []
    ensures w.ui.capturedNode == w.popup.handle ==> !r.ui.capturedNode.IsSome()
    ensures w.ui.capturedNode != w.popup.handle ==> r.ui.capturedNode == w.ui.capturedNode
    ensures r.ui == w.ui.(pickingStack := r.ui.pickingStack, capturedNode := r.ui.capturedNode)
  {
    var p := w.popup;
    var ui1 := if !p.staysOpen then PopRestriction(w.ui) else w.ui;
    var ui2 := if ui1.capturedNode == p.handle then ReleaseCapture(ui1) else ui1;
    World(p.(isOpen := false, visible := false), ui2)
  }

  /** Handling Content(newContent): the old content node, if any, leaves the
      graph and `newContent` is linked under `body`; the link is made even when
      `newContent` is none. */
  function OnContent(w: World, newContent: Handle): (r: World)
    ensures r.popup == w.popup.(content := newContent)
    ensures r.ui.nodes == if w.popup.content.IsSome() then w.ui.nodes - {w.popup.content} else w.ui.nodes
    ensures newContent in r.ui.parent && r.ui.parent[newContent] == w.popup.body
    ensures w.popup.content.IsSome() && w.popup.content != newContent ==> w.popup.content !in r.ui.parent
    ensures forall n :: n in w.ui.parent && n != newContent && !(w.popup.content.IsSome() && n == w.popup.content) ==>
      n in r.ui.parent && r.ui.parent[n] == w.ui.parent[n]
    ensures forall n :: n in r.ui.parent && n != newContent ==> n in w.ui.parent
    ensures r.ui == w.ui.(nodes := r.ui.nodes, parent := r.ui.parent)
  {
    var p := w.popup;
    var ui1 := if p.content.IsSome() then WithoutNode(w.ui, p.content) else w.ui;
    var p1 := p.(content := newContent);
    World(p1, WithLink(ui1, p1.content, p1.body))
  }

  /** The popup's part of the node graph: body is linked under the popup and
      present content under body. */
  ghost predicate TreeShape(w: World)
  {
    && w.popup.body in w.ui.parent && w.ui.parent[w.popup.body] == w.popup.handle
    && (w.popup.content.IsSome() ==>
          w.popup.content in w.ui.parent && w.ui.parent[w.popup.content] == w.popup.body)
  }

  /** A Content message for any handle other than the body wrapper itself keeps
      the popup's part of the graph in shape. */
  lemma ContentMessageKeepsTreeShape(w: World, newContent: Handle)
    requires TreeShape(w) && w.popup.content != w.popup.body && newContent != w.popup.body
    ensures TreeShape(OnContent(w, newContent))
  {
  }

  /** As written, a Content message carrying the current content removes that
      node from the graph and then links the removed handle under body again. */
  lemma ContentResentRemovesNode(w: World)
    requires w.popup.content.IsSome()
    ensures var r := OnContent(w, w.popup.content);
      w.popup.content !in r.ui.nodes && r.ui.parent[w.popup.content] == w.popup.body
  {
  }

  /** Handling Placement(q): only the placement changes; the popup is not
      moved until it is next opened. */
  function OnPlacement(w: World, q: Placement): (r: World)
    ensures r.popup.placement == q
    ensures r.popup.desiredPosition == w.popup.desiredPosition && r.popup.isOpen == w.popup.isOpen
    ensures r.popup == w.popup.(placement := q) && r.ui == w.ui
  {
    World(w.popup.(placement := q), w.ui)
  }

  /** The routed-message handler: popup messages addressed to this popup take
      effect, every other message is ignored. */
  function HandleRoutedMessage(w: World, m: UiMessage): (r: World)
    ensures !(m.data.Popup? && m.destination == w.popup.handle) ==> r == w
    ensures r.popup.handle == w.popup.handle && r.popup.body == w.popup.body
    ensures r.popup.staysOpen == w.popup.staysOpen
  {
    match m.data
    case Popup(msg) =>
      if m.destination != w.popup.handle then w
      else (
        match msg
        case Open => OnOpen(w)
        case Close => OnClose(w)
        case Content(c) => OnContent(w, c)
        case Placement(q) => OnPlacement(w, q))
    case Widget(_) => w
  }

  // ---------------------------------------------------------------------
  // Guarded public helpers: they only enqueue a message addressed to the
  // popup itself, which takes effect when it is delivered.

  function CallOpen(w: World): (r: World)
    ensures w.popup.isOpen ==> r == w
    ensures !w.popup.isOpen ==> r.ui.outbox == w.ui.outbox + [PopupMsg(Open, w.popup.handle)]
    ensures r.popup == w.popup && r.ui == w.ui.(outbox := r.ui.outbox)
  {
    if !w.popup.isOpen then World(w.popup, Send(w.ui, PopupMsg(Open, w.popup.handle))) else w
  }

  function CallClose(w: World): (r: World)
    ensures !w.popup.isOpen ==> r == w
    ensures w.popup.isOpen ==> r.ui.outbox == w.ui.outbox + [PopupMsg(Close, w.popup.handle)]
    ensures r.popup == w.popup && r.ui == w.ui.(outbox := r.ui.outbox)
  {
    if w.popup.isOpen then World(w.popup, Send(w.ui, PopupMsg(Close, w.popup.handle))) else w
  }

  /** set_placement changes the field at once and also enqueues the message. */
  function CallSetPlacement(w: World, q: Placement): (r: World)
    ensures q == w.popup.placement ==> r == w
    ensures r.popup == w.popup.(placement := q)
    ensures q != w.popup.placement ==> r.ui.outbox == w.ui.outbox + [PopupMsg(Placement(q), w.popup.handle)]
    ensures r.ui == w.ui.(outbox := r.ui.outbox)
  {
    if w.popup.placement != q then
      World(w.popup.(placement := q), Send(w.ui, PopupMsg(Placement(q), w.popup.handle)))
    else w
  }

  // ---------------------------------------------------------------------
  // Dismissal on a click outside

  /** The conditions under which a raw input event dismisses the popup. */
  predicate Dismisses(w: World, selfHandle: Handle, ev: OsEvent, bounds: Rect)
  {
    && ev == MouseInput(Pressed)
    && Top(w.ui.pickingStack) == selfHandle
    && w.popup.isOpen
    && !Contains(bounds, w.ui.cursorPosition.x, w.ui.cursorPosition.y)
    && !w.popup.staysOpen
  }

  /** The raw-input handler; `bounds` are the widget's screen bounds. It never
      changes state itself: at most it enqueues Close through `close()`. */
  function HandleOsEvent(w: World, selfHandle: Handle, ev: OsEvent, bounds: Rect): (r: World)
    ensures r.popup == w.popup
    ensures Dismisses(w, selfHandle, ev, bounds) ==>
      r.ui == w.ui.(outbox := w.ui.outbox + [PopupMsg(Close, w.popup.handle)])
    ensures !Dismisses(w, selfHandle, ev, bounds) ==> r == w
  {
    match ev
    case MouseInput(state) =>
      if state == Pressed && Top(w.ui.pickingStack) == selfHandle && w.popup.isOpen then
        var pos := w.ui.cursorPosition;
        if !Contains(bounds, pos.x, pos.y) && !w.popup.staysOpen then CallClose(w) else w
      else w
    case OtherEvent => w
  }

  /** A press inside the bounds never enqueues anything, stays-open or not. */
  lemma PressInsideNeverDismisses(w: World, selfHandle: Handle, ev: OsEvent, bounds: Rect)
    requires Contains(bounds, w.ui.cursorPosition.x, w.ui.cursorPosition.y)
    ensures HandleOsEvent(w, selfHandle, ev, bounds) == w
  {
  }

  // ---------------------------------------------------------------------
  // Copy and handle fix-up

  /** A raw copy keeps the widget, placement and handles and resets both flags. */
  function RawCopy(p: PopupState): (c: PopupState)
    ensures !c.isOpen && !c.staysOpen
    ensures c == p.(isOpen := false, staysOpen := false)
  {
    PopupState(p.handle, p.visible, p.desiredPosition, p.actualSize, p.placement,
               false, false, p.content, p.body)
  }

  lemma RawCopyIsIdempotent(p: PopupState)
    ensures RawCopy(RawCopy(p)) == RawCopy(p)
    ensures !p.isOpen && !p.staysOpen ==> RawCopy(p) == p
  {
  }

  /** The outcome of a handle fix-up: the body handle missing from the map is
      a fatal error (the original unwraps the lookup). */
  datatype Resolution = Resolved(popup: PopupState) | BodyNotMapped

  function Remap(h: Handle, nodeMap: map<Handle, Handle>): Handle
  {
    if h in nodeMap then nodeMap[h] else h
  }

  /** Fix-up after copying a subtree: content is remapped when the map knows it
      and kept otherwise, body must be in the map. */
  function Resolve(p: PopupState, nodeMap: map<Handle, Handle>): (r: Resolution)
    ensures r.BodyNotMapped? <==> p.body !in nodeMap
    ensures r.Resolved? ==> r.popup.body == nodeMap[p.body]
    ensures r.Resolved? && p.content in nodeMap ==> r.popup.content == nodeMap[p.content]
    ensures r.Resolved? && p.content !in nodeMap ==> r.popup.content == p.content
    ensures r.Resolved? ==> r.popup.(content := p.content, body := p.body) == p
  {
    var content := Remap(p.content, nodeMap);
    if p.body in nodeMap then Resolved(p.(content := content, body := nodeMap[p.body]))
    else BodyNotMapped
  }

  /** A map that sends each of the popup's handles to itself changes nothing. */
  lemma ResolveWithIdentityIsIdentity(p: PopupState, nodeMap: map<Handle, Handle>)
    requires p.body in nodeMap && nodeMap[p.body] == p.body
    requires p.content in nodeMap ==> nodeMap[p.content] == p.content
    ensures Resolve(p, nodeMap) == Resolved(p)
  {
  }

  /** Fixing up through a map and then through a map that sends the new
      handles back restores the original popup. */
  lemma ResolveRoundTrip(p: PopupState, there: map<Handle, Handle>, back: map<Handle, Handle>)
    requires p.body in there && there[p.body] in back && back[there[p.body]] == p.body
    requires p.content in there ==> there[p.content] in back && back[there[p.content]] == p.content
    requires p.content !in there ==> p.content !in back
    ensures Resolve(p, there).Resolved?
    ensures Resolve(Resolve(p, there).popup, back) == Resolved(p)
  {
  }

  // ---------------------------------------------------------------------
  // Builder

  datatype PopupBuilder = PopupBuilder(placement: Placement, staysOpen: bool, content: Handle)

  /** The defaults: placed at the cursor, dismissable, no content. */
  function NewBuilder(): (b: PopupBuilder)
    ensures b.placement == Cursor && !b.staysOpen && !b.content.IsSome()
  {
    PopupBuilder(Cursor, false, NoneHandle)
  }

  function WithPlacement(b: PopupBuilder, q: Placement): (r: PopupBuilder)
    ensures r.placement == q
    ensures r.staysOpen == b.staysOpen && r.content == b.content
  {
    b.(placement := q)
  }

  function WithStaysOpen(b: PopupBuilder, v: bool): (r: PopupBuilder)
    ensures r.staysOpen == v
    ensures r.placement == b.placement && r.content == b.content
  {
    b.(staysOpen := v)
  }

  function WithContent(b: PopupBuilder, c: Handle): (r: PopupBuilder)
    ensures r.content == c
    ensures r.placement == b.placement && r.staysOpen == b.staysOpen
  {
    b.(content := c)
  }

  /** Each builder setter touches only its own option, the setters commute, and
      the last call of a setter wins. */
  lemma BuilderSettersAreIndependent(b: PopupBuilder, q: Placement, v: bool, c: Handle, q2: Placement)
    ensures WithPlacement(WithStaysOpen(WithContent(b, c), v), q) == PopupBuilder(q, v, c)
    ensures WithContent(WithStaysOpen(WithPlacement(b, q), v), c) == PopupBuilder(q, v, c)
    ensures WithPlacement(WithPlacement(b, q2), q) == WithPlacement(b, q)
  {
  }

  /** `handle` and `body` are the fresh arena slots the UI manager hands out
      for the popup and for its body wrapper. */
  predicate FreshSlots(ui: UiState, handle: Handle, body: Handle, content: Handle)
  {
    && handle.IsSome() && body.IsSome() && handle != body
    && handle !in ui.nodes && body !in ui.nodes
    && content != handle && content != body
  }

  /** Building: a body wrapper holding the content, under a hidden and closed
      popup, both registered in the graph. */
  function Build(b: PopupBuilder, ui: UiState, handle: Handle, body: Handle): (r: World)
    requires FreshSlots(ui, handle, body, b.content)
    ensures !r.popup.isOpen && !r.popup.visible
    ensures r.popup.handle == handle && r.popup.body == body
    ensures r.popup.placement == b.placement && r.popup.staysOpen == b.staysOpen
    ensures r.popup.content == b.content
    ensures r.ui.nodes == ui.nodes + {body, handle}
    ensures body in r.ui.parent && r.ui.parent[body] == handle
    ensures b.content.IsSome() ==> b.content in r.ui.parent && r.ui.parent[b.content] == body
    ensures r.ui.pickingStack == ui.pickingStack && r.ui.capturedNode == ui.capturedNode
    ensures r.ui.outbox == ui.outbox
    ensures r.ui == ui.(nodes := r.ui.nodes, parent := r.ui.parent)
    ensures forall n :: n in ui.parent && n != body && !(b.content.IsSome() && n == b.content) ==>
      n in r.ui.parent && r.ui.parent[n] == ui.parent[n]
    ensures forall n :: n in r.ui.parent ==> n in ui.parent || n == body || (b.content.IsSome() && n == b.content)
    ensures r.popup.desiredPosition == Zero && r.popup.actualSize == Zero
  {
    var withBody := ui.(nodes := ui.nodes + {body});
    var ui1 := if b.content.IsSome() then WithLink(withBody, b.content, body) else withBody;
    var ui2 := WithLink(ui1.(nodes := ui1.nodes + {handle}), body, handle);
    var p := PopupState(handle, false, Zero, Zero, b.placement, b.staysOpen, false, b.content, body);
    World(p, ui2)
  }
}
