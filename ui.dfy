// The parts of the UI manager a popup talks to: node handles, routed
// messages, the picking-restriction stack, the mouse-capture slot, the
// outgoing message queue and the node graph's parent links.
module Ui {
  import opened Geometry
  import opened Placements

  /** A weak reference into the node arena, with a distinguished none value. */
  datatype Handle = NoneHandle | Handle(index: nat, generation: nat)
  {
    predicate IsSome() { Handle? }
  }

  datatype ButtonState = Pressed | Released

  /** Raw input events; the popup reads only the button state of a mouse input. */
  datatype OsEvent = MouseInput(state: ButtonState) | OtherEvent

  datatype PopupMessage =
    | Open
    | Close
    | Content(content: Handle)
    | Placement(placement: Placement)

  datatype WidgetMessage = TopMost

  datatype UiMessageData = Popup(popup: PopupMessage) | Widget(widget: WidgetMessage)

  datatype UiMessage = UiMessage(data: UiMessageData, destination: Handle, handled: bool)

  /** An unhandled popup message addressed to `destination`. */
  function PopupMsg(m: PopupMessage, destination: Handle): UiMessage
  {
    UiMessage(Popup(m), destination, false)
  }

  /** The state of the UI manager seen by one popup. `outbox` is the queue of
      messages sent and not yet delivered; `parent` holds the node graph's
      child-to-parent links. */
  datatype UiState = UiState(
    screenSize: Vec2,
    cursorPosition: Vec2,
    pickingStack: seq<Handle>,
    capturedNode: Handle,
    outbox: seq<UiMessage>,
    nodes: set<Handle>,
    parent: map<Handle, Handle>)

  /** The top of the picking-restriction stack, or none when it is empty. */
  function Top(stack: seq<Handle>): Handle
  {
    if stack == [] then NoneHandle else stack[|stack| - 1]
  }

  /** The stack without its top entry; popping an empty stack changes nothing. */
  function Pop(stack: seq<Handle>): seq<Handle>
  {
    if stack == [] then [] else stack[..|stack| - 1]
  }

  function Push(ui: UiState, h: Handle): UiState
  {
    ui.(pickingStack := ui.pickingStack + [h])
  }

  function PopRestriction(ui: UiState): UiState
  {
    ui.(pickingStack := Pop(ui.pickingStack))
  }

  function ReleaseCapture(ui: UiState): UiState
  {
    ui.(capturedNode := NoneHandle)
  }

  function Send(ui: UiState, m: UiMessage): UiState
  {
    ui.(outbox := ui.outbox + [m])
  }

  /** Removing a node drops it and its parent link from the graph. */
  function WithoutNode(ui: UiState, h: Handle): UiState
  {
    ui.(nodes := ui.nodes - {h}, parent := ui.parent - {h})
  }

  function WithLink(ui: UiState, child: Handle, parent: Handle): UiState
  {
    ui.(parent := ui.parent[child := parent])
  }

  /** Pushing and then popping leaves the stack as it was; the restriction
      protocol relies on this for its push/pop symmetry. */
  lemma PopUndoesPush(ui: UiState, h: Handle)
    ensures PopRestriction(Push(ui, h)) == ui
    ensures Top(Push(ui, h).pickingStack) == h
  {
    assert (ui.pickingStack + [h])[..|ui.pickingStack|] == ui.pickingStack;
  }

  /** The UI manager as a mutable object; each operation is specified by its
      effect on `State()`. */
  class UserInterface {
    var screenSize: Vec2
    var cursorPosition: Vec2
    var pickingStack: seq<Handle>
    var capturedNode: Handle
    var outbox: seq<UiMessage>
    var nodes: set<Handle>
    var parent: map<Handle, Handle>

    function State(): UiState
      reads this
    {
      UiState(screenSize, cursorPosition, pickingStack, capturedNode, outbox, nodes, parent)
    }

    constructor (s: UiState)
      ensures State() == s
    {
      screenSize, cursorPosition := s.screenSize, s.cursorPosition;
      pickingStack, capturedNode, outbox := s.pickingStack, s.capturedNode, s.outbox;
      nodes, parent := s.nodes, s.parent;
    }

    function TopPickingRestriction(): Handle
      reads this
    {
      Top(pickingStack)
    }

    method PushPickingRestriction(h: Handle)
      modifies this
      ensures State() == Push(old(State()), h)
    {
      pickingStack := pickingStack + [h];
    }

    method PopPickingRestriction()
      modifies this
      ensures State() == PopRestriction(old(State()))
    {
      if pickingStack != [] {
        pickingStack := pickingStack[..|pickingStack| - 1];
      }
    }

    method ReleaseMouseCapture()
      modifies this
      ensures State() == ReleaseCapture(old(State()))
    {
      capturedNode := NoneHandle;
    }

    method SendMessage(m: UiMessage)
      modifies this
      ensures State() == Send(old(State()), m)
    {
      outbox := outbox + [m];
    }

    method RemoveNode(h: Handle)
      modifies this
      ensures State() == WithoutNode(old(State()), h)
    {
      nodes := nodes - {h};
      parent := parent - {h};
    }

    method LinkNodes(child: Handle, newParent: Handle)
      modifies this
      ensures State() == WithLink(old(State()), child, newParent)
    {
      parent := parent[child := newParent];
    }

    method AddNode(h: Handle)
      modifies this
      ensures State() == old(State()).(nodes := old(nodes) + {h})
    {
      nodes := nodes + {h};
    }
  }
}
