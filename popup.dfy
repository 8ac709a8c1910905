// The popup as a mutable widget: its handlers update its own fields and call
// into the UI manager, and each is proved to do what the corresponding
// function of PopupSpec says.
module PopupImpl {
  import opened Geometry
  import opened Placements
  import opened Ui
  import opened PopupSpec

  class Popup {
    var handle: Handle
    var visible: bool
    var desiredPosition: Vec2
    var actualSize: Vec2
    var placement: Placement
    var staysOpen: bool
    var isOpen: bool
    var content: Handle
    var body: Handle

    function State(): PopupState
      reads this
    {
      PopupState(handle, visible, desiredPosition, actualSize, placement, staysOpen, isOpen, content, body)
    }

    constructor FromState(s: PopupState)
      ensures State() == s
    {
      handle, visible, desiredPosition, actualSize := s.handle, s.visible, s.desiredPosition, s.actualSize;
      placement, staysOpen, isOpen := s.placement, s.staysOpen, s.isOpen;
      content, body := s.content, s.body;
    }

    /** Builds the body wrapper around the content and a hidden, closed popup
        around the body, registering both with the UI manager. */
    constructor Build(b: PopupBuilder, ui: UserInterface, newHandle: Handle, newBody: Handle)
      requires FreshSlots(ui.State(), newHandle, newBody, b.content)
      modifies ui
      ensures World(State(), ui.State()) == PopupSpec.Build(b, old(ui.State()), newHandle, newBody)
    {
      handle, visible, desiredPosition, actualSize := newHandle, false, Zero, Zero;
      placement, staysOpen, isOpen := b.placement, b.staysOpen, false;
      content, body := b.content, newBody;
      new;
      ui.AddNode(newBody);
      if b.content.IsSome() {
        ui.LinkNodes(b.content, newBody);
      }
      ui.AddNode(newHandle);
      ui.LinkNodes(newBody, newHandle);
    }

    method RawCopy() returns (c: Popup)
      ensures fresh(c) && c.State() == PopupSpec.RawCopy(State())
    {
      c := new Popup.FromState(
        PopupState(handle, visible, desiredPosition, actualSize, placement, false, false, content, body));
    }

    /** Rewrites content and body through `nodeMap`. Content is rewritten
        first; a body missing from the map is fatal and reported as `panicked`. */
    method Resolve(nodeMap: map<Handle, Handle>) returns (panicked: bool)
      modifies this
      ensures panicked <==> PopupSpec.Resolve(old(State()), nodeMap).BodyNotMapped?
      ensures !panicked ==> State() == PopupSpec.Resolve(old(State()), nodeMap).popup
      ensures panicked ==> State() == old(State()).(content := Remap(old(content), nodeMap))
    {
      if content in nodeMap {
        content := nodeMap[content];
      }
      panicked := body !in nodeMap;
      if !panicked {
        body := nodeMap[body];
      }
    }

    method HandleRoutedMessage(ui: UserInterface, message: UiMessage)
      modifies this, ui
      ensures World(State(), ui.State())
           == PopupSpec.HandleRoutedMessage(World(old(State()), old(ui.State())), message)
    {
      match message.data
      case Popup(msg) =>
        if message.destination == handle {
          match msg
          case Open =>
            isOpen := true;
            visible := true;
            if !staysOpen {
              if ui.TopPickingRestriction() != handle {
                ui.PushPickingRestriction(handle);
              }
            }
            ui.SendMessage(TopMostMsg(handle));
            desiredPosition := DesiredPosition(placement, actualSize, ui.screenSize, ui.cursorPosition);
          case Close =>
            isOpen := false;
            visible := false;
            if !staysOpen {
              ui.PopPickingRestriction();
            }
            if ui.capturedNode == handle {
              ui.ReleaseMouseCapture();
            }
          case Content(newContent) =>
            if content.IsSome() {
              ui.RemoveNode(content);
            }
            content := newContent;
            ui.LinkNodes(content, body);
          case Placement(q) =>
            placement := q;
        }
      case Widget(_) =>
    }

    /** Dismissal on a press outside `bounds`, the widget's screen bounds. */
    method HandleOsEvent(selfHandle: Handle, ui: UserInterface, event: OsEvent, bounds: Rect)
      modifies ui
      ensures World(State(), ui.State())
           == PopupSpec.HandleOsEvent(World(State(), old(ui.State())), selfHandle, event, bounds)
    {
      if event.MouseInput? && event.state == Pressed && ui.TopPickingRestriction() == selfHandle && isOpen {
        var pos := ui.cursorPosition;
        if !Contains(bounds, pos.x, pos.y) && !staysOpen {
          Close(ui);
        }
      }
    }

    method Open(ui: UserInterface)
      modifies ui
      ensures World(State(), ui.State()) == CallOpen(World(State(), old(ui.State())))
    {
      if !isOpen {
        ui.SendMessage(PopupMsg(PopupMessage.Open, handle));
      }
    }

    method Close(ui: UserInterface)
      modifies ui
      ensures World(State(), ui.State()) == CallClose(World(State(), old(ui.State())))
    {
      if isOpen {
        ui.SendMessage(PopupMsg(PopupMessage.Close, handle));
      }
    }

    method SetPlacement(ui: UserInterface, q: Placement)
      modifies this, ui
      ensures World(State(), ui.State()) == CallSetPlacement(World(old(State()), old(ui.State())), q)
    {
      if placement != q {
        placement := q;
        ui.SendMessage(PopupMsg(PopupMessage.Placement(q), handle));
      }
    }
  }
}
