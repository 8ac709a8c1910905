# Popup widget of the rg3d retained-mode UI, in Dafny

This project models `src/popup.rs` from rg3d's UI library: the popup (a
transient overlay) and the UI-manager state it shares with other overlays.
Nothing here runs; everything is stated and proved with the Dafny verifier.

- `geometry.dfy` (`Geometry`): points and sizes over `real`, and rectangle containment.
- `placement.dfy` (`Placements`): the `Placement` variants and placement
  resolution. `DesiredPosition` computes the position. `Aligned` states
  declaratively which popup edges meet which screen edges.
- `ui.dfy` (`Ui`): handles with a distinguished none value, and the popup,
  widget and raw-input messages. It also holds `UiState`, the UI-manager state
  a popup touches: the picking-restriction stack, the captured node, the
  outgoing message queue and the node graph's parent links. `UserInterface`
  is that state as a mutable object.
- `popup_spec.dfy` (`PopupSpec`): the popup's behaviour as pure functions over
  a popup and its UI manager (`World`). It covers the routed-message handler,
  the raw-input handler, the guarded `open`/`close`/`set_placement`,
  `raw_copy`, `resolve` and the builder.
- `popup_traces.dfy` (`PopupTraces`): runs of arbitrary event sequences and the
  invariants every run keeps. One example: while a popup is not stays-open,
  its handle is on the restriction stack exactly when it is open, and then
  only on top. These lemmas are proved by induction over the run.
- `popup.dfy` (`PopupImpl`): the `Popup` class. Its methods update fields in
  place and call the `UserInterface` object. Each method is proved to produce
  exactly the state that its `PopupSpec` function gives.

The model follows the code as written, including these behaviours a reader
might not expect:
- The `Open` and `Close` message handlers do not check `is_open`. Only the
  public `open()`/`close()` guards do. A second `Close` message therefore pops
  the restriction stack again. Because `is_open` changes only when a message
  is delivered, two `close()` calls before delivery enqueue two Close messages
  (`CloseTwiceBeforeDeliveryPopsTwice`).
- On a `Content` message, `link_nodes` is called even when the new content is
  the none handle. Re-sending the current content removes that node from the
  graph (`ContentResentRemovesNode`).
- `raw_copy` resets `stays_open` as well as `is_open`.

Assumptions about UI-manager code outside this file:
- The top of an empty restriction stack is the none handle.
- Popping an empty stack does nothing.
- Releasing the mouse capture clears the captured node.
- `Rect::contains` includes the rectangle's edges.
- `link_nodes` returns normally and records a parent link for any child
  handle, including the none handle and a handle that was just removed from
  the graph.
- `Widget::raw_copy` copies the widget's handle, visibility, desired position
  and actual size unchanged.

## Model

| member | source | states |
|---|---|---|
| Placements.DesiredPosition | src/popup.rs:96-133 | each placement puts the popup where `Aligned` says: LeftTop at the origin; RightTop with its right edge at the screen width; Center with equal margins on both sides; LeftBottom and RightBottom touching the bottom edge; Cursor at the cursor; Position(p) at p |
| Placements.AlignedIsUnique | src/popup.rs:96-133 | the alignment constraints of a placement determine the position uniquely |
| Placements.AnchoredPopupFitsOnScreen | src/popup.rs:96-133 | a popup no larger than the screen, placed at one of the five screen anchors, lies wholly on the screen |
| Placements.CornersAndCenterAgree | src/popup.rs:96-133 | Center is the midpoint of LeftTop and RightBottom; RightTop and LeftBottom share coordinates with them |
| Placements.WorkedExample | src/popup.rs:96-133 | on an 800x600 screen a 100x50 popup goes to (0,0), (700,0), (350,275), (0,550), (700,550), the cursor, or p |
| Ui.PopUndoesPush | src/popup.rs:86-90 | pushing a handle makes it the top, and popping afterwards restores the stack |
| PopupSpec.OnOpen | src/popup.rs:83-134 | Open makes the popup open and visible and enqueues TopMost to itself. When not stays-open, the handle is pushed only if it was not already on top, so it is on top afterwards; when stays-open, the stack is unchanged. The new position is aligned per its placement. Nothing else changes |
| PopupSpec.OnClose | src/popup.rs:135-144 | Close makes the popup closed and hidden and pops exactly one entry when not stays-open (none when stays-open). The capture is released exactly when this popup holds it. The queue and graph are unchanged |
| PopupSpec.OnContent | src/popup.rs:145-151 | Content(c) removes the old content node if it was some, sets content to c and links c under body (even when c is none). Other links, body, open state, placement and stack are unchanged |
| PopupSpec.ContentMessageKeepsTreeShape | src/popup.rs:145-151 | after a Content message, body stays under the popup and present content is under body |
| PopupSpec.ContentResentRemovesNode | src/popup.rs:145-151 | re-sending the current content removes it from the graph and links the removed handle under body again |
| PopupSpec.OnPlacement | src/popup.rs:152-155 | Placement(p) sets the placement and leaves the position, the open state and the UI manager unchanged |
| PopupSpec.HandleRoutedMessage | src/popup.rs:79-160 | messages that are not popup messages addressed to this popup change nothing; no message changes handle, body or stays-open |
| PopupSpec.CallOpen | src/popup.rs:175-184 | open() enqueues exactly one Open addressed to the popup iff it is closed, and otherwise changes nothing |
| PopupSpec.CallClose | src/popup.rs:186-195 | close() enqueues exactly one Close addressed to the popup iff it is open, and otherwise changes nothing |
| PopupSpec.CallSetPlacement | src/popup.rs:197-207 | set_placement(p) does nothing when p is the current placement. Otherwise it sets p and enqueues exactly one Placement(p) |
| PopupSpec.HandleOsEvent | src/popup.rs:162-171 | a raw event enqueues Close iff it is a press, this handle is on top of the stack, the popup is open, the cursor is outside the bounds and the popup is not stays-open; otherwise nothing changes |
| PopupSpec.PressInsideNeverDismisses | src/popup.rs:162-171 | a press with the cursor inside the bounds never changes anything, whatever stays-open is |
| PopupSpec.RawCopy | src/popup.rs:61-70 | a copy is closed and not stays-open; placement, content and body are kept, and the widget part is copied unchanged (an assumption about `Widget::raw_copy`) |
| PopupSpec.RawCopyIsIdempotent | src/popup.rs:61-70 | copying a copy gives the same copy; a closed, dismissable popup copies to itself |
| PopupSpec.Resolve | src/popup.rs:72-77 | fix-up fails iff body is not in the map. Otherwise body is mapped and content is mapped when the map knows it and kept otherwise. No other field changes |
| PopupSpec.ResolveWithIdentityIsIdentity | src/popup.rs:72-77 | a map sending the popup's handles to themselves leaves it unchanged |
| PopupSpec.ResolveRoundTrip | src/popup.rs:72-77 | fixing up through a map and then through its inverse restores the popup |
| PopupSpec.NewBuilder | src/popup.rs:218-225 | the builder defaults are Cursor placement, not stays-open, no content |
| PopupSpec.WithPlacement | src/popup.rs:227-240 | with_placement sets the placement and keeps the stays-open option and the content |
| PopupSpec.WithStaysOpen | src/popup.rs:227-240 | stays_open sets the stays-open option and keeps the placement and the content |
| PopupSpec.WithContent | src/popup.rs:227-240 | with_content sets the content and keeps the placement and the stays-open option |
| PopupSpec.BuilderSettersAreIndependent | src/popup.rs:227-240 | each builder setter sets only its own option, the setters commute, and the last call wins |
| PopupSpec.Build | src/popup.rs:242-264 | a built popup is closed and hidden, with the builder's placement, policy and content. Body and popup are registered; body is under the popup and content under body. Every other parent link, the stack, the capture, the queue, the screen size and the cursor are unchanged. The position and size start at zero |
| PopupTraces.StepKeepsStackDiscipline | src/popup.rs:83-144 | every event keeps the stack discipline: a non-stays-open popup's handle is on the stack iff it is open, and only on top |
| PopupTraces.RunKeepsStackDiscipline | src/popup.rs:79-207 | every run of events keeps the stack discipline |
| PopupTraces.StaysOpenNeverTouchesStack | src/popup.rs:86-140 | no run of a stays-open popup changes the restriction stack |
| PopupTraces.RunKeepsVisibilityInStep | src/popup.rs:83-137 | visibility equals the open flag after every run that starts with them equal |
| PopupTraces.RunKeepsIdentity | src/popup.rs:79-207 | no run changes handle, body or stays-open, and the popup only appends messages addressed to itself |
| PopupTraces.BuiltPopupKeepsInvariants | src/popup.rs:242-264 | every run from a freshly built popup keeps the stack discipline, visibility in step, its identity, and messages addressed to itself |
| PopupTraces.OpenCloseCycleRestoresStack | src/popup.rs:83-195 | open(), deliver Open, close(), deliver Close leaves the stack as it was (one push and one pop, or none when stays-open). It enqueues exactly Open, TopMost, Close |
| PopupTraces.CloseTwiceBeforeDeliveryPopsTwice | src/popup.rs:135-195 | two close() calls before delivery enqueue two Close messages, and delivering them pops two entries |
| PopupTraces.OpenTwiceBeforeDeliveryPushesOnce | src/popup.rs:83-184 | two open() calls before delivery enqueue two Open messages, but the stack gets one push |
| PopupTraces.SetPlacementIsIdempotent | src/popup.rs:152-207 | repeating set_placement(p) enqueues one message, and delivering it leaves the placement set_placement gave |
| PopupImpl.Popup.Build | src/popup.rs:242-264 | the constructor leaves popup and UI manager as `PopupSpec.Build` says |
| PopupImpl.Popup.RawCopy | src/popup.rs:61-70 | returns a fresh popup whose state is `PopupSpec.RawCopy` of this one |
| PopupImpl.Popup.Resolve | src/popup.rs:72-77 | rewrites content and then body in place as `PopupSpec.Resolve` says; a missing body is reported as a panic after content was rewritten |
| PopupImpl.Popup.HandleRoutedMessage | src/popup.rs:79-160 | updates the popup's fields and the UI manager in place exactly as `PopupSpec.HandleRoutedMessage` says |
| PopupImpl.Popup.HandleOsEvent | src/popup.rs:162-171 | changes only the UI manager, as `PopupSpec.HandleOsEvent` says |
| PopupImpl.Popup.Open | src/popup.rs:175-184 | changes only the queue, as `PopupSpec.CallOpen` says |
| PopupImpl.Popup.Close | src/popup.rs:186-195 | changes only the queue, as `PopupSpec.CallClose` says |
| PopupImpl.Popup.SetPlacement | src/popup.rs:197-207 | changes the placement and the queue as `PopupSpec.CallSetPlacement` says |

## Left out

- Message delivery and `flush_messages`. The queue is an append-only outbox of sent messages. Runs deliver any message the caller chooses, so routing and FIFO draining are not modelled. The flush at the end of `build` is not modelled.
- Layout invalidation (`invalidate_layout`) in `open`, `close`, `set_placement` and the Placement handler, and measure/arrange. The widget's actual size is a field that is taken as given; a built popup starts with size zero.
- Rendering and the z-order effect of TopMost. The model only records that the message is enqueued.
- `f32` arithmetic in `Vec2`. Coordinates are exact reals. Placement resolution only subtracts and halves, so only rounding is lost there. The placement comparison in `set_placement` also uses `f32` equality: a `Position` with a NaN coordinate is unequal to itself, so the original enqueues a message even for an unchanged placement, while `CallSetPlacement` with real equality does not.
- How `screen_bounds()` is computed. The raw-input handler takes the bounds as a parameter.
- Removal of a node's descendants by `remove_node`. Only the node and its parent link leave the graph, and children lists are not kept.
- The widget builder's own options, the border builder, and arena/generation handle allocation. The handles for a new popup and its body come in as fresh parameters.
- `Deref`/`DerefMut` and the type parameters `M` and `C`.
- Several popups sharing the restriction stack. Each run involves one popup, and nesting order across popups is not enforced by the code, so it is not assumed.
- The mouse button and the event position of a raw mouse input. The code reads only the button state and takes the position from the cursor.
- PopupImpl.Popup.Open, PopupImpl.Popup.Close, PopupImpl.Popup.HandleOsEvent: the original sends through a sender held by the widget. Here the UI manager is passed in explicitly.
