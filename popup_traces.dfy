// Runs of one popup: any sequence of message deliveries, public calls and raw
// input events, and the invariants every run keeps.
module PopupTraces {
  import opened Geometry
  import opened Placements
  import opened Ui
  import opened PopupSpec

  /** One thing that can happen to a popup. Messages are delivered in any
      order the caller chooses: routing and the drain loop are not modelled. */
  datatype Event =
    | Delivered(message: UiMessage)
    | OpenCalled
    | CloseCalled
    | SetPlacementCalled(placement: Placement)
    | InputReceived(event: OsEvent, bounds: Rect)

  function Step(w: World, e: Event): World
  {
    match e
    case Delivered(m) => HandleRoutedMessage(w, m)
    case OpenCalled => CallOpen(w)
    case CloseCalled => CallClose(w)
    case SetPlacementCalled(q) => CallSetPlacement(w, q)
    case InputReceived(ev, bounds) => HandleOsEvent(w, w.popup.handle, ev, bounds)
  }

  function Run(w: World, es: seq<Event>): World
    decreases |es|
  {
    if es == [] then w else Run(Step(w, es[0]), es[1..])
  }

  // ---------------------------------------------------------------------
  // Invariants

  /** The restriction-stack discipline of a popup that is not stays-open: its
      handle is on the stack exactly while it is open, and then only on top. */
  ghost predicate StackDiscipline(w: World)
  {
    var h, stack := w.popup.handle, w.ui.pickingStack;
    h.IsSome() &&
    (!w.popup.staysOpen ==>
      (h in stack <==> w.popup.isOpen) &&
      forall i :: 0 <= i < |stack| - 1 ==> stack[i] != h)
  }

  /** Identity and policy of the popup, and which of its fields mirror each other. */
  ghost predicate SameIdentity(w: World, w': World)
  {
    w'.popup.handle == w.popup.handle &&
    w'.popup.body == w.popup.body &&
    w'.popup.staysOpen == w.popup.staysOpen
  }

  /** Everything the popup sends is appended to the queue and addressed to itself. */
  ghost predicate SendsOnlyToSelf(w: World, w': World)
  {
    w.ui.outbox <= w'.ui.outbox &&
    forall i :: |w.ui.outbox| <= i < |w'.ui.outbox| ==> w'.ui.outbox[i].destination == w.popup.handle
  }

  lemma StepKeepsStackDiscipline(w: World, e: Event)
    requires StackDiscipline(w)
    ensures StackDiscipline(Step(w, e))
  {
    var h, stack := w.popup.handle, w.ui.pickingStack;
    if e.Delivered? && e.message.data.Popup? && e.message.destination == h && !w.popup.staysOpen {
      var r := Step(w, e);
      match e.message.data.popup
      case Open =>
        if Top(stack) != h {
          assert h !in stack;
          assert r.ui.pickingStack == stack + [h];
        }
      case Close =>
        if stack != [] {
          assert r.ui.pickingStack == stack[..|stack| - 1];
          assert h !in r.ui.pickingStack;
        }
      case _ =>
    }
  }

  lemma {:induction false} RunKeepsStackDiscipline(w: World, es: seq<Event>)
    requires StackDiscipline(w)
    ensures StackDiscipline(Run(w, es))
    decreases |es|
  {
    if es != [] {
      StepKeepsStackDiscipline(w, es[0]);
      RunKeepsStackDiscipline(Step(w, es[0]), es[1..]);
    }
  }

  /** A stays-open popup never touches the restriction stack. */
  lemma {:induction false} StaysOpenNeverTouchesStack(w: World, es: seq<Event>)
    requires w.popup.staysOpen
    ensures Run(w, es).ui.pickingStack == w.ui.pickingStack
    decreases |es|
  {
    if es != [] {
      StaysOpenNeverTouchesStack(Step(w, es[0]), es[1..]);
    }
  }

  /** Visibility and the open flag stay in step. */
  lemma {:induction false} RunKeepsVisibilityInStep(w: World, es: seq<Event>)
    requires w.popup.visible == w.popup.isOpen
    ensures Run(w, es).popup.visible == Run(w, es).popup.isOpen
    decreases |es|
  {
    if es != [] {
      RunKeepsVisibilityInStep(Step(w, es[0]), es[1..]);
    }
  }

  /** Handle, body and the stays-open policy never change, and the popup only
      ever appends messages addressed to itself. */
  lemma {:induction false} RunKeepsIdentity(w: World, es: seq<Event>)
    ensures SameIdentity(w, Run(w, es))
    ensures SendsOnlyToSelf(w, Run(w, es))
    decreases |es|
  {
    if es != [] {
      var w1 := Step(w, es[0]);
      assert SameIdentity(w, w1) && SendsOnlyToSelf(w, w1);
      RunKeepsIdentity(w1, es[1..]);
    }
  }

  /** A freshly built popup, whose new handle is not on the stack, keeps all of
      the above in every run. */
  lemma BuiltPopupKeepsInvariants(b: PopupBuilder, ui: UiState, handle: Handle, body: Handle, es: seq<Event>)
    requires FreshSlots(ui, handle, body, b.content)
    requires handle !in ui.pickingStack
    ensures var w0 := Build(b, ui, handle, body);
      var r := Run(w0, es);
      StackDiscipline(r) && r.popup.visible == r.popup.isOpen &&
      SameIdentity(w0, r) && SendsOnlyToSelf(w0, r)
  {
    var w0 := Build(b, ui, handle, body);
    RunKeepsStackDiscipline(w0, es);
    RunKeepsVisibilityInStep(w0, es);
    RunKeepsIdentity(w0, es);
  }

  // ---------------------------------------------------------------------
  // Open/close cycles

  /** A run of four events is four steps. */
  lemma RunOfFour(w: World, e1: Event, e2: Event, e3: Event, e4: Event)
    ensures Run(w, [e1, e2, e3, e4]) == Step(Step(Step(Step(w, e1), e2), e3), e4)
  {
    var es := [e1, e2, e3, e4];
    assert es[1..] == [e2, e3, e4];
    assert es[1..][1..] == [e3, e4];
    assert es[1..][1..][1..] == [e4];
    var w1 := Step(w, e1);
    var w2 := Step(w1, e2);
    var w3 := Step(w2, e3);
    assert Run(w, es) == Run(w1, [e2, e3, e4]);
    assert Run(w1, [e2, e3, e4]) == Run(w2, [e3, e4]);
    assert Run(w2, [e3, e4]) == Run(w3, [e4]);
    assert Run(w3, [e4]) == Step(w3, e4);
  }

  /** A closed popup that is opened and closed again through its public calls,
      each message delivered before the next call, leaves the restriction
      stack as it found it: one push and one pop, or none when stays-open. */
  lemma OpenCloseCycleRestoresStack(w: World)
    requires StackDiscipline(w) && !w.popup.isOpen
    ensures var h := w.popup.handle;
      var r := Run(w, [OpenCalled, Delivered(PopupMsg(Open, h)),
                       CloseCalled, Delivered(PopupMsg(Close, h))]);
      r.ui.pickingStack == w.ui.pickingStack && !r.popup.isOpen &&
      r.ui.outbox == w.ui.outbox + [PopupMsg(Open, h), TopMostMsg(h), PopupMsg(Close, h)]
  {
    var h := w.popup.handle;
    var w1 := Step(w, OpenCalled);
    var w2 := Step(w1, Delivered(PopupMsg(Open, h)));
    var w3 := Step(w2, CloseCalled);
    var w4 := Step(w3, Delivered(PopupMsg(Close, h)));
    if !w.popup.staysOpen {
      assert w2.ui.pickingStack == Push(w.ui, h).pickingStack;
      PopUndoesPush(w.ui, h);
    }
    RunOfFour(w, OpenCalled, Delivered(PopupMsg(Open, h)), CloseCalled, Delivered(PopupMsg(Close, h)));
  }

  /** The guards of open() and close() read `isOpen`, which changes only when
      the message is delivered. Two calls to close() before delivery enqueue
      two Close messages, and since the handler does not check `isOpen` either,
      delivering them pops the stack twice: the second pop removes the entry
      below the popup's own. */
  lemma CloseTwiceBeforeDeliveryPopsTwice(w: World)
    requires w.popup.isOpen && !w.popup.staysOpen
    ensures var h := w.popup.handle;
      var r := Run(w, [CloseCalled, CloseCalled, Delivered(PopupMsg(Close, h)), Delivered(PopupMsg(Close, h))]);
      r.ui.outbox == w.ui.outbox + [PopupMsg(Close, h), PopupMsg(Close, h)] &&
      r.ui.pickingStack == Pop(Pop(w.ui.pickingStack)) && !r.popup.isOpen
  {
    var h := w.popup.handle;
    RunOfFour(w, CloseCalled, CloseCalled, Delivered(PopupMsg(Close, h)), Delivered(PopupMsg(Close, h)));
  }

  /** Two calls to open() before delivery likewise enqueue two Open messages,
      but the second delivery finds the popup already on top and pushes nothing. */
  lemma OpenTwiceBeforeDeliveryPushesOnce(w: World)
    requires StackDiscipline(w) && !w.popup.isOpen && !w.popup.staysOpen
    ensures var h := w.popup.handle;
      var r := Run(w, [OpenCalled, OpenCalled, Delivered(PopupMsg(Open, h)), Delivered(PopupMsg(Open, h))]);
      r.ui.outbox == w.ui.outbox + [PopupMsg(Open, h), PopupMsg(Open, h), TopMostMsg(h), TopMostMsg(h)] &&
      r.ui.pickingStack == w.ui.pickingStack + [h] && r.popup.isOpen
  {
    var h := w.popup.handle;
    RunOfFour(w, OpenCalled, OpenCalled, Delivered(PopupMsg(Open, h)), Delivered(PopupMsg(Open, h)));
    assert h !in w.ui.pickingStack;
  }

  /** set_placement is idempotent: a repeated call with the same placement
      neither changes the popup nor enqueues a second message, and delivering
      the one message leaves the placement the call already set. */
  lemma SetPlacementIsIdempotent(w: World, q: Placement)
    requires q != w.popup.placement
    ensures var h := w.popup.handle;
      var r := Run(w, [SetPlacementCalled(q), SetPlacementCalled(q),
                       Delivered(PopupMsg(Placement(q), h)), Delivered(PopupMsg(Placement(q), h))]);
      r.popup == w.popup.(placement := q) &&
      r.ui == w.ui.(outbox := w.ui.outbox + [PopupMsg(Placement(q), h)])
  {
    var h := w.popup.handle;
    RunOfFour(w, SetPlacementCalled(q), SetPlacementCalled(q),
              Delivered(PopupMsg(Placement(q), h)), Delivered(PopupMsg(Placement(q), h)));
  }
}
