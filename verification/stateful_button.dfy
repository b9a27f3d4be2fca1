/** The three-state button of src/components/ui/stateful-button.tsx. A click
    in `idle` shows `loading` while the `onClick` handler runs, `success`
    when it resolves (with a timer pending that returns the button to
    `idle`), and `idle` again when it throws. The handler's settlement and the
    timer are events; the step reports whether it invokes the handler. */
module StatefulButton {
  import opened Common

  datatype Status = Idle | Loading | Succeeded

  /** `resetPending`: the two-second `setTimeout` back to `idle` is armed. */
  datatype Button = Button(status: Status, resetPending: bool)

  datatype ButtonEvent = Click | HandlerResolved | HandlerThrew | ResetTimerFired

  datatype ButtonStep = ButtonStep(next: Button, invokesHandler: bool)

  const DefaultLoadingText: string := "Loading..."
  const DefaultSuccessText: string := "Success!"

  function Initial(): (b: Button)
    ensures b.status == Idle && !b.resetPending
  {
    Button(Idle, false)
  }

  /** A reset timer is armed exactly while the button shows success. */
  predicate Valid(b: Button) {
    b.resetPending <==> b.status == Succeeded
  }

  /** `handleClick` and what follows it. `hasHandler` says whether an
      `onClick` prop was given; without one the button passes straight to
      `success`. */
  function Step(b: Button, ev: ButtonEvent, hasHandler: bool): (s: ButtonStep)
    ensures s.invokesHandler <==> ev.Click? && b.status == Idle && hasHandler
    ensures ev.Click? && b.status != Idle ==> s.next == b
    ensures s.invokesHandler ==> s.next.status == Loading
    ensures ev.HandlerResolved? && b.status == Loading ==> s.next.status == Succeeded && s.next.resetPending
    ensures ev.HandlerThrew? && b.status == Loading ==> s.next.status == Idle
    ensures ev.ResetTimerFired? && b.resetPending ==> s.next.status == Idle && !s.next.resetPending
    ensures Valid(b) ==> Valid(s.next)
  {
    match ev
    case Click =>
      if b.status != Idle then ButtonStep(b, false)
      else if hasHandler then ButtonStep(Button(Loading, b.resetPending), true)
      else ButtonStep(Button(Succeeded, true), false)
    case HandlerResolved =>
      if b.status == Loading then ButtonStep(Button(Succeeded, true), false) else ButtonStep(b, false)
    case HandlerThrew =>
      if b.status == Loading then ButtonStep(Button(Idle, b.resetPending), false) else ButtonStep(b, false)
    case ResetTimerFired =>
      if b.resetPending then ButtonStep(Button(Idle, false), false) else ButtonStep(b, false)
  }

  /** The button after a sequence of events, the handler being present. */
  function Run(b: Button, events: seq<ButtonEvent>): Button
    decreases |events|
  {
    if |events| == 0 then b
    else Step(Run(b, events[..|events| - 1]), events[|events| - 1], true).next
  }

  /** How many times the events invoke the handler. */
  function Invocations(b: Button, events: seq<ButtonEvent>): nat
    decreases |events|
  {
    if |events| == 0 then 0
    else
      var before := Run(b, events[..|events| - 1]);
      Invocations(b, events[..|events| - 1]) + (if Step(before, events[|events| - 1], true).invokesHandler then 1 else 0)
  }

  /** From the initial button every reachable button is valid, and the
      handler never runs twice at once: each invocation after the first needs
      a settlement in between, so invocations exceed settlements by at most
      one, and by exactly one while loading. */
  lemma {:induction false} RunInvariant(events: seq<ButtonEvent>)
    ensures Valid(Run(Initial(), events))
    ensures Invocations(Initial(), events) == Settlements(Initial(), events) + (if Run(Initial(), events).status == Loading then 1 else 0)
    decreases |events|
  {
    if |events| > 0 {
      RunInvariant(events[..|events| - 1]);
    }
  }

  /** How many events settle a running handler. */
  function Settlements(b: Button, events: seq<ButtonEvent>): nat
    decreases |events|
  {
    if |events| == 0 then 0
    else
      var before := Run(b, events[..|events| - 1]);
      var ev := events[|events| - 1];
      Settlements(b, events[..|events| - 1])
        + (if (ev.HandlerResolved? || ev.HandlerThrew?) && before.status == Loading then 1 else 0)
  }

  /** A successful click cycle: idle, loading, success, and idle again once
      the reset timer fires; a failing one goes back to idle directly. */
  lemma ClickCycle()
    ensures Run(Initial(), [Click]).status == Loading
    ensures Run(Initial(), [Click, HandlerResolved]).status == Succeeded
    ensures Run(Initial(), [Click, HandlerResolved, ResetTimerFired]) == Initial()
    ensures Run(Initial(), [Click, HandlerThrew]) == Initial()
  {
    assert [Click, HandlerResolved, ResetTimerFired][..2] == [Click, HandlerResolved];
    assert [Click, HandlerResolved][..1] == [Click];
    assert [Click, HandlerThrew][..1] == [Click];
  }

  /** `disabled={status !== "idle"}` followed by `{...props}`: a `disabled`
      prop from the caller wins over the status. */
  function Disabled(status: Status, disabledProp: Option<bool>): (r: bool)
    ensures disabledProp.None? ==> (r <==> status != Idle)
    ensures disabledProp.Some? ==> r == disabledProp.value
  {
    if disabledProp.Some? then disabledProp.value else status != Idle
  }

  /** The visible label: the children in `idle`, `loadingText` (default
      "Loading...") in `loading` and `successText` (default "Success!") in
      `success`. */
  function Label(status: Status, children: string, loadingText: Option<string>, successText: Option<string>): (r: string)
    ensures status == Idle ==> r == children
    ensures status == Loading ==> r == loadingText.GetOr(DefaultLoadingText)
    ensures status == Succeeded ==> r == successText.GetOr(DefaultSuccessText)
  {
    match status
    case Idle => children
    case Loading => loadingText.GetOr(DefaultLoadingText)
    case Succeeded => successText.GetOr(DefaultSuccessText)
  }

  /** Along a successful click cycle the button reads its children, then
      the loading text, then the success text, and its children again once
      the timer fires; it is disabled exactly in between. */
  lemma LabelsAlongCycle(children: string, loadingText: Option<string>, successText: Option<string>)
    ensures var cycle := [Click, HandlerResolved, ResetTimerFired];
      && (forall k :: 0 <= k <= 3 ==>
            (Disabled(Run(Initial(), cycle[..k]).status, None) <==> k == 1 || k == 2))
      && Label(Run(Initial(), cycle[..1]).status, children, loadingText, successText) == loadingText.GetOr(DefaultLoadingText)
      && Label(Run(Initial(), cycle[..2]).status, children, loadingText, successText) == successText.GetOr(DefaultSuccessText)
      && Label(Run(Initial(), cycle).status, children, loadingText, successText) == children
  {
    var cycle := [Click, HandlerResolved, ResetTimerFired];
    ClickCycle();
    assert cycle[..0] == [];
    assert cycle[..1] == [Click];
    assert cycle[..2] == [Click, HandlerResolved];
    assert cycle[..3] == cycle;
  }

  /** A busy button is disabled unless the caller overrides `disabled`, and
      even when the override lets a click through, the click neither changes
      the button nor runs the handler again. */
  lemma BusyClickIgnored(b: Button, hasHandler: bool)
    requires b.status != Idle
    ensures Disabled(b.status, None)
    ensures Step(b, Click, hasHandler) == ButtonStep(b, false)
  {
  }
}
