/** The typing animation of src/components/ui/streaming-message.tsx. After a
    start delay an interval reveals the text one character per tick; the
    tick after the last character stops the interval, marks the message
    complete and calls `onComplete`. The delay and the interval ticks are
    events; durations are not modelled. */
module StreamingMessage {
  import opened Common

  datatype Typing = Typing(
    displayedText: string,
    isStarted: bool,
    isComplete: bool,
    currentIndex: nat,      // the closure variable of the interval callback
    intervalActive: bool,
    completions: nat)       // how many times `onComplete` has been called

  function Mount(): (s: Typing)
    ensures s.displayedText == "" && !s.isStarted && !s.isComplete
  {
    Typing("", false, false, 0, false, 0)
  }

  /** The start-delay timeout fires (once): the bubble is shown and the
      interval starts from index 0. */
  function OnDelay(s: Typing): (r: Typing)
    ensures !s.isStarted ==> r.isStarted && r.intervalActive && r.currentIndex == 0
    ensures !s.isStarted ==> r.displayedText == s.displayedText && r.completions == s.completions
    ensures s.isStarted ==> r == s
  {
    if s.isStarted then s else s.(isStarted := true, currentIndex := 0, intervalActive := true)
  }

  /** One interval tick. */
  function OnTick(text: string, s: Typing): (r: Typing)
    ensures !s.intervalActive ==> r == s
    ensures s.intervalActive && s.currentIndex < |text| ==>
      r.displayedText == text[..s.currentIndex + 1] && r.currentIndex == s.currentIndex + 1
      && r.intervalActive && r.completions == s.completions && r.isComplete == s.isComplete
    ensures s.intervalActive && s.currentIndex >= |text| ==>
      !r.intervalActive && r.isComplete && r.completions == s.completions + 1
      && r.displayedText == s.displayedText
  {
    if !s.intervalActive then s
    else if s.currentIndex < |text| then
      s.(displayedText := text[..s.currentIndex + 1], currentIndex := s.currentIndex + 1)
    else
      s.(intervalActive := false, isComplete := true, completions := s.completions + 1)
  }

  /** `k` ticks from `s`. */
  function Ticks(text: string, s: Typing, k: nat): Typing
    decreases k
  {
    if k == 0 then s else OnTick(text, Ticks(text, s, k - 1))
  }

  /** Where the animation stands `k` ticks after the delay: the first `k`
      characters while typing, then the whole text, complete, with
      `onComplete` called once. */
  function AfterTicks(text: string, k: nat): (s: Typing)
    ensures s.isStarted
    ensures s.displayedText <= text
  {
    if k <= |text| then Typing(text[..k], true, false, k, true, 0)
    else Typing(text, true, true, |text|, false, 1)
  }

  /** Ticking reproduces the closed form: after `k` ticks the displayed text
      is the first `min(k, |text|)` characters, each tick before completion
      adds exactly one character, and the tick after the last character
      completes the message and calls `onComplete` exactly once, however many
      ticks follow. */
  lemma {:induction false} TicksMatchClosedForm(text: string, k: nat)
    ensures Ticks(text, OnDelay(Mount()), k) == AfterTicks(text, k)
    decreases k
  {
    if k > 0 {
      TicksMatchClosedForm(text, k - 1);
    }
  }

  /** Before the delay nothing is shown; empty text completes on the first
      tick with nothing displayed. */
  lemma EdgeCases()
    ensures !Mount().isStarted && Mount().displayedText == ""
    ensures var s := Ticks("", OnDelay(Mount()), 1); s.isComplete && s.displayedText == "" && s.completions == 1
  {
  }

  /** The cursor is shown while typing: started and not complete. */
  function ShowCursor(s: Typing): bool {
    s.isStarted && !s.isComplete
  }

  /** The cursor shows from the delay until the completing tick, and
      `onComplete` has been called iff the cursor is gone. */
  lemma CursorWhileTyping(text: string, k: nat)
    ensures ShowCursor(Ticks(text, OnDelay(Mount()), k)) <==> k <= |text|
    ensures Ticks(text, OnDelay(Mount()), k).completions == (if k <= |text| then 0 else 1)
  {
    TicksMatchClosedForm(text, k);
  }

  /** The interval callback written as the loop it is: `ticks` ticks of the
      closure over `currentIndex`. */
  method Stream(text: string, ticks: nat) returns (displayed: string, complete: bool, completions: nat)
    ensures displayed == text[..if ticks <= |text| then ticks else |text|]
    ensures complete <==> ticks > |text|
    ensures completions == (if complete then 1 else 0)
    ensures displayed == AfterTicks(text, ticks).displayedText
    ensures complete == AfterTicks(text, ticks).isComplete
  {
    displayed := "";
    complete := false;
    completions := 0;
    var currentIndex: nat := 0;
    var active := true;
    var n := 0;
    while n < ticks
      invariant 0 <= n <= ticks
      invariant currentIndex == (if n <= |text| then n else |text|)
      invariant displayed == text[..currentIndex]
      invariant active <==> n <= |text|
      invariant complete <==> !active
      invariant completions == (if complete then 1 else 0)
    {
      if active {
        if currentIndex < |text| {
          displayed := text[..currentIndex + 1];
          currentIndex := currentIndex + 1;
        } else {
          active := false;
          complete := true;
          completions := completions + 1;
        }
      }
      n := n + 1;
    }
  }

  datatype Alignment = AlignStart | AlignEnd

  /** Replica bubbles align to the start, all others to the end. */
  function BubbleAlignment(role: string): (a: Alignment)
    ensures a == AlignStart <==> role == ReplicaRole
  {
    if role == ReplicaRole then AlignStart else AlignEnd
  }
}
