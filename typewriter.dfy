/**
 * `typeWriter`: reveals a text one character per timer tick and, once the whole text is shown,
 * schedules the completion callback. Timers are explicit: `TimerFired` is the pending
 * `setTimeout(type, speed)` firing.
 */
module TypewriterEffect {

  function Min(a: nat, b: nat): nat { if a <= b then a else b }

  class Typewriter {
    const text: string
    /** Whether a completion callback was passed. */
    const hasCallback: bool
    /** The closure's index: characters shown so far. */
    var i: nat
    /** The element's `textContent`. */
    var textContent: string
    /** Whether a `setTimeout(type, speed)` is pending. */
    var typeTimerPending: bool
    /** Calls of `setTimeout(callback, 500)` made so far. */
    var callbacksScheduled: nat
    /** Runs of the inner `type` function so far. */
    ghost var ticks: nat

    /**
     * After `ticks` runs of `type` the element shows the first `ticks` characters (all of them once
     * `ticks` reaches the length); the timer chain stops after the run that finds the text complete,
     * and that run, and only that run, schedules the callback.
     */
    ghost predicate Valid()
      reads this
    {
      1 <= ticks <= |text| + 1 &&
      i == Min(ticks, |text|) &&
      textContent == text[..i] &&
      (typeTimerPending <==> ticks <= |text|) &&
      callbacksScheduled == (if hasCallback && ticks == |text| + 1 then 1 else 0)
    }

    /** `typeWriter(element, text, speed, callback)`: clears the element and runs `type` once. */
    constructor (text: string, hasCallback: bool)
      ensures Valid()
      ensures this.text == text && this.hasCallback == hasCallback && ticks == 1
      ensures textContent == text[..Min(1, |text|)]
      ensures callbacksScheduled == (if hasCallback && text == [] then 1 else 0)
    {
      this.text := text;
      this.hasCallback := hasCallback;
      i, textContent := 0, "";
      typeTimerPending, callbacksScheduled := false, 0;
      ticks := 0;
      new;
      Type();
    }

    /** The inner `type`: shows one more character and re-arms the timer, or schedules the callback. */
    method Type()
      requires ticks <= |text| && i == ticks && textContent == text[..i]
      requires !typeTimerPending && callbacksScheduled == 0
      modifies this`i, this`textContent, this`typeTimerPending, this`callbacksScheduled, this`ticks
      ensures Valid()
      ensures ticks == old(ticks) + 1
    {
      ticks := ticks + 1;
      if i < |text| {
        textContent := textContent + [text[i]];
        i := i + 1;
        typeTimerPending := true;
      } else {
        if hasCallback {
          callbacksScheduled := callbacksScheduled + 1;
        }
      }
    }

    /** The pending `setTimeout(type, speed)` fires, if there is one. */
    method TimerFired()
      requires Valid()
      modifies this`i, this`textContent, this`typeTimerPending, this`callbacksScheduled, this`ticks
      ensures Valid()
      ensures ticks == if old(typeTimerPending) then old(ticks) + 1 else old(ticks)
      ensures textContent == text[..Min(ticks, |text|)]
      ensures callbacksScheduled <= 1
      ensures callbacksScheduled == 1 ==> textContent == text
    {
      if typeTimerPending {
        typeTimerPending := false;
        Type();
      }
    }
  }

  /**
   * Driving the timer to the end: after `|text|` further ticks the whole text is shown, the timer
   * chain has stopped and the callback is scheduled exactly once when one was given.
   */
  method TypeAll(text: string, hasCallback: bool) returns (shown: string, scheduled: nat, stillTicking: bool)
    ensures shown == text
    ensures scheduled == (if hasCallback then 1 else 0)
    ensures !stillTicking
  {
    var t := new Typewriter(text, hasCallback);
    var n := 0;
    while n < |text|
      invariant 0 <= n <= |text|
      invariant t.Valid() && t.text == text && t.hasCallback == hasCallback
      invariant t.ticks == n + 1
    {
      t.TimerFired();
      n := n + 1;
    }
    shown, scheduled, stillTicking := t.textContent, t.callbacksScheduled, t.typeTimerPending;
  }
}
