/**
 * The ABOUT logo sequence player: the closure state of the page's `DOMContentLoaded` handler
 * (`images`, `loadedImages`, `currentFrame`, `scheduledRender`, `hasRenderedInitialFrame`) as the
 * fields of one object, with the browser's events (an image resolving, an animation frame, a scroll,
 * a resize) as explicit method calls.
 */
module Player {
  import opened Frames
  import opened ScrollMapper
  import opened Wrappers

  /**
   * An image element as the sequence sees it: its source path, its `complete` flag, and whether its
   * request ended in the broken state (fetch or decode failed). A broken image also reports `complete`.
   */
  datatype Img = Img(src: string, complete: bool, broken: bool)

  /**
   * What `updateFrameFromScroll` reads from the page: the bounding rectangle of the element with id
   * "about" (None when there is no such element), `window.innerHeight` and
   * `document.documentElement.clientHeight`.
   */
  datatype Viewport = Viewport(about: Option<Rect>, innerHeight: real, clientHeight: real)

  /** `window.innerHeight || document.documentElement.clientHeight`. */
  function WindowHeight(v: Viewport): real
  {
    if v.innerHeight != 0.0 then v.innerHeight else v.clientHeight
  }

  /** The frame `updateFrameFromScroll` leaves selected, starting from `current`. */
  function ScrolledFrame(current: int, v: Viewport, frameCount: nat): (f: int)
    requires frameCount >= 1
    ensures 0 <= current < frameCount ==> 0 <= f < frameCount
    ensures v.about.Some? ==> f == TargetFrame(v.about.value, WindowHeight(v), frameCount)
    ensures v.about.None? ==> f == current
  {
    match v.about
    case None => current
    case Some(rect) => TargetFrame(rect, WindowHeight(v), frameCount)
  }

  /** `image && image.complete`: the paint guard of `renderFrame`. */
  predicate IsComplete(slot: Option<Img>)
  {
    slot.Some? && slot.value.complete
  }

  /**
   * Whether `drawImage` accepts the slot's image: it is complete and not broken. The canvas throws an
   * `InvalidStateError` for a broken image.
   */
  predicate Drawable(slot: Option<Img>)
  {
    IsComplete(slot) && !slot.value.broken
  }

  /** The number of slots whose image has resolved (loaded or failed). */
  function CompleteCount(slots: seq<Option<Img>>): (n: nat)
    ensures n <= |slots|
  {
    if slots == [] then 0
    else CompleteCount(slots[..|slots| - 1]) + (if IsComplete(slots[|slots| - 1]) then 1 else 0)
  }

  /** Every slot resolved exactly when the counter has reached the number of slots. */
  lemma {:induction false} CompleteCountFull(slots: seq<Option<Img>>)
    ensures CompleteCount(slots) == |slots| <==> forall i :: 0 <= i < |slots| ==> IsComplete(slots[i])
  {
    if slots != [] {
      var init := slots[..|slots| - 1];
      CompleteCountFull(init);
      assert forall i :: 0 <= i < |init| ==> init[i] == slots[i];
    }
  }

  /** Resolving one pending slot raises the count by exactly one. */
  lemma {:induction false} CompleteCountResolve(slots: seq<Option<Img>>, k: nat, resolved: Option<Img>)
    requires k < |slots| && !IsComplete(slots[k]) && IsComplete(resolved)
    ensures CompleteCount(slots[k := resolved]) == CompleteCount(slots) + 1
  {
    var last := |slots| - 1;
    var updated := slots[k := resolved];
    if k == last {
      assert updated[..last] == slots[..last];
    } else {
      assert updated[..last] == slots[..last][k := resolved];
      CompleteCountResolve(slots[..last], k, resolved);
    }
  }

  /** No slot has resolved yet. */
  lemma {:induction false} CompleteCountNone(slots: seq<Option<Img>>)
    requires forall i :: 0 <= i < |slots| ==> !IsComplete(slots[i])
    ensures CompleteCount(slots) == 0
  {
    if slots != [] {
      CompleteCountNone(slots[..|slots| - 1]);
    }
  }

  class SequencePlayer {
    const config: Config
    /** One slot per frame; filled by the preload loop, never resized. */
    const images: array<Option<Img>>
    /** Load and error events seen so far. */
    var loadedImages: nat
    var currentFrame: int
    /** True while an animation-frame callback of this player is pending. */
    var scheduledRender: bool
    var hasRenderedInitialFrame: bool
    /** Whether the scroll and resize listeners are attached. */
    var listenersAttached: bool
    /** The frames handed to the canvas, oldest first. */
    var painted: seq<int>
    /** The animation-frame callbacks the browser holds for this player. */
    var pendingCallbacks: nat
    /** Calls of `requestRender`, whether or not they scheduled anything. */
    ghost var renderRequests: nat
    /** Runs of the provisional first-frame block and of the all-resolved block of `handleImageLoad`. */
    ghost var initialFrameRuns: nat
    ghost var completionRuns: nat

    /** The state every event handler may rely on, apart from the load gate. */
    ghost predicate Core()
      reads this, images
    {
      config.frameCount >= 1 &&
      images.Length == config.frameCount &&
      0 <= currentFrame < config.frameCount &&
      pendingCallbacks == (if scheduledRender then 1 else 0) &&
      Preloaded()
    }

    /** Every slot holds an image (the preload loop has run). */
    ghost predicate Preloaded()
      reads images
    {
      forall i :: 0 <= i < images.Length ==> images[i].Some?
    }

    /**
     * The load gate. The browser marks an image `complete` before its handler runs, so the counter
     * never exceeds the number of resolved slots. The first-frame block has run at most once and only
     * after slot 0 resolved; once slot 0 has resolved it lags behind only while some handler is still
     * pending. The all-resolved block runs at most once and not before the counter reaches the frame
     * count. The listeners are attached exactly when every handler has run and slot 0 is drawable:
     * painting a broken frame 0 throws before the listeners are added. Until then no scroll has been
     * evaluated, so the frame is still 0.
     */
    ghost predicate Valid()
      reads this, images
    {
      Core() &&
      loadedImages <= CompleteCount(images[..]) &&
      (hasRenderedInitialFrame ==> IsComplete(images[0])) &&
      (IsComplete(images[0]) && !hasRenderedInitialFrame ==> loadedImages < CompleteCount(images[..])) &&
      initialFrameRuns == (if hasRenderedInitialFrame then 1 else 0) &&
      (listenersAttached <==> loadedImages == config.frameCount && Drawable(images[0])) &&
      (!listenersAttached ==> currentFrame == 0) &&
      completionRuns <= 1 &&
      (listenersAttached ==> completionRuns == 1) &&
      (loadedImages < config.frameCount ==> completionRuns == 0)
    }

    /** Images the browser has marked `complete` whose `onload` or `onerror` handler has not run yet. */
    ghost function PendingHandlers(): int
      reads this, images
    {
      CompleteCount(images[..]) - loadedImages
    }

    /** Whether `renderFrame(frameIndex)` gets past its guard. */
    predicate CanPaint(frameIndex: int)
      reads images
    {
      0 <= frameIndex < images.Length && IsComplete(images[frameIndex])
    }

    /** Whether `renderFrame(frameIndex)` hands an image to the canvas without throwing. */
    predicate Paints(frameIndex: int)
      reads images
    {
      0 <= frameIndex < images.Length && Drawable(images[frameIndex])
    }

    /** Slot `i` holds the image for frame `i`'s path, still loading, as the preload loop leaves it. */
    ghost predicate Requested()
      reads this, images
    {
      forall i {:trigger FramePath(config, i)} :: 0 <= i < images.Length ==> images[i] == Some(Img(FramePath(config, i), false, false))
    }

    /** No slot has failed so far: every resolved image is drawable. */
    ghost predicate NoFailures()
      reads images
    {
      forall i :: 0 <= i < images.Length && IsComplete(images[i]) ==> Drawable(images[i])
    }

    /** Whether every slot has resolved. */
    ghost predicate AllResolved()
      reads images
    {
      forall i :: 0 <= i < images.Length ==> IsComplete(images[i])
    }

    /** Set-up: the initial `resizeCanvas()` and then the preload loop; every slot is pending. */
    constructor (cfg: Config)
      requires cfg.frameCount >= 1
      ensures Valid() && fresh(images)
      ensures config == cfg
      ensures Requested() && NoFailures()
      ensures forall i :: 0 <= i < images.Length ==> !IsComplete(images[i])
      ensures loadedImages == 0 && currentFrame == 0 && !hasRenderedInitialFrame && !listenersAttached
      ensures scheduledRender && painted == [] && renderRequests == 1
    {
      config := cfg;
      images := new Option<Img>[cfg.frameCount](_ => None);
      loadedImages, currentFrame := 0, 0;
      scheduledRender, hasRenderedInitialFrame, listenersAttached := false, false, false;
      painted, pendingCallbacks := [], 0;
      renderRequests, initialFrameRuns, completionRuns := 0, 0, 0;
      new;
      ResizeCanvas();
      Preload();
    }

    /** The preload loop: slot `i` gets an image whose source is frame `i`'s path and which is still loading. */
    method Preload()
      requires images.Length == config.frameCount
      modifies images
      ensures Requested()
      ensures Preloaded() && CompleteCount(images[..]) == 0
      ensures forall k :: 0 <= k < images.Length ==> !IsComplete(images[k])
    {
      var i := 0;
      while i < config.frameCount
        invariant 0 <= i <= images.Length
        invariant forall k :: 0 <= k < i ==> images[k] == Some(Img(FramePath(config, k), false, false))
      {
        images[i] := Some(Img(FramePath(config, i), false, false));
        i := i + 1;
      }
      assert forall k :: 0 <= k < images.Length ==> images[..][k] == images[k];
      CompleteCountNone(images[..]);
    }

    /** `requestRender`: schedules one animation-frame callback unless one is already pending. */
    method RequestRender()
      modifies this`scheduledRender, this`pendingCallbacks, this`renderRequests
      ensures scheduledRender
      ensures pendingCallbacks == if old(scheduledRender) then old(pendingCallbacks) else old(pendingCallbacks) + 1
      ensures renderRequests == old(renderRequests) + 1
    {
      renderRequests := renderRequests + 1;
      if scheduledRender {
        return;
      }
      scheduledRender := true;
      pendingCallbacks := pendingCallbacks + 1;
    }

    /** `resizeCanvas`, reduced to what it does to the sequence: it requests a render. */
    method ResizeCanvas()
      modifies this`scheduledRender, this`pendingCallbacks, this`renderRequests
      ensures scheduledRender
      ensures pendingCallbacks == if old(scheduledRender) then old(pendingCallbacks) else old(pendingCallbacks) + 1
      ensures renderRequests == old(renderRequests) + 1
    {
      RequestRender();
    }

    /**
     * `renderFrame`: returns early unless the slot holds an image that is `complete`; a complete but
     * broken image makes `drawImage` throw, which `threw` reports; otherwise the frame is painted.
     */
    method RenderFrame(frameIndex: int) returns (threw: bool)
      modifies this`painted
      ensures threw <==> CanPaint(frameIndex) && !Paints(frameIndex)
      ensures painted == old(painted) + (if Paints(frameIndex) then [frameIndex] else [])
    {
      var image := if 0 <= frameIndex < images.Length then images[frameIndex] else None;
      if image.None? || !image.value.complete {
        return false;
      }
      if image.value.broken {
        return true;
      }
      painted := painted + [frameIndex];
      return false;
    }

    /**
     * The browser runs the pending animation-frame callback, if any: it clears the flag and paints the
     * frame selected when it runs, not when it was requested. A broken frame throws inside the
     * callback, after the flag has been cleared, and is not painted.
     */
    method AnimationFrame()
      requires Valid()
      modifies this`scheduledRender, this`pendingCallbacks, this`painted
      ensures Valid()
      ensures !scheduledRender && pendingCallbacks == 0
      ensures painted == old(painted) + (if old(scheduledRender) && Paints(currentFrame) then [currentFrame] else [])
    {
      if pendingCallbacks == 0 {
        return;
      }
      pendingCallbacks := pendingCallbacks - 1;
      scheduledRender := false;
      var _ := RenderFrame(currentFrame);
    }

    /**
     * `updateFrameFromScroll`: moves to the frame the geometry selects and requests a render only
     * when that frame differs from the current one.
     */
    method UpdateFrameFromScroll(v: Viewport)
      requires Core()
      modifies this`currentFrame, this`scheduledRender, this`pendingCallbacks, this`renderRequests
      ensures Core()
      ensures currentFrame == ScrolledFrame(old(currentFrame), v, config.frameCount)
      ensures scheduledRender == (old(scheduledRender) || currentFrame != old(currentFrame))
      ensures renderRequests == old(renderRequests) + (if currentFrame != old(currentFrame) then 1 else 0)
    {
      if v.about.None? {
        return;
      }
      var rect := v.about.value;
      var windowHeight := WindowHeight(v);
      if rect.bottom <= 0.0 {
        if currentFrame != 0 {
          currentFrame := 0;
          RequestRender();
        }
        return;
      }
      if rect.top >= windowHeight {
        if currentFrame != config.frameCount - 1 {
          currentFrame := config.frameCount - 1;
          RequestRender();
        }
        return;
      }
      var targetFrame := IntersectingFrame(rect, windowHeight, config.frameCount);
      if targetFrame != currentFrame {
        currentFrame := targetFrame;
        RequestRender();
      }
    }

    /**
     * `handleImageLoad`, the `onload` and `onerror` handler of every slot, run for some image that is
     * already `complete`; it does not look at which one. An exception thrown by `renderFrame` ends the
     * handler there; `threw` reports it.
     */
    method HandleImageLoad(v: Viewport) returns (threw: bool)
      requires Valid() && loadedImages < CompleteCount(images[..])
      modifies this
      ensures Valid()
      ensures loadedImages == old(loadedImages) + 1
      ensures hasRenderedInitialFrame == (old(hasRenderedInitialFrame) || IsComplete(images[0]))
      ensures threw <==> (hasRenderedInitialFrame != old(hasRenderedInitialFrame) || loadedImages == config.frameCount)
                         && !Drawable(images[0])
      ensures listenersAttached == (loadedImages == config.frameCount && Drawable(images[0]))
      ensures currentFrame == if listenersAttached then ScrolledFrame(old(currentFrame), v, config.frameCount) else old(currentFrame)
      ensures scheduledRender == (old(scheduledRender) || hasRenderedInitialFrame != old(hasRenderedInitialFrame)
                                  || loadedImages == config.frameCount)
      ensures painted == old(painted)
                         + (if hasRenderedInitialFrame != old(hasRenderedInitialFrame) && Drawable(images[0]) then [0] else [])
                         + (if listenersAttached then [old(currentFrame)] else [])
    {
      threw := false;
      loadedImages := loadedImages + 1;

      if !hasRenderedInitialFrame && IsComplete(images[0]) {
        hasRenderedInitialFrame := true;
        initialFrameRuns := initialFrameRuns + 1;
        ResizeCanvas();
        threw := RenderFrame(0);
        if threw {
          return;
        }
      }

      if loadedImages == config.frameCount {
        CompleteCountFull(images[..]);
        threw := CompleteLoading(v);
      }
    }

    /**
     * The all-resolved block of `handleImageLoad`: resize, paint the current frame (still 0), then add
     * the scroll and resize listeners and evaluate the scroll position once. A broken frame 0 throws
     * before the listeners are added.
     */
    method CompleteLoading(v: Viewport) returns (threw: bool)
      requires Core() && AllResolved() && loadedImages == config.frameCount == CompleteCount(images[..])
      requires hasRenderedInitialFrame && initialFrameRuns == 1
      requires !listenersAttached && currentFrame == 0 && completionRuns == 0
      modifies this`completionRuns, this`scheduledRender, this`pendingCallbacks, this`renderRequests
      modifies this`painted, this`listenersAttached, this`currentFrame
      ensures Valid()
      ensures threw <==> !Drawable(images[0])
      ensures listenersAttached == Drawable(images[0])
      ensures currentFrame == if listenersAttached then ScrolledFrame(0, v, config.frameCount) else 0
      ensures scheduledRender
      ensures painted == old(painted) + (if listenersAttached then [0] else [])
    {
      completionRuns := completionRuns + 1;
      ResizeCanvas();
      threw := RenderFrame(currentFrame);
      if threw {
        return;
      }
      listenersAttached := true;
      UpdateFrameFromScroll(v);
    }

    /**
     * The browser resolves slot `k`: on success or failure alike the image becomes `complete`, and a
     * failed one is also broken. Its `onload` or `onerror` task is only queued; `HandleImageLoad` runs
     * it later, possibly after other slots' handlers. Each image resolves once, so `k` is still pending.
     */
    method MarkComplete(k: nat, ok: bool)
      requires Valid()
      requires k < images.Length && !IsComplete(images[k])
      modifies images
      ensures Valid()
      ensures images[..] == old(images[..])[k := Some(old(images[k].value).(complete := true, broken := !ok))]
      ensures PendingHandlers() == old(PendingHandlers()) + 1
      ensures NoFailures() <==> ok && old(NoFailures())
    {
      CompleteCountFull(images[..]);
      CompleteCountResolve(images[..], k, Some(images[k].value.(complete := true, broken := !ok)));
      images[k] := Some(images[k].value.(complete := true, broken := !ok));
      assert NoFailures() <==> ok && old(NoFailures()) by {
        assert forall i :: 0 <= i < images.Length && i != k ==> images[i] == old(images[i]);
      }
    }

    /**
     * Slot `k` resolves and its handler is the next event to run. Handlers already pending stay
     * pending; the one that runs may still find another slot's image, slot 0's included, complete.
     */
    method ImageResolved(k: nat, ok: bool, v: Viewport) returns (threw: bool)
      requires Valid()
      requires k < images.Length && !IsComplete(images[k])
      modifies this, images
      ensures Valid()
      ensures images[..] == old(images[..])[k := Some(old(images[k].value).(complete := true, broken := !ok))]
      ensures NoFailures() <==> ok && old(NoFailures())
      ensures loadedImages == old(loadedImages) + 1 && PendingHandlers() == old(PendingHandlers())
      ensures !old(listenersAttached) && old(currentFrame) == 0
      ensures AllResolved() <==> loadedImages + PendingHandlers() == config.frameCount
      ensures IsComplete(images[0]) <==> k == 0 || IsComplete(old(images[0]))
      ensures Drawable(images[0]) <==> if k == 0 then ok else Drawable(old(images[0]))
      ensures hasRenderedInitialFrame == (old(hasRenderedInitialFrame) || IsComplete(images[0]))
      ensures listenersAttached <==> loadedImages == config.frameCount && Drawable(images[0])
      ensures threw <==> (hasRenderedInitialFrame != old(hasRenderedInitialFrame) || loadedImages == config.frameCount)
                         && !Drawable(images[0])
      ensures scheduledRender == (old(scheduledRender) || hasRenderedInitialFrame != old(hasRenderedInitialFrame)
                                  || loadedImages == config.frameCount)
      ensures currentFrame == if listenersAttached then ScrolledFrame(0, v, config.frameCount) else 0
      ensures painted == old(painted)
                         + (if hasRenderedInitialFrame != old(hasRenderedInitialFrame) && Drawable(images[0]) then [0] else [])
                         + (if listenersAttached then [0] else [])
    {
      CompleteCountFull(images[..]);
      MarkComplete(k, ok);
      threw := HandleImageLoad(v);
      CompleteCountFull(images[..]);
    }

    /** A window scroll event: drives the sequence once the listener is attached. */
    method OnScroll(v: Viewport)
      requires Valid()
      modifies this`currentFrame, this`scheduledRender, this`pendingCallbacks, this`renderRequests
      ensures Valid()
      ensures currentFrame == if listenersAttached then ScrolledFrame(old(currentFrame), v, config.frameCount) else old(currentFrame)
      ensures scheduledRender == (old(scheduledRender) || currentFrame != old(currentFrame))
    {
      if listenersAttached {
        UpdateFrameFromScroll(v);
      }
    }

    /** A window resize event: requests a render once the listener is attached. */
    method OnResize()
      requires Valid()
      modifies this`scheduledRender, this`pendingCallbacks, this`renderRequests
      ensures Valid()
      ensures scheduledRender == (old(scheduledRender) || listenersAttached)
    {
      if listenersAttached {
        ResizeCanvas();
      }
    }
  }
}
