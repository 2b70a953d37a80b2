/**
 * The pure part of `updateFrameFromScroll`: from the ABOUT section's bounding rectangle and the
 * viewport height to the frame the sequence should show. Geometry is exact real arithmetic.
 */
module ScrollMapper {

  /** The fields of `getBoundingClientRect()` the mapper reads, relative to the viewport. */
  datatype Rect = Rect(top: real, bottom: real, height: real)

  function Min(a: real, b: real): real { if a <= b then a else b }

  function Max(a: real, b: real): real { if a >= b then a else b }

  /** `Math.max(0, Math.min(1, x))`. */
  function Clamp01(x: real): (r: real)
    ensures 0.0 <= r <= 1.0
    ensures 0.0 <= x <= 1.0 ==> r == x
    ensures x < 0.0 ==> r == 0.0
    ensures x > 1.0 ==> r == 1.0
  {
    Max(0.0, Min(1.0, x))
  }

  /**
   * `scrollProgress` while the section intersects the viewport. There the distance travelled is
   * positive, so a zero total distance is a division that yields +Infinity, which the clamp turns into 1.
   */
  function Progress(rect: Rect, windowHeight: real): (p: real)
    requires rect.top < windowHeight
    ensures 0.0 <= p <= 1.0
  {
    var totalDistance := rect.height + windowHeight;
    var distanceTravelled := windowHeight - rect.top;
    if totalDistance == 0.0 then 1.0 else Clamp01(distanceTravelled / totalDistance)
  }

  /** `Math.min(frameCount - 1, Math.floor(progress * (frameCount - 1)))`. */
  function IntersectingFrame(rect: Rect, windowHeight: real, frameCount: nat): (f: int)
    requires frameCount >= 1 && rect.top < windowHeight
    ensures 0 <= f < frameCount
  {
    var p := Progress(rect, windowHeight);
    ScaleWithinRange(p, frameCount - 1);
    var scaled := ScaledFloor(p, frameCount - 1);
    if frameCount - 1 <= scaled then frameCount - 1 else scaled
  }

  /**
   * The frame `updateFrameFromScroll` aims at. A section scrolled past (bottom at or above the
   * viewport's top) selects frame 0, and that case takes precedence; a section wholly below the viewport
   * selects the last frame; otherwise the progress is scaled onto the frame range.
   */
  function TargetFrame(rect: Rect, windowHeight: real, frameCount: nat): (f: int)
    requires frameCount >= 1
    ensures 0 <= f < frameCount
    ensures rect.bottom <= 0.0 ==> f == 0
    ensures rect.bottom > 0.0 && rect.top >= windowHeight ==> f == frameCount - 1
  {
    if rect.bottom <= 0.0 then 0
    else if rect.top >= windowHeight then frameCount - 1
    else IntersectingFrame(rect, windowHeight, frameCount)
  }

  lemma MulNonNeg(a: real, b: real)
    requires a >= 0.0 && b >= 0.0
    ensures a * b >= 0.0
  {
    if b > 0.0 {
      assert a * b >= 0.0 * b;
    }
  }

  /** `Math.floor(p * n)`: a progress scaled onto `n` frame steps. */
  function ScaledFloor(p: real, n: nat): (f: int)
    ensures f as real <= p * n as real < f as real + 1.0
  {
    (p * n as real).Floor
  }

  lemma ScaledFloorMonotone(p1: real, p2: real, n: nat)
    requires p1 <= p2
    ensures ScaledFloor(p1, n) <= ScaledFloor(p2, n)
  {
    MulNonNeg(p2 - p1, n as real);
    assert p2 * n as real - p1 * n as real == (p2 - p1) * n as real;
  }

  lemma ScaleWithinRange(p: real, n: nat)
    requires 0.0 <= p <= 1.0
    ensures 0.0 <= p * n as real <= n as real
  {
  }

  lemma DivideMonotone(a: real, b: real, t: real)
    requires t > 0.0 && a <= b
    ensures a / t <= b / t
  {
  }

  lemma DivideWithinUnit(a: real, t: real)
    requires t > 0.0 && 0.0 <= a <= t
    ensures 0.0 <= a / t <= 1.0
  {
  }

  lemma DivideByNegative(a: real, t: real)
    requires t < 0.0 && a > 0.0
    ensures a / t < 0.0
  {
  }

  /** In the intersecting branch the outer `Math.min` never bites: the target is the floor itself. */
  lemma IntersectingFrameIsFloor(rect: Rect, windowHeight: real, frameCount: nat)
    requires frameCount >= 1 && rect.top < windowHeight
    ensures IntersectingFrame(rect, windowHeight, frameCount) == ScaledFloor(Progress(rect, windowHeight), frameCount - 1)
  {
  }

  lemma TargetIsScaledFloor(rect: Rect, windowHeight: real, frameCount: nat)
    requires frameCount >= 1 && rect.bottom > 0.0 && rect.top < windowHeight
    ensures TargetFrame(rect, windowHeight, frameCount) == ScaledFloor(Progress(rect, windowHeight), frameCount - 1)
  {
    IntersectingFrameIsFloor(rect, windowHeight, frameCount);
  }

  /**
   * For a genuine rectangle (bottom == top + height, height >= 0) that intersects the viewport the
   * clamp is a no-op: progress is exactly the distance travelled over the total distance.
   */
  lemma ProgressUnclamped(rect: Rect, windowHeight: real)
    requires rect.bottom == rect.top + rect.height && rect.height >= 0.0
    requires rect.bottom > 0.0 && rect.top < windowHeight
    ensures rect.height + windowHeight > 0.0
    ensures Progress(rect, windowHeight) == (windowHeight - rect.top) / (rect.height + windowHeight)
  {
    DivideWithinUnit(windowHeight - rect.top, rect.height + windowHeight);
  }

  /** A section as tall as the viewport, with its top at the viewport's top, is half way through. */
  lemma HalfwayFrame(windowHeight: real, frameCount: nat)
    requires windowHeight > 0.0 && frameCount >= 1
    ensures TargetFrame(Rect(0.0, windowHeight, windowHeight), windowHeight, frameCount)
         == (0.5 * (frameCount - 1) as real).Floor
  {
    var rect := Rect(0.0, windowHeight, windowHeight);
    ProgressUnclamped(rect, windowHeight);
    assert windowHeight / (windowHeight + windowHeight) == 0.5;
    IntersectingFrameIsFloor(rect, windowHeight, frameCount);
  }

  /** With three frames that position shows the middle frame. */
  lemma HalfwayOfThree(windowHeight: real)
    requires windowHeight > 0.0
    ensures TargetFrame(Rect(0.0, windowHeight, windowHeight), windowHeight, 3) == 1
  {
    HalfwayFrame(windowHeight, 3);
  }

  lemma Clamp01Monotone(x: real, y: real)
    requires x <= y
    ensures Clamp01(x) <= Clamp01(y)
  {
  }

  /**
   * Wherever progress is computed, moving the section's top up (height and viewport fixed) never
   * lowers it.
   */
  lemma ProgressMonotone(r1: Rect, r2: Rect, windowHeight: real)
    requires r1.height == r2.height && r2.top <= r1.top
    requires r1.top < windowHeight && r2.top < windowHeight
    ensures Progress(r1, windowHeight) <= Progress(r2, windowHeight)
  {
    var total := r1.height + windowHeight;
    var d1, d2 := windowHeight - r1.top, windowHeight - r2.top;
    if total > 0.0 {
      DivideMonotone(d1, d2, total);
      Clamp01Monotone(d1 / total, d2 / total);
    } else if total < 0.0 {
      DivideByNegative(d1, total);
      DivideByNegative(d2, total);
    }
  }

  /**
   * While the section intersects the viewport, scrolling down (its top moving up, height and
   * viewport fixed) never selects an earlier frame.
   */
  lemma TargetMonotone(r1: Rect, r2: Rect, windowHeight: real, frameCount: nat)
    requires frameCount >= 1
    requires r1.height == r2.height && r2.top <= r1.top
    requires r1.bottom > 0.0 && r1.top < windowHeight
    requires r2.bottom > 0.0 && r2.top < windowHeight
    ensures TargetFrame(r1, windowHeight, frameCount) <= TargetFrame(r2, windowHeight, frameCount)
  {
    ProgressMonotone(r1, r2, windowHeight);
    ScaledFloorMonotone(Progress(r1, windowHeight), Progress(r2, windowHeight), frameCount - 1);
    TargetIsScaledFloor(r1, windowHeight, frameCount);
    TargetIsScaledFloor(r2, windowHeight, frameCount);
  }
}
