/**
 * Clients of the sequence player that drive it through whole event sequences, with a three-frame
 * configuration: images resolving in reverse order, a failed first frame (with its error handler
 * running at once or overtaken by another slot's handler), and a burst of scrolls collapsed into one
 * paint.
 */
module PlayerScenarios {
  import opened Frames
  import opened ScrollMapper
  import opened Player
  import opened Wrappers

  const Small := Config(3, 0, "frames/", "f_", ".png")

  /** No element with id "about": scroll evaluation leaves the frame alone. */
  const NoSection := Viewport(None, 100.0, 0.0)

  /**
   * The last slot resolves first and slot 0 last: the listeners are not attached before every slot has
   * resolved, and when slot 0 resolves the first-frame block and then the all-resolved block each
   * paint frame 0 once.
   */
  method ReverseOrderLoad() returns (attachedEarly: bool, attachedAtEnd: bool, painted: seq<int>)
    ensures !attachedEarly && attachedAtEnd
    ensures painted == [0, 0]
  {
    var p := new SequencePlayer(Small);
    var _ := p.ImageResolved(2, true, NoSection);
    var _ := p.ImageResolved(1, true, NoSection);
    attachedEarly := p.listenersAttached;
    assert p.painted == [];
    var _ := p.ImageResolved(0, true, NoSection);
    attachedAtEnd := p.listenersAttached;
    painted := p.painted;
  }

  /**
   * Slot 0 fails and the others load: the first-frame block throws when slot 0 resolves, and the
   * all-resolved block throws when the last slot resolves, before the listeners are added. Nothing is
   * ever painted and scrolling never drives the sequence.
   */
  method FailedFirstFrame() returns (threwFirst: bool, threwLast: bool, attached: bool, painted: seq<int>)
    ensures threwFirst && threwLast
    ensures !attached && painted == []
  {
    var p := new SequencePlayer(Small);
    threwFirst := p.ImageResolved(0, false, NoSection);
    var _ := p.ImageResolved(1, true, NoSection);
    threwLast := p.ImageResolved(2, true, NoSection);
    attached := p.listenersAttached;
    painted := p.painted;
  }

  /**
   * Slot 0 fails and slot 1 loads, and slot 1's `onload` handler runs before slot 0's `onerror`
   * handler. The first-frame block runs in slot 1's handler, because slot 0 is already `complete`, and
   * throws there. Slot 0's own handler then only counts. The last slot's handler throws in the
   * all-resolved block.
   */
  method ErrorHandlerOvertaken() returns (overtakingThrew: bool, errorHandlerThrew: bool, lastThrew: bool, attached: bool, painted: seq<int>)
    ensures overtakingThrew && !errorHandlerThrew && lastThrew
    ensures !attached && painted == []
  {
    var p := new SequencePlayer(Small);
    p.MarkComplete(0, false);
    p.MarkComplete(1, true);
    overtakingThrew := p.HandleImageLoad(NoSection);
    errorHandlerThrew := p.HandleImageLoad(NoSection);
    lastThrew := p.ImageResolved(2, true, NoSection);
    attached := p.listenersAttached;
    painted := p.painted;
  }

  /** A player over `Small` whose slots all loaded, in order. */
  method LoadedInOrder() returns (p: SequencePlayer)
    ensures fresh(p) && fresh(p.images) && p.Valid() && p.config == Small
    ensures p.listenersAttached && p.scheduledRender && p.currentFrame == 0
    ensures p.painted == [0, 0]
    ensures p.AllResolved() && p.NoFailures()
  {
    p := new SequencePlayer(Small);
    var _ := p.ImageResolved(0, true, NoSection);
    var _ := p.ImageResolved(1, true, NoSection);
    var _ := p.ImageResolved(2, true, NoSection);
  }

  /** The same player after its first animation frame has run. */
  method LoadedAndPainted() returns (p: SequencePlayer)
    ensures fresh(p) && fresh(p.images) && p.Valid() && p.config == Small
    ensures p.listenersAttached && !p.scheduledRender && p.currentFrame == 0
    ensures p.painted == [0, 0, 0]
    ensures p.AllResolved() && p.NoFailures()
  {
    p := LoadedInOrder();
    p.AnimationFrame();
  }

  /**
   * Once loaded, two scrolls before the next animation frame request two renders but leave one
   * callback pending, and that callback paints only the frame selected last; a repeated scroll with
   * the same geometry requests nothing.
   */
  method CollapsedRepaint() returns (pendingAfterBurst: nat, painted: seq<int>, scheduledAfterRepeat: bool)
    ensures pendingAfterBurst == 1
    ensures painted == [0, 0, 0, 1]
    ensures !scheduledAfterRepeat
  {
    var p := LoadedAndPainted();
    var below := Viewport(Some(Rect(100.0, 200.0, 100.0)), 100.0, 0.0);
    var halfway := Viewport(Some(Rect(0.0, 100.0, 100.0)), 100.0, 0.0);
    HalfwayOfThree(100.0);
    p.OnScroll(below);
    assert p.currentFrame == 2;
    p.OnScroll(halfway);
    assert p.currentFrame == 1;
    pendingAfterBurst := p.pendingCallbacks;
    assert p.Paints(1);
    p.AnimationFrame();
    painted := p.painted;
    p.OnScroll(halfway);
    scheduledAfterRepeat := p.scheduledRender;
  }
}
