/** The image carousel: a current slide index over a fixed, non-empty list of
    images, moved by the arrows, by the indicator dots, by an autoplay timer
    and by a horizontal swipe. Only the number of images matters here. */
module Carousel {
  import opened Text

  /** `(prevIndex + 1) % images.length`: the next slide, wrapping from the last to the first. */
  function Next(i: int, n: int): (r: int)
    requires n > 0
    ensures 0 <= i < n ==> 0 <= r < n && r == (if i == n - 1 then 0 else i + 1)
  {
    Rem(i + 1, n)
  }

  /** `(prevIndex - 1 + images.length) % images.length`: the previous slide, wrapping from the
      first to the last. */
  function Previous(i: int, n: int): (r: int)
    requires n > 0
    ensures 0 <= i < n ==> 0 <= r < n && r == (if i == 0 then n - 1 else i - 1)
  {
    Rem(i - 1 + n, n)
  }

  /** The index after `k` successive moves to the next slide. */
  function NextTimes(i: int, n: int, k: nat): (r: int)
    requires n > 0
  {
    if k == 0 then i else Next(NextTimes(i, n, k - 1), n)
  }

  /** Next and previous undo each other on every valid index. */
  lemma NextPreviousInverse(i: int, n: int)
    requires n > 0 && 0 <= i < n
    ensures Previous(Next(i, n), n) == i
    ensures Next(Previous(i, n), n) == i
  {
  }

  /** With a single image both moves stay on it. */
  lemma SingleImageStays(n: int)
    requires n == 1
    ensures Next(0, n) == 0 && Previous(0, n) == 0
  {
  }

  /** The remainder of a natural number `a` by `n`, by repeated subtraction. */
  function Wrap(a: nat, n: int): (r: int)
    requires n > 0
    ensures 0 <= r < n
    decreases a
  {
    if a < n then a else Wrap(a - n, n)
  }

  /** Adding one to `a` moves its remainder one step forward, wrapping at `n`. */
  lemma {:induction false} WrapSucc(a: nat, n: int)
    requires n > 0
    ensures Wrap(a + 1, n) == Next(Wrap(a, n), n)
    decreases a
  {
    if a >= n {
      WrapSucc(a - n, n);
    }
  }

  /** `k` moves forward land on the remainder of `i + k` by `n`. */
  lemma {:induction false} NextTimesIsSum(i: int, n: int, k: nat)
    requires n > 0 && 0 <= i < n
    ensures NextTimes(i, n, k) == Wrap(i + k, n)
  {
    if k > 0 {
      NextTimesIsSum(i, n, k - 1);
      WrapSucc(i + k - 1, n);
    }
  }

  /** As many moves forward as there are images come back to the starting slide, and no fewer
      do. */
  lemma FullCycle(i: int, n: int)
    requires n > 0 && 0 <= i < n
    ensures NextTimes(i, n, n) == i
    ensures forall k: nat :: 0 < k < n ==> NextTimes(i, n, k) != i
  {
    NextTimesIsSum(i, n, n);
    forall k: nat | 0 < k < n
      ensures NextTimes(i, n, k) != i
    {
      NextTimesIsSum(i, n, k);
    }
  }

  /** `swipeConfidenceThreshold`. */
  const SwipeConfidenceThreshold: real := 10000.0

  /** `Math.abs(offset) * velocity`. */
  function SwipePower(offset: real, velocity: real): real {
    (if offset < 0.0 then -offset else offset) * velocity
  }

  datatype Swipe = Forward | Back | Stay

  /** The drag-end decision: a strong leftward swipe advances, a strong rightward swipe goes
      back, and anything in between does nothing. */
  function SwipeAction(offset: real, velocity: real): (r: Swipe)
    ensures r == Forward <==> SwipePower(offset, velocity) < -SwipeConfidenceThreshold
    ensures r == Back <==> SwipePower(offset, velocity) > SwipeConfidenceThreshold
  {
    var swipe := SwipePower(offset, velocity);
    if swipe < -SwipeConfidenceThreshold then Forward
    else if swipe > SwipeConfidenceThreshold then Back
    else Stay
  }

  /** The direction follows the sign of the velocity, the drag distance counts whichever way it
      went, and a drag without distance or speed never moves. */
  lemma SwipeFollowsVelocity(offset: real, velocity: real)
    ensures SwipeAction(offset, velocity) == Forward ==> velocity < 0.0
    ensures SwipeAction(offset, velocity) == Back ==> velocity > 0.0
    ensures offset == 0.0 || velocity == 0.0 ==> SwipeAction(offset, velocity) == Stay
    ensures SwipeAction(-offset, velocity) == SwipeAction(offset, velocity)
    ensures SwipeAction(offset, velocity) == Forward <==> SwipeAction(offset, -velocity) == Back
  {
    var a := if offset < 0.0 then -offset else offset;
    assert SwipePower(offset, velocity) == a * velocity;
    assert SwipePower(offset, -velocity) == -(a * velocity);
    if a * velocity < 0.0 {
      assert velocity < 0.0;
    }
    if a * velocity > 0.0 {
      assert velocity > 0.0;
    }
  }

  /** The arrows appear only when enabled and there is more than one image; so do the dots. */
  predicate ControlsShown(enabled: bool, n: int) {
    enabled && n > 1
  }

  /** A carousel of one image shows neither arrows nor dots, whatever the settings. */
  lemma SingleImageHidesControls(showControls: bool, showIndicators: bool)
    ensures !ControlsShown(showControls, 1) && !ControlsShown(showIndicators, 1)
    ensures ControlsShown(showControls, 2) <==> showControls
  {
  }

  class Carousel {
    /** `images.length`. */
    const count: int
    const autoPlay: bool
    const showControls: bool
    const showIndicators: bool
    var currentIndex: int

    /** The index always names one of the images. */
    predicate Valid()
      reads this
    {
      count > 0 && 0 <= currentIndex < count
    }

    /** The first slide is shown first. Rendering reads `images[currentIndex]`, so the list must
        not be empty. */
    constructor (count: int, autoPlay: bool, showControls: bool, showIndicators: bool)
      requires count > 0
      ensures Valid() && currentIndex == 0
      ensures this.count == count && this.autoPlay == autoPlay
      ensures this.showControls == showControls && this.showIndicators == showIndicators
    {
      this.count := count;
      this.autoPlay := autoPlay;
      this.showControls := showControls;
      this.showIndicators := showIndicators;
      currentIndex := 0;
    }

    /** `goToNext`, the right arrow. */
    method GoToNext()
      requires Valid()
      modifies this`currentIndex
      ensures Valid() && currentIndex == Next(old(currentIndex), count)
    {
      currentIndex := Rem(currentIndex + 1, count);
    }

    /** `goToPrevious`, the left arrow. */
    method GoToPrevious()
      requires Valid()
      modifies this`currentIndex
      ensures Valid() && currentIndex == Previous(old(currentIndex), count)
    {
      currentIndex := Rem(currentIndex - 1 + count, count);
    }

    /** `goToSlide`, an indicator dot; the dots pass their own position. */
    method GoToSlide(index: int)
      requires Valid() && 0 <= index < count
      modifies this`currentIndex
      ensures Valid() && currentIndex == index
    {
      currentIndex := index;
    }

    /** One firing of the autoplay interval. The timer exists only when autoplay is on, so with
        autoplay off nothing happens. */
    method Tick()
      requires Valid()
      modifies this`currentIndex
      ensures Valid()
      ensures currentIndex == if autoPlay then Next(old(currentIndex), count) else old(currentIndex)
    {
      if autoPlay {
        GoToNext();
      }
    }

    /** `onDragEnd` with the drag's horizontal offset and velocity. */
    method OnDragEnd(offset: real, velocity: real)
      requires Valid()
      modifies this`currentIndex
      ensures Valid()
      ensures SwipeAction(offset, velocity) == Forward ==> currentIndex == Next(old(currentIndex), count)
      ensures SwipeAction(offset, velocity) == Back ==> currentIndex == Previous(old(currentIndex), count)
      ensures SwipeAction(offset, velocity) == Stay ==> currentIndex == old(currentIndex)
    {
      var swipe := SwipePower(offset, velocity);
      if swipe < -SwipeConfidenceThreshold {
        GoToNext();
      } else if swipe > SwipeConfidenceThreshold {
        GoToPrevious();
      }
    }
  }

  /** Forward then back, or back then forward, shows the slide one started from. */
  method NextThenPrevious(c: Carousel)
    requires c.Valid()
    modifies c`currentIndex
    ensures c.currentIndex == old(c.currentIndex)
  {
    NextPreviousInverse(c.currentIndex, c.count);
    c.GoToNext();
    c.GoToPrevious();
    c.GoToPrevious();
    c.GoToNext();
  }
}
