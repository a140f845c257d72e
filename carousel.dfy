/**
 * The carousel controller: one instance per `.carousel` container on the page.
 * The pure part (page size, wrap-around stepping, the rendered offset) is a set
 * of functions; the controller itself is the class `Widget`, whose methods are
 * the controller's internal steps and the event handlers wired to it.
 */
module Carousel {
  import opened Options

  /** Viewport widths (in CSS pixels) at which the page size grows. */
  const WideMinWidth: int := 1024
  const MediumMinWidth: int := 768

  /** Auto-slide runs only for carousels with more items than this. */
  const AutoSlideMinItems: nat := 3

  /** Number of items shown at once for a viewport width. */
  function ItemsPerPage(width: int): (r: nat)
    ensures 1 <= r <= 3
    ensures r == 3 <==> WideMinWidth <= width
    ensures r == 2 <==> MediumMinWidth <= width < WideMinWidth
    ensures r == 1 <==> width < MediumMinWidth
  {
    if width >= WideMinWidth then 3
    else if width >= MediumMinWidth then 2
    else 1
  }

  /** A wider viewport never shows fewer items per page. */
  lemma ItemsPerPageMonotone(w1: int, w2: int)
    requires w1 <= w2
    ensures ItemsPerPage(w1) <= ItemsPerPage(w2)
  {
  }

  /** Static mode: every item fits on one page, so there is nothing to page through. */
  predicate IsStatic(total: nat, width: int)
    ensures total <= 1 ==> IsStatic(total, width)
    ensures total > AutoSlideMinItems ==> !IsStatic(total, width)
  {
    total <= ItemsPerPage(width)
  }

  /** The largest first-visible index that still fills a page. */
  function MaxIndex(total: nat, width: int): (m: int)
    ensures total - 3 <= m <= total - 1
    ensures m >= 1 <==> !IsStatic(total, width)
  {
    total - ItemsPerPage(width)
  }

  /** A carousel that auto-slides has more items than any page holds. */
  lemma AutoSlidingIsNeverStatic(total: nat, width: int)
    requires total > AutoSlideMinItems
    ensures !IsStatic(total, width) && MaxIndex(total, width) >= 1
  {
  }

  /** The index after `slideNext`: a no-op in static mode, otherwise a step that wraps past the maximum to 0. */
  function NextIndex(i: int, total: nat, width: int): (r: int)
    ensures IsStatic(total, width) ==> r == i
    ensures !IsStatic(total, width) && 0 <= i ==> 0 <= r <= MaxIndex(total, width)
  {
    if IsStatic(total, width) then i
    else if i + 1 > MaxIndex(total, width) then 0
    else i + 1
  }

  /** The index after `slidePrev`: a no-op in static mode, otherwise a step back that wraps below 0 to the maximum. */
  function PrevIndex(i: int, total: nat, width: int): (r: int)
    ensures IsStatic(total, width) ==> r == i
    ensures !IsStatic(total, width) && 0 <= i ==> 0 <= r
    ensures !IsStatic(total, width) && 0 <= i <= MaxIndex(total, width) ==> r <= MaxIndex(total, width)
    ensures 0 <= i < total ==> r < total
  {
    if IsStatic(total, width) then i
    else if i - 1 < 0 then MaxIndex(total, width)
    else i - 1
  }

  /** Inside the range both steps move by one; at the ends they wrap to the other end. */
  lemma StepsWithinRange(i: int, total: nat, width: int)
    requires !IsStatic(total, width) && 0 <= i <= MaxIndex(total, width)
    ensures NextIndex(i, total, width) == if i == MaxIndex(total, width) then 0 else i + 1
    ensures PrevIndex(i, total, width) == if i == 0 then MaxIndex(total, width) else i - 1
  {
  }

  /** Stepping forward from any index beyond the maximum (left there by a widening resize) lands on 0. */
  lemma NextFromBeyondMaxIsZero(i: int, total: nat, width: int)
    requires !IsStatic(total, width) && i > MaxIndex(total, width)
    ensures NextIndex(i, total, width) == 0
  {
  }

  /** On the valid range (and anywhere in static mode) next and prev undo each other. */
  lemma NextPrevInverse(i: int, total: nat, width: int)
    requires 0 <= i
    requires IsStatic(total, width) || i <= MaxIndex(total, width)
    ensures PrevIndex(NextIndex(i, total, width), total, width) == i
    ensures NextIndex(PrevIndex(i, total, width), total, width) == i
  {
  }

  /** Outside the valid range they do not: 7 items at width 1200, index 6, next then prev gives 4. */
  lemma NextPrevNotInverseBeyondMax()
    ensures MaxIndex(7, 1200) == 4
    ensures PrevIndex(NextIndex(6, 7, 1200), 7, 1200) == 4
  {
  }

  /** The index after `n` consecutive `slideNext` steps at a fixed width. */
  function Advance(i: int, total: nat, width: int, n: nat): int
    decreases n
  {
    if n == 0 then i else Advance(NextIndex(i, total, width), total, width, n - 1)
  }

  /** `n` steps forward from `i` on a cycle of `m + 1` positions, written without `%`. */
  function CyclePosition(i: int, m: int, n: nat): int {
    if i + n <= m then i + n else i + n - (m + 1)
  }

  lemma {:induction false} AdvanceAdd(i: int, total: nat, width: int, a: nat, b: nat)
    ensures Advance(i, total, width, a + b) == Advance(Advance(i, total, width, a), total, width, b)
    decreases a
  {
    if a > 0 {
      AdvanceAdd(NextIndex(i, total, width), total, width, a - 1, b);
    }
  }

  lemma {:induction false} AdvanceClosedForm(i: int, total: nat, width: int, n: nat)
    requires !IsStatic(total, width)
    requires 0 <= i <= MaxIndex(total, width)
    requires n <= MaxIndex(total, width)
    ensures Advance(i, total, width, n) == CyclePosition(i, MaxIndex(total, width), n)
    decreases n
  {
    if n > 0 {
      AdvanceClosedForm(NextIndex(i, total, width), total, width, n - 1);
    }
  }

  /**
   * Repeated `slideNext` from an index in range visits exactly `MaxIndex + 1`
   * distinct values and then returns to where it started.
   */
  lemma AdvanceCycle(i: int, total: nat, width: int)
    requires !IsStatic(total, width)
    requires 0 <= i <= MaxIndex(total, width)
    ensures Advance(i, total, width, MaxIndex(total, width) + 1) == i
    ensures forall k: nat :: 0 < k <= MaxIndex(total, width) ==> Advance(i, total, width, k) != i
    ensures forall j: nat, k: nat :: j < k <= MaxIndex(total, width) ==>
              Advance(i, total, width, j) != Advance(i, total, width, k)
  {
    var m := MaxIndex(total, width);
    AdvanceClosedForm(i, total, width, m);
    AdvanceAdd(i, total, width, m, 1);
    forall k: nat | k <= m
      ensures Advance(i, total, width, k) == CyclePosition(i, m, k)
    {
      AdvanceClosedForm(i, total, width, k);
    }
  }

  /** After one full cycle the sequence repeats. */
  lemma AdvancePeriodic(i: int, total: nat, width: int, n: nat)
    requires !IsStatic(total, width)
    requires 0 <= i <= MaxIndex(total, width)
    ensures Advance(i, total, width, n + MaxIndex(total, width) + 1) == Advance(i, total, width, n)
  {
    var m := MaxIndex(total, width);
    AdvanceCycle(i, total, width);
    AdvanceAdd(i, total, width, m + 1, n);
  }

  /** From 0 the first cycle visits the indices in order. */
  lemma AdvanceFromZero(total: nat, width: int, k: nat)
    requires !IsStatic(total, width)
    requires k <= MaxIndex(total, width)
    ensures Advance(0, total, width, k) == k
  {
    AdvanceClosedForm(0, total, width, k);
  }

  /** In static mode no number of steps moves the index. */
  lemma {:induction false} AdvanceStatic(i: int, total: nat, width: int, n: nat)
    requires IsStatic(total, width)
    ensures Advance(i, total, width, n) == i
    decreases n
  {
    if n > 0 {
      AdvanceStatic(i, total, width, n - 1);
    }
  }

  /** Seven items at width 1200: pages of three, indices 1, 2, 3, 4 and then back to 0. */
  lemma SevenItemsAtWideWidth()
    ensures ItemsPerPage(1200) == 3 && MaxIndex(7, 1200) == 4
    ensures [Advance(0, 7, 1200, 1), Advance(0, 7, 1200, 2), Advance(0, 7, 1200, 3),
             Advance(0, 7, 1200, 4), Advance(0, 7, 1200, 5)] == [1, 2, 3, 4, 0]
  {
    AdvanceCycle(0, 7, 1200);
    forall k: nat | k <= 4
      ensures Advance(0, 7, 1200, k) == k
    {
      AdvanceFromZero(7, 1200, k);
    }
  }

  /**
   * The leftward translation of the track, in percent of the viewport, that
   * layout renders for index `i`: 0 in static mode, otherwise `i` item widths
   * of `100 / ItemsPerPage` percent each.
   */
  function Offset(i: int, total: nat, width: int): (r: real)
    ensures IsStatic(total, width) ==> r == 0.0
    ensures !IsStatic(total, width) ==> r * (ItemsPerPage(width) as real) == (i as real) * 100.0
  {
    if IsStatic(total, width) then 0.0
    else (i as real) * (100.0 / (ItemsPerPage(width) as real))
  }

  /** The track's full length, in percent of the viewport. */
  function TrackLength(total: nat, width: int): real {
    (total as real) * (100.0 / (ItemsPerPage(width) as real))
  }

  /** For an index in range the visible page ends at or before the last item. */
  lemma PageWithinTrack(i: int, total: nat, width: int)
    requires !IsStatic(total, width) && 0 <= i <= MaxIndex(total, width)
    ensures 0.0 <= Offset(i, total, width)
    ensures Offset(i, total, width) + 100.0 <= TrackLength(total, width)
  {
    var p := ItemsPerPage(width);
    var w := 100.0 / (p as real);
    assert w * (p as real) == 100.0;
    assert i + p <= total;
    assert ((i + p) as real) * w <= (total as real) * w;
  }

  /**
   * A widening resize is not clamped: 7 items, index 6 reached at width 500,
   * then a resize to 1200 leaves the index past the maximum and the page
   * past the end of the track.
   */
  lemma WideningResizeOverscrolls()
    ensures 6 < 7 && 6 > MaxIndex(7, 1200)
    ensures Offset(6, 7, 1200) + 100.0 > TrackLength(7, 1200)
  {
  }

  /**
   * One carousel. `totalItems` is fixed when it is set up; `width` is the
   * viewport width now (`window.innerWidth`, read afresh by every step);
   * `renderedWidth` is the width the last layout used; the rendered fields
   * are what layout writes to the track and the buttons; the timer fields
   * model `autoSlideInterval`.
   */
  class Widget {
    const totalItems: nat
    var width: int
    var renderedWidth: int
    var currentIndex: int

    /** Track translation to the left, in percent (`translateX(-offset%)`). */
    var offset: real
    /** Whether the prev and next buttons are displayed. */
    var controlsShown: bool
    /** Whether the track carries `justify-center`. */
    var centered: bool
    /** False while an inline `transition: none` suppresses the slide animation. */
    var transitionOn: bool
    /** Pending 50 ms callbacks that re-enable the transition. */
    var restoresPending: nat

    /** The interval id last stored in `autoSlideInterval`, if any. */
    var handle: Option<nat>
    /** The interval ids the host is still running for this carousel. */
    var liveTimers: set<nat>
    /** The id the host hands out for the next `setInterval`. */
    var nextHandle: nat

    /** What layout has rendered agrees with the current index and the width it was laid out for. */
    predicate Rendered()
      reads this
    {
      controlsShown == !IsStatic(totalItems, renderedWidth) &&
      centered == IsStatic(totalItems, renderedWidth) &&
      offset == Offset(currentIndex, totalItems, renderedWidth)
    }

    /** At most one interval runs, it is the one held, and only a carousel with more than three items has one. */
    predicate TimersOk()
      reads this
    {
      (liveTimers == {} || (handle.Some? && liveTimers == {handle.value})) &&
      (liveTimers != {} ==> totalItems > AutoSlideMinItems)
    }

    ghost predicate Valid()
      reads this
    {
      1 <= totalItems &&
      0 <= currentIndex < totalItems &&
      Rendered() &&
      TimersOk()
    }

    lemma AtMostOneTimer()
      requires Valid()
      ensures |liveTimers| <= 1
      ensures liveTimers != {} ==> !IsStatic(totalItems, width) && !IsStatic(totalItems, renderedWidth)
    {
    }

    /** Set-up for a container with at least one item: first layout, then auto-slide. */
    constructor (totalItems: nat, width: int)
      requires 1 <= totalItems
      ensures Valid()
      ensures this.totalItems == totalItems && this.width == width && renderedWidth == width && currentIndex == 0
      ensures transitionOn && restoresPending == 0
      ensures totalItems > AutoSlideMinItems ==> handle == Some(1) && liveTimers == {1} && nextHandle == 2
      ensures totalItems <= AutoSlideMinItems ==> handle == None && liveTimers == {} && nextHandle == 1
    {
      this.totalItems := totalItems;
      this.width := width;
      renderedWidth := width;
      currentIndex := 0;
      offset := 0.0;
      controlsShown := false;
      centered := false;
      transitionOn := true;
      restoresPending := 0;
      handle := None;
      liveTimers := {};
      nextHandle := 1;
      new;
      UpdateCarousel(false);
      StartAutoSlide();
    }

    /** Layout: renders the offset and the buttons from the index and the current width; never touches the index. */
    method UpdateCarousel(disableTransition: bool)
      modifies this`renderedWidth, this`offset, this`controlsShown, this`centered, this`transitionOn, this`restoresPending
      ensures Rendered() && renderedWidth == width
      ensures currentIndex == old(currentIndex)
      ensures IsStatic(totalItems, width) ==> offset == 0.0 && !controlsShown
      ensures !IsStatic(totalItems, width) ==> controlsShown
      ensures transitionOn == (old(transitionOn) && !disableTransition)
      ensures restoresPending == old(restoresPending) + (if disableTransition then 1 else 0)
    {
      if disableTransition {
        transitionOn := false;
      }
      renderedWidth := width;
      if totalItems <= ItemsPerPage(width) {
        centered := true;
        offset := 0.0;
        controlsShown := false;
      } else {
        centered := false;
        controlsShown := true;
        offset := (currentIndex as real) * (100.0 / (ItemsPerPage(width) as real));
      }
      if disableTransition {
        restoresPending := restoresPending + 1;
      }
    }

    /** The 50 ms callback scheduled by a layout with the transition disabled. */
    method TransitionRestored()
      requires restoresPending > 0
      modifies this`transitionOn, this`restoresPending
      ensures transitionOn && restoresPending == old(restoresPending) - 1
    {
      transitionOn := true;
      restoresPending := restoresPending - 1;
    }

    method SlideNext()
      requires Valid()
      modifies this`currentIndex, this`renderedWidth, this`offset, this`controlsShown, this`centered
      modifies this`transitionOn, this`restoresPending
      ensures Valid()
      ensures transitionOn == old(transitionOn) && restoresPending == old(restoresPending)
      ensures renderedWidth == if IsStatic(totalItems, width) then old(renderedWidth) else width
      ensures currentIndex == NextIndex(old(currentIndex), totalItems, width)
    {
      if totalItems <= ItemsPerPage(width) {
        return;
      }
      currentIndex := currentIndex + 1;
      if currentIndex > totalItems - ItemsPerPage(width) {
        currentIndex := 0;
      }
      UpdateCarousel(false);
    }

    method SlidePrev()
      requires Valid()
      modifies this`currentIndex, this`renderedWidth, this`offset, this`controlsShown, this`centered
      modifies this`transitionOn, this`restoresPending
      ensures Valid()
      ensures transitionOn == old(transitionOn) && restoresPending == old(restoresPending)
      ensures renderedWidth == if IsStatic(totalItems, width) then old(renderedWidth) else width
      ensures currentIndex == PrevIndex(old(currentIndex), totalItems, width)
    {
      if totalItems <= ItemsPerPage(width) {
        return;
      }
      currentIndex := currentIndex - 1;
      if currentIndex < 0 {
        currentIndex := totalItems - ItemsPerPage(width);
      }
      UpdateCarousel(false);
    }

    /** Cancels any running interval first, then starts a fresh one; does nothing for three items or fewer. */
    method StartAutoSlide()
      requires Valid()
      modifies this`handle, this`liveTimers, this`nextHandle
      ensures Valid()
      ensures totalItems > AutoSlideMinItems ==>
                handle == Some(old(nextHandle)) && liveTimers == {old(nextHandle)} && nextHandle == old(nextHandle) + 1
      ensures totalItems <= AutoSlideMinItems ==>
                handle == old(handle) && liveTimers == old(liveTimers) == {} && nextHandle == old(nextHandle)
    {
      if totalItems > AutoSlideMinItems {
        StopAutoSlide();
        handle := Some(nextHandle);
        liveTimers := liveTimers + {nextHandle};
        nextHandle := nextHandle + 1;
      }
    }

    /** `clearInterval` on the held id: afterwards no interval runs (so calling it again changes nothing). */
    method StopAutoSlide()
      requires Valid()
      modifies this`liveTimers
      ensures Valid()
      ensures liveTimers == {}
    {
      if handle.Some? {
        liveTimers := liveTimers - {handle.value};
      }
    }

    /** Click on the next button: step forward, then restart the auto-slide cadence. */
    method NextClick()
      requires Valid()
      modifies this
      ensures Valid()
      ensures width == old(width) && transitionOn == old(transitionOn) && restoresPending == old(restoresPending)
      ensures renderedWidth == if IsStatic(totalItems, width) then old(renderedWidth) else width
      ensures currentIndex == NextIndex(old(currentIndex), totalItems, width)
      ensures totalItems > AutoSlideMinItems ==>
                handle == Some(old(nextHandle)) && liveTimers == {old(nextHandle)} && nextHandle == old(nextHandle) + 1
      ensures totalItems <= AutoSlideMinItems ==> handle == old(handle) && liveTimers == {} && nextHandle == old(nextHandle)
    {
      SlideNext();
      StopAutoSlide();
      StartAutoSlide();
    }

    /** Click on the prev button: step back, then restart the auto-slide cadence. */
    method PrevClick()
      requires Valid()
      modifies this
      ensures Valid()
      ensures width == old(width) && transitionOn == old(transitionOn) && restoresPending == old(restoresPending)
      ensures renderedWidth == if IsStatic(totalItems, width) then old(renderedWidth) else width
      ensures currentIndex == PrevIndex(old(currentIndex), totalItems, width)
      ensures totalItems > AutoSlideMinItems ==>
                handle == Some(old(nextHandle)) && liveTimers == {old(nextHandle)} && nextHandle == old(nextHandle) + 1
      ensures totalItems <= AutoSlideMinItems ==> handle == old(handle) && liveTimers == {} && nextHandle == old(nextHandle)
    {
      SlidePrev();
      StopAutoSlide();
      StartAutoSlide();
    }

    /** Pointer enters the carousel: auto-slide pauses. */
    method MouseEnter()
      requires Valid()
      modifies this`liveTimers
      ensures Valid()
      ensures liveTimers == {}
    {
      StopAutoSlide();
    }

    /** Pointer leaves the carousel: auto-slide restarts. */
    method MouseLeave()
      requires Valid()
      modifies this`handle, this`liveTimers, this`nextHandle
      ensures Valid()
      ensures totalItems > AutoSlideMinItems ==>
                handle == Some(old(nextHandle)) && liveTimers == {old(nextHandle)} && nextHandle == old(nextHandle) + 1
      ensures totalItems <= AutoSlideMinItems ==> handle == old(handle) && liveTimers == {} && nextHandle == old(nextHandle)
    {
      StartAutoSlide();
    }

    /**
     * The host changes the viewport width. Nothing is laid out until the
     * resize event arrives, but every later step already reads the new width.
     */
    method ViewportChanged(newWidth: int)
      requires Valid()
      modifies this`width
      ensures Valid() && width == newWidth
    {
      width := newWidth;
    }

    /**
     * The resize event: layout again at the current width without animation,
     * then restart auto-slide. The index is kept as it is, even past the new maximum.
     */
    method Resize()
      requires Valid()
      modifies this
      ensures Valid()
      ensures width == old(width) && renderedWidth == width && currentIndex == old(currentIndex)
      ensures !transitionOn && restoresPending == old(restoresPending) + 1
      ensures totalItems > AutoSlideMinItems ==>
                handle == Some(old(nextHandle)) && liveTimers == {old(nextHandle)} && nextHandle == old(nextHandle) + 1
      ensures totalItems <= AutoSlideMinItems ==> handle == old(handle) && liveTimers == {} && nextHandle == old(nextHandle)
    {
      UpdateCarousel(true);
      StartAutoSlide();
    }

    /** A tick of the running interval: `slideNext`, which then always moves the index. */
    method Tick(t: nat)
      requires Valid() && t in liveTimers
      modifies this`currentIndex, this`renderedWidth, this`offset, this`controlsShown, this`centered
      modifies this`transitionOn, this`restoresPending
      ensures Valid()
      ensures transitionOn == old(transitionOn) && restoresPending == old(restoresPending)
      ensures renderedWidth == if IsStatic(totalItems, width) then old(renderedWidth) else width
      ensures currentIndex == NextIndex(old(currentIndex), totalItems, width)
      ensures currentIndex != old(currentIndex)
    {
      AutoSlidingIsNeverStatic(totalItems, width);
      SlideNext();
    }
  }

  /** Set-up of one container: with no items it is hidden and gets no controller. */
  method Mount(totalItems: nat, width: int) returns (w: Option<Widget>)
    ensures w.None? <==> totalItems == 0
    ensures w.Some? ==> fresh(w.value) && w.value.Valid() && w.value.totalItems == totalItems &&
                        w.value.width == width && w.value.renderedWidth == width && w.value.currentIndex == 0
  {
    if totalItems == 0 {
      return None;
    }
    var c := new Widget(totalItems, width);
    w := Some(c);
  }

  /** Seven items at width 1200: four clicks reach index 4, a fifth wraps to 0; one interval runs throughout. */
  method SevenItemsScenario() {
    var c := new Widget(7, 1200);
    assert IsStatic(7, 1200) == false && c.controlsShown && |c.liveTimers| == 1;
    c.NextClick();
    assert c.currentIndex == 1;
    c.NextClick();
    c.NextClick();
    c.NextClick();
    assert c.currentIndex == 4;
    c.NextClick();
    assert c.currentIndex == 0 && |c.liveTimers| == 1;
    c.ViewportChanged(500);
    c.Resize();
    assert !c.transitionOn && c.offset == 0.0;
  }

  /**
   * Four items at width 500, index 2; the viewport widens to 1200 and the
   * interval ticks before the resize event: the step already uses pages of
   * three, so 3 passes the maximum 1 and the index wraps to 0.
   */
  method WidenedBeforeResizeScenario() {
    var c := new Widget(4, 500);
    c.NextClick();
    c.NextClick();
    assert c.currentIndex == 2 && c.handle.Some?;
    var t := c.handle.value;
    c.ViewportChanged(1200);
    c.Tick(t);
    assert c.currentIndex == 0 && c.renderedWidth == 1200;
  }

  /**
   * Two items: never any auto-slide; from width 768 up no buttons and the
   * index stays 0, but below 768 one item fits per page and the buttons show.
   */
  method TwoItemsScenario(width: int) {
    var c := new Widget(2, width);
    if width >= MediumMinWidth {
      assert !c.controlsShown;
      c.NextClick();
      assert c.currentIndex == 0;
    } else {
      assert c.controlsShown;
      c.NextClick();
      assert c.currentIndex == 1;
    }
    assert c.liveTimers == {};
  }
}
