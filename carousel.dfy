/** The featured-cuts carousel of the home page. The track holds a clone of
    the last slide, the n real slides and a clone of the first slide;
    `currentIndex` is a position on that track. A move to a clone is followed,
    once the 500 ms transition is over, by a jump without animation to the real
    slide it copies, so the carousel appears to wrap around. Pixel positions
    are not modelled: a drag is summarised by the distance it moved. */
module Carousel {

  /** A cut as returned by /api/cortes. */
  datatype Cut = Cut(name: string, description: string, imageUrl: string)

  /** A drag must move more than this many pixels to change slide. */
  const DragThreshold: int := 50

  /** The children of the track after createSlides. */
  function Track(cuts: seq<Cut>): (track: seq<Cut>)
    requires |cuts| > 0
    ensures |track| == |cuts| + 2
    ensures track[0] == cuts[|cuts| - 1] && track[|cuts| + 1] == cuts[0]
    ensures forall i :: 0 <= i < |cuts| ==> track[i + 1] == cuts[i]
  {
    [cuts[|cuts| - 1]] + cuts + [cuts[0]]
  }

  /** The dot highlighted for a track index: the first clone stands for the
      last cut, the last clone for the first cut, real slide k for cut k - 1. */
  function LogicalIndex(index: int, n: nat): (logical: int)
    ensures n >= 1 && 0 <= index <= n + 1 ==> 0 <= logical < n
  {
    if index == 0 then n - 1
    else if index == n + 1 then 0
    else index - 1
  }

  /** The 'active' class of each of the n dots after updateDots. */
  function ActiveDots(index: int, n: nat): (dots: seq<bool>)
    ensures |dots| == n
    ensures forall i :: 0 <= i < n ==> (dots[i] <==> i == LogicalIndex(index, n))
  {
    seq(n, i => i == LogicalIndex(index, n))
  }

  function CountActive(dots: seq<bool>): nat {
    if dots == [] then 0 else (if dots[0] then 1 else 0) + CountActive(dots[1..])
  }

  lemma {:induction false} CountActiveSingle(dots: seq<bool>, k: nat)
    requires k < |dots|
    requires forall i :: 0 <= i < |dots| ==> (dots[i] <==> i == k)
    ensures CountActive(dots) == 1
  {
    if k == 0 {
      CountActiveNone(dots[1..]);
    } else {
      CountActiveSingle(dots[1..], k - 1);
    }
  }

  lemma {:induction false} CountActiveNone(dots: seq<bool>)
    requires forall i :: 0 <= i < |dots| ==> !dots[i]
    ensures CountActive(dots) == 0
  {
    if dots != [] {
      CountActiveNone(dots[1..]);
    }
  }

  /** Whatever track position the carousel is at, exactly one dot is lit. */
  lemma ExactlyOneDotActive(index: int, n: nat)
    requires n >= 1 && 0 <= index <= n + 1
    ensures CountActive(ActiveDots(index, n)) == 1
  {
    CountActiveSingle(ActiveDots(index, n), LogicalIndex(index, n));
  }

  /** The lit dot is the cut on screen: the slide at any track position is the
      cut whose dot updateDots highlights. */
  lemma DotShowsCurrentSlide(cuts: seq<Cut>, index: int)
    requires |cuts| > 0 && 0 <= index <= |cuts| + 1
    ensures Track(cuts)[index] == cuts[LogicalIndex(index, |cuts|)]
  {
  }

  /** The jump done when a transition ends: from the clone after the last
      slide to the first real slide, from the clone before the first slide to
      the last real slide, anywhere else nowhere. It lands on a real slide and
      never changes the highlighted dot. */
  function Snap(index: int, n: nat): (snapped: int)
    ensures n >= 1 && 0 <= index <= n + 1 ==> 1 <= snapped <= n
    ensures LogicalIndex(snapped, n) == LogicalIndex(index, n)
    ensures 1 <= index <= n ==> snapped == index
  {
    if index == n + 1 then 1
    else if index == 0 then n
    else index
  }

  /** The jump is invisible: the slide shown before and after it is the same
      cut. */
  lemma SnapShowsSameCut(cuts: seq<Cut>, index: int)
    requires |cuts| > 0 && 0 <= index <= |cuts| + 1
    ensures Track(cuts)[Snap(index, |cuts|)] == Track(cuts)[index]
  {
    DotShowsCurrentSlide(cuts, index);
    DotShowsCurrentSlide(cuts, Snap(index, |cuts|));
  }

  /** Where dragEnd sends the carousel: one slide forward for a drag to the
      left of more than 50 pixels, one back for a drag to the right of more
      than 50, and back to the same slide otherwise. */
  function DragTarget(index: int, movedBy: int): (target: int)
    ensures target == index <==> -DragThreshold <= movedBy <= DragThreshold
    ensures target == index + 1 <==> movedBy < -DragThreshold
    ensures target == index - 1 <==> movedBy > DragThreshold
  {
    if movedBy < -DragThreshold then index + 1
    else if movedBy > DragThreshold then index - 1
    else index
  }

  class Carousel {
    var cuts: seq<Cut>
    var slideCount: nat
    /** The children of the track element. */
    var slides: seq<Cut>
    /** The 'active' class of each dot. */
    var dots: seq<bool>
    var currentIndex: int
    var isTransitioning: bool
    var isDragging: bool

    /** The track is the clone layout of the cuts, the dots always show the
        current index, and with at least one cut the index stays on the track
        and is on a real slide whenever no transition is running. */
    ghost predicate Valid()
      reads this
    {
      && slideCount == |cuts|
      && dots == ActiveDots(currentIndex, slideCount)
      && (slideCount == 0 ==> slides == [])
      && (slideCount > 0 ==>
            && slides == Track(cuts)
            && 0 <= currentIndex <= slideCount + 1
            && (!isTransitioning ==> 1 <= currentIndex <= slideCount))
    }

    /** The constructor, before the response of /api/cortes arrives: no
        cuts yet and the index on the first real slide. The event listeners
        are installed at once, so every handler below may run before
        ReceiveCuts. */
    constructor ()
      ensures Valid()
      ensures cuts == [] && slideCount == 0 && slides == [] && dots == []
      ensures currentIndex == 1 && !isTransitioning && !isDragging
    {
      cuts := [];
      slideCount := 0;
      slides := [];
      dots := [];
      currentIndex := 1;
      isTransitioning := false;
      isDragging := false;
    }

    /** The response of /api/cortes (a failed request leaves the carousel as
        an empty list of cuts does). The index is not reset, so the state is
        valid again exactly when the index that the handlers left behind
        lies on the new track, and on a real slide unless a transition is
        still running. */
    method ReceiveCuts(fetched: seq<Cut>)
      requires Valid() && slideCount == 0
      modifies this`cuts, this`slideCount, this`slides, this`dots
      ensures cuts == fetched && slideCount == |fetched|
      ensures currentIndex == old(currentIndex)
      ensures isTransitioning == old(isTransitioning) && isDragging == old(isDragging)
      ensures fetched == [] ==> slides == [] && dots == []
      ensures fetched != [] ==> slides == Track(fetched) && dots == ActiveDots(currentIndex, |fetched|)
      ensures Valid() <==> (fetched == [] || (0 <= currentIndex <= |fetched| + 1
                              && (!isTransitioning ==> 1 <= currentIndex <= |fetched|)))
    {
      cuts := fetched;
      slideCount := |fetched|;
      if slideCount == 0 {
        return;
      }
      CreateSlides();
      CreateDots();
      UpdateDots();
    }

    method CreateSlides()
      requires slideCount == |cuts| > 0
      modifies this`slides
      ensures slides == Track(cuts)
    {
      slides := [cuts[slideCount - 1]] + cuts + [cuts[0]];
    }

    /** One dot per cut, none of them active yet. */
    method CreateDots()
      modifies this`dots
      ensures dots == seq(slideCount, _ => false)
    {
      dots := [];
      var i := 0;
      while i < slideCount
        invariant 0 <= i <= slideCount
        invariant dots == seq(i, _ => false)
      {
        dots := dots + [false];
        i := i + 1;
      }
    }

    method UpdateDots()
      requires |dots| == slideCount
      modifies this`dots
      ensures dots == ActiveDots(currentIndex, slideCount)
    {
      var logicalIndex := currentIndex - 1;
      if currentIndex == 0 {
        logicalIndex := slideCount - 1;
      } else if currentIndex == slideCount + 1 {
        logicalIndex := 0;
      }
      var i := 0;
      while i < |dots|
        invariant |dots| == slideCount && 0 <= i <= |dots|
        invariant forall j :: 0 <= j < i ==> (dots[j] <==> j == logicalIndex)
      {
        dots := dots[i := i == logicalIndex];
        i := i + 1;
      }
    }

    /** goToSlide. Nothing happens during a transition. Going to the current
        index while not dragging only re-positions the track. Otherwise a
        transition to `index` starts; FinishTransition ends it. The callers
        only ever pass an index on the track when the move takes effect. */
    method GoToSlide(index: int)
      requires Valid()
      requires slideCount > 0 && !isTransitioning ==> 0 <= index <= slideCount + 1
      modifies this`currentIndex, this`isTransitioning, this`dots
      ensures Valid() && isDragging == old(isDragging)
      ensures old(isTransitioning) ==> currentIndex == old(currentIndex) && isTransitioning
      ensures !old(isTransitioning) && !isDragging && index == old(currentIndex) ==>
                currentIndex == index && !isTransitioning
      ensures !old(isTransitioning) && (isDragging || index != old(currentIndex)) ==>
                currentIndex == index && isTransitioning
    {
      if isTransitioning {
        return;
      }
      if !isDragging && index == currentIndex {
        return;
      }
      isTransitioning := true;
      currentIndex := index;
      UpdateDots();
    }

    /** The callback of the 500 ms timeout that goToSlide schedules; it is
        pending exactly while a transition runs. */
    method FinishTransition()
      requires Valid() && isTransitioning
      modifies this`currentIndex, this`isTransitioning
      ensures Valid() && !isTransitioning && isDragging == old(isDragging)
      ensures currentIndex == Snap(old(currentIndex), slideCount)
    {
      var atLastClone := currentIndex == slideCount + 1;
      var atFirstClone := currentIndex == 0;
      if atLastClone || atFirstClone {
        currentIndex := if atLastClone then 1 else slideCount;
      }
      isTransitioning := false;
    }

    /** nextSlide, run by the 5 s interval. */
    method NextSlide()
      requires Valid()
      modifies this`currentIndex, this`isTransitioning, this`dots
      ensures Valid() && isDragging == old(isDragging)
      ensures !old(isTransitioning) ==> currentIndex == old(currentIndex) + 1 && isTransitioning
      ensures old(isTransitioning) ==> currentIndex == old(currentIndex) && isTransitioning
    {
      GoToSlide(currentIndex + 1);
    }

    /** The click handler of dot i. */
    method ClickDot(i: nat)
      requires Valid() && i < slideCount
      modifies this`currentIndex, this`isTransitioning, this`dots
      ensures Valid() && isDragging == old(isDragging)
      ensures !old(isTransitioning) && (isDragging || i + 1 != old(currentIndex)) ==>
                currentIndex == i + 1 && isTransitioning
      ensures old(isTransitioning) || (!isDragging && i + 1 == old(currentIndex)) ==>
                currentIndex == old(currentIndex) && isTransitioning == old(isTransitioning)
    {
      GoToSlide(i + 1);
    }

    /** mousedown / touchstart: refused during a transition. */
    method DragStart()
      requires Valid()
      modifies this`isDragging
      ensures Valid()
      ensures isDragging == (old(isDragging) || !isTransitioning)
    {
      if isTransitioning {
        return;
      }
      isDragging := true;
    }

    /** mouseup / mouseleave / touchend, with the horizontal distance the
        mouse or finger moved since the drag started. */
    method DragEnd(movedBy: int)
      requires Valid()
      modifies this`isDragging, this`currentIndex, this`isTransitioning, this`dots
      ensures Valid()
      ensures !old(isDragging) ==>
                !isDragging && currentIndex == old(currentIndex) && isTransitioning == old(isTransitioning)
      ensures old(isDragging) && old(isTransitioning) ==>
                !isDragging && currentIndex == old(currentIndex) && isTransitioning
      ensures old(isDragging) && !old(isTransitioning) ==>
                && !isDragging
                && currentIndex == DragTarget(old(currentIndex), movedBy)
                && isTransitioning == (currentIndex != old(currentIndex))
    {
      if !isDragging {
        return;
      }
      isDragging := false;
      GoToSlide(DragTarget(currentIndex, movedBy));
    }
  }

  /** A swipe to the left before the cuts arrive moves the index to 2 and,
      with no track yet, the end of its transition cannot snap it back. When
      a single cut then arrives, the carousel rests on the clone after the
      last slide with no transition pending, outside the valid states. */
  method EarlySwipeLeavesTrack(cut: Cut) returns (c: Carousel)
    ensures c.slideCount == 1 && c.currentIndex == c.slideCount + 1
    ensures !c.isTransitioning && !c.Valid()
  {
    c := new Carousel();
    c.DragStart();
    c.DragEnd(-DragThreshold - 1);
    c.FinishTransition();
    c.ReceiveCuts([cut]);
  }

  /** A full turn: from the last real slide, the interval moves onto the clone
      of the first cut, and when the transition ends the carousel stands on
      the first real slide, with its dot lit all along. */
  method WrapAround(c: Carousel)
    requires c.Valid() && c.slideCount >= 1
    requires !c.isTransitioning && c.currentIndex == c.slideCount
    modifies c
    ensures c.Valid() && c.currentIndex == 1 && !c.isTransitioning
  {
    c.NextSlide();
    assert c.currentIndex == c.slideCount + 1;
    assert c.dots == ActiveDots(c.slideCount + 1, c.slideCount);
    c.FinishTransition();
  }
}
