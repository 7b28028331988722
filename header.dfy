/**
 * components/landing/Header.tsx: the landing-page header hides while the
 * page scrolls down below the first 100 pixels and shows again otherwise.
 */
module Header {
  const Threshold: int := 100

  /** The visibility after a scroll to `y` from `last`. */
  predicate VisibleAfter(last: int, y: int) {
    !(y > last && y > Threshold)
  }

  /** Near the top, or whenever the page did not move down, the header
      shows; below the threshold a move down hides it. */
  lemma VisibilityRule(last: int, y: int)
    ensures y <= Threshold ==> VisibleAfter(last, y)
    ensures y <= last ==> VisibleAfter(last, y)
    ensures y > Threshold && y > last ==> !VisibleAfter(last, y)
  {
  }

  class Bar {
    var isVisible: bool
    var lastScrollY: int

    /** The header starts visible at position 0. */
    constructor ()
      ensures isVisible && lastScrollY == 0
    {
      isVisible := true;
      lastScrollY := 0;
    }

    /** `handleScroll` with the window at `y`. */
    method HandleScroll(y: int)
      modifies this
      ensures isVisible == VisibleAfter(old(lastScrollY), y)
      ensures lastScrollY == y
    {
      if y > lastScrollY && y > Threshold {
        isVisible := false;
      } else {
        isVisible := true;
      }
      lastScrollY := y;
    }
  }

  /** Scrolling down past the threshold and back to the same spot shows the
      header again. */
  method DownAndBack(b: Bar, y: int)
    requires y > Threshold && y > b.lastScrollY
    modifies b
    ensures b.isVisible && b.lastScrollY == old(b.lastScrollY)
  {
    var start := b.lastScrollY;
    b.HandleScroll(y);
    assert !b.isVisible;
    b.HandleScroll(start);
  }
}
