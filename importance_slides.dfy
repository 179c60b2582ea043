/**
 * The slide navigator of the importance page,
 * scripts/pages/importance-slides.js: a counter over slides 1..5 moved by
 * buttons and keys, and the button state that follows it.
 */
module ImportanceSlideShow {

  /** The keys the two keydown listeners look at; every other key is `OtherKey`. */
  datatype Key = ArrowLeft | ArrowUp | ArrowRight | ArrowDown | Space | Home | End | OtherKey

  /** goToSlide on the number alone: numbers outside 1..total are ignored. */
  function GoTo(current: int, target: int, total: int): (r: int)
    ensures 1 <= target <= total ==> r == target
    ensures target < 1 || target > total ==> r == current
  {
    if target < 1 || target > total then current else target
  }

  /** nextSlide: one slide on, except on the last. */
  function Next(current: int, total: int): (r: int)
    requires 1 <= current <= total
    ensures 1 <= r <= total
    ensures current < total ==> r == current + 1
    ensures current == total ==> r == current
  {
    if current < total then GoTo(current, current + 1, total) else current
  }

  /** previousSlide: one slide back, except on the first. */
  function Previous(current: int, total: int): (r: int)
    requires 1 <= current <= total
    ensures 1 <= r <= total
    ensures current > 1 ==> r == current - 1
    ensures current == 1 ==> r == current
  {
    if current > 1 then GoTo(current, current - 1, total) else current
  }

  /** Back after forward returns to the slide, unless it was the last. */
  lemma PreviousUndoesNext(current: int, total: int)
    requires 1 <= current < total
    ensures Previous(Next(current, total), total) == current
    ensures Next(Previous(current + 1, total), total) == current + 1
  {
  }

  /** The slide after the listener registered by setupEventListeners has seen `key`. */
  function FirstListener(current: int, key: Key, total: int): (r: int)
    requires 1 <= current <= total
    ensures 1 <= r <= total
  {
    match key
    case ArrowLeft => Previous(current, total)
    case ArrowRight => Next(current, total)
    case _ => current
  }

  /** The slide after the listener of setupKeyboardNavigation, which ignores keys typed in a text field. */
  function SecondListener(current: int, key: Key, inTextField: bool, total: int): (r: int)
    requires 1 <= current <= total
    ensures 1 <= r <= total
  {
    if inTextField then current
    else
      match key
      case ArrowLeft | ArrowUp => Previous(current, total)
      case ArrowRight | ArrowDown | Space => Next(current, total)
      case Home => GoTo(current, 1, total)
      case End => GoTo(current, total, total)
      case OtherKey => current
  }

  /** One keydown: both listeners run, in the order they were registered. */
  function KeyDown(current: int, key: Key, inTextField: bool, total: int): (r: int)
    requires 1 <= current <= total
    ensures 1 <= r <= total
  {
    SecondListener(FirstListener(current, key, total), key, inTextField, total)
  }

  /**
   * A left or right arrow moves by two slides, clamped at the ends, since
   * both listeners handle it; in a text field it still moves by one.
   */
  lemma ArrowsMoveTwice(current: int, inTextField: bool, total: int)
    requires 1 <= current <= total
    ensures !inTextField ==> KeyDown(current, ArrowRight, false, total) == (if current + 2 <= total then current + 2 else total)
    ensures !inTextField ==> KeyDown(current, ArrowLeft, false, total) == (if current - 2 >= 1 then current - 2 else 1)
    ensures KeyDown(current, ArrowRight, true, total) == (if current < total then current + 1 else total)
    ensures KeyDown(current, ArrowLeft, true, total) == (if current > 1 then current - 1 else 1)
  {
  }

  /** The other keys move at most one slide, Home and End go to the ends, and in a text field nothing else happens. */
  lemma OtherKeysMoveOnce(current: int, total: int)
    requires 1 <= current <= total
    ensures KeyDown(current, ArrowDown, false, total) == Next(current, total)
    ensures KeyDown(current, Space, false, total) == Next(current, total)
    ensures KeyDown(current, ArrowUp, false, total) == Previous(current, total)
    ensures KeyDown(current, Home, false, total) == 1
    ensures KeyDown(current, End, false, total) == total
    ensures forall k :: k !in {ArrowLeft, ArrowRight} ==> KeyDown(current, k, true, total) == current
    ensures KeyDown(current, OtherKey, false, total) == current
  {
  }

  /** The slide count of the page. */
  const TotalSlides := 5

  /** An ImportanceSlides object with its three buttons present. */
  class ImportanceSlides {
    var currentSlide: int
    const totalSlides: int
    /** `prevBtn.disabled`. */
    var prevDisabled: bool
    /** Whether the next button, and not the final one, is displayed. */
    var nextShown: bool
    var finalShown: bool
    /** The slide numbers whose element carries the 'active' class. */
    var activeSlides: set<int>

    /** The counter stays in range and the buttons follow it. */
    predicate Valid()
      reads this
    {
      totalSlides == TotalSlides && 1 <= currentSlide <= totalSlides &&
      prevDisabled == (currentSlide == 1) &&
      nextShown == (currentSlide != totalSlides) && finalShown == (currentSlide == totalSlides)
    }

    /** The navigator on slide 1 of 5, with the page's active marks as they were. */
    constructor(activeAtLoad: set<int>)
      ensures Valid() && currentSlide == 1 && activeSlides == activeAtLoad
    {
      currentSlide := 1;
      totalSlides := TotalSlides;
      activeSlides := activeAtLoad;
      prevDisabled := true;
      nextShown := true;
      finalShown := false;
    }

    /** updateUI: the buttons are set from the slide number. */
    method UpdateUI()
      modifies this
      ensures prevDisabled == (currentSlide == 1)
      ensures nextShown == (currentSlide != totalSlides) && finalShown == (currentSlide == totalSlides)
      ensures currentSlide == old(currentSlide) && activeSlides == old(activeSlides)
    {
      prevDisabled := currentSlide == 1;
      if currentSlide == totalSlides {
        nextShown := false;
        finalShown := true;
      } else {
        nextShown := true;
        finalShown := false;
      }
    }

    /**
     * goToSlide: outside 1..total nothing happens; otherwise the active
     * mark moves from the current slide to the new one.
     */
    method GoToSlide(slideNumber: int)
      requires Valid()
      modifies this
      ensures Valid()
      ensures currentSlide == GoTo(old(currentSlide), slideNumber, totalSlides)
      ensures slideNumber < 1 || slideNumber > totalSlides ==> activeSlides == old(activeSlides)
      ensures 1 <= slideNumber <= totalSlides ==> activeSlides == old(activeSlides) - {old(currentSlide)} + {slideNumber}
    {
      if slideNumber < 1 || slideNumber > totalSlides {
        return;
      }
      activeSlides := activeSlides - {currentSlide};
      activeSlides := activeSlides + {slideNumber};
      currentSlide := slideNumber;
      UpdateUI();
    }

    method NextSlide()
      requires Valid()
      modifies this
      ensures Valid()
      ensures currentSlide == Next(old(currentSlide), totalSlides)
      ensures activeSlides == if old(currentSlide) < totalSlides then old(activeSlides) - {old(currentSlide)} + {currentSlide} else old(activeSlides)
    {
      if currentSlide < totalSlides {
        GoToSlide(currentSlide + 1);
      }
    }

    method PreviousSlide()
      requires Valid()
      modifies this
      ensures Valid()
      ensures currentSlide == Previous(old(currentSlide), totalSlides)
      ensures activeSlides == if old(currentSlide) > 1 then old(activeSlides) - {old(currentSlide)} + {currentSlide} else old(activeSlides)
    {
      if currentSlide > 1 {
        GoToSlide(currentSlide - 1);
      }
    }

    /** A keydown on the page, as both listeners handle it in turn. */
    method OnKeyDown(key: Key, inTextField: bool)
      requires Valid()
      modifies this
      ensures Valid()
      ensures currentSlide == KeyDown(old(currentSlide), key, inTextField, totalSlides)
      ensures old(activeSlides) == {old(currentSlide)} ==> activeSlides == {currentSlide}
    {
      ghost var marked := activeSlides == {currentSlide};
      match key {
        case ArrowLeft => PreviousSlide();
        case ArrowRight => NextSlide();
        case _ =>
      }
      assert marked ==> activeSlides == {currentSlide};
      if inTextField {
        return;
      }
      match key {
        case ArrowLeft => PreviousSlide();
        case ArrowUp => PreviousSlide();
        case ArrowRight => NextSlide();
        case ArrowDown => NextSlide();
        case Space => NextSlide();
        case Home => GoToSlide(1);
        case End => GoToSlide(totalSlides);
        case OtherKey =>
      }
    }

    function GetCurrentSlide(): (n: int)
      reads this
      requires Valid()
      ensures 1 <= n <= TotalSlides && n == currentSlide
    {
      currentSlide
    }

    /** isFirstSlide: exactly the slide on which previousSlide stays put. */
    predicate IsFirstSlide(): (b: bool)
      reads this
      ensures Valid() ==> (b <==> Previous(currentSlide, totalSlides) == currentSlide)
    {
      currentSlide == 1
    }

    /** isLastSlide: exactly the slide on which nextSlide stays put. */
    predicate IsLastSlide(): (b: bool)
      reads this
      ensures Valid() ==> (b <==> Next(currentSlide, totalSlides) == currentSlide)
    {
      currentSlide == totalSlides
    }

    /** The previous button is disabled exactly on the first slide and the final button shown exactly on the last. */
    lemma ButtonsFollowSlide()
      requires Valid()
      ensures prevDisabled <==> IsFirstSlide()
      ensures finalShown <==> IsLastSlide()
      ensures nextShown <==> !IsLastSlide()
    {
    }
  }
}
