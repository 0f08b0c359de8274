/**
 * The home page carousel (`HeroSection`): three slides, the index of the
 * one shown, and the arrows, dots and five-second timer that move it.
 */
module HeroSection {
  import opened Js

  /** `slides.length` */
  const SlideCount := 3

  /** `(prev + 1) % slides.length`, with JavaScript's remainder. */
  function NextIndex(i: int): (r: int)
    ensures -1 <= i ==> 0 <= r < SlideCount
    ensures 0 <= i < SlideCount - 1 ==> r == i + 1
    ensures i == SlideCount - 1 ==> r == 0
  {
    JsRem(i + 1, SlideCount)
  }

  /** `(prev - 1 + slides.length) % slides.length`, with JavaScript's remainder. */
  function PrevIndex(i: int): (r: int)
    ensures 1 - SlideCount <= i ==> 0 <= r < SlideCount
    ensures 0 < i < SlideCount ==> r == i - 1
    ensures i == 0 ==> r == SlideCount - 1
  {
    JsRem(i - 1 + SlideCount, SlideCount)
  }

  /** Going back undoes going forward, and the other way round. */
  lemma PrevNextInverse(i: int)
    requires 0 <= i < SlideCount
    ensures PrevIndex(NextIndex(i)) == i
    ensures NextIndex(PrevIndex(i)) == i
  {
  }

  /** Three steps forward come back to the same slide. */
  lemma ThreeNextsIdentity(i: int)
    requires 0 <= i < SlideCount
    ensures NextIndex(NextIndex(NextIndex(i))) == i
  {
  }

  /** The horizontal offset of slide `index`, in percent: `(index - currentSlide) * 100`. */
  function Offset(index: int, current: int): int {
    (index - current) * 100
  }

  /** The class a slide gets: `translate-x-0` for the current one. */
  function SlideClass(index: int, current: int): (c: string)
    ensures c == "translate-x-0" <==> index == current
  {
    if index == current then "translate-x-0" else "translate-x-full"
  }

  /**
   * Exactly one slide is current: for an index in range, only the slide
   * at that index sits at offset 0 and has the `translate-x-0` class.
   */
  lemma OneCurrentSlide(current: int)
    requires 0 <= current < SlideCount
    ensures forall index :: 0 <= index < SlideCount ==>
      (Offset(index, current) == 0 <==> index == current)
      && (SlideClass(index, current) == "translate-x-0" <==> index == current)
    ensures exists index :: 0 <= index < SlideCount && Offset(index, current) == 0
  {
    assert Offset(current, current) == 0;
  }

  class Carousel {
    var currentSlide: int

    /** The shown slide is always one of the three. */
    predicate Valid()
      reads this
    {
      0 <= currentSlide < SlideCount
    }

    /** The carousel starts at the first slide. */
    constructor ()
      ensures currentSlide == 0 && Valid()
    {
      currentSlide := 0;
    }

    /** The right arrow. */
    method NextSlide()
      requires Valid()
      modifies this
      ensures currentSlide == NextIndex(old(currentSlide)) && Valid()
    {
      currentSlide := NextIndex(currentSlide);
    }

    /** The five-second timer: the same step as the right arrow. */
    method Tick()
      requires Valid()
      modifies this
      ensures currentSlide == NextIndex(old(currentSlide)) && Valid()
    {
      NextSlide();
    }

    /** The left arrow. */
    method PrevSlide()
      requires Valid()
      modifies this
      ensures currentSlide == PrevIndex(old(currentSlide)) && Valid()
    {
      currentSlide := PrevIndex(currentSlide);
    }

    /** A dot: there is one per slide, and each selects its own slide. */
    method SelectDot(index: int)
      requires 0 <= index < SlideCount
      modifies this
      ensures currentSlide == index && Valid()
    {
      currentSlide := index;
    }
  }
}
