/**
 * Home.tsx: the hero carousel. `currentSlide` starts at 0, every tick of the
 * five-second interval moves it to `(prev + 1) % featuredMovies.length`, and
 * an indicator click jumps straight to its slide. The slide and the
 * indicator whose index equals `currentSlide` are the active ones.
 */
module HomeCarousel {

  /** `featuredMovies.length`. */
  const FeaturedCount: nat := 3

  /** The tick's update function. */
  function NextSlide(prev: nat): (next: nat)
    ensures next < FeaturedCount
    ensures prev + 1 < FeaturedCount ==> next == prev + 1
    ensures prev + 1 == FeaturedCount ==> next == 0
  {
    (prev + 1) % FeaturedCount
  }

  /** Three ticks bring every slide back to itself. */
  lemma ThreeTicksReturn(slide: nat)
    requires slide < FeaturedCount
    ensures NextSlide(NextSlide(NextSlide(slide))) == slide
  {
  }

  /** Every slide is reached from slide 0 within two ticks, so the carousel visits them all. */
  lemma TicksVisitEverySlide(slide: nat)
    requires slide < FeaturedCount
    ensures slide == 0 || slide == NextSlide(0) || slide == NextSlide(NextSlide(0))
  {
  }

  /** `index === currentSlide`: the opacity of a slide and the colour of its indicator. */
  predicate IsActive(index: nat, currentSlide: nat)
  {
    index == currentSlide
  }

  /** For a slide in range, exactly one of the indices 0..2 is active. */
  lemma ExactlyOneActive(currentSlide: nat)
    requires currentSlide < FeaturedCount
    ensures exists i :: 0 <= i < FeaturedCount && IsActive(i, currentSlide)
    ensures forall i, j :: 0 <= i < j < FeaturedCount ==> !(IsActive(i, currentSlide) && IsActive(j, currentSlide))
  {
    assert IsActive(currentSlide, currentSlide);
  }

  class Carousel {
    var currentSlide: nat

    predicate Valid()
      reads this
    {
      currentSlide < FeaturedCount
    }

    /** `useState(0)`. */
    constructor ()
      ensures Valid() && currentSlide == 0
    {
      currentSlide := 0;
    }

    /** One firing of the interval. */
    method Tick()
      requires Valid()
      modifies this
      ensures Valid()
      ensures currentSlide == NextSlide(old(currentSlide))
    {
      currentSlide := (currentSlide + 1) % FeaturedCount;
    }

    /** A click on indicator `index`; indicators exist only for the featured slides. */
    method SelectSlide(index: nat)
      requires index < FeaturedCount
      modifies this
      ensures Valid()
      ensures currentSlide == index
    {
      currentSlide := index;
    }
  }
}
