/**
 * The mobile hero slider: three fixed slides that a four-second timer
 * advances, previous and next arrows that wrap around, and a dot per slide.
 * The timer is modelled as an explicit `Tick` call.
 */
module HeroSlider {
  import Cyclic

  datatype Slide = Slide(title: string, subtitle: string, gradient: string)

  const Slides: seq<Slide> := [
    Slide("Find Your Dream Home", "Discover the perfect property for you", "from-amber-600 to-amber-800"),
    Slide("Luxury Living Spaces", "Premium properties at best locations", "from-slate-700 to-slate-900"),
    Slide("Smart Investments", "Make your real estate dreams come true", "from-amber-500 to-slate-800")
  ]

  class Slider {
    var currentSlide: int

    predicate Valid()
      reads this
    {
      0 <= currentSlide < |Slides|
    }

    constructor ()
      ensures Valid() && currentSlide == 0
    {
      currentSlide := 0;
    }

    /** The slide on screen. */
    function Shown(): (s: Slide)
      requires Valid()
      reads this
      ensures s in Slides && s == Slides[currentSlide]
    {
      Slides[currentSlide]
    }

    /** One tick of the interval timer: the same step as the next arrow. */
    method Tick()
      requires Valid()
      modifies this`currentSlide
      ensures Valid() && currentSlide == Cyclic.Next(old(currentSlide), |Slides|)
    {
      currentSlide := (currentSlide + 1) % |Slides|;
    }

    /** `nextSlide`. */
    method Next()
      requires Valid()
      modifies this`currentSlide
      ensures Valid() && currentSlide == Cyclic.Next(old(currentSlide), |Slides|)
    {
      currentSlide := (currentSlide + 1) % |Slides|;
    }

    /** `prevSlide`. */
    method Prev()
      requires Valid()
      modifies this`currentSlide
      ensures Valid() && currentSlide == Cyclic.Prev(old(currentSlide), |Slides|)
    {
      currentSlide := (currentSlide - 1 + |Slides|) % |Slides|;
    }

    /** Dot `index` is highlighted exactly when it is the shown slide. */
    predicate DotActive(index: int)
      reads this
    {
      currentSlide == index
    }

    /** `goToSlide`: a dot click shows that slide and makes its dot the only highlighted one. */
    method GoToSlide(index: int)
      requires 0 <= index < |Slides|
      modifies this`currentSlide
      ensures Valid() && currentSlide == index && Shown() == Slides[index]
      ensures forall j :: 0 <= j < |Slides| ==> (DotActive(j) <==> j == index)
    {
      currentSlide := index;
    }
  }

  /** A tick after a step back returns to the slide the step started from, as the next arrow would. */
  lemma TickUndoesPrev(i: int)
    requires 0 <= i < |Slides|
    ensures Cyclic.Next(Cyclic.Prev(i, |Slides|), |Slides|) == i
    ensures Cyclic.Prev(Cyclic.Next(i, |Slides|), |Slides|) == i
  {
    Cyclic.NextUndoesPrev(i, |Slides|);
    Cyclic.PrevUndoesNext(i, |Slides|);
  }
}
