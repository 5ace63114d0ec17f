/**
 * The testimonials panel: three fixed quotes, previous and next arrows that
 * wrap around, a dot per quote, and a row of stars as long as the shown
 * quote's rating.
 */
module Testimonials {
  import Cyclic

  datatype Testimonial = Testimonial(name: string, role: string, image: string, text: string, rating: nat)

  const Entries: seq<Testimonial> := [
    Testimonial("Srikanth Malleboina", "Owner, Hyderabad", "https://i.pravatar.cc/150?img=12",
                "You get an exclusive RM from Royal Bengal Properties team who tracks your property closely.", 5),
    Testimonial("Prateek Sengar", "Owner, Delhi", "https://i.pravatar.cc/150?img=13",
                "Royal Bengal Properties has a better response rate compared to any of their competitors.", 5),
    Testimonial("SOBHA Develt.", "Developer", "https://i.pravatar.cc/150?img=14",
                "Platform to meet customers and generate revenues with lowest CPL.", 5)
  ]

  /** Three presses of the next arrow come back to the quote they started from. */
  lemma ThreeNextsReturn(i: int)
    requires 0 <= i < |Entries|
    ensures Cyclic.Next(Cyclic.Next(Cyclic.Next(i, |Entries|), |Entries|), |Entries|) == i
  {
    Cyclic.FullTurn(i, |Entries|);
    assert Cyclic.Steps(i, 3, 3) == Cyclic.Next(Cyclic.Steps(i, 3, 2), 3);
    assert Cyclic.Steps(i, 3, 2) == Cyclic.Next(Cyclic.Steps(i, 3, 1), 3);
    assert Cyclic.Steps(i, 3, 1) == Cyclic.Next(i, 3);
  }

  class Panel {
    var currentIndex: int

    predicate Valid()
      reads this
    {
      0 <= currentIndex < |Entries|
    }

    constructor ()
      ensures Valid() && currentIndex == 0
    {
      currentIndex := 0;
    }

    /** `nextTestimonial`. */
    method Next()
      requires Valid()
      modifies this`currentIndex
      ensures Valid() && currentIndex == Cyclic.Next(old(currentIndex), |Entries|)
    {
      currentIndex := (currentIndex + 1) % |Entries|;
    }

    /** `prevTestimonial`. */
    method Prev()
      requires Valid()
      modifies this`currentIndex
      ensures Valid() && currentIndex == Cyclic.Prev(old(currentIndex), |Entries|)
    {
      currentIndex := (currentIndex - 1 + |Entries|) % |Entries|;
    }

    /** Dot `index` is the wide one exactly when it is the shown quote. */
    predicate DotActive(index: int)
      reads this
    {
      index == currentIndex
    }

    /** A click on dot `index` shows that quote and makes its dot the only wide one. */
    method ClickDot(index: int)
      requires 0 <= index < |Entries|
      modifies this`currentIndex
      ensures Valid() && currentIndex == index
      ensures forall j :: 0 <= j < |Entries| ==> (DotActive(j) <==> j == index)
    {
      currentIndex := index;
    }

    /** The keys of the star row: one star per rating point of the shown quote. */
    function Stars(): (r: seq<nat>)
      requires Valid()
      reads this
      ensures |r| == Entries[currentIndex].rating
      ensures forall i :: 0 <= i < |r| ==> r[i] == i
    {
      seq(Entries[currentIndex].rating, i requires 0 <= i => i)
    }
  }
}
