/**
 * The highlighted-projects carousel: how many cards a viewport shows, the
 * previous and next arrows that slide a window of `k` cards over `n`
 * properties, and the page indicators under it.
 *
 * The window's first card is `currentSlide`; with `n >= k` it ranges over the
 * `n - k + 1` positions `0 .. n - k`, and the arrows step through those
 * positions cyclically.
 */
module TopHighlighted {
  import Cyclic

  /** The browser window, when there is one: `typeof window === 'undefined'` or its `innerWidth`. */
  datatype Viewport = NoWindow | Window(innerWidth: int)

  /** `getSlidesToShow`: one card on narrow screens, two below 1024 pixels, three otherwise or without a window. */
  function SlidesToShow(v: Viewport): (k: int)
    ensures 1 <= k <= 3
    ensures k == 1 <==> v.Window? && v.innerWidth < 640
    ensures k == 2 <==> v.Window? && 640 <= v.innerWidth < 1024
    ensures k == 3 <==> v.NoWindow? || v.innerWidth >= 1024
  {
    match v
    case NoWindow => 3
    case Window(width) =>
      if width < 640 then 1
      else if width < 1024 then 2
      else 3
  }

  /** A wider window never shows fewer cards. */
  lemma WiderShowsNoFewer(w1: int, w2: int)
    requires w1 <= w2
    ensures SlidesToShow(Window(w1)) <= SlidesToShow(Window(w2))
    ensures SlidesToShow(Window(w2)) <= SlidesToShow(NoWindow)
  {
  }

  /** `nextSlide`: from the last window position (or beyond it) back to the first, otherwise one card on. */
  function NextSlide(prev: int, n: int, k: int): (r: int)
    ensures prev >= n - k ==> r == 0
    ensures k <= n && 0 <= prev <= n - k ==> 0 <= r <= n - k && r == Cyclic.Next(prev, n - k + 1)
  {
    if prev >= n - k then 0 else prev + 1
  }

  /** `prevSlide`: from the first position (or before it) round to the last window position, otherwise one card back. */
  function PrevSlide(prev: int, n: int, k: int): (r: int)
    ensures prev <= 0 ==> r == n - k
    ensures k <= n && 0 <= prev <= n - k ==> 0 <= r <= n - k && r == Cyclic.Prev(prev, n - k + 1)
  {
    if prev <= 0 then n - k else prev - 1
  }

  /** Within the window range the arrows undo each other. */
  lemma ArrowsUndoEachOther(i: int, n: int, k: int)
    requires k <= n && 0 <= i <= n - k
    ensures PrevSlide(NextSlide(i, n, k), n, k) == i
    ensures NextSlide(PrevSlide(i, n, k), n, k) == i
  {
    Cyclic.PrevUndoesNext(i, n - k + 1);
    Cyclic.NextUndoesPrev(i, n - k + 1);
  }

  /** `n - k + 1` presses of the next arrow visit every window position once and come back. */
  lemma NextFullTurn(i: int, n: int, k: int)
    requires k <= n && 0 <= i <= n - k
    ensures Cyclic.Steps(i, n - k + 1, n - k + 1) == i
  {
    Cyclic.FullTurn(i, n - k + 1);
  }

  /** With fewer properties than cards, the previous arrow from the start moves to the negative position `n - k`. */
  lemma FewerThanShownGoesNegative(n: int, k: int)
    requires 0 <= n < k
    ensures PrevSlide(0, n, k) == n - k < 0
    ensures NextSlide(0, n, k) == 0
  {
  }

  /** `Math.ceil(n / k)` indicators: the fewest pages of `k` cards that hold all `n`. */
  function IndicatorCount(n: nat, k: int): (r: nat)
    requires k >= 1
    ensures (r - 1) * k < n <= r * k
  {
    var q := (n + k - 1) / k;
    assert q * k <= n + k - 1 < q * k + k;
    q
  }

  /** The indicator lit for a slide, `Math.floor(currentSlide / k)`: the page whose cards include it. */
  function ActiveIndicator(currentSlide: int, k: int): (i: int)
    requires k >= 1
    ensures i * k <= currentSlide < (i + 1) * k
  {
    currentSlide / k
  }

  /** Indicator `idx` jumps to slide `idx * k`. */
  function IndicatorTarget(idx: int, k: int): (s: int)
    requires k >= 1
    ensures ActiveIndicator(s, k) == idx
  {
    var s := idx * k;
    assert s == k * idx;
    s
  }

  /** Scaling by a non-negative factor keeps the order. */
  lemma ScaleMonotone(a: int, b: int, k: int)
    requires a <= b && k >= 0
    ensures a * k <= b * k
  {
    assert b * k - a * k == (b - a) * k;
  }

  /** Every indicator jumps to a slide that exists. */
  lemma IndicatorTargetExists(n: nat, k: int, idx: int)
    requires k >= 1 && 0 <= idx < IndicatorCount(n, k)
    ensures 0 <= IndicatorTarget(idx, k) < n
  {
    var c := IndicatorCount(n, k);
    ScaleMonotone(idx, c - 1, k);
    ScaleMonotone(0, idx, k);
  }

  /** For each existing slide the lit indicator is one of the `ceil(n / k)` shown. */
  lemma ActiveIndicatorShown(n: nat, k: int, current: int)
    requires k >= 1 && 0 <= current < n
    ensures 0 <= ActiveIndicator(current, k) < IndicatorCount(n, k)
  {
    var c := IndicatorCount(n, k);
    var a := ActiveIndicator(current, k);
    if a >= c {
      ScaleMonotone(c, a, k);
    }
    if a < 0 {
      ScaleMonotone(a + 1, 0, k);
    }
  }

  /** When `k` does not divide `n`, the last indicator starts the window past `n - k`: five cards shown two at a time. */
  lemma LastIndicatorPassesWindowRange()
    ensures IndicatorCount(5, 2) == 3 && IndicatorTarget(2, 2) == 4 > 5 - 2
  {
  }

  /** The carousel over `count` fetched properties. */
  class Carousel {
    const count: nat
    var slidesToShow: int
    var currentSlide: int

    /** The window starts at a position that leaves `slidesToShow` cards to show. */
    predicate InWindowRange()
      reads this
    {
      0 <= currentSlide <= count - slidesToShow
    }

    constructor (n: nat, v: Viewport)
      ensures count == n && slidesToShow == SlidesToShow(v) && currentSlide == 0
      ensures n >= slidesToShow ==> InWindowRange()
    {
      count := n;
      slidesToShow := SlidesToShow(v);
      currentSlide := 0;
    }

    /** A resize recomputes the card count and leaves the position as it is. */
    method Resize(v: Viewport)
      modifies this`slidesToShow
      ensures slidesToShow == SlidesToShow(v)
    {
      slidesToShow := SlidesToShow(v);
    }

    method Next()
      modifies this`currentSlide
      ensures currentSlide == NextSlide(old(currentSlide), count, slidesToShow)
      ensures old(InWindowRange()) ==> InWindowRange()
    {
      currentSlide := NextSlide(currentSlide, count, slidesToShow);
    }

    method Prev()
      modifies this`currentSlide
      ensures currentSlide == PrevSlide(old(currentSlide), count, slidesToShow)
      ensures old(InWindowRange()) ==> InWindowRange()
    {
      currentSlide := PrevSlide(currentSlide, count, slidesToShow);
    }

    /** A click on indicator `idx` moves the window to that page and lights that indicator. */
    method ClickIndicator(idx: int)
      requires slidesToShow >= 1 && 0 <= idx < IndicatorCount(count, slidesToShow)
      modifies this`currentSlide
      ensures currentSlide == IndicatorTarget(idx, slidesToShow)
      ensures ActiveIndicator(currentSlide, slidesToShow) == idx && 0 <= currentSlide < count
    {
      currentSlide := IndicatorTarget(idx, slidesToShow);
      IndicatorTargetExists(count, slidesToShow, idx);
    }
  }
}
