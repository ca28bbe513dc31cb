/**
 * The testimonial carousel of the clinic site: a fixed list of reviews, a
 * current index moved one step at a time by two arrow buttons, and a visible
 * window whose size follows the viewport width.
 */
module Testimonials {
  import opened Wrappers

  // ---------------------------------------------------------------------
  // Data
  // ---------------------------------------------------------------------

  /** One review. The image URL and the free text are display data and are not modelled. */
  datatype Testimonial = Testimonial(name: string, condition: string, rating: nat)

  /** The reviews in rotation order. */
  function AllTestimonials(): (ts: seq<Testimonial>)
    ensures |ts| == 5
    ensures forall i :: 0 <= i < |ts| ==> 1 <= ts[i].rating <= 5
  {
    [ Testimonial("John Davis", "Misaligned teeth (malocclusion)", 5),
      Testimonial("Emma Wilson", "Impacted tooth (angimes)", 5),
      Testimonial("Michael Chen", "Dental Implants", 5),
      Testimonial("Lisa Anderson", "Teeth Whitening", 5),
      Testimonial("Robert Martinez", "Root Canal Treatment", 5) ]
  }

  // ---------------------------------------------------------------------
  // Items per page
  // ---------------------------------------------------------------------

  const MobileBreakpoint := 768
  const DesktopBreakpoint := 1024

  /**
   * Number of cards shown side by side for a viewport of the given width;
   * `None` is the case where no window exists (server-side rendering).
   */
  function ItemsPerPage(width: Option<int>): (k: nat)
    ensures 1 <= k <= 3
    ensures width.None? ==> k == 3
    ensures width.Some? ==> (k == 1 <==> width.value < MobileBreakpoint)
    ensures width.Some? ==> (k == 2 <==> MobileBreakpoint <= width.value < DesktopBreakpoint)
    ensures width.Some? ==> (k == 3 <==> DesktopBreakpoint <= width.value)
  {
    match width
    case Some(w) =>
      if w < MobileBreakpoint then 1
      else if w < DesktopBreakpoint then 2
      else 3
    case None => 3
  }

  /** A wider viewport never shows fewer cards. */
  lemma ItemsPerPageMonotone(narrow: int, wide: int)
    requires narrow <= wide
    ensures ItemsPerPage(Some(narrow)) <= ItemsPerPage(Some(wide))
  {
  }

  // ---------------------------------------------------------------------
  // Pagination
  // ---------------------------------------------------------------------

  /**
   * JavaScript's `%` operator on integers: division truncates toward zero,
   * so the remainder has the sign of the dividend.
   */
  function JsRem(a: int, n: int): (r: int)
    requires n > 0
    ensures 0 <= a ==> 0 <= r < n
    ensures a < 0 ==> -n < r <= 0
    ensures (a - r) % n == 0
  {
    if 0 <= a then
      ModByQuotient(a - a % n, n, a / n);
      a % n
    else
      ModByQuotient(a + (-a) % n, n, -((-a) / n));
      -((-a) % n)
  }

  /**
   * The index `paginate(step)` moves to from `index` over a list of `n`
   * items; from a valid index, every step of at least `-n` lands on one.
   */
  function Paginated(index: int, step: int, n: nat): (r: int)
    requires n > 0
    ensures 0 <= index < n && 0 <= step + n ==> 0 <= r < n
  {
    JsRem(index + step + n, n)
  }

  /**
   * On a non-negative dividend, JavaScript's `%` and Dafny's agree; the window
   * and its keys below divide only non-negative values.
   */
  lemma JsRemOfNonNegative(a: int, n: int)
    requires n > 0 && 0 <= a
    ensures JsRem(a, n) == a % n
  {
  }

  /** A multiple of a positive `n` strictly between `-n` and `n` is zero. */
  lemma ZeroMultiple(d: int, n: int)
    requires n > 0 && -n < d * n < n
    ensures d == 0
  {
  }

  /** When `q * n <= a < q * n + n`, the remainder of `a` is `a - q * n`. */
  lemma ModByQuotient(a: int, n: int, q: int)
    requires n > 0 && q * n <= a < q * n + n
    ensures a % n == a - q * n
  {
    var q', r' := a / n, a % n;
    assert a == q' * n + r';
    assert (q - q') * n == q * n - q' * n;
    ZeroMultiple(q - q', n);
  }

  /** Between `n` and `2 * n`, the remainder subtracts `n` once; at `2 * n` it is `0`. */
  lemma ModOnce(a: int, n: int)
    requires 0 < n <= a <= 2 * n
    ensures a % n == if a == 2 * n then 0 else a - n
  {
    if a == 2 * n {
      ModByQuotient(a, n, 2);
    } else {
      ModByQuotient(a, n, 1);
    }
  }

  /** Below `n`, the remainder leaves a non-negative value unchanged. */
  lemma ModSmall(a: int, n: int)
    requires n > 0
    ensures 0 <= a < n ==> a % n == a
  {
    if 0 <= a < n {
      ModByQuotient(a, n, 0);
    }
  }

  /** The "next" button: one forward, wrapping from the last item to the first. */
  lemma NextStep(index: int, n: nat)
    requires 0 <= index < n
    ensures Paginated(index, 1, n) == if index == n - 1 then 0 else index + 1
  {
    ModOnce(index + 1 + n, n);
  }

  /** The "previous" button: one back, wrapping from the first item to the last. */
  lemma PreviousStep(index: int, n: nat)
    requires 0 <= index < n
    ensures Paginated(index, -1, n) == if index == 0 then n - 1 else index - 1
  {
    if index == 0 {
      ModSmall(n - 1, n);
    } else {
      ModOnce(index - 1 + n, n);
    }
  }

  /** Stepping one way and then the other restores the index. */
  lemma PaginateInverse(index: int, step: int, n: nat)
    requires 0 <= index < n
    requires step == 1 || step == -1
    ensures Paginated(Paginated(index, step, n), -step, n) == index
  {
    var next := Paginated(index, step, n);
    if step == 1 {
      NextStep(index, n);
      PreviousStep(next, n);
    } else {
      PreviousStep(index, n);
      NextStep(next, n);
    }
  }

  /** The index after `k` clicks on "next". */
  function Advance(index: int, k: nat, n: nat): (r: int)
    requires 0 <= index < n
    ensures 0 <= r < n
  {
    if k == 0 then index else Paginated(Advance(index, k - 1, n), 1, n)
  }

  /** Up to one full turn, `k` clicks on "next" add `k` to the index modulo `n`. */
  lemma {:induction false} AdvanceShift(index: int, k: nat, n: nat)
    requires 0 <= index < n && k <= n
    ensures Advance(index, k, n) == if index + k < n then index + k else index + k - n
  {
    if k > 0 {
      AdvanceShift(index, k - 1, n);
      NextStep(Advance(index, k - 1, n), n);
    }
  }

  /** `n` clicks on "next" bring the carousel back to where it started. */
  lemma AdvanceFullCycle(index: int, n: nat)
    requires 0 <= index < n
    ensures Advance(index, n, n) == index
  {
    AdvanceShift(index, n, n);
  }

  /** Clicking "next" `a` times and then `b` times is clicking it `a + b` times. */
  lemma {:induction false} AdvanceCompose(index: int, a: nat, b: nat, n: nat)
    requires 0 <= index < n
    ensures Advance(Advance(index, a, n), b, n) == Advance(index, a + b, n)
  {
    if b > 0 {
      AdvanceCompose(index, a, b - 1, n);
    }
  }

  /** The positions reached by clicking "next" repeat with period `n`. */
  lemma AdvancePeriodic(index: int, k: nat, n: nat)
    requires 0 <= index < n
    ensures Advance(index, k + n, n) == Advance(index, k, n)
  {
    AdvanceCompose(index, k, n, n);
    AdvanceFullCycle(Advance(index, k, n), n);
  }

  // ---------------------------------------------------------------------
  // Visible window
  // ---------------------------------------------------------------------

  /**
   * The `count` items starting at `start`, wrapping around the end of the
   * list: every one comes from the list, and the first is the item at `start`.
   */
  function Window<T>(items: seq<T>, start: nat, count: nat): (w: seq<T>)
    requires |items| > 0
    ensures |w| == count
    ensures forall i :: 0 <= i < count ==> w[i] in items
    ensures 0 < count && start < |items| ==> w[0] == items[start]
  {
    ModSmall(start, |items|);
    seq(count, i requires 0 <= i < count => items[(start + i) % |items|])
  }

  /** The rendering keys of the window's cards: `count` of them, each a valid position of the list. */
  function WindowKeys(start: nat, count: nat, n: nat): (keys: seq<int>)
    requires n > 0
    ensures |keys| == count
    ensures forall i :: 0 <= i < count ==> 0 <= keys[i] < n
  {
    seq(count, i requires 0 <= i < count => (start + i) % n)
  }

  /** Card `i` of the window shows the item whose position is key `i`. */
  lemma WindowMatchesKeys<T>(items: seq<T>, start: nat, count: nat)
    requires |items| > 0
    ensures |Window(items, start, count)| == |WindowKeys(start, count, |items|)| == count
    ensures forall i :: 0 <= i < count ==>
      0 <= WindowKeys(start, count, |items|)[i] < |items| &&
      Window(items, start, count)[i] == items[WindowKeys(start, count, |items|)[i]]
  {
  }

  /** Position `start + i` of the list, read circularly. */
  lemma CircularPosition(start: nat, i: nat, n: nat)
    requires start < n && i < n
    ensures (start + i) % n == if start + i < n then start + i else start + i - n
  {
    if start + i < n {
      ModSmall(start + i, n);
    } else {
      ModOnce(start + i, n);
    }
  }

  /**
   * While the window is no larger than the list, its keys are pairwise
   * distinct: no review is shown twice.
   */
  lemma WindowKeysDistinct(start: nat, count: nat, n: nat)
    requires start < n && count <= n
    ensures forall i, j :: 0 <= i < j < count ==>
      WindowKeys(start, count, n)[i] != WindowKeys(start, count, n)[j]
  {
    var keys := WindowKeys(start, count, n);
    forall i, j | 0 <= i < j < count
      ensures keys[i] != keys[j]
    {
      CircularPosition(start, i, n);
      CircularPosition(start, j, n);
    }
  }

  /**
   * While the window is no larger than the list, it is the first `count`
   * items of the list rotated to begin at `start`.
   */
  lemma WindowIsRotationPrefix<T>(items: seq<T>, start: nat, count: nat)
    requires start < |items| && count <= |items|
    ensures Window(items, start, count) == (items[start..] + items[..start])[..count]
  {
    var n := |items|;
    var rotated := items[start..] + items[..start];
    forall i | 0 <= i < count
      ensures Window(items, start, count)[i] == rotated[i]
    {
      CircularPosition(start, i, n);
    }
  }

  // ---------------------------------------------------------------------
  // Star rating
  // ---------------------------------------------------------------------

  /** One star icon, keyed by its position. */
  datatype Star = Star(key: nat)

  /** The star icons drawn for a rating: exactly `rating` of them, keyed 0, 1, 2, ... */
  function Stars(rating: nat): (stars: seq<Star>)
    ensures |stars| == rating
    ensures forall i :: 0 <= i < rating ==> stars[i].key == i
  {
    if rating == 0 then [] else Stars(rating - 1) + [Star(rating - 1)]
  }

  // ---------------------------------------------------------------------
  // The carousel component's state
  // ---------------------------------------------------------------------

  class Carousel {
    const testimonials: seq<Testimonial>
    var currentIndex: int
    /** The last step taken (`-1` or `+1`), `0` before the first click; it only picks the slide animation. */
    var direction: int
    var itemsPerPage: nat

    ghost predicate Valid()
      reads this
    {
      && testimonials == AllTestimonials()
      && 0 <= currentIndex < |testimonials|
      && 1 <= itemsPerPage <= 3
      && itemsPerPage <= |testimonials|
    }

    /** Mounting the component: first review, no direction yet, page size from the viewport. */
    constructor (width: Option<int>)
      ensures Valid()
      ensures testimonials == AllTestimonials()
      ensures currentIndex == 0 && direction == 0
      ensures itemsPerPage == ItemsPerPage(width)
    {
      testimonials := AllTestimonials();
      currentIndex, direction := 0, 0;
      itemsPerPage := ItemsPerPage(width);
    }

    /** An arrow click: move by `step` around the list and remember the step as the direction. */
    method Paginate(step: int)
      requires Valid()
      requires -|testimonials| <= step
      modifies this
      ensures Valid()
      ensures currentIndex == Paginated(old(currentIndex), step, |testimonials|)
      ensures direction == step
      ensures itemsPerPage == old(itemsPerPage)
    {
      currentIndex, direction := Paginated(currentIndex, step, |testimonials|), step;
    }

    /** A resize event: recompute the page size and nothing else. */
    method Resize(width: Option<int>)
      requires Valid()
      modifies this
      ensures Valid()
      ensures itemsPerPage == ItemsPerPage(width)
      ensures currentIndex == old(currentIndex) && direction == old(direction)
    {
      itemsPerPage := ItemsPerPage(width);
    }

    /**
     * The reviews on screen: `itemsPerPage` of them, card `i` showing the
     * review at position `(currentIndex + i) % n`, the first being the
     * current one, and no position shown twice.
     */
    function VisibleTestimonials(): (w: seq<Testimonial>)
      reads this
      requires Valid()
      ensures |w| == itemsPerPage
      ensures forall i :: 0 <= i < |w| ==> w[i] == testimonials[(currentIndex + i) % |testimonials|]
      ensures w[0] == testimonials[currentIndex]
      ensures w == (testimonials[currentIndex..] + testimonials[..currentIndex])[..itemsPerPage]
      ensures forall i, j :: 0 <= i < j < itemsPerPage ==>
        WindowKeys(currentIndex, itemsPerPage, |testimonials|)[i] != WindowKeys(currentIndex, itemsPerPage, |testimonials|)[j]
    {
      ModSmall(currentIndex, |testimonials|);
      WindowIsRotationPrefix(testimonials, currentIndex, itemsPerPage);
      WindowKeysDistinct(currentIndex, itemsPerPage, |testimonials|);
      Window(testimonials, currentIndex, itemsPerPage)
    }
  }
}
